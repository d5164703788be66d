/** The self-measuring resume packet of src/reconstruction.js: a JSON text that prints its own
    UTF-8 length and its own number of characters, reached by iteration. Of the packet only the two
    measured fields are taken apart. */
module ResumePacket {
  import opened Common
  import opened JsonText

  /** The packet: everything before, between and after the two fields is fixed, and the fields hold
      the JSON text of their values. Object keys are sorted, so the byte field comes first. */
  class Packet {
    const before: string
    const between: string
    const after: string
    var bytes: string
    var characters: string

    constructor (before: string, between: string, after: string, bytes: string, characters: string)
      ensures this.before == before && this.between == between && this.after == after
      ensures this.bytes == bytes && this.characters == characters
    {
      this.before, this.between, this.after := before, between, after;
      this.bytes, this.characters := bytes, characters;
    }

    function CanonicalJson(): string
      reads this
    {
      Text(before, between, after, bytes, characters)
    }

    /** measurePacket: the first text that a pass leaves unchanged, with the fields that print it.
        `None` is the error "resume packet measurement did not converge". */
    method Measure() returns (result: Option<string>, ghost passes: nat)
      modifies this`bytes, this`characters
      ensures result.Some? ==> result.value == CanonicalJson() == old(TextAfter(before, between, after, bytes, characters, passes))
      ensures result.Some? ==> bytes == Decimal(Bytes(result.value)) && characters == Decimal(|result.value|)
      ensures result.Some? <==> exists k :: 1 <= k <= 12 && old(Repeats(before, between, after, bytes, characters, k))
      ensures result.Some? ==> 1 <= passes <= 12 && old(Repeats(before, between, after, bytes, characters, passes))
      ensures forall k :: 1 <= k < passes ==> !old(Repeats(before, between, after, bytes, characters, k))
      ensures Bytes(old(CanonicalJson())) < MAX_SAFE ==> result.Some? && passes <= 6
      ensures Bytes(old(CanonicalJson())) < MAX_SAFE && Safe(old(bytes)) && Safe(old(characters)) ==> passes <= 5
    {
      ghost var b, c := bytes, characters;
      hide Text, Decimal, Bytes, Safe;
      if Bytes(CanonicalJson()) < MAX_SAFE {
        Converges(before, between, after, bytes, characters);
        if Safe(bytes) && Safe(characters) { ConvergesSooner(before, between, after, bytes, characters); }
      }
      var prior := "";
      var iteration := 0;
      passes := 0;
      while iteration < 12
        invariant iteration == passes <= 12
        invariant CanonicalJson() == TextAfter(before, between, after, b, c, iteration)
        invariant if iteration == 0 then prior == "" else prior == CanonicalJson()
        invariant forall k :: 1 <= k <= iteration ==> !Repeats(before, between, after, b, c, k)
      {
        var serialized := CanonicalJson();
        bytes, characters := Decimal(Bytes(serialized)), Decimal(|serialized|);
        var next := CanonicalJson();
        passes := passes + 1;
        NotEmpty(before, between, after, Bytes(serialized), |serialized|);
        if next == prior || next == serialized {
          assert Repeats(before, between, after, b, c, passes);
          return Some(next), passes;
        }
        prior := next;
        iteration := iteration + 1;
      }
      return None, passes;
    }
  }

  /** The text after `k` passes: each prints the counts of the one before. */
  function TextAfter(before: string, between: string, after: string, bytes: string, characters: string, k: nat): string {
    if k == 0 then Text(before, between, after, bytes, characters)
    else
      var t := TextAfter(before, between, after, bytes, characters, k - 1);
      Text(before, between, after, Decimal(Bytes(t)), Decimal(|t|))
  }

  predicate Repeats(before: string, between: string, after: string, bytes: string, characters: string, k: nat)
    requires k >= 1
  {
    TextAfter(before, between, after, bytes, characters, k) == TextAfter(before, between, after, bytes, characters, k - 1)
  }

  function Text(before: string, between: string, after: string, bytes: string, characters: string): string {
    before + bytes + between + characters + after
  }

  /** The text of a safe nonnegative integer. */
  ghost predicate Safe(s: string) { exists n: nat :: n < MAX_SAFE && s == Decimal(n) }

  /** Bytes and characters of the fixed parts. */
  function Fixed(before: string, between: string, after: string): (nat, nat) {
    (Bytes(before) + Bytes(between) + Bytes(after), |before| + |between| + |after|)
  }

  /** Byte and character counts of the text after `k` passes, from those of the text at the start. */
  function Pass(m: nat, n: nat, b: nat, c: nat, k: nat): (nat, nat) {
    if k == 0 then (b, c)
    else
      var q := Pass(m, n, b, c, k - 1);
      var w := Digits(q.0) + Digits(q.1);
      (m + w, n + w)
  }

  // ----- sizes of texts

  lemma TextSize(before: string, between: string, after: string, bytes: string, characters: string)
    ensures var f := Fixed(before, between, after);
            && Bytes(Text(before, between, after, bytes, characters)) == f.0 + Bytes(bytes) + Bytes(characters)
            && |Text(before, between, after, bytes, characters)| == f.1 + |bytes| + |characters|
            && f.1 <= f.0
  {
    BytesAppend(before, bytes);
    BytesAppend(before + bytes, between);
    BytesAppend(before + bytes + between, characters);
    BytesAppend(before + bytes + between + characters, after);
    BytesBound(before);
    BytesBound(between);
    BytesBound(after);
  }

  lemma SafeSize(s: string)
    requires Safe(s)
    ensures 1 <= |s| <= 16 && Bytes(s) == |s|
  {
    var n: nat :| n < MAX_SAFE && s == Decimal(n);
    DecimalSize(n);
    SixteenDigits(n);
  }

  // ----- convergence

  /** The digits that a text of `w` digits beside the fixed parts asks for. */
  function Wants(m: nat, n: nat, w: nat): nat { Digits(m + w) + Digits(n + w) }

  lemma WantsMonotone(m: nat, n: nat, v: nat, w: nat)
    requires v <= w
    ensures Wants(m, n, v) <= Wants(m, n, w)
    ensures w <= v + 30 ==> Wants(m, n, w) <= Wants(m, n, v) + 2
  {
    DigitsMonotone(m + v, m + w);
    DigitsMonotone(n + v, n + w);
    if w <= v + 30 {
      DigitsSlow(m + v);
      DigitsSlow(n + v);
      DigitsMonotone(m + w, m + v + 30);
      DigitsMonotone(n + w, n + v + 30);
    }
  }

  lemma WantsBound(m: nat, n: nat, w: nat)
    requires n <= m && m + w < MAX_SAFE + 32
    ensures 2 <= Wants(m, n, w) <= 32
  {
    SixteenDigits(m + w);
    SixteenDigits(n + w);
  }

  /** A monotone iteration whose values lie in a window of three settles after two moves. */
  lemma ThreeMoves(m: nat, n: nat, w: nat)
    requires n <= m < MAX_SAFE && 2 <= w <= 32
    ensures var a := Wants(m, n, w); var b := Wants(m, n, a); var c := Wants(m, n, b); Wants(m, n, c) == c
  {
    var a := Wants(m, n, w);
    var b := Wants(m, n, a);
    var c := Wants(m, n, b);
    WantsBound(m, n, w);
    WantsBound(m, n, a);
    WantsBound(m, n, b);
    if a <= w {
      WantsMonotone(m, n, a, w);
      WantsMonotone(m, n, b, a);
      WantsMonotone(m, n, c, b);
      WantsMonotone(m, n, c, w);
    } else {
      WantsMonotone(m, n, w, a);
      WantsMonotone(m, n, a, b);
      WantsMonotone(m, n, b, c);
      WantsMonotone(m, n, w, c);
    }
  }

  function Iterate(m: nat, n: nat, w: nat, k: nat): nat {
    if k == 0 then w else Wants(m, n, Iterate(m, n, w, k - 1))
  }

  lemma {:induction false} PassIterates(m: nat, n: nat, b: nat, c: nat, k: nat)
    ensures var w := Iterate(m, n, Digits(b) + Digits(c), k); Pass(m, n, b, c, k + 1) == (m + w, n + w)
  {
    if k > 0 {
      PassIterates(m, n, b, c, k - 1);
    } else {
      assert Pass(m, n, b, c, 0) == (b, c);
    }
  }

  lemma IterateSettles(m: nat, n: nat, w: nat)
    requires n <= m < MAX_SAFE && 2 <= w <= 32
    ensures Iterate(m, n, w, 4) == Iterate(m, n, w, 3)
    ensures Iterate(m, n, Wants(m, n, w), 3) == Iterate(m, n, Wants(m, n, w), 2)
  {
    hide Wants;
    ThreeMoves(m, n, w);
    var v := Wants(m, n, w);
    assert Iterate(m, n, w, 0) == w && Iterate(m, n, v, 0) == v;
    assert Iterate(m, n, w, 1) == Wants(m, n, w) && Iterate(m, n, v, 1) == Wants(m, n, v);
    assert Iterate(m, n, w, 2) == Wants(m, n, v) && Iterate(m, n, v, 2) == Wants(m, n, Wants(m, n, v));
    assert Iterate(m, n, w, 3) == Wants(m, n, Wants(m, n, v));
  }

  /** From any text below 2^53 bytes, the counts stand still from the fifth pass on. */
  lemma Settles(m: nat, n: nat, b: nat, c: nat)
    requires n <= m <= b < MAX_SAFE && c <= b
    ensures Pass(m, n, b, c, 5) == Pass(m, n, b, c, 4)
  {
    hide Pass, Iterate, Digits;
    SixteenDigits(b);
    SixteenDigits(c);
    IterateSettles(m, n, Digits(b) + Digits(c));
    PassIterates(m, n, b, c, 4);
    PassIterates(m, n, b, c, 3);
  }

  /** From fields that hold `w` digits in all, from the fourth. */
  lemma SettlesSooner(m: nat, n: nat, w: nat)
    requires n <= m && m + w < MAX_SAFE && 2 <= w <= 32
    ensures Pass(m, n, m + w, n + w, 4) == Pass(m, n, m + w, n + w, 3)
  {
    hide Pass, Iterate;
    IterateSettles(m, n, w);
    PassIterates(m, n, m + w, n + w, 3);
    PassIterates(m, n, m + w, n + w, 2);
  }

  /** One pass on texts is one pass on counts. */
  lemma {:induction false} PassCounts(before: string, between: string, after: string, bytes: string, characters: string, k: nat)
    ensures var f := Fixed(before, between, after);
            var s := Text(before, between, after, bytes, characters);
            var t := TextAfter(before, between, after, bytes, characters, k);
            (Bytes(t), |t|) == Pass(f.0, f.1, Bytes(s), |s|, k)
  {
    hide Text, Fixed, Bytes, Decimal;
    if k > 0 {
      var t := TextAfter(before, between, after, bytes, characters, k - 1);
      PassCounts(before, between, after, bytes, characters, k - 1);
      TextSize(before, between, after, Decimal(Bytes(t)), Decimal(|t|));
      DecimalSize(Bytes(t));
      DecimalSize(|t|);
    }
  }

  lemma NotEmpty(before: string, between: string, after: string, b: nat, c: nat)
    ensures Text(before, between, after, Decimal(b), Decimal(c)) != ""
  {
    hide Text;
    TextSize(before, between, after, Decimal(b), Decimal(c));
    DecimalSize(b);
  }

  /** Texts with equal counts are followed by equal texts. */
  lemma EqualCounts(before: string, between: string, after: string, bytes: string, characters: string, k: nat)
    requires var f := Fixed(before, between, after);
             var t := Text(before, between, after, bytes, characters);
             Pass(f.0, f.1, Bytes(t), |t|, k + 1) == Pass(f.0, f.1, Bytes(t), |t|, k)
    ensures Repeats(before, between, after, bytes, characters, k + 2)
  {
    hide Text, Fixed, Bytes, Decimal, Pass;
    PassCounts(before, between, after, bytes, characters, k);
    PassCounts(before, between, after, bytes, characters, k + 1);
  }

  /** For every packet below 2^53 bytes and any starting fields, the sixth pass repeats the fifth text. */
  lemma Converges(before: string, between: string, after: string, bytes: string, characters: string)
    requires Bytes(Text(before, between, after, bytes, characters)) < MAX_SAFE
    ensures Repeats(before, between, after, bytes, characters, 6)
  {
    hide Text, Fixed, Bytes, Pass, Repeats;
    var f := Fixed(before, between, after);
    var t := Text(before, between, after, bytes, characters);
    TextSize(before, between, after, bytes, characters);
    BytesBound(t);
    Settles(f.0, f.1, Bytes(t), |t|);
    EqualCounts(before, between, after, bytes, characters, 4);
  }

  /** When the two fields start as safe integers, the fifth pass repeats the fourth text. */
  lemma ConvergesSooner(before: string, between: string, after: string, bytes: string, characters: string)
    requires Bytes(Text(before, between, after, bytes, characters)) < MAX_SAFE && Safe(bytes) && Safe(characters)
    ensures Repeats(before, between, after, bytes, characters, 5)
  {
    hide Text, Fixed, Bytes, Pass, Repeats, Safe;
    var f := Fixed(before, between, after);
    TextSize(before, between, after, bytes, characters);
    SafeSize(bytes);
    SafeSize(characters);
    SettlesSooner(f.0, f.1, |bytes| + |characters|);
    EqualCounts(before, between, after, bytes, characters, 3);
  }

  /** Five passes can be needed: from two zeros, with 96 bytes and 95 characters around them. */
  lemma FiveAreNeeded(before: string, between: string, after: string)
    requires Fixed(before, between, after) == (96, 95)
    ensures forall k :: 1 <= k <= 4 ==> !Repeats(before, between, after, "0", "0", k)
    ensures Repeats(before, between, after, "0", "0", 5)
  {
    hide Fixed, Pass;
    var s := Text(before, between, after, "0", "0");
    TextSize(before, between, after, "0", "0");
    assert Bytes("0") == 1 + Bytes("0"[1..]);
    hide Text, Bytes, Decimal, TextAfter;
    CountsFromZero();
    forall k | 0 <= k <= 4 ensures var t := TextAfter(before, between, after, "0", "0", k); (Bytes(t), |t|) == Pass(96, 95, 98, 97, k) {
      PassCounts(before, between, after, "0", "0", k);
    }
    EqualCounts(before, between, after, "0", "0", 3);
    OtherText(before, between, after);
    NextText(before, between, after, "0", "0", 3);
    NextText(before, between, after, "0", "0", 4);
  }

  lemma NextText(before: string, between: string, after: string, bytes: string, characters: string, k: nat)
    requires k > 0
    ensures var t := TextAfter(before, between, after, bytes, characters, k - 1);
            TextAfter(before, between, after, bytes, characters, k) == Text(before, between, after, Decimal(Bytes(t)), Decimal(|t|))
  {
    hide Text, Bytes, Decimal;
  }

  lemma OtherText(before: string, between: string, after: string)
    ensures Text(before, between, after, Decimal(101), Decimal(100)) != Text(before, between, after, Decimal(102), Decimal(101))
  {
    assert Decimal(10) == Decimal(1) + ['0'];
    assert Decimal(101) == Decimal(10) + ['1'] && Decimal(102) == Decimal(10) + ['2'];
    hide Decimal;
    var s := Text(before, between, after, Decimal(101), Decimal(100));
    var t := Text(before, between, after, Decimal(102), Decimal(101));
    assert s[|before| + 2] == '1' && t[|before| + 2] == '2';
  }

  lemma CountsFromZero()
    ensures Pass(96, 95, 98, 97, 0) == (98, 97) && Pass(96, 95, 98, 97, 1) == (100, 99)
    ensures Pass(96, 95, 98, 97, 2) == (101, 100) && Pass(96, 95, 98, 97, 3) == (102, 101)
    ensures Pass(96, 95, 98, 97, 4) == (102, 101)
  {
    assert Digits(10) == 2 && Digits(100) == 3 && Digits(101) == 3 && Digits(102) == 3;
  }

  /** From fields that are no safe integers six can be: a thousand characters in them, 94 bytes and 93 characters around. */
  lemma SixAreNeeded(before: string, between: string, after: string, bytes: string, characters: string)
    requires Fixed(before, between, after) == (94, 93)
    requires |bytes| + |characters| == 1000 == Bytes(bytes) + Bytes(characters)
    ensures forall k :: 1 <= k <= 5 ==> !Repeats(before, between, after, bytes, characters, k)
    ensures Repeats(before, between, after, bytes, characters, 6)
  {
    hide Fixed, Pass;
    var s := Text(before, between, after, bytes, characters);
    TextSize(before, between, after, bytes, characters);
    hide Text, Bytes, Decimal, TextAfter;
    CountsFromThousand();
    forall k | 0 <= k <= 5
      ensures var t := TextAfter(before, between, after, bytes, characters, k); (Bytes(t), |t|) == Pass(94, 93, 1094, 1093, k)
    {
      PassCounts(before, between, after, bytes, characters, k);
    }
    EqualCounts(before, between, after, bytes, characters, 4);
    AnotherText(before, between, after);
    NextText(before, between, after, bytes, characters, 4);
    NextText(before, between, after, bytes, characters, 5);
  }

  lemma AnotherText(before: string, between: string, after: string)
    ensures Text(before, between, after, Decimal(99), Decimal(98)) != Text(before, between, after, Decimal(98), Decimal(97))
  {
    assert Decimal(99) == Decimal(9) + ['9'] && Decimal(98) == Decimal(9) + ['8'];
    hide Decimal;
    var s := Text(before, between, after, Decimal(99), Decimal(98));
    var t := Text(before, between, after, Decimal(98), Decimal(97));
    assert s[|before| + |Decimal(9)|] == '9' && t[|before| + |Decimal(9)|] == '8';
  }

  lemma CountsFromThousand()
    ensures Pass(94, 93, 1094, 1093, 0) == (1094, 1093) && Pass(94, 93, 1094, 1093, 1) == (102, 101)
    ensures Pass(94, 93, 1094, 1093, 2) == (100, 99) && Pass(94, 93, 1094, 1093, 3) == (99, 98)
    ensures Pass(94, 93, 1094, 1093, 4) == (98, 97) && Pass(94, 93, 1094, 1093, 5) == (98, 97)
  {
    assert Digits(10) == 2 && Digits(1094) == 4 && Digits(1093) == 4;
    assert Digits(102) == 3 && Digits(101) == 3 && Digits(100) == 3 && Digits(99) == 2 && Digits(98) == 2;
  }
}
