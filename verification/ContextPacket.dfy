/** The self-measuring Context Firewall packet of src/runner.js: a packet that states its own
    serialized length in a field of sixteen digits, beside the sizes of the evidence it replaces. */
module ContextPacket {
  import opened JsonText

  /** A JSON value, as far as the measurement looks into it. A ratio is stated in millionths. */
  datatype Value = Null | Int(n: nat) | Ratio(millionths: nat) | Text(s: string) | Other(json: string)

  /** The keys that the measurement reads or writes, and all others. */
  datatype Key =
    | Compact | Retained | Suppressed | RetainedRatio | ReductionRatio | Self
    | Raw | Schema | ByteMeasurement | Field(name: string)

  type Packet = map<Key, Value>

  datatype Error = UnsupportedSchema | UnsupportedBasis | RawNotSafe | TooLong | Inconsistent | FieldsInconsistent | SizeMismatch

  datatype Result<+T> = Ok(value: T) | Err(error: Error)

  const SCHEMA := "opsle.durable-supervisor.context-firewall-packet/v2"
  const BASIS :=
    "{\"compact_bytes_basis\":\"canonical-json-utf8-with-derived-measurement-fields-null\"," +
    "\"schema\":\"opsle.durable-supervisor.context-firewall-byte-measurement/v1\"," +
    "\"serialized_packet_bytes_basis\":\"canonical-json-utf8-with-16-digit-fixed-width-self-field\"}"
  const WIDTH := 16

  const DERIVED: set<Key> := {Compact, Retained, Suppressed, RetainedRatio, ReductionRatio, Self}

  function Name(k: Key): string {
    match k
    case Compact => "compact_bytes"
    case Retained => "retained_bytes"
    case Suppressed => "suppressed_bytes"
    case RetainedRatio => "retained_ratio"
    case ReductionRatio => "reduction_ratio"
    case Self => "serialized_packet_bytes"
    case Raw => "raw_bytes"
    case Schema => "schema"
    case ByteMeasurement => "byte_measurement"
    case Field(name) => name
  }

  // ----- canonical JSON

  function Zeros(k: nat): string { if k == 0 then "" else "0" + Zeros(k - 1) }

  /** String(n).padStart(width, '0'). */
  function Pad(n: nat, width: nat): string {
    if |Decimal(n)| < width then Zeros(width - |Decimal(n)|) + Decimal(n) else Decimal(n)
  }

  function TrimZeros(s: string): string {
    if s != "" && s[|s| - 1] == '0' then TrimZeros(s[..|s| - 1]) else s
  }

  function Print(v: Value): string {
    match v
    case Null => "null"
    case Int(n) => Decimal(n)
    case Ratio(q) =>
      var fraction := TrimZeros(Pad(q % 1_000_000, 6));
      Decimal(q / 1_000_000) + if fraction == "" then "" else "." + fraction
    case Text(s) => "\"" + s + "\""
    case Other(json) => json
  }

  /** The members of an object, in the order of `keys`: every key that may occur, sorted. */
  function Members(keys: seq<Key>, p: Packet, first: bool): string {
    if keys == [] then ""
    else if keys[0] !in p then Members(keys[1..], p, first)
    else (if first then "\"" else ",\"") + Name(keys[0]) + "\":" + Print(p[keys[0]]) + Members(keys[1..], p, false)
  }

  function CanonicalJson(keys: seq<Key>, p: Packet): string { "{" + Members(keys, p, true) + "}\n" }

  function Size(keys: seq<Key>, p: Packet): nat { Bytes(CanonicalJson(keys, p)) }

  // ----- what a measured packet is, stated without saying how it is found

  predicate Measurable(p: Packet) {
    && Schema in p && p[Schema] == Text(SCHEMA)
    && ByteMeasurement in p && Print(p[ByteMeasurement]) == BASIS
    && Raw in p && p[Raw].Int? && p[Raw].n < MAX_SAFE
  }

  function Projection(p: Packet): Packet {
    p[Compact := Null][Retained := Null][Suppressed := Null][RetainedRatio := Null][ReductionRatio := Null][Self := Null]
  }

  /** n / d to the nearest integer, ties to even. */
  function RoundEven(n: nat, d: nat): nat
    requires d > 0
  {
    var q, r := n / d, n % d;
    if 2 * r < d || (2 * r == d && q % 2 == 0) then q else q + 1
  }

  const TWO_52 := 0x10_0000_0000_0000

  /** The double nearest to a quotient, as a significand of 53 bits and a power of two to divide or multiply it by. */
  datatype Double = Double(significand: nat, down: nat, up: nat)

  function Nearest(a: nat, b: nat, down: nat, up: nat): Double
    requires a > 0 && b > 0
    decreases if a < TWO_52 * b then 1 else 0, if a < TWO_52 * b then TWO_52 * b - a else a - TWO_52 * b
  {
    if a < TWO_52 * b then Nearest(2 * a, b, down + 1, up)
    else if a >= MAX_SAFE * b then Nearest(a, 2 * b, down, up + 1)
    else Double(RoundEven(a, b), down, up)
  }

  function Doubled(n: nat, k: nat): nat
    decreases k
  {
    if k == 0 then n else Doubled(2 * n, k - 1)
  }

  function Halved(n: nat, k: nat): nat
    decreases k
  {
    if k == 0 then n else Halved(n / 2, k - 1)
  }

  /** Number((a / b).toFixed(6)): of the double nearest to a / b, the nearest number of millionths, the larger one of two. */
  function Quotient(a: nat, b: nat): Value
    requires b > 0
  {
    if a == 0 then Ratio(0)
    else
      var q := Nearest(a, b, 0, 0);
      var millionths := Doubled(1_000_000 * q.significand, q.up);
      Ratio(if q.down == 0 then millionths else (Halved(millionths, q.down - 1) + 1) / 2)
  }

  /** Math.max(0, raw - compact). */
  function Excess(raw: nat, compact: nat): nat { if raw < compact then 0 else raw - compact }

  /** A packet that tells the truth about itself. */
  predicate Measured(keys: seq<Key>, p: Packet) {
    && Measurable(p) && DERIVED <= p.Keys
    && var raw := p[Raw].n;
       var compact := Size(keys, Projection(p));
       var suppressed := Excess(raw, compact);
    && p[Compact] == Int(compact) && p[Retained] == Int(compact) && p[Suppressed] == Int(suppressed)
    && p[RetainedRatio] == (if raw == 0 then Null else Quotient(compact, raw))
    && p[ReductionRatio] == (if raw == 0 then Null else Quotient(suppressed, raw))
    && Size(keys, p) < MAX_SAFE && p[Self] == Text(Pad(Size(keys, p), WIDTH))
  }

  /** Equal outside the derived fields. */
  predicate SameEvidence(p: Packet, q: Packet) { p - DERIVED == q - DERIVED }

  // ----- the operations

  /** measureContextPacket: the packet with the same evidence that is measured, if there is one. */
  method MeasureContextPacket(keys: seq<Key>, packet: Packet) returns (r: Result<Packet>)
    ensures r.Ok? ==> SameEvidence(packet, r.value) && Measured(keys, r.value)
    ensures r.Err? ==> forall q :: SameEvidence(packet, q) ==> !Measured(keys, q)
    ensures r.Err? && Measurable(packet) ==> r.error == TooLong
  {
    if !(Schema in packet && packet[Schema] == Text(SCHEMA)) {
      NotMeasurable(packet);
      return Err(UnsupportedSchema);
    }
    if !(ByteMeasurement in packet && Print(packet[ByteMeasurement]) == BASIS) {
      NotMeasurable(packet);
      return Err(UnsupportedBasis);
    }
    if !(Raw in packet && packet[Raw].Int? && packet[Raw].n < MAX_SAFE) {
      NotMeasurable(packet);
      return Err(RawNotSafe);
    }
    var measured := packet;
    var raw := packet[Raw].n;
    var compactBytes := Size(keys, Projection(measured));
    var suppressedBytes := Excess(raw, compactBytes);
    measured := measured[Compact := Int(compactBytes)];
    measured := measured[Retained := Int(compactBytes)];
    measured := measured[Suppressed := Int(suppressedBytes)];
    measured := measured[RetainedRatio := if raw == 0 then Null else Quotient(compactBytes, raw)];
    measured := measured[ReductionRatio := if raw == 0 then Null else Quotient(suppressedBytes, raw)];
    measured := measured[Self := Text(Zeros(WIDTH))];
    var serializedBytes := Size(keys, measured);
    ghost var template := measured;
    assert template == Template(keys, packet);
    if serializedBytes >= MAX_SAFE || |Decimal(serializedBytes)| > WIDTH {
      TemplateTooLong(keys, packet);
      return Err(TooLong);
    }
    measured := measured[Self := Text(Pad(serializedBytes, WIDTH))];
    TemplateMeasured(keys, packet);
    if Size(keys, measured) != serializedBytes {
      assert false;
      return Err(Inconsistent);
    }
    return Ok(measured);
  }

  /** validateContextPacketMeasurement. Canonical JSON is injective, so packets are compared as values. */
  method ValidateMeasurement(keys: seq<Key>, packet: Packet, serializedBytes: nat) returns (r: Result<bool>)
    ensures r.Ok? <==> Measured(keys, packet) && serializedBytes == Size(keys, packet)
    ensures r.Ok? ==> r.value
  {
    var expected := MeasureContextPacket(keys, packet);
    if expected.Err? {
      return Err(expected.error);
    }
    if expected.value != packet {
      if Measured(keys, packet) { MeasuredUnique(keys, packet, expected.value); }
      return Err(FieldsInconsistent);
    }
    PadSize(Size(keys, packet));
    if Number(packet[Self].s) != serializedBytes {
      return Err(SizeMismatch);
    }
    return Ok(true);
  }

  predicate AllDigits(s: string) { forall i :: 0 <= i < |s| ==> '0' <= s[i] <= '9' }

  /** Number(text) for a text of digits. */
  function Number(s: string): nat
    requires AllDigits(s)
  {
    if s == "" then 0 else 10 * Number(s[..|s| - 1]) + (s[|s| - 1] as int - '0' as int)
  }

  // ----- texts of digits

  lemma {:induction false} ZerosSize(k: nat)
    ensures |Zeros(k)| == Bytes(Zeros(k)) == k && forall i :: 0 <= i < k ==> Zeros(k)[i] == '0'
  {
    if k > 0 {
      ZerosSize(k - 1);
      assert Zeros(k)[1..] == Zeros(k - 1);
    }
  }

  lemma {:induction false} DecimalDigits(n: nat)
    ensures AllDigits(Decimal(n))
  {
    if n >= 10 { DecimalDigits(n / 10); }
  }

  lemma {:induction false} NumberDecimal(z: string, n: nat)
    requires forall i :: 0 <= i < |z| ==> z[i] == '0'
    requires AllDigits(z + Decimal(n))
    ensures Number(z + Decimal(n)) == n
  {
    var t := z + Decimal(n);
    if n < 10 {
      assert t[..|t| - 1] == z;
      NumberZeros(z);
    } else {
      assert t[..|t| - 1] == z + Decimal(n / 10);
      NumberDecimal(z, n / 10);
    }
  }

  lemma {:induction false} NumberZeros(z: string)
    requires forall i :: 0 <= i < |z| ==> z[i] == '0'
    ensures Number(z) == 0
  {
    if z != "" { NumberZeros(z[..|z| - 1]); }
  }

  lemma {:induction false} Trimmed(s: string)
    ensures |TrimZeros(s)| <= |s| && s == TrimZeros(s) + Zeros(|s| - |TrimZeros(s)|)
    ensures TrimZeros(s) != "" ==> TrimZeros(s)[|TrimZeros(s)| - 1] != '0'
  {
    if s != "" && s[|s| - 1] == '0' {
      var n := |s| - 1;
      Trimmed(s[..n]);
      var k := n - |TrimZeros(s[..n])|;
      ZerosSize(k);
      ZerosSize(k + 1);
      assert Zeros(k) + "0" == Zeros(k + 1);
      assert s == s[..n] + "0" == TrimZeros(s) + (Zeros(k) + "0");
    } else {
      assert s == s + Zeros(0);
    }
  }

  /** At most six digits that do not end with a zero and, filled up to six, read as the number. */
  predicate Millionths(fraction: string, n: nat) {
    && 0 < |fraction| <= 6 && fraction[|fraction| - 1] != '0'
    && var digits := fraction + Zeros(6 - |fraction|); AllDigits(digits) && Number(digits) == n
  }

  lemma FractionDigits(n: nat)
    requires n < 1_000_000
    ensures var fraction := TrimZeros(Pad(n, 6)); if n == 0 then fraction == "" else Millionths(fraction, n)
  {
    var digits := Pad(n, 6);
    SixDigits(n);
    hide Pad, Number;
    Trimmed(digits);
    if n == 0 { ZeroTrimmed(); }
    else if TrimZeros(digits) == "" { NothingLeft(digits); }
  }

  lemma NothingLeft(digits: string)
    requires TrimZeros(digits) == "" && AllDigits(digits)
    ensures Number(digits) == 0
  {
    Trimmed(digits);
    ZerosSize(|digits|);
    assert digits == Zeros(|digits|);
    NumberZeros(digits);
  }

  lemma ZeroTrimmed()
    ensures TrimZeros(Pad(0, 6)) == ""
  {
    DecimalSize(0);
    ZerosSize(5);
    AllTrimmed(Pad(0, 6));
  }

  /** A ratio is printed as a JavaScript number is: the whole part, and, unless it is whole, a point and its millionths. */
  lemma RatioPrinted(q: nat)
    ensures var text, whole := Print(Ratio(q)), Decimal(q / 1_000_000);
            if q % 1_000_000 == 0 then text == whole
            else exists fraction :: Millionths(fraction, q % 1_000_000) && text == whole + "." + fraction
  {
    FractionDigits(q % 1_000_000);
    var fraction := TrimZeros(Pad(q % 1_000_000, 6));
    hide Decimal, Pad, TrimZeros, Millionths;
    assert Decimal(q / 1_000_000) + "" == Decimal(q / 1_000_000);
    assert Decimal(q / 1_000_000) + ("." + fraction) == Decimal(q / 1_000_000) + "." + fraction;
  }

  lemma SixDigits(n: nat)
    requires n < 1_000_000
    ensures |Pad(n, 6)| == 6 && AllDigits(Pad(n, 6)) && Number(Pad(n, 6)) == n
  {
    assert Power(4) == 10000 && Power(6) == 1_000_000;
    DigitsBound(n, 6);
    DecimalSize(n);
    DecimalDigits(n);
    var z := Zeros(6 - |Decimal(n)|);
    ZerosSize(6 - |Decimal(n)|);
    assert Pad(n, 6) == z + Decimal(n);
    NumberDecimal(z, n);
  }

  lemma {:induction false} AllTrimmed(s: string)
    requires forall i :: 0 <= i < |s| ==> s[i] == '0'
    ensures TrimZeros(s) == ""
  {
    if s != "" { AllTrimmed(s[..|s| - 1]); }
  }

  /** A padded safe integer is sixteen digits, and reads back as itself. */
  lemma PadSize(n: nat)
    requires n < MAX_SAFE
    ensures |Pad(n, WIDTH)| == Bytes(Pad(n, WIDTH)) == WIDTH && |Decimal(n)| <= WIDTH
    ensures AllDigits(Pad(n, WIDTH)) && Number(Pad(n, WIDTH)) == n
  {
    SixteenDigits(n);
    DecimalSize(n);
    DecimalDigits(n);
    var z := Zeros(WIDTH - |Decimal(n)|);
    ZerosSize(|z|);
    ZerosSize(WIDTH - |Decimal(n)|);
    assert Pad(n, WIDTH) == z + Decimal(n);
    BytesAppend(z, Decimal(n));
    NumberDecimal(z, n);
  }

  // ----- the size of a packet depends only on the printed sizes of its fields

  lemma {:induction false} MembersSize(keys: seq<Key>, p: Packet, q: Packet, first: bool)
    requires p.Keys == q.Keys && forall k :: k in p ==> Bytes(Print(p[k])) == Bytes(Print(q[k]))
    ensures Bytes(Members(keys, p, first)) == Bytes(Members(keys, q, first))
  {
    hide Bytes, Print;
    if keys != [] {
      if keys[0] !in p {
        MembersSize(keys[1..], p, q, first);
      } else {
        MembersSize(keys[1..], p, q, false);
        var lead := (if first then "\"" else ",\"") + Name(keys[0]) + "\":";
        var rest, other := Members(keys[1..], p, false), Members(keys[1..], q, false);
        BytesAppend(lead + Print(p[keys[0]]), rest);
        BytesAppend(lead, Print(p[keys[0]]));
        BytesAppend(lead + Print(q[keys[0]]), other);
        BytesAppend(lead, Print(q[keys[0]]));
      }
    }
  }

  lemma SameSize(keys: seq<Key>, p: Packet, q: Packet)
    requires p.Keys == q.Keys && forall k :: k in p ==> Bytes(Print(p[k])) == Bytes(Print(q[k]))
    ensures Size(keys, p) == Size(keys, q)
  {
    hide Bytes, Print, Members;
    MembersSize(keys, p, q, true);
    BytesAppend("{" + Members(keys, p, true), "}\n");
    BytesAppend("{", Members(keys, p, true));
    BytesAppend("{" + Members(keys, q, true), "}\n");
    BytesAppend("{", Members(keys, q, true));
  }

  // ----- the fixed point exists exactly when its size is safe, and is unique

  /** The packet with every derived field in place but a blank self field. */
  function Template(keys: seq<Key>, p: Packet): Packet
    requires Measurable(p)
  {
    var raw := p[Raw].n;
    var compact := Size(keys, Projection(p));
    var suppressed := Excess(raw, compact);
    p[Compact := Int(compact)][Retained := Int(compact)][Suppressed := Int(suppressed)]
     [RetainedRatio := if raw == 0 then Null else Quotient(compact, raw)]
     [ReductionRatio := if raw == 0 then Null else Quotient(suppressed, raw)]
     [Self := Text(Zeros(WIDTH))]
  }

  lemma EvidenceFacts(p: Packet, q: Packet)
    requires SameEvidence(p, q)
    ensures Measurable(p) <==> Measurable(q)
    ensures Measurable(p) ==> p[Raw] == q[Raw]
    ensures Projection(p) == Projection(q)
  {
    hide Print;
    Outside(p, q);
  }

  lemma Outside(p: Packet, q: Packet)
    requires SameEvidence(p, q)
    ensures forall k :: k !in DERIVED ==> (k in p <==> k in q) && (k in p ==> p[k] == q[k])
  {
    assert forall k :: k !in DERIVED ==> (k in p <==> k in p - DERIVED) && (k in q <==> k in q - DERIVED);
    assert forall k :: k !in DERIVED && k in p ==> p[k] == (p - DERIVED)[k] == q[k];
  }

  lemma NotMeasurable(p: Packet)
    requires !Measurable(p)
    ensures forall keys, q :: SameEvidence(p, q) ==> !Measured(keys, q)
  {
    hide Measurable, SameEvidence;
    forall keys: seq<Key>, q | SameEvidence(p, q) ensures !Measured(keys, q) { EvidenceFacts(p, q); }
  }

  /** Every measured packet is the template of its evidence with the self field filled in. */
  lemma MeasuredIsTemplate(keys: seq<Key>, p: Packet, q: Packet)
    requires Measurable(p) && SameEvidence(p, q) && Measured(keys, q)
    ensures q == Template(keys, p)[Self := Text(Pad(Size(keys, Template(keys, p)), WIDTH))]
    ensures Size(keys, Template(keys, p)) < MAX_SAFE
  {
    hide Size, Pad, Quotient, Zeros, Measurable;
    EvidenceFacts(p, q);
    Outside(p, q);
    var t := Template(keys, p);
    assert q[Self := Text(Zeros(WIDTH))].Keys == t.Keys;
    assert q[Self := Text(Zeros(WIDTH))] == t;
    SelfSize(keys, t, Size(keys, q));
    assert q == t[Self := Text(Pad(Size(keys, q), WIDTH))];
  }

  /** Filling in the self field does not change the size. */
  lemma SelfSize(keys: seq<Key>, t: Packet, n: nat)
    requires Self in t && t[Self] == Text(Zeros(WIDTH)) && n < MAX_SAFE
    ensures Size(keys, t[Self := Text(Pad(n, WIDTH))]) == Size(keys, t)
  {
    var z, d := Zeros(WIDTH), Pad(n, WIDTH);
    PadSize(n);
    ZerosSize(WIDTH);
    hide Bytes, Size, Pad;
    BytesAppend("\"" + z, "\"");
    BytesAppend("\"", z);
    BytesAppend("\"" + d, "\"");
    BytesAppend("\"", d);
    SameSize(keys, t, t[Self := Text(d)]);
  }

  /** Nothing is lost: the compact and the suppressed bytes make up the larger of raw and compact. */
  lemma Conservation(keys: seq<Key>, p: Packet)
    requires Measured(keys, p)
    ensures p[Compact].n + p[Suppressed].n == if p[Raw].n < p[Compact].n then p[Compact].n else p[Raw].n
  {
    hide Size, Pad, Quotient, Print;
  }

  /** The self field is sixteen digits that read as the exact length of the packet's text. */
  lemma SelfField(keys: seq<Key>, p: Packet)
    requires Measured(keys, p)
    ensures p[Self].Text? && |p[Self].s| == WIDTH && AllDigits(p[Self].s) && Number(p[Self].s) == Size(keys, p)
  {
    PadSize(Size(keys, p));
  }

  lemma MeasuredUnique(keys: seq<Key>, p: Packet, q: Packet)
    requires SameEvidence(p, q) && Measured(keys, p) && Measured(keys, q)
    ensures p == q
  {
    MeasuredIsTemplate(keys, p, p);
    MeasuredIsTemplate(keys, p, q);
  }

  lemma TemplateTooLong(keys: seq<Key>, p: Packet)
    requires Measurable(p)
    requires var n := Size(keys, Template(keys, p)); n >= MAX_SAFE || |Decimal(n)| > WIDTH
    ensures forall q :: SameEvidence(p, q) ==> !Measured(keys, q)
  {
    hide SameEvidence, Measured, Size, Template;
    forall q | SameEvidence(p, q) ensures !Measured(keys, q) {
      if Measured(keys, q) {
        MeasuredIsTemplate(keys, p, q);
        PadSize(Size(keys, Template(keys, p)));
      }
    }
  }

  lemma TemplateMeasured(keys: seq<Key>, p: Packet)
    requires Measurable(p) && Size(keys, Template(keys, p)) < MAX_SAFE
    ensures var q := Template(keys, p)[Self := Text(Pad(Size(keys, Template(keys, p)), WIDTH))];
            SameEvidence(p, q) && Measured(keys, q) && Size(keys, q) == Size(keys, Template(keys, p))
  {
    hide Size, Pad, Quotient, Zeros;
    var t := Template(keys, p);
    var q := t[Self := Text(Pad(Size(keys, t), WIDTH))];
    SelfSize(keys, t, Size(keys, t));
    assert p - DERIVED == q - DERIVED;
    EvidenceFacts(p, q);
  }

  /** A packet can be measured exactly when it names the supported schemas, has a safe raw size,
      and its own text stays below 2^53 bytes. */
  lemma MeasuredExists(keys: seq<Key>, p: Packet)
    ensures (exists q :: SameEvidence(p, q) && Measured(keys, q)) <==>
              (Measurable(p) && Size(keys, Template(keys, p)) < MAX_SAFE)
  {
    hide SameEvidence, Measured, Size, Template, Measurable;
    if Measurable(p) {
      if Size(keys, Template(keys, p)) < MAX_SAFE { TemplateMeasured(keys, p); }
      if q :| SameEvidence(p, q) && Measured(keys, q) { MeasuredIsTemplate(keys, p, q); }
    } else {
      NotMeasurable(p);
    }
  }

  // ----- how far a ratio may be off

  predicate Within(x: int, bound: int) { -bound <= x <= bound }

  lemma Mul(x: int, y: int, z: int)
    ensures (x * y) * z == x * (y * z) && x * y == y * x
    ensures 0 <= z && x <= y ==> x * z <= y * z
    ensures 0 < z && x < y ==> x * z < y * z
  {
  }

  lemma {:induction false} DoubledTimes(n: nat, k: nat)
    ensures Doubled(n, k) == n * Doubled(1, k) && Doubled(1, k) > 0
    decreases k
  {
    if k > 0 {
      DoubledTimes(2 * n, k - 1);
      DoubledTimes(2, k - 1);
      Mul(n, 2, Doubled(1, k - 1));
    }
  }

  /** A quotient below 2^53 is only ever scaled up, to 2^52 at least. */
  lemma {:induction false} NearestDown(a: nat, b: nat, down: nat)
    requires 0 < a < MAX_SAFE * b && b > 0
    ensures var d := Nearest(a, b, down, 0);
            && d.up == 0 && d.down >= down && Doubled(a, d.down - down) >= TWO_52 * b
            && d.significand == RoundEven(Doubled(a, d.down - down), b)
    decreases if a < TWO_52 * b then TWO_52 * b - a else 0
  {
    hide RoundEven;
    if a < TWO_52 * b { NearestDown(2 * a, b, down + 1); }
  }

  lemma {:induction false} HalvedNear(n: nat, k: nat)
    ensures Halved(n, k) * Doubled(1, k) <= n < (Halved(n, k) + 1) * Doubled(1, k)
    decreases k
  {
    if k > 0 {
      HalvedNear(n / 2, k - 1);
      DoubledTimes(2, k - 1);
      var h, p := Halved(n, k), Doubled(1, k - 1);
      assert h == Halved(n / 2, k - 1) && Doubled(1, k) == 2 * p;
      Twice(h, p);
      Twice(h + 1, p);
      hide Halved, Doubled;
    }
  }

  lemma Twice(x: int, p: int)
    ensures x * (2 * p) == 2 * (x * p)
  {
  }

  lemma RoundsNear(n: nat, d: nat)
    requires d > 0
    ensures Within(2 * (RoundEven(n, d) * d) - 2 * n, d)
  {
    var q := n / d;
    assert n == q * d + n % d;
    assert (q + 1) * d == q * d + d;
  }

  lemma HalfUp(h: nat, p: nat, n: nat)
    requires h * p <= n < (h + 1) * p
    ensures Within(2 * (((h + 1) / 2) * (2 * p)) - 2 * n, 2 * p)
  {
    var q := (h + 1) / 2;
    Twice(q, p);
    Mul(2, q, p);
    OneMore(h, p);
    if h % 2 == 0 { assert h == 2 * q; } else { assert h + 1 == 2 * q; }
  }

  lemma OneMore(x: int, p: int)
    ensures (x + 1) * p == x * p + p
  {
  }

  /** The nearest number of wholes in n / 2^k. */
  lemma WholesNear(n: nat, k: nat)
    ensures var q := if k == 0 then n else (Halved(n, k - 1) + 1) / 2;
            Within(2 * (q * Doubled(1, k)) - 2 * n, Doubled(1, k))
  {
    if k > 0 {
      HalvedNear(n, k - 1);
      DoubledTimes(2, k - 1);
      var h, p := Halved(n, k - 1), Doubled(1, k - 1);
      assert Doubled(1, k) == 2 * p;
      hide Halved, Doubled;
      HalfUp(h, p, n);
    }
  }

  lemma RaiseMillion(a: nat, b: nat, up: nat)
    requires b > 0 && a <= 0x1_0000_0000 * b && a * up >= TWO_52 * b
    ensures up >= 1_000_000
  {
    if up < 1_000_000 {
      Mul(up, 999_999, a);
    }
  }

  /** The two roundings together. */
  lemma Combine(a: nat, b: nat, up: nat, m: nat, q: nat)
    requires up >= 1_000_000 && b > 0
    requires Within(2 * (m * b) - 2 * (a * up), b) && Within(2 * (q * up) - 2_000_000 * m, up)
    ensures Within(q * b - 1_000_000 * a, b)
  {
    var x, f := q * b - 1_000_000 * a, 2 * (q * up) - 2_000_000 * m;
    Expand(a, b, up, m, q);
    WithinTimes(f, up, b);
    Mul(1_000_000, up, b);
    Halves(x * up, b * up, f * b, 2 * (m * b) - 2 * (a * up), b);
    WithinQuotient(x, b, up);
  }

  lemma Halves(xu: int, bu: int, fb: int, e: int, b: nat)
    requires 2 * xu == fb + 1_000_000 * e && Within(fb, bu) && Within(e, b) && 1_000_000 * b <= bu
    ensures Within(xu, bu)
  {
  }

  lemma WithinTimes(f: int, up: int, b: int)
    requires Within(f, up) && 0 <= b
    ensures Within(f * b, b * up)
  {
    Mul(f, up, b);
    Mul(-up, f, b);
    Mul(up, b, 1);
    assert (-up) * b == -(up * b);
  }

  lemma WithinQuotient(x: int, b: int, up: int)
    requires up > 0 && Within(x * up, b * up)
    ensures Within(x, b)
  {
    Mul(b, x, up);
    Mul(x, -b, up);
    assert (-b) * up == -(b * up);
  }

  lemma Expand(a: nat, b: nat, up: nat, m: nat, q: nat)
    ensures 2 * ((q * b - 1_000_000 * a) * up) ==
              (2 * (q * up) - 2_000_000 * m) * b + 1_000_000 * (2 * (m * b) - 2 * (a * up))
  {
    var qb, qu, mb, au := q * b, q * up, m * b, a * up;
    Mul(q, b, up);
    Mul(q, up, b);
    assert (qb - 1_000_000 * a) * up == qb * up - 1_000_000 * au;
    assert (2 * qu - 2_000_000 * m) * b == 2 * (qu * b) - 2_000_000 * mb;
  }

  /** A stated ratio is within a millionth of the true quotient, up to quotients of 2^32. */
  lemma RatioWithinAMillionth(a: nat, b: nat)
    requires b > 0 && a <= 0x1_0000_0000 * b
    ensures Quotient(a, b).Ratio? && Within(Quotient(a, b).millionths * b - 1_000_000 * a, b)
  {
    if a > 0 {
      NearestDown(a, b, 0);
      var d := Nearest(a, b, 0, 0);
      var up := Doubled(1, d.down);
      DoubledTimes(a, d.down);
      RaiseMillion(a, b, up);
      RoundsNear(a * up, b);
      WholesNear(1_000_000 * d.significand, d.down);
      var q := if d.down == 0 then 1_000_000 * d.significand else (Halved(1_000_000 * d.significand, d.down - 1) + 1) / 2;
      assert Quotient(a, b) == Ratio(q) by { assert Doubled(1_000_000 * d.significand, 0) == 1_000_000 * d.significand; }
      hide Nearest, RoundEven, Halved, Doubled;
      Combine(a, b, up, d.significand, q);
    }
  }
}
