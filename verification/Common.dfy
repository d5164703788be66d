/** What the models of the control plane share: optional records, runs of a state machine whose
    steps are single file operations of one process, and removal of duplicates. */
module Common {

  datatype Option<+T> = None | Some(value: T)

  /** A run: a nonempty sequence of states in which each state steps to the following one. */
  ghost predicate IsRun<S(!new)>(steps: (S, S) -> bool, run: seq<S>) {
    |run| > 0 && forall i :: 0 <= i < |run| - 1 ==> steps(run[i], run[i + 1])
  }

  /** Induction over a run: what every step keeps holds in every state. */
  lemma {:induction false} Invariance<S(!new)>(inv: S -> bool, steps: (S, S) -> bool, run: seq<S>, k: nat)
    requires IsRun(steps, run) && k < |run|
    requires inv(run[0])
    requires forall s, t :: inv(s) && steps(s, t) ==> inv(t)
    ensures inv(run[k])
  {
    if k > 0 {
      Invariance(inv, steps, run, k - 1);
      assert steps(run[k - 1], run[k - 1 + 1]);
    }
  }

  /** Induction between two states of a run: a reflexive and transitive relation that every
      step establishes relates every earlier state to every later one. */
  lemma {:induction false} Persistence<S(!new)>(
      inv: S -> bool, rel: (S, S) -> bool, steps: (S, S) -> bool, run: seq<S>, i: nat, k: nat)
    requires IsRun(steps, run) && i <= k < |run|
    requires inv(run[0])
    requires forall s, t :: inv(s) && steps(s, t) ==> inv(t) && rel(s, t)
    requires forall s :: inv(s) ==> rel(s, s)
    requires forall s, t, u :: rel(s, t) && rel(t, u) ==> rel(s, u)
    ensures inv(run[k]) && rel(run[i], run[k])
  {
    if i < k {
      Persistence(inv, rel, steps, run, i, k - 1);
      assert steps(run[k - 1], run[k - 1 + 1]);
    } else {
      Invariance(inv, steps, run, k);
    }
  }

  /** The state ends some run that starts as it should. */
  ghost predicate Reached<S(!new)>(init: S -> bool, steps: (S, S) -> bool, s: S) {
    exists run :: IsRun(steps, run) && init(run[0]) && run[|run| - 1] == s
  }

  lemma ReachedAtOnce<S(!new)>(init: S -> bool, steps: (S, S) -> bool, s: S)
    requires init(s)
    ensures Reached(init, steps, s)
  {
    assert IsRun(steps, [s]);
  }

  lemma ReachedNext<S(!new)>(init: S -> bool, steps: (S, S) -> bool, s: S, t: S)
    requires Reached(init, steps, s) && steps(s, t)
    ensures Reached(init, steps, t)
  {
    var run :| IsRun(steps, run) && init(run[0]) && run[|run| - 1] == s;
    var longer := run + [t];
    forall i | 0 <= i < |longer| - 1 ensures steps(longer[i], longer[i + 1]) {
      if i < |run| - 1 { assert steps(run[i], run[i + 1]); }
    }
    assert IsRun(steps, longer);
  }

  // ----- sequences without duplicates

  function Without<T(==)>(s: seq<T>, x: T): seq<T> {
    if s == [] then []
    else if s[0] == x then Without(s[1..], x)
    else [s[0]] + Without(s[1..], x)
  }

  /** A sequence with every later duplicate removed. */
  function Dedup<T(==)>(s: seq<T>): seq<T> {
    if s == [] then [] else [s[0]] + Without(Dedup(s[1..]), s[0])
  }

  lemma {:induction false} WithoutAppend<T>(s: seq<T>, x: T, y: T)
    ensures Without(s + [y], x) == Without(s, x) + if x == y then [] else [y]
  {
    if s != [] {
      assert (s + [y])[1..] == s[1..] + [y];
      WithoutAppend(s[1..], x, y);
    } else {
      assert s + [y] == [y];
    }
  }

  lemma {:induction false} DedupAppend<T>(s: seq<T>, y: T)
    ensures Dedup(s + [y]) == Dedup(s) + if y in s then [] else [y]
  {
    if s != [] {
      assert (s + [y])[1..] == s[1..] + [y];
      DedupAppend(s[1..], y);
      var rest := Dedup(s[1..]);
      WithoutAppend(rest, s[0], y);
      if y in s[1..] {
        assert Dedup(s[1..] + [y]) == rest;
      } else {
        assert Dedup(s[1..] + [y]) == rest + [y];
        assert y == s[0] ==> Without(rest + [y], s[0]) == Without(rest, s[0]);
        assert [s[0]] + (Without(rest, s[0]) + [y]) == Dedup(s) + [y];
      }
    } else {
      assert s + [y] == [y];
    }
  }

  lemma {:induction false} WithoutMembers<T(!new)>(s: seq<T>, x: T)
    ensures forall y :: y in Without(s, x) <==> y in s && y != x
  {
    if s != [] { WithoutMembers(s[1..], x); }
  }

  lemma {:induction false} DedupMembers<T(!new)>(s: seq<T>)
    ensures forall y :: y in Dedup(s) <==> y in s
  {
    if s != [] {
      DedupMembers(s[1..]);
      WithoutMembers(Dedup(s[1..]), s[0]);
    }
  }

  /** The first index of an element; the length when there is none. */
  function FirstAt<T(==)>(s: seq<T>, x: T): nat {
    if s == [] || s[0] == x then 0 else 1 + FirstAt(s[1..], x)
  }

  lemma {:induction false} FirstAtAppend<T>(s: seq<T>, y: T, x: T)
    ensures x in s ==> FirstAt(s + [y], x) == FirstAt(s, x) < |s|
    ensures x !in s ==> FirstAt(s + [y], x) == if x == y then |s| else |s| + 1
  {
    if s != [] {
      assert (s + [y])[1..] == s[1..] + [y];
      FirstAtAppend(s[1..], y, x);
    }
  }

  /** The elements of `t` stand in the order of their first mention in `s`. */
  predicate InOrder<T(==)>(s: seq<T>, t: seq<T>) {
    forall i, j :: 0 <= i < j < |t| ==> FirstAt(s, t[i]) < FirstAt(s, t[j])
  }

  lemma InOrderAppend<T(!new)>(s: seq<T>, y: T, t: seq<T>)
    requires InOrder(s, t) && forall x :: x in t ==> x in s
    ensures InOrder(s + [y], t) && (y !in s ==> InOrder(s + [y], t + [y]))
  {
    forall x | x in s ensures FirstAt(s + [y], x) == FirstAt(s, x) < |s| { FirstAtAppend(s, y, x); }
    FirstAtAppend(s, y, y);
    assert forall i :: 0 <= i < |t| ==> t[i] in t;
  }

  /** The elements without duplicates stand in the order of their first mention. */
  lemma {:induction false} DedupInOrder<T(!new)>(s: seq<T>)
    ensures InOrder(s, Dedup(s))
  {
    if s != [] {
      var n := |s| - 1;
      assert s == s[..n] + [s[n]];
      DedupInOrder(s[..n]);
      DedupAppend(s[..n], s[n]);
      DedupMembers(s[..n]);
      InOrderAppend(s[..n], s[n], Dedup(s[..n]));
    }
  }

  lemma {:induction false} DedupIdempotent<T(!new)>(s: seq<T>)
    ensures Dedup(Dedup(s)) == Dedup(s)
  {
    if s != [] {
      var n := |s| - 1;
      assert s == s[..n] + [s[n]];
      DedupIdempotent(s[..n]);
      DedupAppend(s[..n], s[n]);
      DedupMembers(s[..n]);
      if s[n] in s[..n] {
        assert Dedup(s) == Dedup(s[..n]);
      } else {
        DedupAppend(Dedup(s[..n]), s[n]);
      }
    }
  }

  /** Adding what is already there adds nothing. */
  lemma {:induction false} DedupAbsorbs<T>(s: seq<T>, b: seq<T>)
    requires forall x :: x in b ==> x in s
    ensures Dedup(s + b) == Dedup(s)
  {
    if b == [] {
      assert s + b == s;
    } else {
      var n := |b| - 1;
      assert s + b == (s + b[..n]) + [b[n]];
      DedupAbsorbs(s, b[..n]);
      DedupAppend(s + b[..n], b[n]);
    }
  }
}
