/** The cleanup of a resume transport in src/codex-resume-transport.js, against a process table that
    may do anything between two looks at it, and the validator of its evidence in src/wakeup.js. */
module Cleanup {
  import opened Common

  const MAX_SAFE_INTEGER := 0x1F_FFFF_FFFF_FFFF

  predicate PositiveGroup(g: int) { 0 < g <= MAX_SAFE_INTEGER }

  datatype Row = Row(pid: int, ticks: string, pgrp: int)

  datatype HostIdentity = HostIdentity(pid: int, ticks: string, executable: string)

  datatype Host = Host(identity: HostIdentity, pgrp: int)

  datatype Signal = SigTerm | SigKill

  /** A signal is sent, finds no such process, or fails. */
  datatype Outcome = Sent | Gone | Failed

  /** One look at the process table, or one signal; a scan that throws has no result. `Remnants` is the one
      exact scan for frontends at the end, which takes up nothing. */
  datatype Observation =
    | Frontends(rows: Option<seq<Row>>)
    | Remnants(rows: Option<seq<Row>>)
    | Group(group: int, members: Option<seq<int>>)
    | ExitSeen(exited: bool)
    | HostSeen(host: Option<Host>)
    | Signalled(target: int, signal: Signal, outcome: Outcome)

  datatype Count = Count(group: int, members: int)

  datatype Evidence = Evidence(
    processGroup: int,
    launcherExit: bool,
    frontendExit: bool,
    tracked: seq<int>,
    frontends: seq<int>,
    signaled: seq<int>,
    counts: seq<Count>,
    count: int,
    duplicates: nat,
    invalid: nat,
    blocked: seq<int>,
    hostGroup: Option<int>,
    hostSignaled: bool,
    hostContinuity: bool,
    proven: bool)

  // ----- the validator

  predicate PositiveSorted(s: seq<int>, allowEmpty: bool) {
    && (allowEmpty || s != [])
    && (forall i :: 0 <= i < |s| ==> PositiveGroup(s[i]))
    && (forall i :: 0 < i < |s| ==> s[i - 1] < s[i])
  }

  /** transportCleanupEvidenceComplete. */
  predicate EvidenceComplete(e: Evidence) {
    && e.proven && e.launcherExit && e.frontendExit
    && PositiveGroup(e.processGroup)
    && PositiveSorted(e.tracked, false) && e.processGroup in e.tracked
    && PositiveSorted(e.frontends, true) && (forall g :: g in e.frontends ==> g in e.tracked)
    && PositiveSorted(e.signaled, true) && (forall g :: g in e.signaled ==> g in e.tracked)
    && |e.counts| == |e.tracked|
    && (forall i :: 0 <= i < |e.counts| ==> e.counts[i] == Count(e.tracked[i], 0))
    && e.count == 0 && e.duplicates == 0 && e.invalid == 0 && e.blocked == []
    && e.hostGroup.Some? && PositiveGroup(e.hostGroup.value) && e.hostGroup.value !in e.tracked
    && !e.hostSignaled && e.hostContinuity
  }

  // ----- sorted groups

  predicate Increasing(s: seq<int>) { forall i, j :: 0 <= i < j < |s| ==> s[i] < s[j] }

  ghost predicate Lists(s: seq<int>, g: set<int>) { Increasing(s) && (forall x :: x in s <==> x in g) }

  lemma {:induction false} SortedIncreasing(s: seq<int>)
    requires forall i :: 0 < i < |s| ==> s[i - 1] < s[i]
    ensures Increasing(s)
  {
    if |s| > 1 {
      var n := |s| - 1;
      SortedIncreasing(s[..n]);
      forall i | 0 <= i < n ensures s[i] < s[n] { assert s[..n][i] <= s[..n][n - 1]; }
      assert forall i :: 0 <= i < n ==> s[..n][i] == s[i];
    }
  }

  function NoMembers(groups: seq<int>): seq<Count> { seq(|groups|, i requires 0 <= i < |groups| => Count(groups[i], 0)) }

  /** Proven evidence with every flag set and nothing counted, left, invalid or blocked, of increasing positive groups;
      those of the launcher, of the frontends and of the signals are tracked, and that of the host is not. */
  ghost predicate Spotless(e: Evidence) {
    && e.hostGroup.Some?
    && e == Evidence(e.processGroup, true, true, e.tracked, e.frontends, e.signaled, NoMembers(e.tracked),
                     0, 0, 0, [], e.hostGroup, false, true, true)
    && Increasing(e.tracked) && Increasing(e.frontends) && Increasing(e.signaled)
    && (forall g :: g in e.tracked ==> 0 < g <= MAX_SAFE_INTEGER)
    && (forall g :: g in e.frontends || g in e.signaled || g == e.processGroup ==> g in e.tracked)
    && 0 < e.hostGroup.value <= MAX_SAFE_INTEGER && e.hostGroup.value !in e.tracked
  }

  /** The validator accepts exactly such evidence. */
  lemma CompleteExactly(e: Evidence)
    ensures EvidenceComplete(e) <==> Spotless(e)
  {
    if EvidenceComplete(e) {
      SortedIncreasing(e.tracked);
      SortedIncreasing(e.frontends);
      SortedIncreasing(e.signaled);
      assert e.counts == NoMembers(e.tracked);
    }
    if Spotless(e) {
      assert e.processGroup in e.tracked;
      ProperSorted(e.tracked, e.tracked, false);
      ProperSorted(e.frontends, e.tracked, true);
      ProperSorted(e.signaled, e.tracked, true);
    }
  }

  lemma ProperSorted(s: seq<int>, all: seq<int>, allowEmpty: bool)
    requires Increasing(s) && (allowEmpty || s != []) && forall g :: g in s ==> g in all
    requires forall g :: g in all ==> 0 < g <= MAX_SAFE_INTEGER
    ensures PositiveSorted(s, allowEmpty)
  {
    forall i | 0 <= i < |s| ensures PositiveGroup(s[i]) { assert s[i] in s; }
  }

  method SortedProcessGroups(groups: set<int>) returns (r: seq<int>)
    ensures Lists(r, groups)
  {
    r := [];
    var rest := groups;
    while rest != {}
      invariant rest <= groups && Lists(r, groups - rest)
    {
      HasElement(rest);
      var x :| x in rest;
      var i := 0;
      while i < |r| && r[i] < x
        invariant 0 <= i <= |r| && forall j :: 0 <= j < i ==> r[j] < x
      {
        i := i + 1;
      }
      Inserted(r, i, x, groups - rest);
      r := r[..i] + [x] + r[i..];
      rest := rest - {x};
      assert groups - rest == groups - (rest + {x}) + {x};
    }
    assert groups - {} == groups;
  }

  lemma HasElement(s: set<int>)
    requires s != {}
    ensures exists x :: x in s
  {
    assert (forall x :: x !in s) ==> s == {};
  }

  lemma Inserted(s: seq<int>, i: nat, x: int, g: set<int>)
    requires Lists(s, g) && x !in g && i <= |s|
    requires (forall j :: 0 <= j < i ==> s[j] < x) && (i < |s| ==> s[i] >= x)
    ensures Lists(s[..i] + [x] + s[i..], g + {x})
  {
    var t := s[..i] + [x] + s[i..];
    assert i < |s| ==> s[i] in g;
    assert forall k :: 0 <= k < |t| ==> t[k] == if k < i then s[k] else if k == i then x else s[k - 1];
    forall y | y in g + {x} ensures y in t {
      if y != x {
        var k :| 0 <= k < |s| && s[k] == y;
        assert t[if k < i then k else k + 1] == y;
      } else {
        assert t[i] == x;
      }
    }
  }

  lemma {:induction false} ListsOnce(s: seq<int>, t: seq<int>, g: set<int>)
    requires Lists(s, g) && Lists(t, g)
    ensures s == t
    decreases |s|
  {
    ListsNone(s, g);
    ListsNone(t, g);
    if s != [] {
      assert s[0] in s && t[0] in t;
      assert s[0] == t[0];
      assert s == [s[0]] + s[1..] && t == [t[0]] + t[1..];
      ListsRest(s, g);
      ListsRest(t, g);
      ListsOnce(s[1..], t[1..], g - {s[0]});
    }
  }

  lemma ListsNone(s: seq<int>, g: set<int>)
    requires Lists(s, g)
    ensures s == [] <==> g == {}
  {
    if s != [] { assert s[0] in s; } else { assert forall x :: x in g ==> x in s; }
  }

  lemma ListsRest(s: seq<int>, g: set<int>)
    requires Lists(s, g) && s != []
    ensures Lists(s[1..], g - {s[0]})
  {
    assert s == [s[0]] + s[1..];
    forall x | x in s[1..] ensures x in g && x != s[0] {
      var i :| 0 <= i < |s[1..]| && s[1..][i] == x;
      assert s[i + 1] == x && x in s;
    }
  }
}
