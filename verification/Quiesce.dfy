/** Quiescence before an upgrade, src/runtime-upgrade.js: rescans of the managed processes until one
    shows nothing alive, a SIGTERM to each live long-lived process, and a check that every process
    seen on the way is gone. What a rescan or an identity lookup shows is arbitrary. */
module Quiesce {
  import opened Common

  datatype Identity = Identity(pid: nat, startTicks: string, executable: string)

  datatype Lifecycle = LongLived | Transient

  datatype Entry = Entry(kind: string, repository: Option<string>, authority: string, process: Identity,
                         live: bool, lifecycle: Lifecycle, release: string)

  datatype Inventory = Inventory(processes: seq<Entry>, failures: nat)

  /** processKey, as the tuple of its parts; a missing repository reads as "host". */
  datatype Key = Key(kind: string, repository: string, authority: string, process: Identity)

  function KeyOf(e: Entry): Key { Key(e.kind, if e.repository.Some? then e.repository.value else "host", e.authority, e.process) }

  /** Two entries are of the same process: of the same kind, repository, authority and exact process identity. An
      entry without a repository belongs to the host. */
  predicate SameProcess(a: Entry, b: Entry) {
    && a.kind == b.kind && a.authority == b.authority && a.process == b.process
    && (if a.repository.Some? then a.repository.value else "host") == (if b.repository.Some? then b.repository.value else "host")
  }

  lemma KeyTells(a: Entry, b: Entry)
    ensures KeyOf(a) == KeyOf(b) <==> SameProcess(a, b)
  {
  }

  datatype Retired = Retired(entry: Entry, verifiedAbsent: bool)

  datatype Result = Quiet(retired: seq<Retired>) | Unreadable | Busy(transient: nat, longLived: nat) | Survived | SignalFailed

  /** What happens, in order: a scan of the managed processes, a lookup of the identity that now has an entry's
      process identifier, and a signal to an entry's process. */
  datatype Event = Scan(inventory: Inventory) | Lookup(entry: Entry, observed: Option<Identity>) | Signal(entry: Entry)

  predicate Exact(e: Event) { e.Lookup? && e.observed == Some(e.entry.process) }

  predicate Stoppable(e: Entry) { e.live && e.lifecycle.LongLived? }

  /** A process seen alive in one of the scans. */
  ghost predicate SeenLive(trace: seq<Event>, e: Entry) {
    e.live && exists i :: 0 <= i < |trace| && trace[i].Scan? && e in trace[i].inventory.processes
  }

  /** The insertion-ordered Map `captured`: its keys in order, and its values. */
  datatype Captured = Captured(order: seq<Key>, entries: map<Key, Entry>)

  function Set(c: Captured, e: Entry): Captured {
    Captured(if KeyOf(e) in c.entries then c.order else c.order + [KeyOf(e)], c.entries[KeyOf(e) := e])
  }

  /** Every process seen live so far is captured under its key, once, and nothing else is. */
  ghost predicate Complete(c: Captured, trace: seq<Event>) {
    && (forall i, j :: 0 <= i < j < |c.order| ==> c.order[i] != c.order[j])
    && (forall k :: k in c.order <==> k in c.entries)
    && (forall k :: k in c.entries ==> KeyOf(c.entries[k]) == k && SeenLive(trace, c.entries[k]))
    && (forall e :: SeenLive(trace, e) ==> KeyOf(e) in c.entries)
  }

  /** The captured entries are processes seen live, all different, and each process seen live is among them. */
  ghost predicate Covers(c: Captured, trace: seq<Event>) {
    && (forall k :: k in c.entries ==> SeenLive(trace, c.entries[k]))
    && (forall k, l :: k in c.entries && l in c.entries && k != l ==> !SameProcess(c.entries[k], c.entries[l]))
    && (forall e :: SeenLive(trace, e) ==> exists k :: k in c.entries && SameProcess(c.entries[k], e))
  }

  lemma CompleteCovers(c: Captured, trace: seq<Event>)
    requires Complete(c, trace)
    ensures Covers(c, trace)
  {
    hide SeenLive, KeyOf, SameProcess;
    forall k, l | k in c.entries && l in c.entries && k != l ensures !SameProcess(c.entries[k], c.entries[l]) {
      KeyTells(c.entries[k], c.entries[l]);
    }
    forall e | SeenLive(trace, e) ensures exists k :: k in c.entries && SameProcess(c.entries[k], e) {
      KeyTells(c.entries[KeyOf(e)], e);
    }
  }

  /** The captured processes while the entries before `n` of one more scan have been added. */
  ghost predicate Partly(c: Captured, trace: seq<Event>, next: Inventory, n: nat)
    requires n <= |next.processes|
  {
    Complete(c, trace + [Scan(Inventory(next.processes[..n], next.failures))])
  }

  method CaptureLive(c: Captured, inventory: Inventory, ghost trace: seq<Event>) returns (r: Captured)
    requires Complete(c, trace)
    ensures Complete(r, trace + [Scan(inventory)]) && Covers(r, trace + [Scan(inventory)])
  {
    r := c;
    NothingYet(c, trace, inventory);
    for n := 0 to |inventory.processes|
      invariant Partly(r, trace, inventory, n)
    {
      OneMore(r, trace, inventory, n);
      if inventory.processes[n].live {
        r := Set(r, inventory.processes[n]);
      }
    }
    assert inventory.processes[..|inventory.processes|] == inventory.processes;
    CompleteCovers(r, trace + [Scan(inventory)]);
  }

  lemma SeenMore(trace: seq<Event>, next: Event, e: Entry)
    ensures SeenLive(trace + [next], e) <==> SeenLive(trace, e) || (e.live && next.Scan? && e in next.inventory.processes)
  {
    var all := trace + [next];
    if SeenLive(trace, e) {
      var i :| 0 <= i < |trace| && trace[i].Scan? && e in trace[i].inventory.processes;
      assert all[i] == trace[i];
    }
    if e.live && next.Scan? && e in next.inventory.processes { assert all[|trace|] == next; }
    if SeenLive(all, e) {
      var i :| 0 <= i < |all| && all[i].Scan? && e in all[i].inventory.processes;
      if i < |trace| { assert trace[i] == all[i]; }
    }
  }

  lemma NothingYet(c: Captured, trace: seq<Event>, next: Inventory)
    requires Complete(c, trace)
    ensures Partly(c, trace, next, 0)
  {
    var none := Scan(Inventory(next.processes[..0], next.failures));
    forall e ensures SeenLive(trace + [none], e) <==> SeenLive(trace, e) { SeenMore(trace, none, e); }
    hide SeenLive;
  }

  lemma OneMoreSeen(trace: seq<Event>, next: Inventory, n: nat)
    requires n < |next.processes|
    ensures forall e ::
              SeenLive(trace + [Scan(Inventory(next.processes[..n + 1], next.failures))], e) <==>
              SeenLive(trace + [Scan(Inventory(next.processes[..n], next.failures))], e) || (e.live && e == next.processes[n])
  {
    var before, after := Inventory(next.processes[..n], next.failures), Inventory(next.processes[..n + 1], next.failures);
    assert after.processes == before.processes + [next.processes[n]];
    hide SeenLive;
    forall e ensures SeenLive(trace + [Scan(after)], e) <==> SeenLive(trace + [Scan(before)], e) || (e.live && e == next.processes[n]) {
      SeenMore(trace, Scan(before), e);
      SeenMore(trace, Scan(after), e);
    }
  }

  lemma OneMore(c: Captured, trace: seq<Event>, next: Inventory, n: nat)
    requires n < |next.processes| && Partly(c, trace, next, n)
    ensures Partly(if next.processes[n].live then Set(c, next.processes[n]) else c, trace, next, n + 1)
  {
    hide SeenLive;
    OneMoreSeen(trace, next, n);
  }

  /** What is no scan shows nothing alive. */
  lemma {:induction false} SeenOnlyInScans(trace: seq<Event>, longer: seq<Event>)
    requires trace <= longer && forall i :: |trace| <= i < |longer| ==> !longer[i].Scan?
    ensures forall e :: SeenLive(longer, e) <==> SeenLive(trace, e)
    decreases |longer|
  {
    if |trace| < |longer| {
      var n := |longer| - 1;
      assert longer == longer[..n] + [longer[n]];
      SeenOnlyInScans(trace, longer[..n]);
      forall e ensures SeenLive(longer, e) <==> SeenLive(longer[..n], e) { SeenMore(longer[..n], longer[n], e); }
    } else {
      assert trace == longer;
    }
  }

  function LiveOnes(s: seq<Entry>): seq<Entry> {
    if s == [] then [] else LiveOnes(s[..|s| - 1]) + if s[|s| - 1].live then [s[|s| - 1]] else []
  }

  lemma {:induction false} LiveOnesAll(s: seq<Entry>)
    ensures forall e :: e in LiveOnes(s) <==> e in s && e.live
  {
    if s != [] {
      LiveOnesAll(s[..|s| - 1]);
      assert s == s[..|s| - 1] + [s[|s| - 1]];
    }
  }

  function CountTransient(s: seq<Entry>): nat {
    if s == [] then 0 else CountTransient(s[..|s| - 1]) + if s[|s| - 1].lifecycle.Transient? then 1 else 0
  }

  lemma {:induction false} TransientBound(s: seq<Entry>)
    ensures CountTransient(s) <= |s|
  {
    if s != [] { TransientBound(s[..|s| - 1]); }
  }

  /** Every signal goes to a live long-lived process of the given scan, just after a lookup that found exactly it. */
  ghost predicate SignalsExact(trace: seq<Event>, from: nat, inventory: Inventory) {
    forall i :: from <= i < |trace| && trace[i].Signal? ==>
      i > from && trace[i].entry in inventory.processes && Stoppable(trace[i].entry)
      && trace[i - 1] == Lookup(trace[i].entry, Some(trace[i].entry.process))
  }

  /** The entry was looked up, and signalled if its process was still exactly there. */
  ghost predicate Stopped(trace: seq<Event>, from: nat, e: Entry) {
    exists i :: from <= i < |trace| && trace[i].Lookup? && trace[i].entry == e
                && (Exact(trace[i]) ==> i + 1 < |trace| && trace[i + 1] == Signal(e))
  }

  lemma StillStopped(trace: seq<Event>, longer: seq<Event>, from: nat)
    requires trace <= longer
    ensures forall e :: Stopped(trace, from, e) ==> Stopped(longer, from, e)
  {
    forall e | Stopped(trace, from, e) ensures Stopped(longer, from, e) {
      var i :| from <= i < |trace| && trace[i].Lookup? && trace[i].entry == e
        && (Exact(trace[i]) ==> i + 1 < |trace| && trace[i + 1] == Signal(e));
      assert longer[i] == trace[i];
      if Exact(trace[i]) { assert longer[i + 1] == trace[i + 1]; }
    }
  }

  lemma JustStopped(trace: seq<Event>, longer: seq<Event>, from: nat, e: Entry, observed: Option<Identity>)
    requires from <= |trace|
    requires longer == trace + [Lookup(e, observed)] + if observed == Some(e.process) then [Signal(e)] else []
    ensures Stopped(longer, from, e)
  {
    assert longer[|trace|] == Lookup(e, observed);
    if observed == Some(e.process) { assert longer[|trace| + 1] == Signal(e); }
  }

  /** stopExactManagedProcess for each live long-lived entry: SIGTERM if its exact identity is still there.
      A signal that fails otherwise than for want of a process stops the whole quiescence. */
  method StopLongLived(inventory: Inventory, ghost before: seq<Event>) returns (failed: bool, ghost trace: seq<Event>)
    ensures before <= trace && forall i :: |before| <= i < |trace| ==> !trace[i].Scan?
    ensures SignalsExact(trace, |before|, inventory)
    ensures failed ==> |before| < |trace| && trace[|trace| - 1].Signal?
    ensures !failed ==> forall e :: e in inventory.processes && Stoppable(e) ==> Stopped(trace, |before|, e)
    ensures (forall e :: e in inventory.processes ==> !Stoppable(e)) ==> trace == before
  {
    hide Stopped;
    trace, failed := before, false;
    for n := 0 to |inventory.processes|
      invariant before <= trace && forall i :: |before| <= i < |trace| ==> !trace[i].Scan?
      invariant SignalsExact(trace, |before|, inventory)
      invariant forall k :: 0 <= k < n && Stoppable(inventory.processes[k]) ==> Stopped(trace, |before|, inventory.processes[k])
      invariant (forall k :: 0 <= k < n ==> !Stoppable(inventory.processes[k])) ==> trace == before
    {
      var entry := inventory.processes[n];
      if entry.live && entry.lifecycle.LongLived? {
        ghost var sofar := trace;
        var observed: Option<Identity> := *;
        trace := trace + [Lookup(entry, observed)];
        if observed == Some(entry.process) {
          trace := trace + [Signal(entry)];
          failed := *;
          if failed {
            return;
          }
        }
        StillStopped(sofar, trace, |before|);
        JustStopped(sofar, trace, |before|, entry, observed);
      }
    }
  }

  /** The retired list is one entry for each process ever seen live. */
  ghost predicate RetiresAll(retired: seq<Retired>, trace: seq<Event>) {
    && (forall i, j :: 0 <= i < j < |retired| ==> !SameProcess(retired[i].entry, retired[j].entry))
    && (forall i :: 0 <= i < |retired| ==> SeenLive(trace, retired[i].entry))
    && (forall e :: SeenLive(trace, e) ==> exists i :: 0 <= i < |retired| && SameProcess(retired[i].entry, e))
  }

  /** From entry `n` on, the trace is one lookup for each retired entry in order, and its flag tells what was found. */
  ghost predicate Verified(trace: seq<Event>, n: nat, retired: seq<Retired>) {
    |trace| == n + |retired| && forall i :: 0 <= i < |retired| ==> Tells(retired[i], trace[n + i])
  }

  predicate Tells(x: Retired, o: Event) { o.Lookup? && o.entry == x.entry && (x.verifiedAbsent <==> !Exact(o)) }

  lemma VerifiedOn(trace: seq<Event>, n: nat, retired: seq<Retired>, entry: Entry, observed: Option<Identity>)
    requires Verified(trace, n, retired)
    ensures Verified(trace + [Lookup(entry, observed)], n, retired + [Retired(entry, observed != Some(entry.process))])
  {
    var longer, all := trace + [Lookup(entry, observed)], retired + [Retired(entry, observed != Some(entry.process))];
    assert forall i :: 0 <= i < |retired| ==> all[i] == retired[i] && longer[n + i] == trace[n + i];
    forall i | 0 <= i < |all| ensures Tells(all[i], longer[n + i]) {
      if i < |retired| { assert Tells(retired[i], trace[n + i]); }
    }
  }

  method VerifyAbsent(c: Captured, ghost before: seq<Event>) returns (retired: seq<Retired>, survived: bool, ghost trace: seq<Event>)
    requires Complete(c, before)
    ensures before <= trace && RetiresAll(retired, before) && Verified(trace, |before|, retired)
    ensures survived <==> exists i :: 0 <= i < |retired| && !retired[i].verifiedAbsent
  {
    hide SeenLive, RetiresAll, Verified;
    VerifiedNone(before);
    retired, survived, trace := [], false, before;
    for n := 0 to |c.order|
      invariant |retired| == n && before <= trace && Verified(trace, |before|, retired)
      invariant forall i :: 0 <= i < n ==> c.order[i] in c.entries && retired[i].entry == c.entries[c.order[i]]
      invariant survived <==> exists i :: 0 <= i < n && !retired[i].verifiedAbsent
    {
      assert c.order[n] in c.order;
      var entry := c.entries[c.order[n]];
      var observed: Option<Identity> := *;
      VerifiedOn(trace, |before|, retired, entry, observed);
      trace := trace + [Lookup(entry, observed)];
      var absent := observed != Some(entry.process);
      ghost var sofar := retired;
      retired := retired + [Retired(entry, absent)];
      survived := survived || !absent;
      assert forall i :: 0 <= i < n ==> retired[i] == sofar[i];
    }
    AllRetired(c, before, retired);
  }

  lemma VerifiedNone(trace: seq<Event>)
    ensures Verified(trace, |trace|, [])
  {
  }

  lemma AllRetired(c: Captured, before: seq<Event>, retired: seq<Retired>)
    requires Complete(c, before) && |retired| == |c.order|
    requires forall i :: 0 <= i < |retired| ==> c.order[i] in c.entries && retired[i].entry == c.entries[c.order[i]]
    ensures RetiresAll(retired, before)
  {
    hide SeenLive, SameProcess;
    forall i, j | 0 <= i < j < |retired| ensures !SameProcess(retired[i].entry, retired[j].entry) {
      KeyTells(retired[i].entry, retired[j].entry);
    }
    forall e | SeenLive(before, e) ensures exists i :: 0 <= i < |retired| && SameProcess(retired[i].entry, e) {
      var i :| 0 <= i < |c.order| && c.order[i] == KeyOf(e);
      KeyTells(retired[i].entry, e);
    }
  }

  /** After entry `n` the process of the entry was looked up, and was not found. */
  ghost predicate FoundGone(trace: seq<Event>, n: nat, e: Entry) {
    exists i :: n < i < |trace| && trace[i].Lookup? && trace[i].entry.process == e.process && trace[i].observed != Some(e.process)
  }

  lemma SeenThenGone(trace: seq<Event>, n: nat, retired: seq<Retired>, e: Entry)
    requires RetiresAll(retired, trace) && Verified(trace, n + 1, retired) && SeenLive(trace, e)
    requires forall i :: n < i < |trace| ==> trace[i].Lookup? && !Exact(trace[i])
    ensures FoundGone(trace, n, e)
  {
    hide SeenLive, RetiresAll, Verified, Exact, FoundGone, Tells, SameProcess;
    var i := RetiredFor(trace, retired, e);
    VerifiedAt(trace, n + 1, retired, i);
    GoneAt(trace, n, n + 1 + i, retired[i], e);
  }

  lemma RetiredFor(trace: seq<Event>, retired: seq<Retired>, e: Entry) returns (i: nat)
    requires RetiresAll(retired, trace) && SeenLive(trace, e)
    ensures i < |retired| && SameProcess(retired[i].entry, e)
  {
    hide SeenLive, SameProcess;
    i :| i < |retired| && SameProcess(retired[i].entry, e);
  }

  lemma VerifiedAt(trace: seq<Event>, n: nat, retired: seq<Retired>, i: nat)
    requires Verified(trace, n, retired) && i < |retired|
    ensures n + i < |trace| && Tells(retired[i], trace[n + i])
  {
    hide Tells;
  }

  lemma GoneAt(trace: seq<Event>, n: nat, j: nat, x: Retired, e: Entry)
    requires n < j < |trace| && Tells(x, trace[j]) && SameProcess(x.entry, e) && !Exact(trace[j])
    ensures FoundGone(trace, n, e)
  {
    assert trace[j].Lookup?;
  }

  lemma AllSeenGone(trace: seq<Event>, n: nat, retired: seq<Retired>)
    requires RetiresAll(retired, trace) && Verified(trace, n + 1, retired)
    requires forall i :: n < i < |trace| ==> trace[i].Lookup? && !Exact(trace[i])
    ensures forall e :: SeenLive(trace, e) ==> FoundGone(trace, n, e)
  {
    hide SeenLive, FoundGone, RetiresAll, Verified, Exact;
    forall e | SeenLive(trace, e) ensures FoundGone(trace, n, e) { SeenThenGone(trace, n, retired, e); }
  }

  // ----- how many are live

  /** The places in the list of live entries of this lifecycle. */
  function Places(s: seq<Entry>, lifecycle: Lifecycle): set<int> {
    set i | 0 <= i < |s| && s[i].live && s[i].lifecycle == lifecycle
  }

  lemma {:induction false} LiveCounted(s: seq<Entry>)
    ensures CountTransient(LiveOnes(s)) == |Places(s, Transient)|
    ensures |LiveOnes(s)| == |Places(s, Transient)| + |Places(s, LongLived)|
  {
    if s != [] {
      var n := |s| - 1;
      LiveCounted(s[..n]);
      OnePlace(s, Transient);
      OnePlace(s, LongLived);
      CountOn(LiveOnes(s[..n]), s[n]);
      assert LiveOnes(s[..n]) + [] == LiveOnes(s[..n]);
    }
  }

  lemma OnePlace(s: seq<Entry>, lifecycle: Lifecycle)
    requires s != []
    ensures var n := |s| - 1;
            |Places(s, lifecycle)| == |Places(s[..n], lifecycle)| + if s[n].live && s[n].lifecycle == lifecycle then 1 else 0
  {
    var n := |s| - 1;
    var before := Places(s[..n], lifecycle);
    assert Places(s, lifecycle) == if s[n].live && s[n].lifecycle == lifecycle then before + {n} else before;
    assert n !in before;
  }

  lemma CountOn(s: seq<Entry>, e: Entry)
    ensures CountTransient(s + [e]) == CountTransient(s) + if e.lifecycle.Transient? then 1 else 0
  {
    assert (s + [e])[..|s|] == s;
  }

  // ----- what holds of the whole trace

  /** A signal goes to a long-lived process that the latest scan showed live, just after a lookup found exactly it. */
  ghost predicate Careful(trace: seq<Event>) {
    forall i :: 0 <= i < |trace| && trace[i].Signal? ==>
      && i > 0 && trace[i - 1] == Lookup(trace[i].entry, Some(trace[i].entry.process))
      && Stoppable(trace[i].entry) && LatestShows(trace, i, trace[i].entry)
  }

  ghost predicate LatestShows(trace: seq<Event>, n: nat, e: Entry) {
    exists j :: 0 <= j < n <= |trace| && trace[j].Scan? && e in trace[j].inventory.processes
                && forall k :: j < k < n ==> !trace[k].Scan?
  }

  /** No scan before entry `n` failed, and each live long-lived process that it showed was then dealt with. */
  ghost predicate Thorough(trace: seq<Event>, n: nat) {
    forall i :: 0 <= i < n && i < |trace| && trace[i].Scan? ==>
      && trace[i].inventory.failures == 0
      && forall e :: e in trace[i].inventory.processes && Stoppable(e) ==> Stopped(trace, i, e)
  }

  /** Nothing is scanned after entry `n`, a scan. */
  ghost predicate LastScan(trace: seq<Event>, n: nat) {
    n < |trace| && trace[n].Scan? && forall i :: n < i < |trace| ==> !trace[i].Scan?
  }

  lemma CarefulOn(trace: seq<Event>, longer: seq<Event>, inventory: Inventory)
    requires Careful(trace) && trace <= longer && trace != [] && trace[|trace| - 1] == Scan(inventory)
    requires (forall i :: |trace| <= i < |longer| ==> !longer[i].Scan?) && SignalsExact(longer, |trace|, inventory)
    ensures Careful(longer)
  {
    forall i | 0 <= i < |longer| && longer[i].Signal?
      ensures i > 0 && longer[i - 1] == Lookup(longer[i].entry, Some(longer[i].entry.process))
      ensures Stoppable(longer[i].entry) && LatestShows(longer, i, longer[i].entry)
    {
      if i < |trace| {
        assert trace[i] == longer[i] && trace[i - 1] == longer[i - 1];
        LatestStill(trace, longer, i, trace[i].entry);
      } else {
        assert longer[|trace| - 1] == Scan(inventory);
      }
    }
  }

  lemma LatestStill(trace: seq<Event>, longer: seq<Event>, n: nat, e: Entry)
    requires trace <= longer && LatestShows(trace, n, e)
    ensures LatestShows(longer, n, e)
  {
    var j :| 0 <= j < n && trace[j].Scan? && e in trace[j].inventory.processes && forall k :: j < k < n ==> !trace[k].Scan?;
    assert longer[j] == trace[j];
    forall k | j < k < n ensures !longer[k].Scan? { assert longer[k] == trace[k]; }
  }

  /** Anything but a signal may follow. */
  lemma CarefulThen(trace: seq<Event>, longer: seq<Event>)
    requires Careful(trace) && trace <= longer && forall i :: |trace| <= i < |longer| ==> !longer[i].Signal?
    ensures Careful(longer)
  {
    forall i | 0 <= i < |longer| && longer[i].Signal?
      ensures i > 0 && longer[i - 1] == Lookup(longer[i].entry, Some(longer[i].entry.process))
      ensures Stoppable(longer[i].entry) && LatestShows(longer, i, longer[i].entry)
    {
      assert trace[i] == longer[i] && trace[i - 1] == longer[i - 1];
      LatestStill(trace, longer, i, trace[i].entry);
    }
  }

  lemma ThoroughStill(trace: seq<Event>, longer: seq<Event>, n: nat)
    requires trace <= longer && n <= |trace| && Thorough(trace, n)
    ensures Thorough(longer, n)
  {
    hide Stopped, Stoppable;
    forall i | 0 <= i < n && longer[i].Scan?
      ensures longer[i].inventory.failures == 0
      ensures forall e :: e in longer[i].inventory.processes && Stoppable(e) ==> Stopped(longer, i, e)
    {
      assert trace[i] == longer[i];
      StillStopped(trace, longer, i);
    }
  }

  /** One more scan, whose processes have been dealt with. */
  lemma ThoroughOn(trace: seq<Event>, n: nat)
    requires n < |trace| && Thorough(trace, n) && trace[n].Scan? && trace[n].inventory.failures == 0
    requires forall i :: n < i < |trace| ==> !trace[i].Scan?
    requires forall e :: e in trace[n].inventory.processes && Stoppable(e) ==> Stopped(trace, n + 1, e)
    ensures Thorough(trace, |trace|)
  {
    hide Stoppable;
    forall e | Stopped(trace, n + 1, e) ensures Stopped(trace, n, e) {}
  }

  lemma CompleteStill(c: Captured, trace: seq<Event>, longer: seq<Event>)
    requires Complete(c, trace) && trace <= longer && forall i :: |trace| <= i < |longer| ==> !longer[i].Scan?
    ensures Complete(c, longer)
  {
    SeenOnlyInScans(trace, longer);
    hide SeenLive;
  }

  /** quiesceManagedRuntime. `patience` is how many rescans the deadline allows; `last` is the last scan that
      the loop looked at. */
  method QuiesceManagedRuntime(initial: Inventory, patience: nat)
    returns (r: Result, ghost trace: seq<Event>, ghost last: nat)
    ensures trace != [] && trace[0] == Scan(initial) && LastScan(trace, last)
    ensures Careful(trace) && Thorough(trace, last)
    ensures r.Quiet? ==> forall e :: e in trace[last].inventory.processes ==> !e.live
    ensures r.Quiet? ==> Thorough(trace, |trace|)
    ensures r.Quiet? ==> RetiresAll(r.retired, trace) && Verified(trace, last + 1, r.retired)
    ensures r.Quiet? ==> forall i :: last < i < |trace| ==> trace[i].Lookup? && !Exact(trace[i])
    ensures r.Quiet? ==> forall e :: SeenLive(trace, e) ==> FoundGone(trace, last, e)
    ensures r.Unreadable? <==> trace[last].inventory.failures > 0
    ensures r.Busy? ==> r.transient + r.longLived > 0
    ensures r.Busy? ==> r.transient == |Places(trace[last].inventory.processes, Transient)|
    ensures r.Busy? ==> r.longLived == |Places(trace[last].inventory.processes, LongLived)|
    ensures r.Survived? ==> exists i :: last < i < |trace| && Exact(trace[i])
    ensures r.SignalFailed? ==> trace[|trace| - 1].Signal?
  {
    hide SeenLive, RetiresAll, Careful, Thorough, Stopped, Complete, SignalsExact, Verified, LiveOnes, CountTransient, Exact, Covers, FoundGone, Places;
    trace, last := [Scan(initial)], 0;
    OneScan(initial);
    if initial.failures > 0 {
      return Unreadable, trace, last;
    }
    var captured := Captured([], map[]);
    NoneSeen();
    var inventory := initial; // the loop captures it first of all
    var rounds := patience;
    while true
      invariant trace != [] && trace[0] == Scan(initial) && last == |trace| - 1 && trace[last] == Scan(inventory)
      invariant Complete(captured, trace[..last]) && Careful(trace) && Thorough(trace, last)
      decreases rounds
    {
      if inventory.failures > 0 {
        return Unreadable, trace, last;
      }
      captured := CaptureLive(captured, inventory, trace[..last]);
      assert trace[..last] + [Scan(inventory)] == trace;
      ghost var before := trace;
      var failed;
      failed, trace := StopLongLived(inventory, before);
      CarefulOn(before, trace, inventory);
      ThoroughStill(before, trace, last);
      CompleteStill(captured, before, trace);
      if failed {
        return SignalFailed, trace, last;
      }
      ThoroughOn(trace, last);
      var live := LiveOnes(inventory.processes);
      LiveOnesAll(inventory.processes);
      if |live| == 0 {
        break;
      }
      if rounds == 0 {
        var transient := CountTransient(live);
        TransientBound(live);
        LiveCounted(inventory.processes);
        return Busy(transient, |live| - transient), trace, last;
      }
      rounds := rounds - 1;
      var rescan: Inventory := *;
      inventory := rescan;
      before, last := trace, |trace|;
      trace := trace + [Scan(inventory)];
      assert trace[..last] == before;
      CarefulThen(before, trace);
      ThoroughStill(before, trace, last);
    }
    ghost var before := trace;
    var retired, survived;
    retired, survived, trace := VerifyAbsent(captured, before);
    r := if survived then Survived else Quiet(retired);
    QuietEnd(before, trace, last, retired, survived);
    if !survived { AllSeenGone(trace, last, retired); }
  }

  /** The lookups at the end leave the rest of the trace as it was. */
  lemma QuietEnd(before: seq<Event>, trace: seq<Event>, last: nat, retired: seq<Retired>, survived: bool)
    requires survived <==> exists i :: 0 <= i < |retired| && !retired[i].verifiedAbsent
    requires before <= trace && LastScan(before, last) && Verified(trace, |before|, retired)
    requires Careful(before) && Thorough(before, last) && Thorough(before, |before|) && RetiresAll(retired, before)
    ensures LastScan(trace, last) && Careful(trace) && Thorough(trace, last) && Thorough(trace, |trace|)
    ensures RetiresAll(retired, trace)
    ensures forall i :: |before| <= i < |trace| ==> trace[i].Lookup?
    ensures !survived ==> forall i :: |before| <= i < |trace| ==> !Exact(trace[i])
    ensures survived ==> exists i :: |before| <= i < |trace| && Exact(trace[i])
  {
    hide Careful, SeenLive;
    forall i | |before| <= i < |trace| ensures trace[i].Lookup? && (Exact(trace[i]) <==> !retired[i - |before|].verifiedAbsent) {
      assert Tells(retired[i - |before|], trace[|before| + (i - |before|)]);
    }
    if survived {
      var i :| 0 <= i < |retired| && !retired[i].verifiedAbsent;
      assert Tells(retired[i], trace[|before| + i]) && Exact(trace[|before| + i]);
    }
    CarefulThen(before, trace);
    ThoroughStill(before, trace, last);
    ThoroughStill(before, trace, |before|);
    SeenOnlyInScans(before, trace);
  }

  lemma OneScan(initial: Inventory)
    ensures Careful([Scan(initial)]) && Thorough([Scan(initial)], 0)
  {
  }

  lemma NoneSeen()
    ensures Complete(Captured([], map[]), [])
  {
  }
}
