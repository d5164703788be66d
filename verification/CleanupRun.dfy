/** The cleanup loop itself. Every look at the process table is a havoc: whatever it returns, and
    whatever a signal does, is the choice of an adversary. The ghost trace lists them in order. */
module CleanupRun {
  import opened Common
  import opened Cleanup

  datatype Scan = Scan(group: int, members: Option<seq<int>>)

  // ----- properties of a trace

  predicate Delivered(o: Observation) { o.Signalled? && o.outcome.Sent? }

  /** Each signal is successfully sent at most once to each group. */
  ghost predicate OnceEach(trace: seq<Observation>) {
    forall i, j :: 0 <= i < j < |trace| && Delivered(trace[i]) && Delivered(trace[j]) ==>
      trace[i].target != trace[j].target || trace[i].signal != trace[j].signal
  }

  /** The host, looked at before cleanup, was the expected process in a proper group. */
  predicate HostFound(first: Option<Host>, host: HostIdentity) {
    first.Some? && first.value.identity == host && PositiveGroup(first.value.pgrp)
  }

  /** Before cleanup the host was not seen, or as another process, or in no proper group. */
  predicate HostLost(first: Option<Host>, host: HostIdentity) {
    first.None? || first.value.identity != host || first.value.pgrp <= 0 || first.value.pgrp > MAX_SAFE_INTEGER
  }

  lemma LostNotFound(first: Option<Host>, host: HostIdentity)
    ensures HostLost(first, host) <==> !HostFound(first, host)
  {
  }

  /** No signal reaches the captured group of the host, or a group in which the host was just seen; and
      without the host's continuity there is no signal at all. */
  ghost predicate HostSafe(trace: seq<Observation>, first: Option<Host>, host: Option<HostIdentity>) {
    forall i :: 0 <= i < |trace| && trace[i].Signalled? && host.Some? ==>
      HostFound(first, host.value) && trace[i].target != first.value.pgrp && i > 0 && Clear(trace[i - 1], trace[i].target, host.value)
  }

  lemma OnceMore(trace: seq<Observation>, o: Observation)
    requires OnceEach(trace) && o.Signalled? && (o.outcome.Sent? ==> o !in trace)
    ensures OnceEach(trace + [o])
  {
    assert forall i :: 0 <= i < |trace| ==> (trace + [o])[i] == trace[i];
    forall i | 0 <= i < |trace| && Delivered(trace[i]) && Delivered(o) ensures trace[i].target != o.target || trace[i].signal != o.signal {
      assert trace[i] in trace;
    }
  }

  lemma SafeMore(trace: seq<Observation>, o: Observation, first: Option<Host>, host: Option<HostIdentity>)
    requires HostSafe(trace, first, host) && o.Signalled?
    requires host.Some? ==> HostFound(first, host.value) && o.target != first.value.pgrp
                            && trace != [] && Clear(trace[|trace| - 1], o.target, host.value)
    ensures HostSafe(trace + [o], first, host)
  {
    hide Clear, HostFound;
    assert forall i :: 0 <= i < |trace| ==> (trace + [o])[i] == trace[i];
  }

  /** The group was scanned, and the host was not in it. */
  predicate Clear(o: Observation, group: int, host: HostIdentity) {
    o.Group? && o.group == group && o.members.Some? && host.pid !in o.members.value
  }

  ghost predicate NoFailure(trace: seq<Observation>) { forall i :: 0 <= i < |trace| ==> !Fails(trace[i]) }

  predicate Fails(o: Observation) {
    match o
    case Frontends(rows) => rows.None?
    case Remnants(rows) => rows.None?
    case Group(_, members) => members.None?
    case ExitSeen(_) => false
    case HostSeen(_) => false
    case Signalled(_, _, outcome) => outcome.Failed?
  }

  lemma FailsOrNot(trace: seq<Observation>, o: Observation)
    ensures NoFailure(trace + [o]) <==> NoFailure(trace) && !Fails(o)
  {
    assert forall i :: 0 <= i < |trace| ==> (trace + [o])[i] == trace[i];
    assert (trace + [o])[|trace|] == o;
  }

  /** The host was seen alive in a group. */
  predicate ShowsHost(o: Observation, host: HostIdentity, group: int) { o == HostSeen(Some(Host(host, group))) }

  /** The group scans list the host while it lives: whoever is later found alive in a group was in
      every completed scan of that group before. */
  ghost predicate HostListed(trace: seq<Observation>, host: HostIdentity) {
    forall i, j :: 0 <= i < j < |trace| && trace[i].Group? && trace[i].members.Some? && ShowsHost(trace[j], host, trace[i].group)
      ==> host.pid in trace[i].members.value
  }

  /** The scans stand in the trace one after the other. */
  ghost predicate ScannedAt(trace: seq<Observation>, at: nat, scans: seq<Scan>) {
    && at + |scans| <= |trace|
    && forall i :: 0 <= i < |scans| ==> trace[at + i] == Group(scans[i].group, scans[i].members)
  }

  /** The signal has been tried on the group, with whatever outcome. */
  ghost predicate Tried(trace: seq<Observation>, group: int, signal: Signal) {
    exists i :: 0 <= i < |trace| && trace[i].Signalled? && trace[i].target == group && trace[i].signal == signal
  }

  lemma TriedGrows(trace: seq<Observation>, longer: seq<Observation>)
    requires trace <= longer
    ensures forall g, s :: Tried(trace, g, s) ==> Tried(longer, g, s)
  {
    forall g, s | Tried(trace, g, s) ensures Tried(longer, g, s) {
      var i :| 0 <= i < |trace| && trace[i].Signalled? && trace[i].target == g && trace[i].signal == s;
      assert longer[i] == trace[i];
    }
  }

  /** Why a group may be left alone: the host was lost, the group is its own or was seen to hold it, or a scan failed. */
  ghost predicate Blockable(trace: seq<Observation>, first: Option<Host>, host: Option<HostIdentity>, group: int) {
    || (host.Some? && (HostLost(first, host.value) || group == first.value.pgrp))
    || exists i :: 0 <= i < |trace| && trace[i].Group? && trace[i].group == group
                   && (trace[i].members.None? || (host.Some? && host.value.pid in trace[i].members.value))
  }

  ghost predicate AllBlockable(trace: seq<Observation>, first: Option<Host>, host: Option<HostIdentity>, blocked: set<int>) {
    forall g :: g in blocked ==> Blockable(trace, first, host, g)
  }

  lemma BlockableStill(trace: seq<Observation>, longer: seq<Observation>, first: Option<Host>, host: Option<HostIdentity>, blocked: set<int>)
    requires trace <= longer && AllBlockable(trace, first, host, blocked)
    ensures AllBlockable(longer, first, host, blocked)
  {
    forall g | g in blocked ensures Blockable(longer, first, host, g) {
      assert Blockable(trace, first, host, g);
      if !(host.Some? && (HostLost(first, host.value) || g == first.value.pgrp)) {
        var i :| 0 <= i < |trace| && trace[i].Group? && trace[i].group == g
          && (trace[i].members.None? || (host.Some? && host.value.pid in trace[i].members.value));
        assert longer[i] == trace[i];
      }
    }
  }

  function Key(r: Row): (int, string) { (r.pid, r.ticks) }

  predicate Identified(r: Row) { r.pid > 0 && r.ticks != "" }

  /** A row seen before the spawn is not ours; a row without an exact identity is. */
  predicate Ours(row: Row, before: set<(int, string)>) { !(Identified(row) && Key(row) in before) }

  // ----- what the scans for frontends have shown

  /** A frontend that was there before the spawn. */
  predicate Foreign(row: Row, before: set<(int, string)>) {
    row.pid > 0 && row.ticks != "" && (row.pid, row.ticks) in before
  }

  /** A frontend of exact identity, in a proper group, that was not there before the spawn. */
  predicate ExactNew(row: Row, before: set<(int, string)>) {
    row.pid > 0 && row.ticks != "" && (row.pid, row.ticks) !in before && 0 < row.pgrp <= MAX_SAFE_INTEGER
  }

  ghost predicate Shows(o: Observation, before: set<(int, string)>, g: int) {
    o.Frontends? && o.rows.Some? && exists j :: 0 <= j < |o.rows.value| && ExactNew(o.rows.value[j], before) && o.rows.value[j].pgrp == g
  }

  /** The scan shows the row, and it is neither foreign nor exact. */
  ghost predicate ShowsInexact(o: Observation, before: set<(int, string)>, row: Row) {
    o.Frontends? && o.rows.Some? && row in o.rows.value && !Foreign(row, before) && !ExactNew(row, before)
  }

  predicate ShowsNone(o: Observation, before: set<(int, string)>) {
    o.Frontends? && (o.rows.Some? ==> forall j :: 0 <= j < |o.rows.value| ==> Foreign(o.rows.value[j], before))
  }

  /** Before entry `n`, some scan has shown a new frontend in this group. */
  ghost predicate Seen(trace: seq<Observation>, n: nat, before: set<(int, string)>, g: int) {
    exists i :: 0 <= i < n && i < |trace| && Shows(trace[i], before, g)
  }

  ghost predicate SeenInexact(trace: seq<Observation>, before: set<(int, string)>, row: Row) {
    exists i :: 0 <= i < |trace| && ShowsInexact(trace[i], before, row)
  }

  /** Before entry `n`, the group is known: as the launcher's own, or from a new frontend. */
  ghost predicate Known(trace: seq<Observation>, n: nat, before: set<(int, string)>, own: int, g: int) {
    (g == own && 0 < g <= MAX_SAFE_INTEGER) || Seen(trace, n, before, g)
  }

  lemma SeenOn(trace: seq<Observation>, o: Observation, before: set<(int, string)>)
    ensures forall g :: Seen(trace + [o], |trace| + 1, before, g) <==> Seen(trace, |trace|, before, g) || Shows(o, before, g)
    ensures forall r :: SeenInexact(trace + [o], before, r) <==> SeenInexact(trace, before, r) || ShowsInexact(o, before, r)
  {
    hide Shows, ShowsInexact;
    assert forall i :: 0 <= i < |trace| ==> (trace + [o])[i] == trace[i];
    assert (trace + [o])[|trace|] == o;
  }

  /** Only known groups are signalled. */
  ghost predicate SignalsKnown(trace: seq<Observation>, before: set<(int, string)>, own: int) {
    forall i :: 0 <= i < |trace| && trace[i].Signalled? ==> Known(trace, i, before, own, trace[i].target)
  }

  /** A kill of the group as entry `n` is due: a scan of the same round, other than the one just before the signal, has
      shown members of it, or it is that of the launcher, whose exit has not been seen. */
  ghost predicate Due(trace: seq<Observation>, n: nat, own: int, g: int) {
    || (g == own && forall k :: 0 <= k < n && k < |trace| ==> trace[k] != ExitSeen(true))
    || exists j :: 0 <= j < n - 1 && j < |trace| && trace[j].Group? && trace[j].group == g && trace[j].members.Some?
                   && |trace[j].members.value| > 0 && forall k :: j < k < n && k < |trace| ==> !trace[k].Frontends?
  }

  ghost predicate KillsDue(trace: seq<Observation>, own: int) {
    forall i :: 0 <= i < |trace| && trace[i].Signalled? && trace[i].signal.SigKill? ==> Due(trace, i, own, trace[i].target)
  }

  lemma KnownOn(trace: seq<Observation>, longer: seq<Observation>, n: nat, before: set<(int, string)>, own: int, g: int)
    requires trace <= longer && n <= |trace|
    ensures Known(trace, n, before, own, g) <==> Known(longer, n, before, own, g)
  {
    hide Shows;
    assert forall i :: 0 <= i < |trace| ==> longer[i] == trace[i];
  }

  lemma DueOn(trace: seq<Observation>, o: Observation, n: nat, own: int, g: int)
    requires n <= |trace| && Due(trace, n, own, g)
    ensures Due(trace + [o], n, own, g)
  {
    assert forall i :: 0 <= i < |trace| ==> (trace + [o])[i] == trace[i];
  }

  /** A kill that is due stays so over one look at a group. */
  lemma DueNext(trace: seq<Observation>, o: Observation, own: int, g: int)
    requires Due(trace, |trace| + 1, own, g) && o.Group?
    ensures Due(trace + [o], |trace| + 1, own, g)
  {
    assert forall i :: 0 <= i < |trace| ==> (trace + [o])[i] == trace[i];
  }

  lemma SignalsOn(trace: seq<Observation>, o: Observation, before: set<(int, string)>, own: int)
    requires SignalsKnown(trace, before, own) && KillsDue(trace, own)
    requires o.Signalled? ==> Known(trace, |trace|, before, own, o.target) && (o.signal.SigKill? ==> Due(trace, |trace|, own, o.target))
    ensures SignalsKnown(trace + [o], before, own) && KillsDue(trace + [o], own)
  {
    hide Known, Due;
    var longer := trace + [o];
    forall i | 0 <= i < |longer| && longer[i].Signalled?
      ensures Known(longer, i, before, own, longer[i].target)
      ensures longer[i].signal.SigKill? ==> Due(longer, i, own, longer[i].target)
    {
      var g := if i < |trace| then trace[i].target else o.target;
      assert longer[i].target == g;
      KnownOn(trace, longer, i, before, own, g);
      if longer[i].signal.SigKill? { DueOn(trace, o, i, own, g); }
    }
  }

  // ----- pursuit: no group that is known is forgotten

  predicate HasMembers(entry: Scan) { entry.members.Some? && |entry.members.value| > 0 }

  /** The last round before entry `n` scanned every group known by then, and each group that had members, or was the
      launcher's before its exit was seen, has had SIGKILL or is blocked. */
  ghost predicate LastRound(trace: seq<Observation>, n: nat, before: set<(int, string)>, own: int, blocked: set<int>,
                            at: nat, scans: seq<Scan>) {
    && at + |scans| < n <= |trace| && ScannedAt(trace, at, scans)
    && (forall g :: Known(trace, at, before, own, g) ==> g in GroupsOf(scans))
    && forall k :: 0 <= k < |scans| && (HasMembers(scans[k]) || (scans[k].group == own && ExitSeen(true) !in trace[..n])) ==>
         scans[k].group in blocked || Tried(trace, scans[k].group, SigKill)
  }

  /** Before the last look, which begins at entry `n`, every known group has had SIGTERM, and what remained SIGKILL. */
  ghost predicate Pursued(trace: seq<Observation>, n: nat, before: set<(int, string)>, own: int, blocked: set<int>) {
    && (forall g :: Known(trace, n, before, own, g) ==> g in blocked || Tried(trace, g, SigTerm))
    && exists at, scans :: LastRound(trace, n, before, own, blocked, at, scans)
  }

  lemma PursuedStill(trace: seq<Observation>, longer: seq<Observation>, before: set<(int, string)>, own: int, blocked: set<int>)
    requires trace <= longer && Pursued(trace, |trace|, before, own, blocked)
    ensures Pursued(longer, |trace|, before, own, blocked)
  {
    hide Known, Tried, GroupsOf;
    TriedGrows(trace, longer);
    var at, scans :| LastRound(trace, |trace|, before, own, blocked, at, scans);
    forall g | Known(longer, |trace|, before, own, g) ensures g in blocked || Tried(longer, g, SigTerm) {
      KnownOn(trace, longer, |trace|, before, own, g);
    }
    forall g | Known(longer, at, before, own, g) ensures g in GroupsOf(scans) { KnownOn(trace, longer, at, before, own, g); }
    assert longer[..|trace|] == trace[..|trace|];
    assert LastRound(longer, |trace|, before, own, blocked, at, scans);
  }

  // ----- what the evidence says about the trace

  function MembersSeen(o: Observation): int { if o.Group? && o.members.Some? then |o.members.value| else -1 }

  /** From entry `n` on, the trace is the last look at everything: a scan for frontends to take up, the exact scan,
      one scan of each tracked group in order, the launcher's exit, and the host; and the evidence says what was seen. */
  ghost predicate LooksFrom(trace: seq<Observation>, n: nat, e: Evidence, first: Option<Host>, host: Option<HostIdentity>) {
    var k := |e.tracked|;
    && n + k + 3 + (if host.Some? then 1 else 0) == |trace| && k == |e.counts|
    && trace[n].Frontends? && trace[n + 1].Remnants?
    && e.duplicates == (if trace[n + 1].rows.Some? then |trace[n + 1].rows.value| else 0)
    && (forall i :: 0 <= i < k ==>
          && trace[n + 2 + i].Group? && trace[n + 2 + i].group == e.tracked[i]
          && e.counts[i] == Count(e.tracked[i], MembersSeen(trace[n + 2 + i])))
    && trace[n + 2 + k].ExitSeen?
    && (e.frontendExit <==> e.duplicates == 0 && forall i :: 0 <= i < k && e.tracked[i] in e.frontends ==> e.counts[i].members == 0)
    && (host.None? ==> e.hostContinuity)
    && (host.Some? ==>
          && trace[n + 3 + k].HostSeen?
          && (e.hostContinuity <==> HostFound(first, host.value) && trace[n + 3 + k] == HostSeen(Some(Host(host.value, first.value.pgrp)))))
  }

  /** What proven cleanup means: after the last signal, the exact scan showed no frontend, every tracked group was
      scanned and had no member, and the host was still the same process in its captured group. */
  ghost predicate AllGone(trace: seq<Observation>, n: nat, e: Evidence, first: Option<Host>, host: Option<HostIdentity>) {
    var k := |e.tracked|;
    && n + k + 3 + (if host.Some? then 1 else 0) == |trace|
    && trace[n].Frontends? && trace[n + 1] == Remnants(Some([]))
    && (forall i :: 0 <= i < k ==> trace[n + 2 + i] == Group(e.tracked[i], Some([])))
    && trace[n + 2 + k].ExitSeen?
    && (host.Some? ==> HostFound(first, host.value) && trace[n + 3 + k] == HostSeen(Some(Host(host.value, first.value.pgrp))))
  }

  /** Every frontend of ours that was ever shown had an exact identity and a group that is on the list. */
  ghost predicate Caught(trace: seq<Observation>, before: set<(int, string)>, groups: seq<int>) {
    forall i, j :: 0 <= i < |trace| && trace[i].Frontends? && trace[i].rows.Some? && 0 <= j < |trace[i].rows.value| ==>
      var r := trace[i].rows.value[j]; Foreign(r, before) || (ExactNew(r, before) && r.pgrp in groups)
  }

  function Total(counts: seq<Count>): int {
    if counts == [] then 0 else Total(counts[..|counts| - 1]) + counts[|counts| - 1].members
  }

  /** The evidence count: -1 when some group could not be counted. */
  function MemberCount(counts: seq<Count>): int {
    if exists i :: 0 <= i < |counts| && counts[i].members < 0 then -1 else Total(counts)
  }

  lemma {:induction false} ZeroTotal(counts: seq<Count>)
    requires forall i :: 0 <= i < |counts| ==> counts[i].members >= 0
    ensures Total(counts) >= 0
    ensures Total(counts) == 0 <==> forall i :: 0 <= i < |counts| ==> counts[i].members == 0
  {
    if counts != [] {
      ZeroTotal(counts[..|counts| - 1]);
      assert forall i :: 0 <= i < |counts| - 1 ==> counts[..|counts| - 1][i] == counts[i];
    }
  }

  function GroupsOf(scans: seq<Scan>): seq<int> { seq(|scans|, i requires 0 <= i < |scans| => scans[i].group) }

  function CountsOf(scans: seq<Scan>): seq<Count> {
    seq(|scans|, i requires 0 <= i < |scans| =>
      Count(scans[i].group, if scans[i].members.Some? then |scans[i].members.value| else -1))
  }

  predicate Empty(s: Scan) { s.members == Some([]) }

  /** The last look, as it stands in the trace from entry `n` on, and what was made of it. */
  ghost predicate Looked(trace: seq<Observation>, n: nat, left: nat, scans: seq<Scan>, continuity: bool,
                         first: Option<Host>, host: Option<HostIdentity>) {
    var k := |scans|;
    && n + k + 3 + (if host.Some? then 1 else 0) == |trace|
    && trace[n].Frontends? && trace[n + 1].Remnants?
    && left == (if trace[n + 1].rows.Some? then |trace[n + 1].rows.value| else 0)
    && ScannedAt(trace, n + 2, scans) && trace[n + 2 + k].ExitSeen?
    && (host.None? ==> continuity)
    && (host.Some? ==>
          && trace[n + 3 + k].HostSeen?
          && (continuity <==> HostFound(first, host.value) && trace[n + 3 + k] == HostSeen(Some(Host(host.value, first.value.pgrp)))))
  }

  /** When cleanup is said to be proven. */
  ghost predicate Proves(e: Evidence, trace: seq<Observation>) {
    && PositiveGroup(e.processGroup) && e.launcherExit && e.frontendExit && e.count == 0 && e.duplicates == 0
    && e.invalid == 0 && e.blocked == [] && e.hostContinuity && NoFailure(trace)
  }

  class Cleaner {
    const processGroup: int
    const host: Option<HostIdentity>
    const before: set<(int, string)>
    var tracked: set<int>
    var frontends: set<int>
    var signaled: set<int>
    var termed: set<int>
    var killed: set<int>
    var blocked: set<int>
    var invalid: set<Row>
    var scanFailed: bool
    var signalFailed: bool
    var first: Option<Host>
    var exited: bool
    ghost var trace: seq<Observation>

    ghost predicate Valid()
      reads this
    {
      && (forall g :: g in tracked ==> PositiveGroup(g))
      && (PositiveGroup(processGroup) ==> processGroup in tracked)
      && (forall g :: g in signaled ==> g in tracked) && signaled == termed + killed
      && (forall g :: g in termed <==> Signalled(g, SigTerm, Sent) in trace)
      && (forall g :: g in killed <==> Signalled(g, SigKill, Sent) in trace)
      && OnceEach(trace) && HostSafe(trace, first, host)
      && (scanFailed || signalFailed <==> !NoFailure(trace))
      && Sourced()
      && (exited <==> ExitSeen(true) in trace)
      && AllBlockable(trace, first, host, blocked)
    }

    /** The groups tracked are exactly the known ones, the frontends' groups exactly those of new frontends that a scan
        has shown, and the invalid identities exactly the inexact ones shown; only known groups are signalled. */
    ghost predicate Sourced()
      reads this`trace, this`tracked, this`frontends, this`invalid
    {
      && (forall g :: g in tracked <==> Known(trace, |trace|, before, processGroup, g))
      && (forall g :: g in frontends <==> Seen(trace, |trace|, before, g))
      && (forall r :: r in invalid <==> SeenInexact(trace, before, r))
      && SignalsKnown(trace, before, processGroup) && KillsDue(trace, processGroup)
    }

    constructor (processGroup: int, host: Option<HostIdentity>, before: set<(int, string)>)
      ensures Valid() && trace == [] && first == None && blocked == {}
      ensures this.processGroup == processGroup && this.host == host && this.before == before
    {
      this.processGroup, this.host, this.before := processGroup, host, before;
      tracked := if PositiveGroup(processGroup) then {processGroup} else {};
      frontends, signaled, termed, killed, blocked, invalid := {}, {}, {}, {}, {}, {};
      scanFailed, signalFailed, first, exited, trace := false, false, None, false, [];
    }

    /** What a look adds to the trace, other than a signal or frontends to take up, keeps all that holds of it. */
    twostate lemma LookKeeps(new o: Observation)
      requires old(Valid()) && !o.Signalled? && trace == old(trace) + [o]
      requires forall g :: g in frontends <==> g in old(frontends) || Shows(o, before, g)
      requires forall g :: g in tracked <==> g in old(tracked) || Shows(o, before, g)
      requires forall r :: r in invalid <==> r in old(invalid) || ShowsInexact(o, before, r)
      requires unchanged(`signalFailed) && scanFailed == (old(scanFailed) || Fails(o))
      requires exited == (old(exited) || o == ExitSeen(true))
      requires unchanged(`blocked) && unchanged(`signaled) && unchanged(`termed) && unchanged(`killed) && unchanged(`first)
      ensures Valid()
    {
      hide Fails, HostFound, Shows, ShowsInexact, Sourced;
      FailsOrNot(old(trace), o);
      BlockableStill(old(trace), trace, first, host, blocked);
      SourcedOn(o);
      ShownProper(o);
      hide NoFailure, AllBlockable;
    }

    twostate lemma SourcedOn(new o: Observation)
      requires old(Sourced()) && trace == old(trace) + [o]
      requires o.Signalled? ==> o.target in old(tracked) && (o.signal.SigKill? ==> Due(old(trace), |old(trace)|, processGroup, o.target))
      requires forall g :: g in frontends <==> g in old(frontends) || Shows(o, before, g)
      requires forall g :: g in tracked <==> g in old(tracked) || Shows(o, before, g)
      requires forall r :: r in invalid <==> r in old(invalid) || ShowsInexact(o, before, r)
      ensures Sourced()
    {
      hide Shows, ShowsInexact, Seen, SeenInexact, SignalsKnown, KillsDue, Due;
      SeenOn(old(trace), o, before);
      SignalsOn(old(trace), o, before, processGroup);
    }

    lemma ShownProper(o: Observation)
      ensures forall g :: Shows(o, before, g) ==> PositiveGroup(g)
    {
    }

    /** Rows seen before the spawn are not ours; a row without an exact identity counts as found. */
    method DiscoverFrontends() returns (found: nat)
      requires Valid()
      modifies this`trace, this`scanFailed, this`frontends, this`tracked, this`invalid
      ensures Valid() && old(trace) <= trace && |trace| == |old(trace)| + 1
      ensures trace[|old(trace)|].Frontends?
      ensures forall g :: g in frontends <==> g in old(frontends) || Shows(trace[|old(trace)|], before, g)
      ensures forall g :: g in tracked <==> g in old(tracked) || Shows(trace[|old(trace)|], before, g)
      ensures forall r :: r in invalid <==> r in old(invalid) || ShowsInexact(trace[|old(trace)|], before, r)
      ensures found == 0 <==> ShowsNone(trace[|old(trace)|], before)
    {
      hide Valid;
      found := 0;
      var rows: Option<seq<Row>> := *;
      trace := trace + [Frontends(rows)];
      scanFailed := scanFailed || rows.None?;
      if rows.Some? {
        for i := 0 to |rows.value|
          invariant trace == old(trace) + [Frontends(rows)] && scanFailed == old(scanFailed)
          invariant forall g :: g in frontends <==> g in old(frontends) || Shows(Frontends(Some(rows.value[..i])), before, g)
          invariant forall g :: g in tracked <==> g in old(tracked) || Shows(Frontends(Some(rows.value[..i])), before, g)
          invariant forall r :: r in invalid <==> r in old(invalid) || ShowsInexact(Frontends(Some(rows.value[..i])), before, r)
          invariant found == 0 <==> ShowsNone(Frontends(Some(rows.value[..i])), before)
        {
          var row := rows.value[i];
          ShowsOn(rows.value, i);
          if Ours(row, before) {
            found := found + 1;
            if !Identified(row) || !PositiveGroup(row.pgrp) {
              invalid := invalid + {row};
            } else {
              frontends := frontends + {row.pgrp};
              tracked := tracked + {row.pgrp};
            }
          }
        }
        assert rows.value[..|rows.value|] == rows.value;
      }
      LookKeeps(Frontends(rows));
    }

    /** What one more row adds to a scan. */
    lemma ShowsOn(rows: seq<Row>, i: nat)
      requires i < |rows|
      ensures var o, n := Frontends(Some(rows[..i])), Frontends(Some(rows[..i + 1]));
              && (forall g :: Shows(n, before, g) <==> Shows(o, before, g) || (ExactNew(rows[i], before) && rows[i].pgrp == g))
              && (forall r :: ShowsInexact(n, before, r) <==>
                    ShowsInexact(o, before, r) || (r == rows[i] && !Foreign(r, before) && !ExactNew(r, before)))
              && (ShowsNone(n, before) <==> ShowsNone(o, before) && Foreign(rows[i], before))
    {
      hide ExactNew, Foreign;
      assert rows[..i + 1] == rows[..i] + [rows[i]];
      assert forall j :: 0 <= j < i ==> rows[..i + 1][j] == rows[..i][j];
    }

    /** The exact scan at the end. */
    method InspectFrontends() returns (rows: Option<seq<Row>>)
      requires Valid()
      modifies this`trace, this`scanFailed
      ensures Valid() && trace == old(trace) + [Remnants(rows)]
    {
      rows := *;
      trace := trace + [Remnants(rows)];
      scanFailed := scanFailed || rows.None?;
      LookKeeps(Remnants(rows));
    }

    method InspectProcessGroup(group: int) returns (members: Option<seq<int>>)
      requires Valid()
      modifies this`trace, this`scanFailed
      ensures Valid() && trace == old(trace) + [Group(group, members)]
    {
      members := *;
      trace := trace + [Group(group, members)];
      scanFailed := scanFailed || members.None?;
      LookKeeps(Group(group, members));
    }

    /** Whether the launcher has exited by now; once seen, it has. */
    method InspectExit()
      requires Valid()
      modifies this`trace, this`exited
      ensures Valid() && |trace| == |old(trace)| + 1 && old(trace) <= trace && trace[|old(trace)|].ExitSeen?
    {
      var exits: bool := *;
      trace := trace + [ExitSeen(exits)];
      exited := exited || exits;
      LookKeeps(ExitSeen(exits));
    }

    method InspectHost(identity: HostIdentity) returns (seen: Option<Host>)
      requires Valid()
      modifies this`trace
      ensures Valid() && trace == old(trace) + [HostSeen(seen)]
    {
      seen := *;
      trace := trace + [HostSeen(seen)];
      LookKeeps(HostSeen(seen));
    }

    /** The host, as it is before cleanup. */
    method CaptureHost()
      requires Valid() && trace == []
      requires blocked == {}
      modifies this`trace, this`first
      ensures Valid() && (host.Some? ==> trace == [HostSeen(first)]) && (host.None? ==> trace == [] && first == old(first))
    {
      if host.Some? {
        var seen := InspectHost(host.value);
        first := seen;
      }
    }

    method InspectTrackedGroups() returns (scans: seq<Scan>)
      requires Valid()
      modifies this`trace, this`scanFailed
      ensures Valid() && old(trace) <= trace && |trace| == |old(trace)| + |scans|
      ensures Lists(GroupsOf(scans), tracked) && ScannedAt(trace, |old(trace)|, scans)
    {
      var groups := SortedProcessGroups(tracked);
      scans := [];
      while |scans| < |groups|
        invariant Valid() && old(trace) <= trace && |trace| == |old(trace)| + |scans|
        invariant |scans| <= |groups| && GroupsOf(scans) == groups[..|scans|]
        invariant ScannedAt(trace, |old(trace)|, scans)
      {
        var group := groups[|scans|];
        var members := InspectProcessGroup(group);
        scans := scans + [Scan(group, members)];
      }
      assert groups[..|groups|] == groups;
    }

    /** What a signal adds to the trace keeps all that holds of it. */
    twostate lemma SignalKeeps(new o: Observation)
      requires old(Valid()) && o.Signalled? && trace == old(trace) + [o] && o.target in tracked
      requires o.target !in (if o.signal.SigTerm? then old(termed) else old(killed))
      requires host.Some? ==> HostFound(first, host.value) && o.target != first.value.pgrp
      requires host.Some? ==> old(trace) != [] && Clear(old(trace)[|old(trace)| - 1], o.target, host.value)
      requires o.signal.SigKill? ==> Due(old(trace), |old(trace)|, processGroup, o.target)
      requires unchanged(`tracked) && unchanged(`frontends) && unchanged(`invalid) && unchanged(`scanFailed)
      requires unchanged(`blocked) && unchanged(`first) && unchanged(`exited)
      requires termed == old(termed) + (if Delivered(o) && o.signal.SigTerm? then {o.target} else {})
      requires killed == old(killed) + (if Delivered(o) && o.signal.SigKill? then {o.target} else {})
      requires signaled == old(signaled) + (if Delivered(o) then {o.target} else {})
      requires signalFailed == (old(signalFailed) || o.outcome.Failed?)
      ensures Valid()
    {
      hide Due, Sourced, PositiveGroup, HostFound, Clear;
      FailsOrNot(old(trace), o);
      BlockableStill(old(trace), trace, first, host, blocked);
      OnceMore(old(trace), o);
      SafeMore(old(trace), o, first, host);
      SourcedOn(o);
      hide NoFailure, AllBlockable, OnceEach, HostSafe;
    }

    /** process.kill on a process group. */
    method KillProcess(group: int, signal: Signal) returns (outcome: Outcome)
      requires Valid() && group in tracked && group !in (if signal.SigTerm? then termed else killed)
      requires host.Some? ==> HostFound(first, host.value) && group != first.value.pgrp
      requires host.Some? ==> trace != [] && Clear(trace[|trace| - 1], group, host.value)
      requires signal.SigKill? ==> Due(trace, |trace|, processGroup, group)
      modifies this`trace, this`signaled, this`termed, this`killed, this`signalFailed
      ensures Valid() && trace == old(trace) + [Signalled(group, signal, outcome)]
    {
      hide HostFound, Clear, Valid, Due;
      outcome := *;
      trace := trace + [Signalled(group, signal, outcome)];
      if outcome.Sent? {
        signaled := signaled + {group};
        if signal.SigTerm? { termed := termed + {group}; } else { killed := killed + {group}; }
      } else if outcome.Failed? {
        signalFailed := true;
      }
      SignalKeeps(Signalled(group, signal, outcome));
    }

    method Block(group: int)
      requires Valid() && Blockable(trace, first, host, group)
      modifies this`blocked
      ensures Valid() && blocked == old(blocked) + {group}
    {
      hide Blockable, Sourced, OnceEach, HostSafe, NoFailure;
      blocked := blocked + {group};
    }

    method SignalGroup(group: int, signal: Signal)
      requires Valid() && group in tracked && group !in (if signal.SigTerm? then termed else killed)
      requires signal.SigKill? ==> Due(trace, |trace| + 1, processGroup, group)
      modifies this`trace, this`scanFailed, this`blocked, this`signaled, this`termed, this`killed, this`signalFailed
      ensures Valid() && old(trace) <= trace && old(blocked) <= blocked
      ensures forall k :: |old(trace)| <= k < |trace| ==> trace[k].Group? || trace[k].Signalled?
      ensures group in blocked || Tried(trace, group, signal)
    {
      hide Due, Valid;
      if host.Some? && !HostFound(first, host.value) {
        Block(group);
        return;
      }
      var members := InspectProcessGroup(group);
      assert trace[|trace| - 1] == Group(group, members);
      if members.None? {
        Block(group);
        return;
      }
      if host.Some? && (group == first.value.pgrp || host.value.pid in members.value) {
        Block(group);
        return;
      }
      if signal.SigKill? { DueNext(old(trace), Group(group, members), processGroup, group); }
      var outcome := KillProcess(group, signal);
      assert trace[|trace| - 1].Signalled?;
    }

    /** Every group of a list has been signalled, or is blocked. */
    ghost predicate Dealt(groups: seq<int>, signal: Signal)
      reads this
    {
      forall k :: 0 <= k < |groups| ==> groups[k] in blocked || Tried(trace, groups[k], signal)
    }

    /** SIGTERM to every tracked group that has not had one. */
    method TermGroups()
      requires Valid()
      modifies this`trace, this`scanFailed, this`blocked, this`signaled, this`termed, this`killed, this`signalFailed
      ensures Valid() && old(trace) <= trace && old(blocked) <= blocked
      ensures forall g :: g in tracked ==> g in blocked || Tried(trace, g, SigTerm)
    {
      hide Sourced, OnceEach, HostSafe, NoFailure, AllBlockable;
      var groups := SortedProcessGroups(tracked);
      for i := 0 to |groups|
        invariant Valid() && old(trace) <= trace && old(blocked) <= blocked
        invariant Dealt(groups[..i], SigTerm)
      {
        assert groups[i] in groups;
        ghost var sofar := trace;
        if groups[i] !in termed {
          SignalGroup(groups[i], SigTerm);
          TriedGrows(sofar, trace);
        } else {
          assert Signalled(groups[i], SigTerm, Sent) in trace;
        }
        assert groups[..i + 1] == groups[..i] + [groups[i]];
      }
      forall g | g in tracked ensures g in blocked || Tried(trace, g, SigTerm) {
        var k :| 0 <= k < |groups| && groups[k] == g;
        assert groups[..|groups|][k] == g;
      }
    }

    /** Whether a group still has members, or is that of the launcher, which has not exited. */
    predicate Remains(entry: Scan)
      reads this`exited
    {
      HasMembers(entry) || (entry.group == processGroup && !exited)
    }

    ghost predicate RemainsDealt(scans: seq<Scan>)
      reads this
    {
      forall k :: 0 <= k < |scans| && Remains(scans[k]) ==> scans[k].group in blocked || Tried(trace, scans[k].group, SigKill)
    }

    /** SIGKILL, once, to every group that remains. */
    method KillGroups(scans: seq<Scan>, ghost at: nat)
      requires Valid() && forall i :: 0 <= i < |scans| ==> scans[i].group in tracked
      requires ScannedAt(trace, at, scans) && forall k :: at <= k < |trace| ==> !trace[k].Frontends?
      modifies this`trace, this`scanFailed, this`blocked, this`signaled, this`termed, this`killed, this`signalFailed
      ensures Valid() && old(trace) <= trace && old(blocked) <= blocked
      ensures RemainsDealt(scans)
    {
      hide Sourced, OnceEach, HostSafe, NoFailure, AllBlockable, PositiveGroup;
      for i := 0 to |scans|
        invariant Valid() && old(trace) <= trace && old(blocked) <= blocked
        invariant forall k :: at <= k < |trace| ==> !trace[k].Frontends?
        invariant RemainsDealt(scans[..i])
      {
        var entry := scans[i];
        ghost var sofar := trace;
        if Remains(entry) {
          if entry.group !in killed {
            assert old(trace)[at + i] == Group(entry.group, entry.members);
            assert Due(trace, |trace| + 1, processGroup, entry.group);
            SignalGroup(entry.group, SigKill);
            TriedGrows(sofar, trace);
          } else {
            assert Signalled(entry.group, SigKill, Sent) in trace;
          }
        }
        assert scans[..i + 1] == scans[..i] + [entry];
      }
      assert scans[..|scans|] == scans;
    }

    /** One round of the loop: clean when the launcher has exited, every tracked group was found empty and the
        round's scan showed no frontend of ours; otherwise the groups that remain are killed. */
    method Round() returns (clean: bool, ghost at: nat, ghost scans: seq<Scan>)
      requires Valid()
      modifies this`trace, this`scanFailed, this`frontends, this`tracked, this`invalid, this`exited
      modifies this`blocked, this`signaled, this`termed, this`killed, this`signalFailed
      ensures Valid() && old(trace) <= trace && |old(trace)| < at && at + |scans| < |trace|
      ensures trace[|old(trace)|].Frontends? && trace[at + |scans|].ExitSeen?
      ensures Lists(GroupsOf(scans), tracked) && ScannedAt(trace, at, scans)
      ensures clean <==> exited && (forall i :: 0 <= i < |scans| ==> Empty(scans[i])) && ShowsNone(trace[|old(trace)|], before)
      ensures forall g :: g in tracked ==> g in blocked || Tried(trace, g, SigTerm)
      ensures !clean ==> RemainsDealt(scans)
      ensures clean ==> forall k :: 0 <= k < |scans| ==> !Remains(scans[k])
    {
      hide Valid, Lists, GroupsOf, Tried;
      var found := DiscoverFrontends();
      TermGroups();
      at := |trace|;
      ghost var termed := trace;
      var scanned := InspectTrackedGroups();
      scans := scanned;
      InspectExit();
      clean := exited && found == 0 && forall i :: 0 <= i < |scanned| ==> Empty(scanned[i]);
      if !clean {
        AllTracked(scans, tracked);
        NoneSince(trace, at, scans);
        KillGroups(scanned, at);
      }
      TriedGrows(termed, trace);
    }

    /** What a round and its forerunners have done. */
    lemma RoundPursues(at: nat, scans: seq<Scan>)
      requires Valid() && at + |scans| < |trace| && ScannedAt(trace, at, scans) && Lists(GroupsOf(scans), tracked)
      requires forall g :: g in tracked ==> g in blocked || Tried(trace, g, SigTerm)
      requires forall k :: 0 <= k < |scans| && Remains(scans[k]) ==> scans[k].group in blocked || Tried(trace, scans[k].group, SigKill)
      ensures Pursued(trace, |trace|, before, processGroup, blocked)
    {
      hide Tried, GroupsOf, OnceEach, HostSafe, NoFailure, Shows;
      forall g | Known(trace, at, before, processGroup, g) ensures g in GroupsOf(scans) {
        assert Known(trace, |trace|, before, processGroup, g);
      }
      assert trace[..|trace|] == trace;
      assert LastRound(trace, |trace|, before, processGroup, blocked, at, scans);
    }

    /** The last look at everything: frontends left, group scans, the launcher's exit and the host's continuity. */
    method FinalScan() returns (left: nat, scans: seq<Scan>, continuity: bool)
      requires Valid()
      modifies this`trace, this`scanFailed, this`frontends, this`tracked, this`invalid, this`exited
      ensures Valid() && old(trace) <= trace
      ensures Lists(GroupsOf(scans), tracked)
      ensures Looked(trace, |old(trace)|, left, scans, continuity, first, host)
    {
      hide Valid, Lists, GroupsOf;
      var found := DiscoverFrontends();
      var remnants := InspectFrontends();
      left := if remnants.Some? then |remnants.value| else 0;
      scans := InspectTrackedGroups();
      InspectExit();
      continuity := host.None?;
      if host.Some? {
        var current := InspectHost(host.value);
        continuity := HostFound(first, host.value) && current == Some(Host(host.value, first.value.pgrp));
      }
    }

    /** The evidence after the last scan. */
    method Conclude() returns (e: Evidence)
      requires Valid()
      modifies this`trace, this`scanFailed, this`frontends, this`tracked, this`invalid, this`exited
      ensures Valid() && old(trace) <= trace
      ensures Lists(e.tracked, tracked) && Lists(e.frontends, frontends) && Lists(e.signaled, signaled) && Lists(e.blocked, blocked)
      ensures Says(e) && LooksFrom(trace, |old(trace)|, e, first, host)
      ensures e.proven <==> Proves(e, trace)
    {
      var left, scans, continuity := FinalScan();
      var counts := CountsOf(scans);
      var groups := SortedProcessGroups(tracked);
      var frontendGroups := SortedProcessGroups(frontends);
      var signaledGroups := SortedProcessGroups(signaled);
      var blockedGroups := SortedProcessGroups(blocked);
      var frontendExit := left == 0 && forall i :: 0 <= i < |scans| && scans[i].group in frontends ==> Empty(scans[i]);
      var proven := PositiveGroup(processGroup) && exited && frontendExit && MemberCount(counts) == 0 && left == 0 && invalid == {}
        && !scanFailed && !signalFailed && blocked == {} && continuity;
      e := Evidence(processGroup, exited, frontendExit, groups, frontendGroups, signaledGroups, counts, MemberCount(counts),
        left, |invalid|, blockedGroups, if host.Some? && first.Some? then Some(first.value.pgrp) else None, false, continuity, proven);
      ListsNone(blockedGroups, blocked);
      ListsOnce(groups, GroupsOf(scans), tracked);
      hide MemberCount, OnceEach, HostSafe, NoFailure, Sourced;
      LookSaid(trace, |old(trace)|, e, scans, frontends, first, host);
    }

    /** The parts of the evidence that are no scans of the last look. */
    ghost predicate Says(e: Evidence)
      reads this
    {
      && e.processGroup == processGroup && e.count == MemberCount(e.counts) && e.invalid == |invalid| && !e.hostSignaled
      && (e.launcherExit <==> ExitSeen(true) in trace)
      && e.hostGroup == if host.Some? && first.Some? then Some(first.value.pgrp) else None
    }

    /** The whole cleanup. `patience` is how many rounds the deadline allows after the first. */
    method Run(patience: nat) returns (e: Evidence)
      requires Valid() && trace == [] && first == None && blocked == {}
      modifies this
      ensures Valid()
      ensures host.Some? ==> trace != [] && trace[0] == HostSeen(first)
      ensures OnceEach(trace) && HostSafe(trace, first, host) && AllBlockable(trace, first, host, blocked)
      ensures host.Some? && HostLost(first, host.value) ==> forall i :: 0 <= i < |trace| ==> !trace[i].Signalled?
      ensures host.Some? && HostLost(first, host.value) ==> !e.hostContinuity && !e.proven
      ensures Lists(e.tracked, tracked) && Lists(e.frontends, frontends) && Lists(e.signaled, signaled) && Lists(e.blocked, blocked)
      ensures forall g :: g in e.signaled <==> Signalled(g, SigTerm, Sent) in trace || Signalled(g, SigKill, Sent) in trace
      ensures SignalsKnown(trace, before, processGroup) && KillsDue(trace, processGroup)
      ensures forall g :: g in e.tracked <==> Known(trace, |trace|, before, processGroup, g)
      ensures forall g :: g in e.frontends <==> Seen(trace, |trace|, before, g)
      ensures forall r :: r in invalid <==> SeenInexact(trace, before, r)
      ensures Says(e) && exists n :: LooksFrom(trace, n, e, first, host) && Pursued(trace, n, before, processGroup, blocked)
      ensures e.proven <==> Proves(e, trace)
      ensures e.proven ==> (exists n :: AllGone(trace, n, e, first, host)) && Caught(trace, before, e.frontends)
      ensures e.proven && host.Some? && HostListed(trace, host.value) ==> EvidenceComplete(e)
      ensures host.None? ==> !EvidenceComplete(e)
    {
      hide Valid, Known, Seen, SeenInexact, SignalsKnown, KillsDue, LooksFrom, Lists, AllGone, Caught, Proves, Says, OnceEach, HostSafe, NoFailure, HostListed, EvidenceComplete,
        Pursued, GroupsOf, ScannedAt, Tried, Empty, AllBlockable;
      CaptureHost();
      var frontendsFound := DiscoverFrontends();
      TermGroups();
      InspectExit();
      var clean := false;
      var rounds := patience;
      ghost var start, captured := trace, first;
      while !clean
        invariant Valid() && start <= trace && first == captured
        invariant clean ==> Pursued(trace, |trace|, before, processGroup, blocked)
        decreases rounds, !clean
      {
        ghost var at, scans;
        clean, at, scans := Round();
        RoundPursues(at, scans);
        if rounds == 0 {
          break;
        }
        rounds := rounds - 1;
      }
      ghost var n, sofar := |trace|, trace;
      e := Conclude();
      PursuedStill(sofar, trace, before, processGroup, blocked);
      KeptWhole(e);
      LostMeansUnproven(n, e);
      if e.proven { Means(n, e); }
    }

    lemma LostMeansUnproven(n: nat, e: Evidence)
      requires LooksFrom(trace, n, e, first, host) && (e.proven <==> Proves(e, trace))
      ensures host.Some? && HostLost(first, host.value) ==> !e.hostContinuity && !e.proven
    {
      hide NoFailure, HostFound, HostLost, MembersSeen;
      if host.Some? { LostNotFound(first, host.value); }
    }

    lemma KeptWhole(e: Evidence)
      requires Valid() && Says(e) && Lists(e.signaled, signaled) && Lists(e.tracked, tracked) && Lists(e.frontends, frontends)
      ensures SignalsKnown(trace, before, processGroup) && KillsDue(trace, processGroup)
      ensures forall g :: g in e.tracked <==> Known(trace, |trace|, before, processGroup, g)
      ensures forall g :: g in e.frontends <==> Seen(trace, |trace|, before, g)
      ensures forall r :: r in invalid <==> SeenInexact(trace, before, r)
      ensures host.None? ==> !EvidenceComplete(e)
      ensures OnceEach(trace) && HostSafe(trace, first, host) && AllBlockable(trace, first, host, blocked)
      ensures host.Some? && HostLost(first, host.value) ==> forall i :: 0 <= i < |trace| ==> !trace[i].Signalled?
      ensures forall g :: g in e.signaled <==> Signalled(g, SigTerm, Sent) in trace || Signalled(g, SigKill, Sent) in trace
    {
      hide OnceEach, NoFailure, Known, Seen, SeenInexact, SignalsKnown, KillsDue;
    }

    /** What proven evidence means. */
    lemma Means(n: nat, e: Evidence)
      requires Valid() && Says(e) && LooksFrom(trace, n, e, first, host) && e.proven && Proves(e, trace)
      requires Lists(e.tracked, tracked) && Lists(e.frontends, frontends) && Lists(e.signaled, signaled)
      ensures AllGone(trace, n, e, first, host) && Caught(trace, before, e.frontends)
      ensures host.Some? && HostListed(trace, host.value) ==> EvidenceComplete(e)
    {
      hide OnceEach, HostSafe, EvidenceComplete, HostListed;
      GoneWhenProven(trace, n, e, first, host);
      if host.Some? && HostListed(trace, host.value) { Accepted(trace, n, e, first, host.value, tracked, frontends, signaled); }
      hide AllGone, LooksFrom, NoFailure, MemberCount;
      assert invalid == {};
      hide Foreign, ExactNew;
      forall i, j | 0 <= i < |trace| && trace[i].Frontends? && trace[i].rows.Some? && 0 <= j < |trace[i].rows.value|
        ensures var r := trace[i].rows.value[j]; Foreign(r, before) || (ExactNew(r, before) && r.pgrp in e.frontends)
      {
        var r := trace[i].rows.value[j];
        assert ExactNew(r, before) ==> Shows(trace[i], before, r.pgrp);
        assert r !in invalid && !SeenInexact(trace, before, r);
        hide Shows;
      }
    }
  }

  // ----- why the evidence is accepted

  lemma NoneSince(trace: seq<Observation>, at: nat, scans: seq<Scan>)
    requires ScannedAt(trace, at, scans) && |trace| == at + |scans| + 1 && trace[at + |scans|].ExitSeen?
    ensures forall k :: at <= k < |trace| ==> !trace[k].Frontends?
  {
    forall k | at <= k < |trace| - 1 ensures !trace[k].Frontends? { assert trace[at + (k - at)] == Group(scans[k - at].group, scans[k - at].members); }
  }

  lemma AllTracked(scans: seq<Scan>, tracked: set<int>)
    requires Lists(GroupsOf(scans), tracked)
    ensures forall i :: 0 <= i < |scans| ==> scans[i].group in tracked
  {
    forall i | 0 <= i < |scans| ensures scans[i].group in tracked { assert GroupsOf(scans)[i] in GroupsOf(scans); }
  }

  lemma LookSaid(trace: seq<Observation>, n: nat, e: Evidence, scans: seq<Scan>, frontends: set<int>,
                 first: Option<Host>, host: Option<HostIdentity>)
    requires Looked(trace, n, e.duplicates, scans, e.hostContinuity, first, host)
    requires e.tracked == GroupsOf(scans) && e.counts == CountsOf(scans) && Lists(e.frontends, frontends)
    requires e.frontendExit <==> e.duplicates == 0 && forall i :: 0 <= i < |scans| && scans[i].group in frontends ==> Empty(scans[i])
    ensures LooksFrom(trace, n, e, first, host)
  {
    hide HostFound;
    forall i | 0 <= i < |e.tracked|
      ensures trace[n + 2 + i].Group? && trace[n + 2 + i].group == e.tracked[i]
      ensures e.counts[i] == Count(e.tracked[i], MembersSeen(trace[n + 2 + i]))
      ensures e.counts[i].members == 0 <==> Empty(scans[i])
    {
      assert trace[(n + 2) + i] == Group(scans[i].group, scans[i].members);
    }
  }

  lemma NoneLeft(counts: seq<Count>)
    requires MemberCount(counts) == 0
    ensures forall i :: 0 <= i < |counts| ==> counts[i].members == 0
  {
    ZeroTotal(counts);
  }

  lemma GoneWhenProven(trace: seq<Observation>, n: nat, e: Evidence, first: Option<Host>, host: Option<HostIdentity>)
    requires LooksFrom(trace, n, e, first, host) && Proves(e, trace) && e.count == MemberCount(e.counts)
    ensures AllGone(trace, n, e, first, host)
  {
    hide HostFound, MemberCount;
    NoneLeft(e.counts);
    assert !Fails(trace[n + 1]);
    forall i | 0 <= i < |e.tracked| ensures trace[n + 2 + i] == Group(e.tracked[i], Some([])) {
      assert e.counts[i].members == 0;
    }
  }

  /** An empty tracked group cannot be that of the living host. */
  lemma HostUntracked(trace: seq<Observation>, n: nat, e: Evidence, first: Option<Host>, host: HostIdentity)
    requires AllGone(trace, n, e, first, Some(host)) && HostListed(trace, host)
    ensures first.Some? && first.value.pgrp !in e.tracked
  {
    var group := first.value.pgrp;
    forall i | 0 <= i < |e.tracked| ensures e.tracked[i] != group {
      assert trace[n + 2 + i] == Group(e.tracked[i], Some([]));
      assert trace[n + 3 + |e.tracked|] == HostSeen(Some(Host(host, group)));
    }
  }

  lemma Accepted(trace: seq<Observation>, n: nat, e: Evidence, first: Option<Host>, host: HostIdentity,
                 tracked: set<int>, frontends: set<int>, signaled: set<int>)
    requires LooksFrom(trace, n, e, first, Some(host)) && AllGone(trace, n, e, first, Some(host)) && HostListed(trace, host)
    requires e.proven && Proves(e, trace) && e.processGroup in tracked && !e.hostSignaled && e.hostGroup == Some(first.value.pgrp)
    requires Lists(e.tracked, tracked) && Lists(e.frontends, frontends) && Lists(e.signaled, signaled)
    requires forall g :: g in frontends || g in signaled ==> g in tracked
    requires forall g :: g in tracked ==> PositiveGroup(g)
    ensures EvidenceComplete(e)
  {
    HostUntracked(trace, n, e, first, host);
    assert e.tracked != [];
    forall i | 0 <= i < |e.counts| ensures e.counts[i] == Count(e.tracked[i], 0) {
      assert trace[n + 2 + i] == Group(e.tracked[i], Some([]));
    }
    hide LooksFrom, AllGone, HostListed, NoFailure;
    forall i | 0 <= i < |e.tracked| ensures PositiveGroup(e.tracked[i]) { assert e.tracked[i] in e.tracked; }
    forall i | 0 <= i < |e.frontends| ensures PositiveGroup(e.frontends[i]) { assert e.frontends[i] in e.frontends; }
    forall i | 0 <= i < |e.signaled| ensures PositiveGroup(e.signaled[i]) { assert e.signaled[i] in e.signaled; }
  }
}
