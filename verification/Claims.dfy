/** Fenced task claims of src/pipeline.js: an index file changed only by compare-and-swap, and one
    file for each claim. Other processes, live, dead half way or long stale, act between any two
    file operations of a call; what they may do to the store is one transition relation. */
module Claims {
  import opened Common

  type Fence = nat

  datatype Status = Active | Completed | Failed

  datatype Identity = Identity(claimId: string, task: string, attempt: string, owner: string, generation: nat, fence: Fence)

  datatype Claim = Claim(identity: Identity, status: Status, pid: Option<nat>,
                         acquiredAt: int, heartbeatAt: int, completedAt: Option<int>)

  datatype Index = Index(nextFence: nat, entries: map<string, Claim>)

  /** The store, with a history: the claims acquired, in order, the releases, and every content the index file has had. */
  datatype Store = Store(
    index: Option<Index>,
    files: map<string, Claim>,
    acquired: seq<Claim>,
    releases: seq<Release>,
    versions: seq<Index>)

  /** A release: the claim the caller presented, and the index entry before and after. */
  datatype Release = Release(presented: Identity, before: Claim, after: Claim)

  ghost predicate Init(s: Store) { s.index == None && s.acquired == [] && s.releases == [] && s.versions == [] }

  /** claimIndexSnapshot: an absent index reads as an empty one. */
  function Snapshot(index: Option<Index>): Index { if index.Some? then index.value else Index(1, map[]) }

  predicate Conflicts(index: Index, task: string) {
    exists key :: key in index.entries && index.entries[key].identity.task == task && index.entries[key].status == Active
  }

  function Acquired(s: Store, c: Claim): Store {
    var i := Snapshot(s.index);
    var next := Index(i.nextFence + 1, i.entries[c.identity.task := c]);
    s.(index := Some(next), acquired := s.acquired + [c], versions := s.versions + [next])
  }

  predicate MayAcquire(s: Store, c: Claim) {
    && !Conflicts(Snapshot(s.index), c.identity.task)
    && c.status == Active && c.identity.fence == Snapshot(s.index).nextFence
  }

  function Released(s: Store, presented: Identity, after: Claim): Store
    requires s.index.Some? && after.identity.task in s.index.value.entries
  {
    var task := after.identity.task;
    var next := s.index.value.(entries := s.index.value.entries[task := after]);
    s.(index := Some(next), versions := s.versions + [next],
       releases := s.releases + [Release(presented, s.index.value.entries[task], after)])
  }

  predicate MayRelease(s: Store, presented: Identity, after: Claim) {
    && s.index.Some? && after.identity.task in s.index.value.entries
    && s.index.value.entries[after.identity.task].identity == after.identity == presented
    && s.index.value.entries[after.identity.task].status == Active && after.status != Active
  }

  /** One file operation of one process. Claim files are rewritten freely: heartbeats race with releases. */
  ghost predicate Steps(s: Store, t: Store) {
    || (exists c :: MayAcquire(s, c) && t == Acquired(s, c))
    || (exists presented, after :: MayRelease(s, presented, after) && t == Released(s, presented, after))
    || t == s.(files := t.files)
  }

  ghost predicate Run(run: seq<Store>) { IsRun(Steps, run) && Init(run[0]) }

  // ----- the invariant

  function ActiveTasks(i: Index): set<string> { set t | t in i.entries && i.entries[t].status == Active }

  ghost predicate ReleasedFence(s: Store, f: Fence) {
    exists k :: 0 <= k < |s.releases| && s.releases[k].before.identity.fence == f
  }

  /** An unreleased claim is in the index, exactly as it was acquired. */
  ghost predicate Held(s: Store, c: Claim) {
    s.index.Some? && c.identity.task in s.index.value.entries && s.index.value.entries[c.identity.task] == c
  }

  ghost predicate Claimed(s: Store) {
    forall c :: c in s.acquired ==> c.status == Active && (Held(s, c) || ReleasedFence(s, c.identity.fence))
  }

  /** Every entry of the index is, or was when active, a claim that was acquired, under its own task. */
  ghost predicate EntryOk(s: Store, task: string, e: Claim) {
    && e.identity.task == task
    && if e.status == Active then e in s.acquired && !ReleasedFence(s, e.identity.fence) else ReleasedFence(s, e.identity.fence)
  }

  ghost predicate Entries(s: Store) {
    forall t :: t in Snapshot(s.index).entries ==> EntryOk(s, t, Snapshot(s.index).entries[t])
  }

  ghost predicate Fenced(s: Store) {
    && (forall i, j :: 0 <= i < j < |s.acquired| ==> s.acquired[i].identity.fence < s.acquired[j].identity.fence)
    && (forall i :: 0 <= i < |s.acquired| ==> s.acquired[i].identity.fence < Snapshot(s.index).nextFence)
  }

  ghost predicate ReleasesOk(s: Store) {
    && (forall k :: 0 <= k < |s.releases| ==> ReleaseOk(s, s.releases[k]))
    && (forall i, j :: 0 <= i < j < |s.releases| ==> s.releases[i].before.identity.fence != s.releases[j].before.identity.fence)
  }

  ghost predicate ReleaseOk(s: Store, r: Release) {
    && r.before in s.acquired && r.presented == r.before.identity == r.after.identity && r.after.status != Active
  }

  function Weight(i: Index): int { 2 * i.nextFence - |ActiveTasks(i)| }

  ghost predicate Versioned(s: Store) {
    && (s.index.None? ==> s.versions == [])
    && (s.index.Some? ==> |s.versions| > 0 && s.versions[|s.versions| - 1] == s.index.value)
    && (forall i, j :: 0 <= i < j < |s.versions| ==> Weight(s.versions[i]) < Weight(s.versions[j]))
    && (forall i :: 0 <= i < |s.versions| ==> Weight(s.versions[i]) <= Weight(Snapshot(s.index)))
  }

  ghost predicate Inv(s: Store) { Claimed(s) && Entries(s) && Fenced(s) && ReleasesOk(s) && Versioned(s) }

  lemma InitInv(s: Store)
    requires Init(s)
    ensures Inv(s)
  {
  }

  lemma ReleasesGrow(s: Store, t: Store)
    requires s.releases <= t.releases
    ensures forall f :: ReleasedFence(s, f) ==> ReleasedFence(t, f)
  {
    forall f | ReleasedFence(s, f) ensures ReleasedFence(t, f) {
      var k :| 0 <= k < |s.releases| && s.releases[k].before.identity.fence == f;
      assert t.releases[k] == s.releases[k];
    }
  }

  // ----- acquiring

  lemma AcquireClaimed(s: Store, c: Claim)
    requires Claimed(s) && Entries(s) && Fenced(s) && MayAcquire(s, c)
    ensures Claimed(Acquired(s, c))
  {
    var t := Acquired(s, c);
    ReleasesGrow(s, t);
    forall d | d in t.acquired ensures d.status == Active && (Held(t, d) || ReleasedFence(t, d.identity.fence)) {
      if d != c && d in s.acquired && Held(s, d) {
        assert d.identity.task != c.identity.task;
      }
    }
  }

  lemma AcquireEntries(s: Store, c: Claim)
    requires Entries(s) && Fenced(s) && ReleasesOk(s) && MayAcquire(s, c)
    ensures Entries(Acquired(s, c)) && Fenced(Acquired(s, c)) && ReleasesOk(Acquired(s, c))
  {
    var t := Acquired(s, c);
    ReleasesGrow(s, t);
    assert forall f :: ReleasedFence(t, f) ==> ReleasedFence(s, f) by {
      forall f | ReleasedFence(t, f) ensures ReleasedFence(s, f) {
        var k :| 0 <= k < |t.releases| && t.releases[k].before.identity.fence == f;
        assert s.releases[k].before.identity.fence == f;
      }
    }
    forall k | 0 <= k < |t.releases| ensures ReleaseOk(t, t.releases[k]) { assert ReleaseOk(s, s.releases[k]); }
  }

  lemma AcquireWeight(i: Index, c: Claim)
    requires c.status == Active && !(c.identity.task in ActiveTasks(i))
    ensures Weight(Index(i.nextFence + 1, i.entries[c.identity.task := c])) == Weight(i) + 1
  {
    var j := Index(i.nextFence + 1, i.entries[c.identity.task := c]);
    assert ActiveTasks(j) == ActiveTasks(i) + {c.identity.task};
  }

  lemma ReleaseWeight(i: Index, task: string, after: Claim)
    requires task in ActiveTasks(i) && after.status != Active
    ensures Weight(i.(entries := i.entries[task := after])) == Weight(i) + 1
  {
    var j := i.(entries := i.entries[task := after]);
    assert ActiveTasks(j) == ActiveTasks(i) - {task};
  }

  lemma VersionAdded(s: Store, t: Store, next: Index)
    requires Versioned(s) && Weight(next) == Weight(Snapshot(s.index)) + 1
    requires t.index == Some(next) && t.versions == s.versions + [next]
    ensures Versioned(t)
  {
    hide Weight;
  }

  lemma AcquireKeeps(s: Store, c: Claim)
    requires Inv(s) && MayAcquire(s, c)
    ensures Inv(Acquired(s, c))
  {
    hide Claimed, Fenced, ReleasesOk, Versioned;
    AcquireClaimed(s, c);
    AcquireEntries(s, c);
    var i := Snapshot(s.index);
    assert c.identity.task in i.entries ==> i.entries[c.identity.task].identity.task == c.identity.task;
    AcquireWeight(i, c);
    VersionAdded(s, Acquired(s, c), Index(i.nextFence + 1, i.entries[c.identity.task := c]));
  }

  // ----- releasing

  lemma ReleaseClaimed(s: Store, presented: Identity, after: Claim)
    requires Claimed(s) && Fenced(s) && MayRelease(s, presented, after)
    ensures var t := Released(s, presented, after); Claimed(t) && Fenced(t)
  {
    var t := Released(s, presented, after);
    var before := s.index.value.entries[after.identity.task];
    ReleasesGrow(s, t);
    assert t.releases[|s.releases|].before == before;
    assert ReleasedFence(t, before.identity.fence);
    forall d | d in t.acquired ensures d.status == Active && (Held(t, d) || ReleasedFence(t, d.identity.fence)) {
      assert d in s.acquired;
    }
  }

  lemma ReleaseLogged(s: Store, presented: Identity, after: Claim)
    requires Entries(s) && ReleasesOk(s) && MayRelease(s, presented, after)
    ensures ReleasesOk(Released(s, presented, after))
  {
    var t := Released(s, presented, after);
    var before := Snapshot(s.index).entries[after.identity.task];
    assert EntryOk(s, after.identity.task, before);
    forall k | 0 <= k < |t.releases| ensures ReleaseOk(t, t.releases[k]) {
      if k < |s.releases| { assert ReleaseOk(s, s.releases[k]); }
    }
    forall k | 0 <= k < |s.releases| ensures s.releases[k].before.identity.fence != before.identity.fence {
      assert !ReleasedFence(s, before.identity.fence);
    }
  }

  lemma OtherFence(s: Store, c: Claim, d: Claim)
    requires Fenced(s) && c in s.acquired && d in s.acquired && c != d
    ensures c.identity.fence != d.identity.fence
  {
  }

  lemma NewlyReleased(s: Store, presented: Identity, after: Claim, f: Fence)
    requires MayRelease(s, presented, after)
    ensures ReleasedFence(Released(s, presented, after), f) ==> ReleasedFence(s, f) || f == presented.fence
  {
    var t := Released(s, presented, after);
    if k :| 0 <= k < |t.releases| && t.releases[k].before.identity.fence == f {
      if k < |s.releases| { assert s.releases[k].before.identity.fence == f; }
    }
  }

  lemma ReleaseEntries(s: Store, presented: Identity, after: Claim)
    requires Entries(s) && Fenced(s) && MayRelease(s, presented, after)
    ensures Entries(Released(s, presented, after))
  {
    var t := Released(s, presented, after);
    var i := Snapshot(s.index);
    var before := i.entries[after.identity.task];
    ReleasesGrow(s, t);
    assert EntryOk(s, after.identity.task, before);
    assert t.releases[|s.releases|].before == before && ReleasedFence(t, before.identity.fence);
    forall k | k in Snapshot(t.index).entries ensures EntryOk(t, k, Snapshot(t.index).entries[k]) {
      if k != after.identity.task {
        var e := i.entries[k];
        assert EntryOk(s, k, e);
        NewlyReleased(s, presented, after, e.identity.fence);
        if e.status == Active { OtherFence(s, e, before); }
      }
    }
  }

  lemma ReleaseKeeps(s: Store, presented: Identity, after: Claim)
    requires Inv(s) && MayRelease(s, presented, after)
    ensures Inv(Released(s, presented, after))
  {
    hide Claimed, Fenced, ReleasesOk, Versioned, Entries;
    ReleaseClaimed(s, presented, after);
    ReleaseLogged(s, presented, after);
    ReleaseEntries(s, presented, after);
    var task := after.identity.task;
    ReleaseWeight(s.index.value, task, after);
    VersionAdded(s, Released(s, presented, after), s.index.value.(entries := s.index.value.entries[task := after]));
  }

  lemma StepKeeps(s: Store, t: Store)
    requires Inv(s) && Steps(s, t)
    ensures Inv(t)
  {
    hide Acquired, Released;
    if c :| MayAcquire(s, c) && t == Acquired(s, c) {
      AcquireKeeps(s, c);
    } else if presented, after :| MayRelease(s, presented, after) && t == Released(s, presented, after) {
      ReleaseKeeps(s, presented, after);
    } else {
      FilesPlayNoPart(s, t);
    }
  }

  lemma FilesPlayNoPart(s: Store, t: Store)
    requires Inv(s) && t == s.(files := t.files)
    ensures Inv(t)
  {
    ReleasesGrow(s, t);
    ReleasesGrow(t, s);
    forall k | 0 <= k < |t.releases| ensures ReleaseOk(t, t.releases[k]) { assert ReleaseOk(s, s.releases[k]); }
    assert forall c :: Held(s, c) ==> Held(t, c);
  }

  lemma RunInv(run: seq<Store>, k: nat)
    requires Run(run) && k < |run|
    ensures Inv(run[k])
  {
    hide Inv, Steps;
    InitInv(run[0]);
    forall s, t | Inv(s) && Steps(s, t) ensures Inv(t) { StepKeeps(s, t); }
    Invariance(Inv, Steps, run, k);
  }

  // ----- theorems over whole runs

  ghost predicate Grew(s: Store, t: Store) {
    s.acquired <= t.acquired && s.releases <= t.releases && s.versions <= t.versions
  }

  lemma {:induction false} RunGrows(run: seq<Store>, i: nat, k: nat)
    requires IsRun(Steps, run) && i <= k < |run|
    ensures Grew(run[i], run[k])
  {
    if i < k {
      RunGrows(run, i, k - 1);
      assert Steps(run[k - 1], run[k - 1 + 1]);
    }
  }

  /** From its acquisition until the release of that same claim, the index entry of its task is that
      claim, unchanged and ACTIVE: no stale, repeated or concurrent call alters it. */
  lemma ExclusiveUntilReleased(run: seq<Store>, i: nat, k: nat, c: Claim)
    requires Run(run) && i <= k < |run| && c in run[i].acquired && !ReleasedFence(run[k], c.identity.fence)
    ensures Held(run[k], c) && c.status == Active
    ensures forall d :: d in run[k].acquired && d.identity.task == c.identity.task && d != c ==>
              ReleasedFence(run[k], d.identity.fence)
  {
    hide Entries, Fenced, ReleasesOk, Versioned;
    RunGrows(run, i, k);
    RunInv(run, k);
    var j :| 0 <= j < |run[i].acquired| && run[i].acquired[j] == c;
    assert run[k].acquired[j] == c;
  }

  /** A release changes the entry of exactly the claim that its caller presented, fence included, and
      no claim is released twice. */
  lemma ReleasesOwnClaim(run: seq<Store>, k: nat, i: nat)
    requires Run(run) && k < |run| && i < |run[k].releases|
    ensures var r := run[k].releases[i];
            && r.presented == r.before.identity == r.after.identity && r.before in run[k].acquired && r.after.status != Active
            && forall j :: 0 <= j < |run[k].releases| && j != i ==> run[k].releases[j].presented.fence != r.presented.fence
  {
    hide Claimed, Entries, Fenced, Versioned;
    RunInv(run, k);
    assert ReleaseOk(run[k], run[k].releases[i]);
    forall j | 0 <= j < |run[k].releases| && j != i
      ensures run[k].releases[j].presented.fence != run[k].releases[i].presented.fence
    {
      assert ReleaseOk(run[k], run[k].releases[j]);
    }
  }

  /** Fences strictly increase in the order of acquisition, and the next fence exceeds them all. */
  lemma FencesIncrease(run: seq<Store>, k: nat)
    requires Run(run) && k < |run|
    ensures forall i, j :: 0 <= i < j < |run[k].acquired| ==>
              run[k].acquired[i].identity.fence < run[k].acquired[j].identity.fence
    ensures forall i :: 0 <= i < |run[k].acquired| ==> run[k].acquired[i].identity.fence < Snapshot(run[k].index).nextFence
  {
    hide Claimed, Entries, ReleasesOk, Versioned;
    RunInv(run, k);
  }

  /** No content of the index file ever recurs, so a swap that succeeds saw the index of the moment. */
  lemma NeverRecurs(run: seq<Store>, k: nat)
    requires Run(run) && k < |run|
    ensures forall i, j :: 0 <= i < j < |run[k].versions| ==> run[k].versions[i] != run[k].versions[j]
  {
    hide Claimed, Entries, Fenced, ReleasesOk;
    RunInv(run, k);
  }

  // ----- the two calls

  datatype Supervisor = Supervisor(id: string, generation: nat)

  datatype Task = Task(id: string, supervisor: string, rest: string)

  datatype AcquireResult = Ok(claim: Claim) | StaleAuthority | ClaimConflict(claimId: string) | Contention

  /** `Unchanged`: the claim file already held the claim with that status, and is returned as it was. */
  datatype ReleaseResult =
    | Done(claim: Claim)
    | Unchanged(claim: Claim)
    | Missing
    | AmbiguousIdentity
    | StaleFence
    | AlreadyTerminal(status: Status)
    | NotIndexed
    | Busy

  const CAS_ATTEMPTS := 256

  lemma IndexIsLastVersion(s: Store)
    requires Inv(s)
    ensures s.index == if s.versions == [] then None else Some(s.versions[|s.versions| - 1])
  {
    hide Claimed, Entries, Fenced, ReleasesOk, Weight;
  }

  /** Between two states of a run with different indexes, the index file was written. */
  lemma ChangedMeansWritten(run: seq<Store>, i: nat, k: nat)
    requires Run(run) && i <= k < |run|
    ensures |run[i].versions| <= |run[k].versions|
    ensures (run[i].index != run[k].index ==> |run[i].versions| < |run[k].versions|)
  {
    hide Inv;
    RunGrows(run, i, k);
    RunInv(run, i);
    RunInv(run, k);
    IndexIsLastVersion(run[i]);
    IndexIsLastVersion(run[k]);
  }

  /** Transition `i` of a run acquires the claim. */
  ghost predicate AcquiredAt(run: seq<Store>, i: nat, c: Claim) {
    1 <= i < |run| && MayAcquire(run[i - 1], c) && run[i] == Acquired(run[i - 1], c)
  }

  /** In state `i` of a run an ACTIVE claim stands against the task. */
  ghost predicate ConflictAt(run: seq<Store>, i: nat, task: string, claimId: string) {
    && i < |run|
    && exists key :: key in Snapshot(run[i].index).entries &&
         var c := Snapshot(run[i].index).entries[key];
         c.identity.task == task && c.identity.claimId == claimId && c.status == Active
  }

  /** In state `i` of a run the claim file holds the claim. */
  ghost predicate FileAt(run: seq<Store>, i: nat, c: Claim) {
    i < |run| && c.identity.claimId in run[i].files && run[i].files[c.identity.claimId] == c
  }

  lemma FileStays(run: seq<Store>, longer: seq<Store>, i: nat, c: Claim)
    requires run <= longer && FileAt(run, i, c)
    ensures FileAt(longer, i, c)
  {
  }

  /** Transition `i` of a run releases the claim that was presented. */
  ghost predicate ReleasedAt(run: seq<Store>, i: nat, presented: Identity, after: Claim) {
    1 <= i < |run| && MayRelease(run[i - 1], presented, after) && run[i] == Released(run[i - 1], presented, after)
  }

  /** The released record is the one read, with the status and a time of completion. */
  predicate Finishes(read: Claim, status: Status, after: Claim) {
    && after.identity == read.identity && after.pid == read.pid && after.acquiredAt == read.acquiredAt
    && after.heartbeatAt == read.heartbeatAt && after.status == status && after.completedAt.Some?
  }

  /** The record that it finishes was in the claim's file in some state from `from` on, and active. */
  ghost predicate ReadSince(run: seq<Store>, from: nat, status: Status, after: Claim) {
    exists i, read :: from <= i < |run| && FileAt(run, i, read) && read.status == Active && Finishes(read, status, after)
  }

  lemma AcquireSteps(s: Store, c: Claim)
    requires MayAcquire(s, c)
    ensures Steps(s, Acquired(s, c))
  {
  }

  lemma ReleaseSteps(s: Store, presented: Identity, after: Claim)
    requires MayRelease(s, presented, after)
    ensures Steps(s, Released(s, presented, after))
  {
  }

  lemma Noted(run: seq<Store>, i: nat, task: string, c: Claim)
    requires i < |run| && c.identity.task == task && c.status == Active
    requires exists key :: key in Snapshot(run[i].index).entries && Snapshot(run[i].index).entries[key] == c
    ensures ConflictAt(run, i, task, c.identity.claimId)
  {
  }

  /** A failed swap means that the index was written after it was read. */
  lemma Counted(run: seq<Store>, from: nat, seen: nat, k: nat)
    requires Run(run) && from <= seen <= k < |run| && run[seen].index != run[k].index
    ensures |run[k].versions| >= |run[from].versions| + 1
  {
    ChangedMeansWritten(run, from, seen);
    ChangedMeansWritten(run, seen, k);
  }

  /** From position `from` on, the run has a transition that acquires the claim for this task, attempt and owner. */
  ghost predicate Acquires(run: seq<Store>, from: nat, owner: Supervisor, task: string, attempt: string, c: Claim) {
    && c.identity == Identity(c.identity.claimId, task, attempt, owner.id, owner.generation, c.identity.fence)
    && exists i :: from <= i < |run| && AcquiredAt(run, i, c)
  }

  ghost predicate Conflicted(run: seq<Store>, from: nat, task: string, claimId: string) {
    exists i :: from <= i < |run| && ConflictAt(run, i, task, claimId)
  }

  ghost predicate Releases(run: seq<Store>, from: nat, presented: Identity, status: Status, c: Claim) {
    && c.identity == presented && c.status == status
    && exists i :: from <= i < |run| && ReleasedAt(run, i, presented, c)
  }

  ghost predicate Filed(run: seq<Store>, from: nat, c: Claim) { exists i :: from <= i < |run| && FileAt(run, i, c) }

  /** What the files said when a release ended without changing the index. */
  predicate Explains(s: Store, presented: Identity, status: Status, r: ReleaseResult) {
    var id := presented.claimId;
    match r
    case Missing => id !in s.files
    case AmbiguousIdentity => id in s.files && s.files[id].identity != presented.(fence := s.files[id].identity.fence)
    case StaleFence =>
      id in s.files && s.files[id].identity == presented.(fence := s.files[id].identity.fence) && s.files[id].identity != presented
    case Unchanged(c) => id in s.files && s.files[id] == c && c.identity == presented && c.status == status
    case AlreadyTerminal(other) =>
      id in s.files && s.files[id].identity == presented && s.files[id].status == other && other != Active && other != status
    case NotIndexed =>
      var entries := Snapshot(s.index).entries;
      presented.task !in entries || entries[presented.task].identity != presented || entries[presented.task].status != Active
    case Done(_) => false
    case Busy => false
  }

  ghost predicate Explained(run: seq<Store>, from: nat, presented: Identity, status: Status, r: ReleaseResult) {
    exists i :: from <= i < |run| && Explains(run[i], presented, status, r)
  }

  lemma WiderRelease(run: seq<Store>, from: nat, later: nat, presented: Identity, status: Status, r: ReleaseResult)
    requires 1 <= from <= later
    ensures r.Done? && Releases(run, later, presented, status, r.claim) ==> Releases(run, from, presented, status, r.claim)
    ensures r.Done? && Filed(run, later - 1, r.claim) ==> Filed(run, from - 1, r.claim)
    ensures Explained(run, later - 1, presented, status, r) ==> Explained(run, from - 1, presented, status, r)
  {
    hide Explains;
  }

  lemma StillAcquired(run: seq<Store>, longer: seq<Store>, i: nat, c: Claim)
    requires run <= longer && AcquiredAt(run, i, c)
    ensures AcquiredAt(longer, i, c)
  {
  }

  lemma StillReleased(run: seq<Store>, longer: seq<Store>, i: nat, presented: Identity, c: Claim)
    requires run <= longer && ReleasedAt(run, i, presented, c)
    ensures ReleasedAt(longer, i, presented, c)
  {
  }

  lemma Wider(run: seq<Store>, from: nat, later: nat, owner: Supervisor, task: string, attempt: string, r: AcquireResult)
    requires 1 <= from <= later
    ensures r.Ok? && Acquires(run, later, owner, task, attempt, r.claim) ==> Acquires(run, from, owner, task, attempt, r.claim)
    ensures r.Ok? && Filed(run, later, r.claim) ==> Filed(run, from, r.claim)
    ensures r.ClaimConflict? && Conflicted(run, later - 1, task, r.claimId) ==> Conflicted(run, from - 1, task, r.claimId)
  {
  }

  /** A claim acquired during a run is in the final index, or has been released. */
  lemma Outcome(run: seq<Store>, from: nat, owner: Supervisor, task: string, attempt: string, c: Claim)
    requires Run(run) && Acquires(run, from, owner, task, attempt, c)
    ensures Held(run[|run| - 1], c) || ReleasedFence(run[|run| - 1], c.identity.fence)
  {
    hide Inv;
    var last := |run| - 1;
    var i :| from <= i < |run| && AcquiredAt(run, i, c);
    assert run[i].acquired[|run[i - 1].acquired|] == c;
    if !ReleasedFence(run[last], c.identity.fence) { ExclusiveUntilReleased(run, i, last, c); }
  }

  /** What a swap answers: done, the content is another, or somebody, alive or dead, holds its lock directory. */
  datatype SwapAnswer = Swapped | Changed | LockBusy

  /** The claims directory, as one process sees it. The history records every state it has had, and
      `refused` counts the swaps of this process that found the lock directory taken. */
  class ClaimStore {
    var index: Option<Index>
    var files: map<string, Claim>
    ghost var history: seq<Store>
    ghost var refused: nat

    ghost predicate Valid()
      reads this
    {
      Run(history) && history[|history| - 1].index == index && history[|history| - 1].files == files
    }

    constructor ()
      ensures Valid() && index == None
    {
      index, files := None, map[];
      history, refused := [Store(None, map[], [], [], [])], 0;
    }

    ghost function Now(): Store
      requires Valid()
      reads this
    {
      history[|history| - 1]
    }

    /** The index is replaced, which `intended` records. */
    method WriteIndex(next: Index, ghost intended: Store)
      requires Valid() && Steps(Now(), intended) && intended.index == Some(next) && intended.files == files
      modifies this`index, this`history
      ensures Valid() && index == Some(next) && history == old(history) + [intended]
    {
      hide Steps;
      index := Some(next);
      history := history + [intended];
      assert forall i :: 0 <= i < |history| - 2 ==> Steps(history[i], history[i + 1]);
    }

    /** atomicCompareAndSwapJson on the index file. */
    method CompareAndSwap(expected: Option<Index>, next: Index, ghost intended: Store) returns (answer: SwapAnswer)
      requires Valid()
      requires index == expected ==> Steps(Now(), intended) && intended.index == Some(next) && intended.files == files
      modifies this
      ensures Valid()
      ensures answer.Swapped? ==> old(index) == expected
      ensures answer.Changed? ==> old(index) != expected
      ensures history == old(history) + if answer.Swapped? then [intended] else []
      ensures files == old(files) && index == if answer.Swapped? then Some(next) else old(index)
      ensures refused == old(refused) + if answer.LockBusy? then 1 else 0
    {
      hide Steps;
      var held: bool := *;
      if held {
        refused := refused + 1;
        return LockBusy;
      }
      if index != expected {
        return Changed;
      }
      WriteIndex(next, intended);
      return Swapped;
    }

    /** writeJson on a claim file. */
    method WriteClaim(claim: Claim)
      requires Valid()
      modifies this`files, this`history
      ensures Valid() && index == old(index) && files == old(files)[claim.identity.claimId := claim]
      ensures history == old(history) + [old(Now()).(files := files)]
    {
      files := files[claim.identity.claimId := claim];
      history := history + [history[|history| - 1].(files := files)];
    }

    /** Other processes act, any number of them: a caller knows only that they make transitions. */
    method Interfere()
      requires Valid()
      modifies this`index, this`files, this`history
      ensures Valid() && old(history) <= history
    {
      var n: nat := *;
      while n > 0
        invariant Valid() && old(history) <= history
      {
        var c: Claim := *;
        var current := Snapshot(index);
        var which: nat := *;
        if which == 0 {
          c := c.(status := Active, identity := c.identity.(fence := current.nextFence));
          if !Conflicts(current, c.identity.task) {
            var next := Index(current.nextFence + 1, current.entries[c.identity.task := c]);
            AcquireSteps(Now(), c);
            WriteIndex(next, Acquired(Now(), c));
          }
        } else if which == 1 {
          var task := c.identity.task;
          if task in current.entries && current.entries[task].identity == c.identity
             && current.entries[task].status == Active && c.status != Active {
            ReleaseSteps(Now(), c.identity, c);
            WriteIndex(current.(entries := current.entries[task := c]), Released(Now(), c.identity, c));
          }
        } else {
          WriteClaim(c);
        }
        n := n - 1;
      }
    }

    /** One attempt of acquireClaim: read the index, swap, write the claim file. `None` is a round lost to another
        write or to a busy swap. */
    method TryAcquire(owner: Supervisor, task: string, attemptId: string) returns (r: Option<AcquireResult>)
      requires Valid()
      modifies this
      ensures Valid() && old(history) <= history
      ensures refused >= old(refused)
      ensures r.None? ==> |Now().versions| - |old(Now()).versions| + refused - old(refused) >= 1
      ensures r.Some? ==> r.value.Ok? || r.value.ClaimConflict?
      ensures r.Some? && r.value.Ok? ==> Acquires(history, |old(history)|, owner, task, attemptId, r.value.claim)
      ensures r.Some? && r.value.Ok? ==> Filed(history, |old(history)|, r.value.claim)
      ensures r.Some? && r.value.ClaimConflict? ==> Conflicted(history, |old(history)| - 1, task, r.value.claimId)
    {
      hide Steps;
      Interfere();
      var snapshot := index;
      ghost var seen := |history| - 1;
      var current := Snapshot(snapshot);
      if Conflicts(current, task) {
        var key :| key in current.entries && current.entries[key].identity.task == task && current.entries[key].status == Active;
        Noted(history, seen, task, current.entries[key]);
        return Some(ClaimConflict(current.entries[key].identity.claimId));
      }
      var claimId: string := *;
      var now: int := *;
      var identity := Identity(claimId, task, attemptId, owner.id, owner.generation, current.nextFence);
      var claim := Claim(identity, Active, None, now, now, None);
      Interfere();
      ghost var reached := history;
      if index == snapshot { AcquireSteps(Now(), claim); }
      var next := Index(current.nextFence + 1, current.entries[task := claim]);
      var answer := CompareAndSwap(snapshot, next, Acquired(Now(), claim));
      if answer.LockBusy? {
        ChangedMeansWritten(history, |old(history)| - 1, |history| - 1);
        return None;
      }
      if answer.Changed? {
        Counted(history, |old(history)| - 1, seen, |history| - 1);
        return None;
      }
      assert AcquiredAt(history, |reached|, claim);
      ghost var mine := history;
      Interfere();
      WriteClaim(claim);
      assert FileAt(history, |history| - 1, claim);
      StillAcquired(mine, history, |reached|, claim);
      return Some(Ok(claim));
    }

    /** acquireClaim. The task file and the supervisor are what the caller has just read. */
    method AcquireClaim(supervisor: Supervisor, taskFile: Option<Task>, task: Task, attemptId: string) returns (r: AcquireResult)
      requires Valid()
      modifies this
      ensures Valid() && old(history) <= history
      ensures r == StaleAuthority <==> attemptId == "" || taskFile != Some(task) || task.supervisor != supervisor.id
      ensures r == StaleAuthority ==> history == old(history)
      ensures r.Ok? ==> Acquires(history, |old(history)|, supervisor, task.id, attemptId, r.claim)
      ensures r.Ok? ==> Filed(history, |old(history)|, r.claim)
      ensures r.Ok? ==> Held(Now(), r.claim) || ReleasedFence(Now(), r.claim.identity.fence)
      ensures r.ClaimConflict? ==> Conflicted(history, |old(history)| - 1, task.id, r.claimId)
      ensures r.Contention? ==> |Now().versions| - |old(Now()).versions| + refused - old(refused) >= CAS_ATTEMPTS
    {
      hide Acquires, Conflicted, Filed;
      if attemptId == "" || taskFile != Some(task) || task.supervisor != supervisor.id {
        return StaleAuthority;
      }
      var attempt := 0;
      while attempt < CAS_ATTEMPTS
        invariant Valid() && old(history) <= history && attempt <= CAS_ATTEMPTS
        invariant |Now().versions| - |old(Now()).versions| + refused - old(refused) >= attempt
      {
        ghost var from := |history|;
        var tried := TryAcquire(supervisor, task.id, attemptId);
        if tried.Some? {
          Wider(history, |old(history)|, from, supervisor, task.id, attemptId, tried.value);
          if tried.value.Ok? { Outcome(history, |old(history)|, supervisor, task.id, attemptId, tried.value.claim); }
          return tried.value;
        }
        attempt := attempt + 1;
      }
      return Contention;
    }

    /** One attempt of the swap loop of releaseClaim: the record read from the claim file against the index. */
    method TryRelease(current: Claim, status: Status) returns (r: Option<ReleaseResult>)
      requires Valid() && status != Active && current.status == Active
      modifies this
      ensures Valid() && old(history) <= history
      ensures refused >= old(refused)
      ensures r.None? ==> |Now().versions| - |old(Now()).versions| + refused - old(refused) >= 1
      ensures r.Some? ==> r.value.NotIndexed? || r.value.Done?
      ensures r.Some? && r.value.Done? ==> Releases(history, |old(history)|, current.identity, status, r.value.claim)
      ensures r.Some? && r.value.Done? ==> Finishes(current, status, r.value.claim)
      ensures r.Some? && r.value.Done? ==> Filed(history, |old(history)| - 1, r.value.claim)
      ensures r.Some? && r.value.NotIndexed? ==> Explained(history, |old(history)| - 1, current.identity, status, NotIndexed)
    {
      hide Steps;
      var task := current.identity.task;
      Interfere();
      var snapshot := index;
      ghost var seen := |history| - 1;
      var entries := Snapshot(snapshot).entries;
      if task !in entries || entries[task].identity != current.identity || entries[task].status != current.status {
        assert Explains(history[seen], current.identity, status, NotIndexed);
        return Some(NotIndexed);
      }
      var now: int := *;
      var released := current.(status := status, completedAt := Some(now));
      Interfere();
      ghost var reached := history;
      if index == snapshot { ReleaseSteps(Now(), current.identity, released); }
      var answer := CompareAndSwap(snapshot, Snapshot(snapshot).(entries := entries[task := released]),
        if index == snapshot then Released(Now(), current.identity, released) else Now());
      if answer.LockBusy? {
        ChangedMeansWritten(history, |old(history)| - 1, |history| - 1);
        return None;
      }
      if answer.Changed? {
        Counted(history, |old(history)| - 1, seen, |history| - 1);
        return None;
      }
      assert ReleasedAt(history, |reached|, current.identity, released);
      ghost var mine := history;
      Interfere();
      WriteClaim(released);
      assert FileAt(history, |history| - 1, released);
      StillReleased(mine, history, |reached|, current.identity, released);
      return Some(Done(released));
    }

    /** releaseClaim, for the two statuses that its callers pass. */
    method ReleaseClaim(claim: Claim, status: Status) returns (r: ReleaseResult)
      requires Valid() && status != Active
      modifies this
      ensures Valid() && old(history) <= history
      ensures r.Done? ==> Releases(history, |old(history)|, claim.identity, status, r.claim)
      ensures r.Done? ==> ReadSince(history, |old(history)| - 1, status, r.claim)
      ensures r.Done? ==> Filed(history, |old(history)| - 1, r.claim)
      ensures !r.Done? && !r.Busy? ==> Explained(history, |old(history)| - 1, claim.identity, status, r)
      ensures r.Busy? ==> |Now().versions| - |old(Now()).versions| + refused - old(refused) >= CAS_ATTEMPTS
    {
      Interfere();
      ghost var looked := |history| - 1;
      if claim.identity.claimId !in files {
        assert Explains(history[looked], claim.identity, status, Missing);
        return Missing;
      }
      var current := files[claim.identity.claimId];
      if current.identity != claim.identity.(fence := current.identity.fence) {
        assert Explains(history[looked], claim.identity, status, AmbiguousIdentity);
        return AmbiguousIdentity;
      }
      if current.identity.fence != claim.identity.fence {
        assert Explains(history[looked], claim.identity, status, StaleFence);
        return StaleFence;
      }
      if current.status != Active {
        r := if current.status == status then Unchanged(current) else AlreadyTerminal(current.status);
        assert Explains(history[looked], claim.identity, status, r);
        return;
      }
      ChangedMeansWritten(history, |old(history)| - 1, looked);
      assert FileAt(history, looked, current);
      hide Explains, Releases, Filed, Finishes, FileAt;
      var attempt := 0;
      while attempt < CAS_ATTEMPTS
        invariant Valid() && old(history) <= history && attempt <= CAS_ATTEMPTS
        invariant |Now().versions| - |old(Now()).versions| + refused - old(refused) >= attempt
        invariant FileAt(history, looked, current)
      {
        ghost var from, sofar := |history|, history;
        var tried := TryRelease(current, status);
        FileStays(sofar, history, looked, current);
        if tried.Some? {
          WiderRelease(history, |old(history)|, from, current.identity, status, tried.value);
          return tried.value;
        }
        attempt := attempt + 1;
      }
      return Busy;
    }
  }
}
