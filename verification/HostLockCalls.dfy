/** What one call of the host lock achieves: a release frees the lock, an acquisition that finds it free or left by
    the dead takes it, and a contender leaves a living owner alone. */
module HostLockCalls {
  import opened Common
  import opened HostLock

  /** While no takeover has moved a wrong record, a process that owned the lock and is idle after the next step has
      left no lock, and it is the first to be without one: its record was in the directory just before. */
  lemma ReleaseFrees(run: seq<State>, k: nat, p: Pid)
    requires Run(run) && k + 1 < |run| && !TakeoverMismatch(run[k])
    requires p in run[k].procs && Owns(run[k].procs[p]) && p in run[k + 1].procs && run[k + 1].procs[p].Idle?
    ensures run[k].lock.Some? && run[k].lock.value.owner == Some(run[k].procs[p].own)
    ensures run[k + 1].lock.None?
  {
    hide Inv;
    HolderInPlace(run, k, p);
    assert Steps(run[k], run[k + 1]);
    var a :| run[k + 1] == Next(run[k], a);
    Frees(run[k], a, p);
  }

  lemma Frees(s: State, a: Action, p: Pid)
    requires p in s.procs && Owns(s.procs[p]) && p in Next(s, a).procs && Next(s, a).procs[p].Idle?
    requires Owner(s) == Some(s.procs[p].own)
    ensures Next(s, a).lock.None?
  {
    hide StepTakeover;
  }

  /** Undisturbed, a release frees the lock and the process is done. */
  lemma ReleaseAlone(s: State, p: Pid, now: int, name: Pid)
    requires p in s.procs && s.procs[p].Holding? && s.lock.Some? && s.lock.value.owner == Some(s.procs[p].own)
    ensures var t := Next(Next(Next(s, Release(p)), Step(p, now, name)), Step(p, now, name));
            t.lock == None && t.procs == s.procs[p := Idle]
  {
    hide StepTakeover;
    var a := s.(procs := s.procs[p := Releasing(s.procs[p].own)]);
    var b := s.(procs := s.procs[p := Retiring(s.procs[p].own)]);
    assert Next(s, Release(p)) == a;
    assert a.procs[p := Retiring(s.procs[p].own)] == b.procs;
    assert Next(a, Step(p, now, name)) == b;
    assert b.procs[p := Idle] == s.procs[p := Idle];
  }

  /** Undisturbed, an acquisition by a process that is new or idle succeeds at once if and only if there is no lock, or an
      empty directory; otherwise it leaves the lock as it is and goes to look at the owner. */
  lemma AcquireAlone(s: State, p: Pid, now: int, later: int, name: Pid)
    requires p !in s.dead && (p in s.procs ==> s.procs[p].Idle?)
    ensures var t := Next(Next(s, Acquire(p, now)), Step(p, later, name));
            if s.lock == None || s.lock == Some(Dir(None, None)) then
              t == s.(procs := s.procs[p := Holding(Record(p, now))], lock := Some(Dir(Some(Record(p, now)), None)))
            else t == s.(procs := s.procs[p := Observe(Record(p, now))])
  {
    hide StepTakeover;
    var a := s.(procs := s.procs[p := Install(Record(p, now))]);
    assert Next(s, Acquire(p, now)) == a;
    assert a.procs[p := Holding(Record(p, now))] == s.procs[p := Holding(Record(p, now))];
    assert a.procs[p := Observe(Record(p, now))] == s.procs[p := Observe(Record(p, now))];
  }

  /** A contender writes its candidate record exactly where its candidate directory still stands; where it has gone, it
      leaves the lock as it is and contends anew. */
  lemma CandidateWritten(s: State, p: Pid, now: int, name: Pid)
    requires p in s.procs && s.procs[p].Takeover? && s.procs[p].at.WriteCandidate?
    ensures var t := Next(s, Step(p, now, name));
            if s.lock.Some? && s.lock.value.takeovers.Some? && p in s.lock.value.takeovers.value then
              && t.lock == Some(s.lock.value.(takeovers := Some(s.lock.value.takeovers.value[p := Some(Record(p, now))])))
              && p in t.procs && t.procs[p] == s.procs[p].(at := ReadCurrent)
            else t == s.(procs := s.procs[p := Install(s.procs[p].own)])
  {
  }

  /** A contender that withdraws takes its candidate away, and one that finds another's dead takes that away; the owner's
      record and all other candidates stay. */
  lemma CandidateTaken(s: State, p: Pid, now: int, name: Pid, gone: Pid)
    requires p in s.procs && s.procs[p].Takeover?
    requires (s.procs[p].at.Withdraw? && gone == p) || (s.procs[p].at.Discard? && gone == s.procs[p].at.name)
    ensures var t := Next(s, Step(p, now, name));
            && (s.lock.None? ==> t.lock.None?)
            && (s.lock.Some? ==> t.lock.Some? && t.lock.value.owner == s.lock.value.owner)
            && (s.lock.Some? && s.lock.value.takeovers.None? ==> t.lock == s.lock)
            && (s.lock.Some? && s.lock.value.takeovers.Some? ==> t.lock.value.takeovers == Some(s.lock.value.takeovers.value - {gone}))
  {
    if s.lock.Some? && s.lock.value.takeovers.Some? && gone !in s.lock.value.takeovers.value {
      assert s.lock.value.takeovers.value - {gone} == s.lock.value.takeovers.value;
    }
  }

  /** A process comes to hold the lock only where there was none, or an empty directory, and puts its own record there. */
  lemma InstallsWhereFree(run: seq<State>, k: nat, p: Pid)
    requires Run(run) && k + 1 < |run| && p in run[k + 1].procs && run[k + 1].procs[p].Holding?
    requires p in run[k].procs ==> !run[k].procs[p].Holding?
    ensures run[k].lock == None || run[k].lock == Some(Dir(None, None))
    ensures run[k + 1].lock == Some(Dir(Some(run[k + 1].procs[p].own), None)) && run[k + 1].procs[p].own.process == p
  {
    hide Inv;
    RunInv(run, k + 1);
    OwnRecord(run[k + 1], p);
    assert Steps(run[k], run[k + 1]);
    var a :| run[k + 1] == Next(run[k], a);
    Installs(run[k], a, p);
  }

  lemma Installs(s: State, a: Action, p: Pid)
    requires p in Next(s, a).procs && Next(s, a).procs[p].Holding? && (p in s.procs ==> !s.procs[p].Holding?)
    ensures s.lock == None || s.lock == Some(Dir(None, None))
    ensures Next(s, a).lock == Some(Dir(Some(Next(s, a).procs[p].own), None))
  {
    hide StepTakeover;
    if a.Step? && a.p in s.procs && s.procs[a.p].Takeover? { TakeoverHoldsNothing(s, a.p, a.now, a.name); }
  }

  lemma TakeoverHoldsNothing(s: State, p: Pid, now: int, name: Pid)
    requires p in s.procs && s.procs[p].Takeover?
    ensures var x := StepTakeover(s, p, s.procs[p].own, s.procs[p].seen, s.procs[p].at, now, name);
            x.Stay? || !x.next.Holding?
  {
  }

  // ----- whose lock is moved

  /** A takeover meant to move the record of a process that is dead, a release its own. */
  ghost predicate MeantWell(s: State) {
    forall i :: 0 <= i < |s.retirements| ==>
      var r := s.retirements[i]; if r.takeover then r.meant.process in s.dead else r.meant.process == r.by_
  }

  lemma KeepsMeantWell(s: State, a: Action)
    requires Inv(s) && MeantWell(s)
    ensures MeantWell(Next(s, a))
  {
    hide ProcStep;
    if a.Step? && a.p in s.procs {
      ProcOk(s, a.p, a.now, a.name);
      assert LocalOk(s, a.p, s.procs[a.p]);
    }
  }

  ghost predicate Well(s: State) { Inv(s) && MeantWell(s) }

  /** In every run, whoever moves the lock directory away means either its own record, or one of a process that had
      died when the rename was made and so is dead for good. */
  lemma OnlyDeadOrOwn(run: seq<State>, k: nat, i: nat)
    requires Run(run) && k < |run| && i < |run[k].retirements|
    ensures var r := run[k].retirements[i]; if r.takeover then r.meant.process in run[k].dead else r.meant.process == r.by_
  {
    hide Inv, Next;
    InitInv(run[0]);
    forall s, t | Well(s) && Steps(s, t) ensures Well(t) {
      var a :| t == Next(s, a);
      NextKeeps(s, a);
      KeepsMeantWell(s, a);
    }
    Invariance(Well, Steps, run, k);
  }

  // ----- a contender alone takes over a stale lock

  predicate ByItself(a: Action, p: Pid) { (a.Acquire? && a.p == p) || (a.Step? && a.p == p) }

  /** The process alone can come from the one state to the other. */
  ghost predicate LeadsIn(p: Pid, s: State, t: State, n: nat)
    decreases n
  {
    if n == 0 then s == t else exists a :: ByItself(a, p) && LeadsIn(p, Next(s, a), t, n - 1)
  }

  ghost predicate Leads(p: Pid, s: State, t: State) { exists n: nat :: LeadsIn(p, s, t, n) }

  lemma LeadsThere(p: Pid, s: State)
    ensures Leads(p, s, s)
  {
    assert LeadsIn(p, s, s, 0);
  }

  lemma LeadsOn(p: Pid, s: State, a: Action, next: State, t: State)
    requires ByItself(a, p) && next == Next(s, a) && Leads(p, next, t)
    ensures Leads(p, s, t)
  {
    hide Next;
    var n: nat :| LeadsIn(p, next, t, n);
    assert LeadsIn(p, s, t, n + 1);
  }

  type Candidacies = map<Pid, Option<Record>>

  /** The process takes over from the record it has seen, beside these candidates. */
  function At(s: State, own: Record, seen: Record, at: TakeoverPc, candidates: Candidacies): State {
    s.(procs := s.procs[own.process := Takeover(own, seen, at)], lock := Some(Dir(Some(seen), Some(candidates))))
  }

  /** All candidates but that of the process itself were left by the dead, with a record or without. */
  predicate OthersDead(s: State, p: Pid, candidates: Candidacies) {
    forall n :: n in candidates && n != p && candidates[n].Some? ==> candidates[n].value.process !in s.procs && candidates[n].value.process != p
  }

  /** The process holds the lock with its record, and the record it had seen was moved away. */
  function TakenOver(s: State, own: Record, seen: Record): State {
    s.(procs := s.procs[own.process := Holding(own)], lock := Some(Dir(Some(own), None)),
       retirements := s.retirements + [Retirement(own.process, true, seen, Some(seen))])
  }

  lemma ElectedTakesOver(s: State, own: Record, seen: Record, candidates: Candidacies)
    ensures Leads(own.process, At(s, own, seen, Elect({own.process}), candidates), TakenOver(s, own, seen))
  {
    hide Leads;
    var p := own.process;
    var moved := s.(procs := s.procs[p := Install(own)], lock := None,
                    retirements := s.retirements + [Retirement(p, true, seen, Some(seen))]);
    LeadsThere(p, TakenOver(s, own, seen));
    LeadsOn(p, moved, Step(p, 0, p), TakenOver(s, own, seen), TakenOver(s, own, seen));
    LeadsOn(p, At(s, own, seen, Move, candidates), Step(p, 0, p), moved, TakenOver(s, own, seen));
    LeadsOn(p, At(s, own, seen, Confirm, candidates), Step(p, 0, p), At(s, own, seen, Move, candidates), TakenOver(s, own, seen));
    LeadsOn(p, At(s, own, seen, Elect({p}), candidates), Step(p, 0, p), At(s, own, seen, Confirm, candidates), TakenOver(s, own, seen));
  }

  /** Looking through the candidates, the process drops those of the dead, and is then the only one left. */
  lemma {:induction false} ScansAlone(s: State, own: Record, seen: Record, names: set<Pid>, live: set<Pid>, candidates: Candidacies)
    requires own.process in candidates && candidates[own.process].Some? && candidates[own.process].value.process == own.process
    requires OthersDead(s, own.process, candidates)
    requires live == (if own.process in names then {} else {own.process})
    ensures Leads(own.process, At(s, own, seen, Scan(names, live), candidates), TakenOver(s, own, seen))
    decreases |names|, 0
  {
    hide Leads;
    var p, from := own.process, At(s, own, seen, Scan(names, live), candidates);
    if names == {} {
      ElectedTakesOver(s, own, seen, candidates);
      LeadsOn(p, from, Step(p, 0, p), At(s, own, seen, Elect({p}), candidates), TakenOver(s, own, seen));
    } else if p in names {
      ScansAlone(s, own, seen, names - {p}, {p}, candidates);
      assert live + {p} == {p};
      LeadsOn(p, from, Step(p, 0, p), At(s, own, seen, Scan(names - {p}, {p}), candidates), TakenOver(s, own, seen));
    } else {
      var n :| n in names;
      DropsOne(s, own, seen, n, names - {n}, live, candidates);
      LeadsOn(p, from, Step(p, 0, n), At(s, own, seen, Discard(n, names - {n}, live), candidates), TakenOver(s, own, seen));
    }
  }

  lemma {:induction false} DropsOne(s: State, own: Record, seen: Record, n: Pid, names: set<Pid>, live: set<Pid>, candidates: Candidacies)
    requires own.process in candidates && candidates[own.process].Some? && candidates[own.process].value.process == own.process
    requires OthersDead(s, own.process, candidates) && n != own.process
    requires live == (if own.process in names then {} else {own.process})
    ensures Leads(own.process, At(s, own, seen, Discard(n, names, live), candidates), TakenOver(s, own, seen))
    decreases |names|, 1
  {
    hide Leads;
    var p, from := own.process, At(s, own, seen, Discard(n, names, live), candidates);
    if n in candidates {
      ScansAlone(s, own, seen, names, live, candidates - {n});
      LeadsOn(p, from, Step(p, 0, p), At(s, own, seen, Scan(names, live), candidates - {n}), TakenOver(s, own, seen));
    } else {
      ScansAlone(s, own, seen, names, live, candidates);
      LeadsOn(p, from, Step(p, 0, p), At(s, own, seen, Scan(names, live), candidates), TakenOver(s, own, seen));
    }
  }

  lemma ListsAlone(s: State, own: Record, seen: Record, candidates: Candidacies)
    requires own.process in candidates && candidates[own.process].Some? && candidates[own.process].value.process == own.process
    requires OthersDead(s, own.process, candidates)
    ensures Leads(own.process, At(s, own, seen, ReadCurrent, candidates), TakenOver(s, own, seen))
  {
    hide Leads;
    var p, end := own.process, TakenOver(s, own, seen);
    ScansAlone(s, own, seen, candidates.Keys, {}, candidates);
    LeadsOn(p, At(s, own, seen, List, candidates), Step(p, 0, p), At(s, own, seen, Scan(candidates.Keys, {}), candidates), end);
    LeadsOn(p, At(s, own, seen, ReadCurrent, candidates), Step(p, 0, p), At(s, own, seen, List, candidates), end);
  }

  lemma WritesAlone(s: State, own: Record, seen: Record, others: Candidacies)
    requires own.process !in others && OthersDead(s, own.process, others)
    ensures Leads(own.process, At(s, own, seen, EnsureLock, others[own.process := None]), TakenOver(s, own, seen))
  {
    hide Leads;
    var p, end := own.process, TakenOver(s, own, seen);
    var blank, full := others[p := None], others[p := Some(Record(p, 0))];
    ListsAlone(s, own, seen, full);
    assert blank[p := Some(Record(p, 0))] == full;
    LeadsOn(p, At(s, own, seen, WriteCandidate, blank), Step(p, 0, p), At(s, own, seen, ReadCurrent, full), end);
    LeadsOn(p, At(s, own, seen, EnsureCandidate, blank), Step(p, 0, p), At(s, own, seen, WriteCandidate, blank), end);
    LeadsOn(p, At(s, own, seen, EnsureTakeovers, blank), Step(p, 0, p), At(s, own, seen, EnsureCandidate, blank), end);
    LeadsOn(p, At(s, own, seen, EnsureLock, blank), Step(p, 0, p), At(s, own, seen, EnsureTakeovers, blank), end);
  }

  /** The contender as it finds the stale record. */
  function Meeting(s: State, p: Pid, pc: Proc): State { s.(procs := s.procs[p := pc]) }

  lemma EntersAlone(s: State, own: Record, seen: Record)
    requires s.lock.Some? && s.lock.value.owner == Some(seen) && own.process !in s.procs
    requires var c := s.lock.value.takeovers; c.Some? ==> own.process !in c.value && OthersDead(s, own.process, c.value)
    ensures Leads(own.process, Meeting(s, own.process, Takeover(own, seen, MakeTakeovers)), TakenOver(s, own, seen))
  {
    hide Leads;
    var p, end := own.process, TakenOver(s, own, seen);
    var others: Candidacies := if s.lock.value.takeovers.Some? then s.lock.value.takeovers.value else map[];
    WritesAlone(s, own, seen, others);
    LeadsOn(p, At(s, own, seen, MakeCandidate, others), Step(p, 0, p), At(s, own, seen, EnsureLock, others[p := None]), end);
    LeadsOn(p, Meeting(s, p, Takeover(own, seen, MakeTakeovers)), Step(p, 0, p), At(s, own, seen, MakeCandidate, others), end);
  }

  /** A contender that nobody disturbs takes over the lock of a dead owner, whatever candidates the dead have left in
      it: it moves the stale record, and puts its own in place. */
  lemma TakesOverAlone(s: State, p: Pid, now: int, seen: Record)
    requires s.lock.Some? && s.lock.value.owner == Some(seen) && p !in s.procs && p !in s.dead
    requires seen.process !in s.procs && seen.process != p
    requires var c := s.lock.value.takeovers; c.Some? ==> p !in c.value && OthersDead(s, p, c.value)
    ensures Leads(p, s, TakenOver(s, Record(p, now), seen))
  {
    hide Leads;
    var own := Record(p, now);
    var end := TakenOver(s, own, seen);
    EntersAlone(s, own, seen);
    LeadsOn(p, Meeting(s, p, Probe(own, seen)), Step(p, 0, p), Meeting(s, p, Takeover(own, seen, MakeTakeovers)), end);
    LeadsOn(p, Meeting(s, p, Observe(own)), Step(p, 0, p), Meeting(s, p, Probe(own, seen)), end);
    LeadsOn(p, Meeting(s, p, Install(own)), Step(p, 0, p), Meeting(s, p, Observe(own)), end);
    LeadsOn(p, s, Acquire(p, now), Meeting(s, p, Install(own)), end);
  }
}
