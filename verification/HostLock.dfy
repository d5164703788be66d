/** The host lock of src/host-lock.js: a directory put in place by rename, whose owner record names
    a process, and stale takeover among contenders. One step is one file operation of one process;
    any process may die between two steps, and a process identity is never used again. */
module HostLock {
  import opened Common

  type Pid = nat

  /** owner.json: the exact process and the time of acquisition, which two records may share. */
  datatype Record = Record(process: Pid, acquiredAt: int)

  /** The lock directory. Its takeover directory, when present, holds one directory for each
      candidate, with or without a record. */
  datatype Dir = Dir(owner: Option<Record>, takeovers: Option<map<Pid, Option<Record>>>)

  /** Contention for the lock. `own` is the record that the process wants to install; `seen` is the
      stale record that a takeover has observed. */
  datatype TakeoverPc =
    | MakeTakeovers
    | MakeCandidate
    | EnsureLock
    | EnsureTakeovers
    | EnsureCandidate
    | WriteCandidate
    | ReadCurrent
    | List
    | Scan(names: set<Pid>, live: set<Pid>)
    | Discard(name: Pid, names: set<Pid>, live: set<Pid>)
    | Elect(live: set<Pid>)
    | Confirm
    | Move
    | Withdraw

  datatype Proc =
    | Idle
    | Install(own: Record)
    | Observe(own: Record)
    | Probe(own: Record, seen: Record)
    | Takeover(own: Record, seen: Record, at: TakeoverPc)
    | Holding(own: Record)
    | Releasing(own: Record)
    | Retiring(own: Record)
    | Corrupt

  /** A rename of the lock directory: by a takeover or a release, which record it meant to move,
      and which it moved. */
  datatype Retirement = Retirement(by_: Pid, takeover: bool, meant: Record, moved: Option<Record>)

  datatype State = State(lock: Option<Dir>, procs: map<Pid, Proc>, dead: set<Pid>, retirements: seq<Retirement>)

  ghost predicate Init(s: State) { s.lock == None && s.procs == map[] && s.dead == {} && s.retirements == [] }

  datatype Action = Acquire(p: Pid, now: int) | Release(p: Pid) | GiveUp(p: Pid) | Step(p: Pid, now: int, name: Pid) | Crash(p: Pid)

  datatype Effect =
    | Stay
    | Goto(next: Proc)
    | PutLock(next: Proc, dir: Dir)
    | Retire(next: Proc, takeover: bool, meant: Record)

  function Apply(s: State, p: Pid, x: Effect): State {
    match x
    case Stay => s
    case Goto(next) => s.(procs := s.procs[p := next])
    case PutLock(next, dir) => s.(procs := s.procs[p := next], lock := Some(dir))
    case Retire(next, takeover, meant) =>
      if s.lock.None? then s
      else s.(procs := s.procs[p := next], lock := None,
              retirements := s.retirements + [Retirement(p, takeover, meant, s.lock.value.owner)])
  }

  function Owner(s: State): Option<Record> { if s.lock.Some? then s.lock.value.owner else None }

  /** The candidate directories, when the lock directory has any. */
  function Candidates(s: State): Option<map<Pid, Option<Record>>> {
    if s.lock.Some? then s.lock.value.takeovers else None
  }

  predicate Alive(s: State, p: Pid) { p in s.procs }

  /** retireStaleLock. A failed takeover goes back to installing; so does a successful one. */
  function StepTakeover(s: State, p: Pid, own: Record, seen: Record, at: TakeoverPc, now: int, name: Pid): Effect {
    var again := Goto(Install(own));
    var to := (next: TakeoverPc) => Takeover(own, seen, next);
    match at
    case MakeTakeovers =>
      if s.lock.None? then again
      else if s.lock.value.takeovers.Some? then Goto(to(MakeCandidate))
      else PutLock(to(MakeCandidate), s.lock.value.(takeovers := Some(map[])))
    case MakeCandidate =>
      if Candidates(s).None? then again
      else if p in Candidates(s).value then Goto(to(EnsureLock))
      else PutLock(to(EnsureLock), s.lock.value.(takeovers := Some(Candidates(s).value[p := None])))
    case EnsureLock => // the write of the candidate record creates every missing parent directory
      if s.lock.Some? then Goto(to(EnsureTakeovers)) else PutLock(to(EnsureTakeovers), Dir(None, None))
    case EnsureTakeovers =>
      if s.lock.None? then again
      else if s.lock.value.takeovers.Some? then Goto(to(EnsureCandidate))
      else PutLock(to(EnsureCandidate), s.lock.value.(takeovers := Some(map[])))
    case EnsureCandidate =>
      if Candidates(s).None? then again
      else if p in Candidates(s).value then Goto(to(WriteCandidate))
      else PutLock(to(WriteCandidate), s.lock.value.(takeovers := Some(Candidates(s).value[p := None])))
    case WriteCandidate =>
      if Candidates(s).None? || p !in Candidates(s).value then again
      else PutLock(to(ReadCurrent), s.lock.value.(takeovers := Some(Candidates(s).value[p := Some(Record(p, now))])))
    case ReadCurrent => Goto(to(if Owner(s) == Some(seen) then List else Withdraw))
    case List => if Candidates(s).None? then again else Goto(to(Scan(Candidates(s).value.Keys, {})))
    case Scan(names, live) =>
      if names == {} then Goto(to(Elect(live)))
      else if name !in names then Stay
      else
        var c := Candidates(s);
        Goto(to(
          if c.Some? && name in c.value && c.value[name].Some? && Alive(s, c.value[name].value.process)
          then Scan(names - {name}, live + {name}) else Discard(name, names - {name}, live)))
    case Discard(n, names, live) => DropCandidate(s, n, to(Scan(names, live)))
    case Elect(live) => Goto(to(if p in live && forall q :: q in live ==> p <= q then Confirm else Withdraw))
    case Confirm => Goto(to(if Owner(s) == Some(seen) then Move else Withdraw))
    case Move =>
      if s.lock.None? then again
      else Retire(if s.lock.value.owner == Some(seen) then Install(own) else Corrupt, true, seen)
    case Withdraw => DropCandidate(s, p, Install(own))
  }

  function DropCandidate(s: State, name: Pid, next: Proc): Effect {
    var c := Candidates(s);
    if c.Some? && name in c.value then PutLock(next, s.lock.value.(takeovers := Some(c.value - {name})))
    else Goto(next)
  }

  function ProcStep(s: State, p: Pid, now: int, name: Pid): Effect
    requires p in s.procs
  {
    match s.procs[p]
    case Install(own) => // rename onto an existing directory succeeds only if that is empty
      if s.lock.None? || s.lock.value == Dir(None, None) then PutLock(Holding(own), Dir(Some(own), None))
      else Goto(Observe(own))
    case Observe(own) => Goto(if Owner(s).Some? then Probe(own, Owner(s).value) else Install(own))
    case Probe(own, seen) => Goto(if Alive(s, seen.process) then Install(own) else Takeover(own, seen, MakeTakeovers))
    case Takeover(own, seen, at) => StepTakeover(s, p, own, seen, at, now, name)
    case Releasing(own) => Goto(if Owner(s) == Some(own) then Retiring(own) else Idle)
    case Retiring(own) =>
      if s.lock.None? then Goto(Idle)
      else Retire(if s.lock.value.owner == Some(own) then Idle else Corrupt, false, own)
    case _ => Stay
  }

  function Next(s: State, a: Action): State {
    match a
    case Acquire(p, now) =>
      if p in s.dead || (p in s.procs && !s.procs[p].Idle?) then s
      else s.(procs := s.procs[p := Install(Record(p, now))])
    case Release(p) =>
      if p in s.procs && s.procs[p].Holding? then s.(procs := s.procs[p := Releasing(s.procs[p].own)]) else s
    case GiveUp(p) => if p in s.procs && s.procs[p].Install? then s.(procs := s.procs[p := Idle]) else s
    case Step(p, now, name) => if p in s.procs then Apply(s, p, ProcStep(s, p, now, name)) else s
    case Crash(p) => s.(procs := s.procs - {p}, dead := s.dead + {p})
  }

  ghost predicate Steps(s: State, t: State) { exists a :: t == Next(s, a) }

  ghost predicate Run(run: seq<State>) { IsRun(Steps, run) && Init(run[0]) }

  // ----- the invariant

  /** A rename that moved something other than the record it meant to move. */
  predicate Mismatched(r: Retirement) { r.moved != Some(r.meant) }

  ghost predicate TakeoverMismatch(s: State) {
    exists i :: 0 <= i < |s.retirements| && s.retirements[i].takeover && Mismatched(s.retirements[i])
  }

  predicate Owns(pc: Proc) { pc.Holding? || pc.Releasing? || pc.Retiring? }

  predicate Known(s: State, p: Pid) { p in s.procs || p in s.dead }

  ghost predicate LocalOk(s: State, p: Pid, pc: Proc) {
    && (!pc.Idle? && !pc.Corrupt? ==> pc.own.process == p)
    && (pc.Probe? ==> Known(s, pc.seen.process))
    && (pc.Takeover? ==> pc.seen.process in s.dead)
  }

  ghost predicate Basics(s: State) {
    && (forall p :: p in s.procs ==> p !in s.dead && LocalOk(s, p, s.procs[p]))
    && (Owner(s).Some? ==> Known(s, Owner(s).value.process))
  }

  predicate TookAway(r: Retirement, p: Pid, own: Record) { r.by_ != p && r.moved == Some(own) && Mismatched(r) }

  /** A rename by another process took the record away, against its own expectation. */
  ghost predicate Lost(s: State, p: Pid, own: Record) {
    exists i :: 0 <= i < |s.retirements| && TookAway(s.retirements[i], p, own)
  }

  /** The lock directory carries the record of whoever holds the lock, unless that was lost. */
  ghost predicate Held(s: State) {
    forall p :: p in s.procs && Owns(s.procs[p]) ==> Owner(s) == Some(s.procs[p].own) || Lost(s, p, s.procs[p].own)
  }

  /** A takeover that moves the wrong record comes before any other such rename. */
  ghost predicate TakeoverFirst(s: State) {
    (exists i :: 0 <= i < |s.retirements| && Mismatched(s.retirements[i])) ==> TakeoverMismatch(s)
  }

  /** CORRUPT is reported by exactly the processes that moved the wrong record. */
  ghost predicate Reported(s: State) {
    && (forall i :: 0 <= i < |s.retirements| && Mismatched(s.retirements[i]) ==>
          var p := s.retirements[i].by_; p in s.dead || (p in s.procs && s.procs[p].Corrupt?))
    && (forall p :: p in s.procs && s.procs[p].Corrupt? ==>
          exists i :: 0 <= i < |s.retirements| && s.retirements[i].by_ == p && Mismatched(s.retirements[i]))
  }

  ghost predicate Inv(s: State) { Basics(s) && Held(s) && TakeoverFirst(s) && Reported(s) }

  // ----- what an effect may do

  predicate Quietly(was: Proc, next: Proc) {
    !was.Corrupt? && !next.Corrupt? && (Owns(next) ==> Owns(was) && next.own == was.own)
  }

  ghost predicate EffectOk(s: State, p: Pid, x: Effect)
    requires p in s.procs
  {
    var was := s.procs[p];
    match x
    case Stay => true
    case Goto(next) => LocalOk(s, p, next) && Quietly(was, next)
    case PutLock(next, dir) =>
      && LocalOk(s, p, next)
      && if next.Holding? then Owner(s) == None && was == Install(next.own) && dir.owner == Some(next.own)
         else Quietly(was, next) && dir.owner == Owner(s)
    case Retire(next, takeover, meant) =>
      && LocalOk(s, p, next) && !Owns(next)
      && (if takeover then was.Takeover? && meant.process in s.dead else was == Retiring(meant))
      && (next.Corrupt? <==> Owner(s) != Some(meant))
  }

  lemma TakeoverOk(s: State, p: Pid, now: int, name: Pid)
    requires Basics(s) && p in s.procs && s.procs[p].Takeover?
    ensures EffectOk(s, p, StepTakeover(s, p, s.procs[p].own, s.procs[p].seen, s.procs[p].at, now, name))
  {
    assert LocalOk(s, p, s.procs[p]);
  }

  lemma ProcOk(s: State, p: Pid, now: int, name: Pid)
    requires Basics(s) && p in s.procs
    ensures EffectOk(s, p, ProcStep(s, p, now, name))
  {
    hide StepTakeover;
    assert LocalOk(s, p, s.procs[p]);
    if s.procs[p].Takeover? { TakeoverOk(s, p, now, name); }
  }

  lemma KeepsBasics(s: State, p: Pid, x: Effect)
    requires Basics(s) && p in s.procs && EffectOk(s, p, x)
    ensures Basics(Apply(s, p, x))
  {
    var t := Apply(s, p, x);
    forall q | q in t.procs ensures q !in t.dead && LocalOk(t, q, t.procs[q]) {
      if q != p { assert LocalOk(s, q, s.procs[q]); }
    }
  }

  lemma LostGrows(s: State, t: State)
    requires s.retirements <= t.retirements
    ensures forall p, own :: Lost(s, p, own) ==> Lost(t, p, own)
  {
    forall p, own | Lost(s, p, own) ensures Lost(t, p, own) {
      var i :| 0 <= i < |s.retirements| && TookAway(s.retirements[i], p, own);
      assert t.retirements[i] == s.retirements[i];
    }
  }

  lemma KeepsHeld(s: State, p: Pid, x: Effect)
    requires Basics(s) && Held(s) && p in s.procs && EffectOk(s, p, x)
    ensures Held(Apply(s, p, x))
  {
    var t := Apply(s, p, x);
    LostGrows(s, t);
    forall q | q in t.procs && Owns(t.procs[q]) ensures Owner(t) == Some(t.procs[q].own) || Lost(t, q, t.procs[q].own) {
      if q != p {
        assert LocalOk(s, q, s.procs[q]) && LocalOk(s, p, s.procs[p]);
        if x.Retire? && s.lock.Some? && Owner(s) == Some(s.procs[q].own) {
          assert Mismatched(t.retirements[|s.retirements|]);
        }
      }
    }
  }

  lemma KeepsFirst(s: State, p: Pid, x: Effect)
    requires Held(s) && TakeoverFirst(s) && p in s.procs && EffectOk(s, p, x)
    ensures TakeoverFirst(Apply(s, p, x))
  {
    var t := Apply(s, p, x);
    if i :| 0 <= i < |t.retirements| && Mismatched(t.retirements[i]) {
      if TakeoverMismatch(s) {
        var j :| 0 <= j < |s.retirements| && s.retirements[j].takeover && Mismatched(s.retirements[j]);
        assert t.retirements[j] == s.retirements[j];
      } else {
        assert !Lost(s, p, s.procs[p].own) && t.retirements[i].takeover;
      }
    }
  }

  lemma KeepsReported(s: State, p: Pid, x: Effect)
    requires Reported(s) && p in s.procs && EffectOk(s, p, x)
    ensures Reported(Apply(s, p, x))
  {
    hide LocalOk;
    var t := Apply(s, p, x);
    forall i | 0 <= i < |t.retirements| && Mismatched(t.retirements[i])
      ensures var q := t.retirements[i].by_; q in t.dead || (q in t.procs && t.procs[q].Corrupt?)
    {
      if i < |s.retirements| { assert Mismatched(s.retirements[i]); }
    }
    forall q | q in t.procs && t.procs[q].Corrupt?
      ensures exists i :: 0 <= i < |t.retirements| && t.retirements[i].by_ == q && Mismatched(t.retirements[i])
    {
      if q in s.procs && s.procs[q].Corrupt? {
        var i :| 0 <= i < |s.retirements| && s.retirements[i].by_ == q && Mismatched(s.retirements[i]);
        assert t.retirements[i] == s.retirements[i];
      } else {
        assert Mismatched(t.retirements[|s.retirements|]);
      }
    }
  }

  lemma ComeOrGo(s: State, a: Action)
    requires Inv(s) && !a.Step?
    ensures Inv(Next(s, a))
  {
    var t := Next(s, a);
    LostGrows(s, t);
    assert t.retirements == s.retirements && Owner(t) == Owner(s);
    forall q | q in t.procs ensures q !in t.dead && LocalOk(t, q, t.procs[q]) {
      if q in s.procs { assert LocalOk(s, q, s.procs[q]); }
    }
  }

  lemma NextKeeps(s: State, a: Action)
    requires Inv(s)
    ensures Inv(Next(s, a))
  {
    hide Basics, Held, TakeoverFirst, Reported, ProcStep, Apply, EffectOk;
    if !a.Step? {
      ComeOrGo(s, a);
    } else if a.p in s.procs {
      var x := ProcStep(s, a.p, a.now, a.name);
      ProcOk(s, a.p, a.now, a.name);
      KeepsBasics(s, a.p, x);
      KeepsHeld(s, a.p, x);
      KeepsFirst(s, a.p, x);
      KeepsReported(s, a.p, x);
    }
  }

  lemma RunInv(run: seq<State>, k: nat)
    requires Run(run) && k < |run|
    ensures Inv(run[k])
  {
    hide Inv, Next;
    InitInv(run[0]);
    forall s, t | Inv(s) && Steps(s, t) ensures Inv(t) {
      var a :| t == Next(s, a);
      NextKeeps(s, a);
    }
    Invariance(Inv, Steps, run, k);
  }

  lemma InitInv(s: State)
    requires Init(s)
    ensures Inv(s)
  {
  }

  // ----- theorems

  /** Two live processes hold the lock only after some takeover moved a record other than the one it
      had observed; and the record of one of the two was itself moved that way, by another process. */
  lemma TwoHolders(run: seq<State>, k: nat, p: Pid, q: Pid)
    requires Run(run) && k < |run| && p != q && p in run[k].procs && q in run[k].procs
    requires run[k].procs[p].Holding? && run[k].procs[q].Holding?
    ensures TakeoverMismatch(run[k])
    ensures Lost(run[k], p, run[k].procs[p].own) || Lost(run[k], q, run[k].procs[q].own)
  {
    RunInv(run, k);
    assert LocalOk(run[k], p, run[k].procs[p]) && LocalOk(run[k], q, run[k].procs[q]);
  }

  /** While no takeover has moved the wrong record, a holder's record is in place, and a release finds it. */
  lemma HolderInPlace(run: seq<State>, k: nat, p: Pid)
    requires Run(run) && k < |run| && p in run[k].procs && Owns(run[k].procs[p]) && !TakeoverMismatch(run[k])
    ensures Owner(run[k]) == Some(run[k].procs[p].own)
  {
    RunInv(run, k);
  }

  /** CORRUPT is exactly the report of a rename that moved the wrong record: whoever moved one has
      reported it or died, and nobody else reports it. No release reports it before some takeover has. */
  lemma CorruptExactly(run: seq<State>, k: nat, p: Pid)
    requires Run(run) && k < |run| && p in run[k].procs
    ensures run[k].procs[p].Corrupt? <==>
              exists i :: 0 <= i < |run[k].retirements| && run[k].retirements[i].by_ == p && Mismatched(run[k].retirements[i])
    ensures run[k].procs[p].Corrupt? ==> TakeoverMismatch(run[k])
  {
    RunInv(run, k);
  }

  // ----- why a takeover moves the wrong record

  /** A takeover that has confirmed the stale record and is about to move it. */
  ghost predicate AtMove(s: State, p: Pid, seen: Record) {
    p in s.procs && s.procs[p].Takeover? && s.procs[p].at.Move? && s.procs[p].seen == seen
  }

  /** Two takeovers have confirmed the same stale record, and both are about to move it. */
  ghost predicate Rivals(s: State) { exists p, q, seen :: p != q && AtMove(s, p, seen) && AtMove(s, q, seen) }

  /** No takeover has moved a wrong record, and none is about to. */
  ghost predicate Sound(s: State) {
    !TakeoverMismatch(s) && forall p, seen :: AtMove(s, p, seen) ==> Owner(s) == Some(seen)
  }

  lemma MoveFacts(s: State, p: Pid, now: int, name: Pid)
    requires p in s.procs
    ensures var x := ProcStep(s, p, now, name);
            && (!x.Stay? && x.next.Takeover? && x.next.at.Move? ==> x.Goto? && Owner(s) == Some(x.next.seen))
            && (x.Retire? && x.takeover ==> AtMove(s, p, x.meant))
  {
  }

  lemma MismatchKept(s: State, t: State)
    requires !TakeoverMismatch(s) && s.retirements <= t.retirements
    requires forall i :: |s.retirements| <= i < |t.retirements| ==> !(t.retirements[i].takeover && Mismatched(t.retirements[i]))
    ensures !TakeoverMismatch(t)
  {
    hide Mismatched;
    forall i | 0 <= i < |t.retirements| && t.retirements[i].takeover ensures !Mismatched(t.retirements[i]) {
      if i < |s.retirements| { assert s.retirements[i] == t.retirements[i]; }
    }
  }

  /** What is retired is what was meant, and no takeover is about to move it. */
  lemma RetiresMeant(s: State, p: Pid, x: Effect, q: Pid, seen: Record)
    requires Inv(s) && Sound(s) && !Rivals(s) && p in s.procs && EffectOk(s, p, x) && x.Retire? && s.lock.Some?
    requires x.takeover ==> AtMove(s, p, x.meant)
    ensures Owner(s) == Some(x.meant)
    ensures q != p ==> !AtMove(s, q, seen)
  {
    hide Reported;
    assert LocalOk(s, p, s.procs[p]);
    if AtMove(s, q, seen) { assert LocalOk(s, q, s.procs[q]); }
  }

  lemma StepSound(s: State, p: Pid, x: Effect)
    requires Inv(s) && Sound(s) && !Rivals(s) && p in s.procs && EffectOk(s, p, x)
    requires !x.Stay? && x.next.Takeover? && x.next.at.Move? ==> x.Goto? && Owner(s) == Some(x.next.seen)
    requires x.Retire? && x.takeover ==> AtMove(s, p, x.meant)
    ensures Sound(Apply(s, p, x))
  {
    hide Inv, TakeoverMismatch, Rivals, LocalOk;
    var t := Apply(s, p, x);
    if x.Retire? && s.lock.Some? { RetiresMeant(s, p, x, p, x.meant); }
    MismatchKept(s, t);
    forall q, seen | AtMove(t, q, seen) ensures Owner(t) == Some(seen) {
      if q != p {
        assert AtMove(s, q, seen);
        if x.Retire? && s.lock.Some? { RetiresMeant(s, p, x, q, seen); }
      }
    }
  }

  lemma NextSound(s: State, a: Action)
    requires Inv(s) && Sound(s) && !Rivals(s)
    ensures Sound(Next(s, a))
  {
    hide ProcStep, EffectOk, Rivals;
    var t := Next(s, a);
    if a.Step? {
      if a.p in s.procs {
        ProcOk(s, a.p, a.now, a.name);
        MoveFacts(s, a.p, a.now, a.name);
        hide Inv, Sound;
        StepSound(s, a.p, ProcStep(s, a.p, a.now, a.name));
      }
    } else {
      hide Inv;
      assert t.retirements == s.retirements && Owner(t) == Owner(s);
      MismatchKept(s, t);
      forall q, seen | AtMove(t, q, seen) ensures Owner(t) == Some(seen) { assert AtMove(s, q, seen); }
    }
  }

  lemma {:induction false} RunSound(run: seq<State>, k: nat)
    requires Run(run) && k < |run| && forall i :: 0 <= i < k ==> !Rivals(run[i])
    ensures Sound(run[k])
  {
    hide Inv, Next, Rivals;
    if k > 0 {
      RunSound(run, k - 1);
      RunInv(run, k - 1);
      assert Steps(run[k - 1], run[k - 1 + 1]);
      var a :| run[k] == Next(run[k - 1], a);
      NextSound(run[k - 1], a);
    }
  }

  /** The cause: as long as no two takeovers have stood, at the same moment, between confirming the same stale record and
      moving it, no takeover has moved the wrong record, nobody has reported CORRUPT, and at most one live process owns the lock. */
  lemma OnlyRivalsCollide(run: seq<State>, k: nat)
    requires Run(run) && k < |run| && forall i :: 0 <= i < k ==> !Rivals(run[i])
    ensures !TakeoverMismatch(run[k])
    ensures forall p :: p in run[k].procs ==> !run[k].procs[p].Corrupt?
    ensures forall p, q :: p in run[k].procs && q in run[k].procs && Owns(run[k].procs[p]) && Owns(run[k].procs[q]) ==> p == q
  {
    hide Rivals;
    RunSound(run, k);
    RunInv(run, k);
    hide Inv;
    forall p | p in run[k].procs ensures !run[k].procs[p].Corrupt? { CorruptExactly(run, k, p); }
    forall p, q | p in run[k].procs && q in run[k].procs && Owns(run[k].procs[p]) && Owns(run[k].procs[q]) ensures p == q {
      HolderInPlace(run, k, p);
      HolderInPlace(run, k, q);
      OwnRecord(run[k], p);
      OwnRecord(run[k], q);
    }
  }

  lemma OwnRecord(s: State, p: Pid)
    requires Inv(s) && p in s.procs && Owns(s.procs[p])
    ensures s.procs[p].own.process == p
  {
    assert LocalOk(s, p, s.procs[p]);
  }

  /** At most one process is taking the lock over. */
  ghost predicate Uncontended(s: State) {
    forall p, q :: p in s.procs && q in s.procs && s.procs[p].Takeover? && s.procs[q].Takeover? ==> p == q
  }

  /** So one contender at a time always excludes. */
  lemma OneContenderExcludes(run: seq<State>, k: nat, p: Pid, q: Pid)
    requires Run(run) && k < |run| && p in run[k].procs && q in run[k].procs
    requires run[k].procs[p].Holding? && run[k].procs[q].Holding?
    requires forall i :: 0 <= i < k ==> Uncontended(run[i])
    ensures p == q
  {
    forall i | 0 <= i < k ensures !Rivals(run[i]) { assert Uncontended(run[i]); }
    OnlyRivalsCollide(run, k);
  }

  // ----- two live holders do happen

  ghost predicate Reachable(s: State) { Reached(Init, Steps, s) }

  lemma Reach(s: State, a: Action, t: State)
    requires Reachable(s) && t == Next(s, a)
    ensures Reachable(t)
  {
    hide Next;
    assert Steps(s, t);
    ReachedNext(Init, Steps, s, t);
  }

  function With(s: State, p: Pid, pc: Proc, dir: Dir): State { s.(procs := s.procs[p := pc], lock := Some(dir)) }

  /** A contender that finds a stale record comes as far as making its candidate. */
  lemma Meets(s: State, p: Pid, seen: Record, others: map<Pid, Option<Record>>)
    requires Reachable(s) && p !in s.procs && p !in s.dead && seen.process in s.dead && seen.process !in s.procs
    requires p != seen.process && s.lock == Some(Dir(Some(seen), Some(others)))
    ensures Reachable(Contending(s, p, seen, MakeCandidate, others))
  {
    var own := Record(p, 0);
    var dir := s.lock.value;
    var a := With(s, p, Install(own), dir);
    Reach(s, Acquire(p, 0), a);
    var b := With(s, p, Observe(own), dir);
    Reach(a, Step(p, 0, 0), b);
    var c := With(s, p, Probe(own, seen), dir);
    Reach(b, Step(p, 0, 0), c);
    var d := With(s, p, Takeover(own, seen, MakeTakeovers), dir);
    Reach(c, Step(p, 0, 0), d);
    Reach(d, Step(p, 0, 0), Contending(s, p, seen, MakeCandidate, others));
  }

  function Contending(s: State, p: Pid, seen: Record, at: TakeoverPc, candidates: map<Pid, Option<Record>>): State {
    With(s, p, Takeover(Record(p, 0), seen, at), Dir(Some(seen), Some(candidates)))
  }

  lemma Enters(s: State, p: Pid, seen: Record, others: map<Pid, Option<Record>>)
    requires p !in others && Reachable(Contending(s, p, seen, MakeCandidate, others))
    ensures Reachable(Contending(s, p, seen, List, others[p := Some(Record(p, 0))]))
  {
    var blank := others[p := None];
    Reach(Contending(s, p, seen, MakeCandidate, others), Step(p, 0, 0), Contending(s, p, seen, EnsureLock, blank));
    Reach(Contending(s, p, seen, EnsureLock, blank), Step(p, 0, 0), Contending(s, p, seen, EnsureTakeovers, blank));
    Reach(Contending(s, p, seen, EnsureTakeovers, blank), Step(p, 0, 0), Contending(s, p, seen, EnsureCandidate, blank));
    Writes(s, p, seen, others);
  }

  lemma Writes(s: State, p: Pid, seen: Record, others: map<Pid, Option<Record>>)
    requires p !in others && Reachable(Contending(s, p, seen, EnsureCandidate, others[p := None]))
    ensures Reachable(Contending(s, p, seen, List, others[p := Some(Record(p, 0))]))
  {
    var blank, full := others[p := None], others[p := Some(Record(p, 0))];
    Reach(Contending(s, p, seen, EnsureCandidate, blank), Step(p, 0, 0), Contending(s, p, seen, WriteCandidate, blank));
    assert blank[p := Some(Record(p, 0))] == full;
    Reach(Contending(s, p, seen, WriteCandidate, blank), Step(p, 0, 0), Contending(s, p, seen, ReadCurrent, full));
    Rereads(s, p, seen, full);
  }

  lemma Rereads(s: State, p: Pid, seen: Record, full: map<Pid, Option<Record>>)
    requires Reachable(Contending(s, p, seen, ReadCurrent, full))
    ensures Reachable(Contending(s, p, seen, List, full))
  {
    Reach(Contending(s, p, seen, ReadCurrent, full), Step(p, 0, 0), Contending(s, p, seen, List, full));
  }

  const OLD := Record(9, 0)

  /** Process 9 died holding the lock; both contenders have been elected and have confirmed the stale record. */
  function Elected(one: TakeoverPc): State {
    State(Some(Dir(Some(OLD), Some(map[2 := Some(Record(2, 0)), 1 := Some(Record(1, 0))]))),
          map[2 := Takeover(Record(2, 0), OLD, Move), 1 := Takeover(Record(1, 0), OLD, one)], {9}, [])
  }

  function Alone(two: TakeoverPc): State {
    State(Some(Dir(Some(OLD), Some(map[2 := Some(Record(2, 0))]))), map[2 := Takeover(Record(2, 0), OLD, two)], {9}, [])
  }

  lemma StaleLock()
    ensures Reachable(Alone(List))
  {
    var s := State(None, map[], {}, []);
    ReachedAtOnce(Init, Steps, s);
    Reach(s, Acquire(9, 0), s.(procs := map[9 := Install(OLD)]));
    var held := State(Some(Dir(Some(OLD), None)), map[9 := Holding(OLD)], {}, []);
    Reach(s.(procs := map[9 := Install(OLD)]), Step(9, 0, 0), held);
    var stale := State(Some(Dir(Some(OLD), None)), map[], {9}, []);
    Reach(held, Crash(9), stale);
    TakeoversMade();
  }

  lemma TakeoversMade()
    requires Reachable(State(Some(Dir(Some(OLD), None)), map[], {9}, []))
    ensures Reachable(Alone(List))
  {
    var s := State(Some(Dir(Some(OLD), None)), map[], {9}, []);
    var dir := Dir(Some(OLD), None);
    var a := With(s, 2, Install(Record(2, 0)), dir);
    Reach(s, Acquire(2, 0), a);
    var b := With(s, 2, Observe(Record(2, 0)), dir);
    Reach(a, Step(2, 0, 0), b);
    var c := With(s, 2, Probe(Record(2, 0), OLD), dir);
    Reach(b, Step(2, 0, 0), c);
    var d := With(s, 2, Takeover(Record(2, 0), OLD, MakeTakeovers), dir);
    Reach(c, Step(2, 0, 0), d);
    Reach(d, Step(2, 0, 0), With(s, 2, Takeover(Record(2, 0), OLD, MakeCandidate), Dir(Some(OLD), Some(map[]))));
    Enters(s, 2, OLD, map[]);
    assert With(s, 2, Takeover(Record(2, 0), OLD, List), Dir(Some(OLD), Some(map[][2 := Some(Record(2, 0))]))) == Alone(List);
  }

  lemma TwoScans()
    ensures Reachable(Alone(Scan({}, {2})))
  {
    StaleLock();
    assert Alone(List).lock.value.takeovers.value.Keys == {2};
    Reach(Alone(List), Step(2, 0, 2), Alone(Scan({2}, {})));
    assert {2} - {2} == {} && {} + {2} == {2};
    Reach(Alone(Scan({2}, {})), Step(2, 0, 2), Alone(Scan({}, {2})));
  }

  lemma TwoElected()
    ensures Reachable(Alone(Move))
  {
    TwoScans();
    Reach(Alone(Scan({}, {2})), Step(2, 0, 2), Alone(Elect({2})));
    Reach(Alone(Elect({2})), Step(2, 0, 2), Alone(Confirm));
    Reach(Alone(Confirm), Step(2, 0, 2), Alone(Move));
  }

  lemma OneContends()
    ensures Reachable(Elected(List))
  {
    TwoElected();
    Meets(Alone(Move), 1, OLD, map[2 := Some(Record(2, 0))]);
    Enters(Alone(Move), 1, OLD, map[2 := Some(Record(2, 0))]);
    hide Reachable;
    assert Contending(Alone(Move), 1, OLD, List, map[2 := Some(Record(2, 0))][1 := Some(Record(1, 0))]) == Elected(List);
  }

  lemma OneScans()
    ensures Reachable(Elected(Scan({2}, {1})))
  {
    OneContends();
    assert Elected(List).lock.value.takeovers.value.Keys == {1, 2};
    Reach(Elected(List), Step(1, 0, 1), Elected(Scan({1, 2}, {})));
    assert {1, 2} - {1} == {2} && {} + {1} == {1};
    Reach(Elected(Scan({1, 2}, {})), Step(1, 0, 1), Elected(Scan({2}, {1})));
  }

  lemma OneElected()
    ensures Reachable(Elected(Move))
  {
    OneScans();
    assert {2} - {2} == {} && {1} + {2} == {1, 2};
    Reach(Elected(Scan({2}, {1})), Step(1, 0, 2), Elected(Scan({}, {1, 2})));
    Reach(Elected(Scan({}, {1, 2})), Step(1, 0, 1), Elected(Elect({1, 2})));
    Reach(Elected(Elect({1, 2})), Step(1, 0, 1), Elected(Confirm));
    Reach(Elected(Confirm), Step(1, 0, 1), Elected(Move));
  }

  /** The election does not prevent it: both contenders win, each in its own view, the second moves the
      record that the first has just installed, and a third process finds the path free. */
  lemma TwoHoldersHappen()
    ensures exists s: State, p, q ::
              Reachable(s) && p != q && p in s.procs && q in s.procs && s.procs[p].Holding? && s.procs[q].Holding?
  {
    OneElected();
    var s := Elected(Move);
    var first := Retirement(2, true, OLD, Some(OLD));
    var a := State(None, s.procs[2 := Install(Record(2, 0))], {9}, [first]);
    Reach(s, Step(2, 0, 0), a);
    var b := State(Some(Dir(Some(Record(2, 0)), None)), s.procs[2 := Holding(Record(2, 0))], {9}, [first]);
    Reach(a, Step(2, 0, 0), b);
    var c := State(None, b.procs[1 := Corrupt], {9}, [first, Retirement(1, true, OLD, Some(Record(2, 0)))]);
    Reach(b, Step(1, 0, 0), c);
    var d := c.(procs := c.procs[3 := Install(Record(3, 0))]);
    Reach(c, Acquire(3, 0), d);
    var e := With(d, 3, Holding(Record(3, 0)), Dir(Some(Record(3, 0)), None));
    Reach(d, Step(3, 0, 0), e);
    assert e.procs[2].Holding? && e.procs[3].Holding?;
  }
}
