/** evaluateTask of src/cli.js as a state machine: any number of evaluators with any verdicts, each
    dying anywhere, one file operation a step. The decision is committed by create-once; the nine
    projections run under a host lock, and the four that replace a file swap it under a lock directory of
    that file, which stays for good if its holder dies. The host lock is the one of module HostLock, which
    does not always exclude: a takeover that moves the wrong record takes the lock from a live holder. That
    is a step here, a seizure, and it is counted. Nobody else writes the projected files. */
module EvaluationRuns {
  import opened Common
  import opened Evaluation

  type Pid = nat

  /** `created`: this call committed the decision. In `Write` and `Swap`, `seen` is what the projection was computed
      from; `Swap` and `Unswap` hold the swap lock of the file. `tries` counts the swaps that came to nothing. */
  datatype Pc =
    | Start
    | Look(judged: bool)
    | Relook(d: Decision)
    | Create(d: Decision)
    | ReadBack
    | Check(d: Decision, created: bool)
    | TakeLock(d: Decision, created: bool)
    | Confirm(d: Decision, created: bool)
    | At(d: Decision, created: bool, step: nat, tries: nat)
    | Write(d: Decision, created: bool, step: nat, tries: nat, seen: Files, result: Files)
    | Swap(d: Decision, created: bool, step: nat, tries: nat, seen: Files, result: Files)
    | Unswap(d: Decision, created: bool, step: nat, tries: nat, swapped: bool)
    | Unlock(d: Decision, created: bool, completed: bool)
    | Done(d: Decision, created: bool)
    | Failed

  datatype Proc = Proc(verdict: Verdict, rationale: string, pc: Pc)

  /** The durable files, the locks, the processes, and a history: `swaps` holds the swap locks that stand, by
      projection; the history is the files as they were before any evaluation, how many projections of the
      committed decision have been made, and how often a live holder lost the lock. */
  datatype State = State(
    base: Files,
    commit: Option<Decision>,
    files: Files,
    lock: Option<Pid>,
    swaps: map<nat, Pid>,
    procs: map<Pid, Proc>,
    dead: set<Pid>,
    nextId: nat,
    made: nat,
    seizures: nat)

  /** Decision identifiers are fresh: nothing durable mentions one that is still to be drawn. */
  ghost predicate Init(s: State) {
    && s.files == s.base && s.commit == None && s.lock == None && s.swaps == map[] && s.procs == map[] && s.dead == {}
    && s.made == 0 && s.seizures == 0
    && forall d: Decision :: d.id >= s.nextId && s.base.attempt.judgement == None ==> Fresh(s.base, d)
  }

  /** From outside: whether delivered wakes are consumed, the evidence and time of a new decision,
      and whether a wait for the lock is given up. */
  datatype Input = Input(consumed: bool, evidence: seq<string>, time: int, generation: nat, giveUp: bool)

  datatype Action = Begin(p: Pid, verdict: Verdict, rationale: string) | Step(p: Pid, i: Input) | Crash(p: Pid) | Seize

  datatype Effect =
    | Stay
    | Goto(next: Pc)
    | Draw(d: Decision)
    | Commit(d: Decision)
    | Lock(next: Pc)
    | Free(next: Pc)
    | Put(next: Pc, step: nat, files: Files)
    | Pass(next: Pc, step: nat)
    | TakeSwap(next: Pc, step: nat)
    | FreeSwap(next: Pc, step: nat)

  function To(s: State, p: Pid, pc: Pc): State
    requires p in s.procs
  {
    s.(procs := s.procs[p := s.procs[p].(pc := pc)])
  }

  function Count(s: State, step: nat): nat { if step == s.made then s.made + 1 else s.made }

  function Apply(s: State, p: Pid, x: Effect): State
    requires p in s.procs
  {
    match x
    case Stay => s
    case Goto(next) => To(s, p, next)
    case Draw(d) => To(s.(nextId := s.nextId + 1), p, Relook(d))
    case Commit(d) => To(s.(commit := Some(d)), p, Check(d, true))
    case Lock(next) => To(s.(lock := Some(p)), p, next)
    case Free(next) => // a release leaves a lock alone that does not carry its own record
      To(if s.lock == Some(p) then s.(lock := None) else s, p, next)
    case Put(next, step, files) => To(s.(files := files, made := Count(s, step)), p, next)
    case Pass(next, step) => To(s.(made := Count(s, step)), p, next)
    case TakeSwap(next, step) => To(s.(swaps := s.swaps[step := p]), p, next)
    case FreeSwap(next, step) => To(s.(swaps := s.swaps - {step}), p, next)
  }

  /** The projections that replace a file by compare-and-swap: the attempt, the task, the requirements, the
      lifecycle state. They give up after this many swaps. */
  predicate Swaps(step: nat) { step == 1 || step == 2 || step == 3 || step == 6 }

  const TRIES := 40

  /** What a write makes of the files as they are by then: a line is appended whatever else is in the log, a
      file is replaced only if it still is the one that was read, and an event file is created only once. */
  datatype Landing = Lands(files: Files) | Retries | Fails

  function Tail<T>(s: seq<T>, t: seq<T>): seq<T> { if |s| <= |t| then t[|s|..] else [] }

  function Land(step: nat, now: Files, seen: Files, result: Files): Landing {
    if step == 0 then Lands(now.(decisions := now.decisions + Tail(seen.decisions, result.decisions)))
    else if step == 1 then if now.attempt == seen.attempt then Lands(now.(attempt := result.attempt)) else Retries
    else if step == 2 then if now.task == seen.task then Lands(now.(task := result.task)) else Retries
    else if step == 3 then if now.matrix == seen.matrix then Lands(now.(matrix := result.matrix)) else Retries
    else if step == 6 then if now.life == seen.life then Lands(now.(life := result.life)) else Retries
    else if step == 4 || step == 7 then Lands(now.(events := now.events + Tail(seen.events, result.events)))
    else
      var created := result.eventFiles - seen.eventFiles.Keys;
      if forall id :: id in created && id in now.eventFiles ==> now.eventFiles[id] == created[id]
      then Lands(now.(eventFiles := now.eventFiles + created)) else Fails
  }

  function StepPc(g: Setting, s: State, p: Pid, pr: Proc, i: Input): Effect {
    match pr.pc
    case Start => Goto(if i.consumed then Look(s.files.attempt.judgement.Some?) else Failed)
    case Look(judged) =>
      if s.commit.Some? then Goto(Check(s.commit.value, false))
      else if judged || (pr.verdict.Accept? && !s.files.attempt.satisfied) then Goto(Failed)
      else Draw(Decision(s.nextId, g.task, pr.verdict, pr.rationale, i.evidence, i.time, i.generation))
    case Relook(d) => Goto(if s.commit.Some? then Check(d, false) else Create(d))
    case Create(d) => if s.commit.Some? then Goto(ReadBack) else Commit(d)
    case ReadBack => if s.commit.Some? then Goto(Check(s.commit.value, false)) else Stay
    case Check(d, created) => Goto(if d.task == g.task then TakeLock(d, created) else Failed)
    case TakeLock(d, created) =>
      if s.lock.None? || s.lock.value in s.dead then Lock(Confirm(d, created))
      else if i.giveUp then Goto(Failed) else Stay
    case Confirm(d, created) => Goto(if s.commit == Some(d) then At(d, created, 0, 0) else Unlock(d, created, false))
    case At(d, created, step, tries) =>
      if step >= STEPS then Goto(Unlock(d, created, true))
      else if tries >= TRIES then Goto(Unlock(d, created, false))
      else
        var r := Project(g, step, s.files, d);
        if r.None? then Goto(Unlock(d, created, false))
        else if r.value == s.files then Pass(At(d, created, step + 1, 0), step)
        else Goto(Write(d, created, step, tries, s.files, r.value))
    case Write(d, created, step, tries, seen, result) =>
      if Swaps(step) then
        if step in s.swaps then Goto(At(d, created, step, tries + 1))
        else TakeSwap(Swap(d, created, step, tries, seen, result), step)
      else
        var landing := Land(step, s.files, seen, result);
        if landing.Lands? then Put(At(d, created, step + 1, 0), step, landing.files) else Goto(Unlock(d, created, false))
    case Swap(d, created, step, tries, seen, result) =>
      var landing := Land(step, s.files, seen, result);
      if landing.Lands? then Put(Unswap(d, created, step, tries, true), step, landing.files)
      else Goto(Unswap(d, created, step, tries, false))
    case Unswap(d, created, step, tries, swapped) =>
      FreeSwap(if swapped then At(d, created, step + 1, 0) else At(d, created, step, tries + 1), step)
    case Unlock(d, created, completed) => Free(if completed then Done(d, created) else Failed)
    case Done(d, created) => Stay
    case Failed => Stay
  }

  function Next(g: Setting, s: State, a: Action): State {
    match a
    case Begin(p, verdict, rationale) =>
      if p in s.procs || p in s.dead then s else s.(procs := s.procs[p := Proc(verdict, rationale, Start)])
    case Step(p, i) => if p in s.procs then Apply(s, p, StepPc(g, s, p, s.procs[p], i)) else s
    case Crash(p) => if p in s.procs then s.(procs := s.procs - {p}, dead := s.dead + {p}) else s
    case Seize => if s.lock.Some? && s.lock.value in s.procs then s.(lock := None, seizures := s.seizures + 1) else s
  }

  ghost predicate Steps(g: Setting, s: State, t: State) { exists a :: t == Next(g, s, a) }

  ghost predicate Run(g: Setting, run: seq<State>) {
    IsRun((s, t) => Steps(g, s, t), run) && Init(run[0])
  }

  // ----- the invariant

  predicate Projecting(pc: Pc) { pc.At? || pc.Write? || pc.Swap? || pc.Unswap? }

  predicate Holds(pc: Pc) { pc.Confirm? || Projecting(pc) || pc.Unlock? }

  predicate Computed(pc: Pc) { pc.Write? || pc.Swap? }

  ghost predicate Drawn(g: Setting, s: State, d: Decision) { d.id < s.nextId && d.task == g.task && Fresh(s.base, d) }

  ghost predicate PcOk(g: Setting, s: State, p: Pid, pc: Pc) {
    && (Holds(pc) ==> s.lock == Some(p))
    && (pc.Look? && !pc.judged && s.commit.None? ==> s.base.attempt.judgement == None)
    && (pc.Relook? || pc.Create? ==> Drawn(g, s, pc.d))
    && (Projecting(pc) || (pc.Unlock? && pc.completed) || pc.Done? ==> s.commit == Some(pc.d))
    && (Projecting(pc) ==> pc.step <= s.made)
    && (Computed(pc) ==> pc.step < STEPS && pc.seen == s.files && Project(g, pc.step, pc.seen, pc.d) == Some(pc.result))
    && (pc.Unswap? && pc.swapped ==> pc.step < s.made)
    && ((pc.Unlock? && pc.completed) || pc.Done? ==> s.made == STEPS)
  }

  ghost predicate Locals(g: Setting, s: State) {
    forall p :: p in s.procs ==> p !in s.dead && PcOk(g, s, p, s.procs[p].pc)
  }

  /** The files are those of an uninterrupted run of the committed decision, cut off somewhere. */
  ghost predicate Cut(g: Setting, s: State) {
    && s.made <= STEPS
    && (s.commit.None? ==> s.files == s.base && s.made == 0)
    && (s.commit.Some? ==> s.commit.value.task == g.task && Fresh(s.base, s.commit.value))
    && (s.commit.Some? ==> Prefix(g, s.made, s.base, s.commit.value) == Some(s.files))
    && (s.lock.Some? ==> s.lock.value in s.procs || s.lock.value in s.dead)
    && (forall d: Decision :: d.id >= s.nextId && s.base.attempt.judgement == None ==> Fresh(s.base, d))
  }

  ghost predicate Inv(g: Setting, s: State) { Locals(g, s) && Cut(g, s) }

  ghost predicate EffectOk(g: Setting, s: State, p: Pid, x: Effect)
    requires p in s.procs
  {
    var was := s.procs[p].pc;
    match x
    case Stay => true
    case Goto(next) => PcOk(g, s, p, next) && (Holds(next) ==> Holds(was))
    case Draw(d) => d.id == s.nextId && d.task == g.task && Fresh(s.base, d)
    case Commit(d) => s.commit == None && Drawn(g, s, d)
    case Lock(next) => next.Confirm? && !Holds(was) && (s.lock == None || s.lock.value in s.dead)
    case Free(next) => Holds(was) && PcOk(g, s, p, next) && !Holds(next)
    case Put(next, step, files) =>
      && Computed(was) && step == was.step && files == was.result && step < STEPS
      && next == (if was.Write? then At(was.d, was.created, step + 1, 0) else Unswap(was.d, was.created, step, was.tries, true))
    case Pass(next, step) =>
      && was.At? && step == was.step < STEPS && next == At(was.d, was.created, step + 1, 0)
      && Project(g, step, s.files, was.d) == Some(s.files)
    case TakeSwap(next, _) => PcOk(g, s, p, next) && Holds(was)
    case FreeSwap(next, _) => PcOk(g, s, p, next) && Holds(was)
  }

  /** On the files that it was computed from, a write leaves exactly what was computed. */
  lemma LandsResult(g: Setting, step: nat, f: Files, d: Decision, result: Files)
    requires step < STEPS && Project(g, step, f, d) == Some(result)
    ensures Land(step, f, f, result) == Lands(result)
  {
    hide Implement, ImplementAll, Advance, Matching, IdentityConflict, LoggedAs;
    if step == 0 || step == 4 || step == 7 {
      assert f.decisions + Tail(f.decisions, result.decisions) == result.decisions;
      assert f.events + Tail(f.events, result.events) == result.events;
    } else if step == 5 || step == 8 {
      assert f.eventFiles + (result.eventFiles - f.eventFiles.Keys) == result.eventFiles;
    }
  }

  lemma ProjectingEffect(g: Setting, s: State, p: Pid, i: Input)
    requires Inv(g, s) && p in s.procs && Projecting(s.procs[p].pc)
    ensures EffectOk(g, s, p, StepPc(g, s, p, s.procs[p], i))
  {
    hide Project, Prefix, Fresh, Land;
    var pc := s.procs[p].pc;
    assert PcOk(g, s, p, pc);
    if Computed(pc) { LandsResult(g, pc.step, s.files, pc.d, pc.result); }
  }

  lemma OtherEffect(g: Setting, s: State, p: Pid, i: Input)
    requires Inv(g, s) && p in s.procs && !Projecting(s.procs[p].pc)
    ensures EffectOk(g, s, p, StepPc(g, s, p, s.procs[p], i))
  {
    hide Project, Prefix, Fresh, Land;
    assert PcOk(g, s, p, s.procs[p].pc);
  }

  lemma PcEffect(g: Setting, s: State, p: Pid, i: Input)
    requires Inv(g, s) && p in s.procs
    ensures EffectOk(g, s, p, StepPc(g, s, p, s.procs[p], i))
  {
    hide Inv, EffectOk, StepPc;
    if Projecting(s.procs[p].pc) { ProjectingEffect(g, s, p, i); } else { OtherEffect(g, s, p, i); }
  }

  /** The next projection moves the cut by one; an earlier one moves nothing. */
  lemma Advances(g: Setting, s: State, d: Decision, step: nat, files: Files)
    requires Cut(g, s) && s.commit == Some(d) && step <= s.made && step < STEPS
    requires Project(g, step, s.files, d) == Some(files)
    ensures Count(s, step) <= STEPS && step + 1 <= Count(s, step)
    ensures Prefix(g, Count(s, step), s.base, d) == Some(files)
  {
    hide Project, Prefix, Fresh;
    if step < s.made { Redo(g, s.made, s.base, d, step); } else { PrefixStep(g, step, s.base, d); }
  }

  lemma KeepsCut(g: Setting, s: State, p: Pid, x: Effect)
    requires Inv(g, s) && p in s.procs && EffectOk(g, s, p, x)
    ensures Cut(g, Apply(s, p, x))
  {
    hide Project, Prefix, Fresh;
    assert PcOk(g, s, p, s.procs[p].pc);
    if x.Put? { Advances(g, s, s.procs[p].pc.d, x.step, x.files); }
    if x.Pass? { Advances(g, s, s.procs[p].pc.d, x.step, s.files); }
    if x.Commit? { assert Prefix(g, 0, s.base, x.d) == Some(s.base) by { EmptyPrefix(g, s.base, x.d); } }
  }

  lemma EmptyPrefix(g: Setting, f: Files, d: Decision)
    ensures Prefix(g, 0, f, d) == Some(f)
  {
  }

  lemma OthersKeep(g: Setting, s: State, p: Pid, x: Effect, q: Pid)
    requires Inv(g, s) && p in s.procs && q in s.procs && p != q && EffectOk(g, s, p, x)
    ensures PcOk(g, Apply(s, p, x), q, s.procs[q].pc)
  {
    hide Project, Prefix, Fresh;
    assert PcOk(g, s, p, s.procs[p].pc) && PcOk(g, s, q, s.procs[q].pc);
    assert x.Put? || x.Pass? ==> !Holds(s.procs[q].pc) && (s.made == STEPS ==> Count(s, x.step) == STEPS);
  }

  lemma KeepsLocals(g: Setting, s: State, p: Pid, x: Effect)
    requires Inv(g, s) && p in s.procs && EffectOk(g, s, p, x)
    ensures Locals(g, Apply(s, p, x))
  {
    hide Project, Prefix, Fresh;
    var t := Apply(s, p, x);
    assert PcOk(g, s, p, s.procs[p].pc);
    forall q | q in t.procs ensures q !in t.dead && PcOk(g, t, q, t.procs[q].pc) {
      if q != p { OthersKeep(g, s, p, x, q); }
    }
  }

  lemma ComeOrGo(g: Setting, s: State, a: Action)
    requires Inv(g, s) && (a.Begin? || a.Crash?)
    ensures Inv(g, Next(g, s, a))
  {
    hide Project, Prefix, Fresh;
    var t := Next(g, s, a);
    forall q | q in t.procs ensures q !in t.dead && PcOk(g, t, q, t.procs[q].pc) {
      if q in s.procs { assert PcOk(g, s, q, s.procs[q].pc); }
    }
  }

  lemma NextKeeps(g: Setting, s: State, a: Action)
    requires Inv(g, s) && (a.Seize? ==> Next(g, s, a) == s)
    ensures Inv(g, Next(g, s, a)) && Next(g, s, a).base == s.base
  {
    hide Project, Prefix, Fresh, Locals, Cut, StepPc;
    if a.Begin? || a.Crash? {
      ComeOrGo(g, s, a);
    } else if a.Step? && a.p in s.procs {
      PcEffect(g, s, a.p, a.i);
      KeepsCut(g, s, a.p, StepPc(g, s, a.p, s.procs[a.p], a.i));
      KeepsLocals(g, s, a.p, StepPc(g, s, a.p, s.procs[a.p], a.i));
    }
  }

  /** What no seizure can touch. */
  lemma AlwaysKept(g: Setting, s: State, a: Action)
    ensures s.commit.Some? ==> Next(g, s, a).commit == s.commit
    ensures Next(g, s, a).base == s.base && s.made <= Next(g, s, a).made
    ensures Next(g, s, a).seizures == s.seizures || (a.Seize? && Next(g, s, a).seizures == s.seizures + 1)
    ensures a.Seize? && Next(g, s, a).seizures == s.seizures ==> Next(g, s, a) == s
  {
    hide Project, Land;
  }

  lemma InitInv(g: Setting, s: State)
    requires Init(s)
    ensures Inv(g, s)
  {
    hide Fresh;
  }

  lemma {:induction false} RunInv(g: Setting, run: seq<State>, k: nat)
    requires Run(g, run) && k < |run|
    ensures run[k].seizures == 0 ==> Inv(g, run[k])
    ensures run[k].base == run[0].base
  {
    hide Inv, Next;
    if k == 0 {
      InitInv(g, run[0]);
    } else {
      RunInv(g, run, k - 1);
      var a := TheAction(g, run, k - 1);
      AlwaysKept(g, run[k - 1], a);
      if run[k].seizures == 0 { NextKeeps(g, run[k - 1], a); }
    }
  }

  lemma TheAction(g: Setting, run: seq<State>, k: nat) returns (a: Action)
    requires Run(g, run) && k + 1 < |run|
    ensures run[k + 1] == Next(g, run[k], a)
  {
    hide Next;
    var steps := (s, t) => Steps(g, s, t);
    assert steps(run[k], run[k + 1]);
    a :| run[k + 1] == Next(g, run[k], a);
  }

  /** Between two states of a run, a committed decision stays, and the histories only grow. */
  lemma {:induction false} HistoryGrows(g: Setting, run: seq<State>, i: nat, k: nat)
    requires Run(g, run) && i <= k < |run|
    ensures run[i].commit.Some? ==> run[k].commit == run[i].commit
    ensures run[i].made <= run[k].made && run[i].seizures <= run[k].seizures
  {
    hide Next;
    if i < k {
      HistoryGrows(g, run, i, k - 1);
      var a := TheAction(g, run, k - 1);
      AlwaysKept(g, run[k - 1], a);
    }
  }

  // ----- theorems

  /** The first committed decision is final, whatever was seized. */
  lemma FirstDecisionFinal(g: Setting, run: seq<State>, i: nat, k: nat)
    requires Run(g, run) && i <= k < |run| && run[i].commit.Some?
    ensures run[k].commit == run[i].commit
  {
    HistoryGrows(g, run, i, k);
  }

  /** While the lock has not been seized from a live holder: wherever evaluators died and whatever verdicts
      they carried, the files are at every moment those of one uninterrupted run of the committed decision,
      cut off after some projection. */
  lemma AlwaysAPrefix(g: Setting, run: seq<State>, k: nat)
    requires Run(g, run) && k < |run| && run[k].seizures == 0
    ensures run[k].commit.None? ==> run[k].files == run[0].base
    ensures run[k].commit.Some? ==>
              run[k].made <= STEPS && Prefix(g, run[k].made, run[0].base, run[k].commit.value) == Some(run[k].files)
  {
    hide Project, Prefix, Fresh, Locals;
    RunInv(g, run, k);
  }

  /** Crash equivalence: when any evaluator completes, it returns the committed decision, and the files
      are exactly those that one uninterrupted run would have left, one line in the decision log and
      one for each event. They stay so forever. */
  lemma CrashEquivalence(g: Setting, run: seq<State>, i: nat, k: nat, p: Pid)
    requires Run(g, run) && i <= k < |run| && run[k].seizures == 0
    requires p in run[i].procs && run[i].procs[p].pc.Done?
    ensures var d := run[i].procs[p].pc.d;
            && run[k].commit == Some(d) && Fresh(run[0].base, d)
            && CleanRun(g, run[0].base, d) == Some(run[k].files) && Left(g, run[0].base, d, run[k].files)
  {
    hide Project, Prefix, Fresh, Left, Next;
    HistoryGrows(g, run, i, k);
    RunInv(g, run, i);
    RunInv(g, run, k);
    assert PcOk(g, run[i], p, run[i].procs[p].pc);
    CleanContents(g, run[0].base, run[i].procs[p].pc.d);
  }

  /** No evaluator completes unless the committed decision can be projected onto the original files. */
  lemma CompletesOnlyIfClean(g: Setting, run: seq<State>, k: nat, p: Pid)
    requires Run(g, run) && k < |run| && run[k].seizures == 0 && p in run[k].procs && run[k].procs[p].pc.Done?
    ensures Completes(run[0].base, run[k].procs[p].pc.d)
  {
    hide Left, Fresh, Completes, Next, CleanRun;
    CrashEquivalence(g, run, k, k, p);
    CleanContents(g, run[0].base, run[k].procs[p].pc.d);
  }
}
