/** When an evaluation can be completed after crashes. An evaluator that dies inside the swap of a file
    leaves that file's swap lock behind for good; whether that matters depends on whether the file's
    projection would still change it. */
module EvaluationReruns {
  import opened Common
  import opened Evaluation
  import opened EvaluationRuns

  // ----- projections that are still to be made

  /** The projection would still change its file, or fail. */
  ghost predicate Pending(g: Setting, k: nat, f: Files, d: Decision) { Project(g, k, f, d) != Some(f) }

  /** Of a projection that swaps a file, this can be read off that file. */
  lemma PendingMeans(g: Setting, k: nat, f: Files, d: Decision)
    requires Swaps(k)
    ensures k == 1 ==> (Pending(g, k, f, d) <==> f.attempt.judgement != Some(Judgement(d.id, d.verdict, d.rationale, d.time)))
    ensures k == 2 ==> (Pending(g, k, f, d) <==> f.task.state != Terminal(d))
    ensures k == 3 ==> (Pending(g, k, f, d) <==>
                          d.verdict.Accept? && f.task.requirements != [] && ImplementAll(f.matrix, f.task.requirements, d) != Some(f.matrix))
    ensures k == 6 ==> (Pending(g, k, f, d) <==> f.life.activeTask == Some(g.task) && f.life.activeAttempt == Some(g.attempt))
  {
    hide ImplementAll;
  }

  predicate SameFile(k: nat, f: Files, h: Files) {
    && (k == 1 ==> f.attempt == h.attempt)
    && (k == 2 ==> f.task == h.task)
    && (k == 3 ==> f.matrix == h.matrix && f.task.requirements == h.task.requirements)
    && (k == 6 ==> f.life == h.life)
  }

  lemma PendingSame(g: Setting, k: nat, f: Files, h: Files, d: Decision)
    requires Swaps(k) && SameFile(k, f, h)
    ensures Pending(g, k, f, d) <==> Pending(g, k, h, d)
  {
    hide Pending, ImplementAll;
    PendingMeans(g, k, f, d);
    PendingMeans(g, k, h, d);
  }

  /** No projection touches the file of another one that swaps. */
  lemma LandsElsewhere(g: Setting, j: nat, k: nat, now: Files, seen: Files, d: Decision, result: Files)
    requires j < STEPS && Swaps(k) && j != k && Project(g, j, seen, d) == Some(result) && Land(j, now, seen, result).Lands?
    ensures SameFile(k, now, Land(j, now, seen, result).files)
  {
    hide ProjectLog, ProjectAttempt, ProjectRequirements, ProjectEvent, ProjectEventFile, Advance;
  }

  // ----- what always holds, whatever was seized

  ghost predicate Aware(g: Setting, s: State, p: Pid, pc: Pc) {
    && (Projecting(pc) ==> s.commit == Some(pc.d))
    && (Computed(pc) ==> pc.step < STEPS && Project(g, pc.step, pc.seen, pc.d) == Some(pc.result))
    && (pc.Swap? || pc.Unswap? ==> pc.step in s.swaps && s.swaps[pc.step] == p)
  }

  ghost predicate AllAware(g: Setting, s: State) {
    forall p :: p in s.procs ==> p !in s.dead && Aware(g, s, p, s.procs[p].pc)
  }

  ghost predicate AwareEffect(g: Setting, s: State, p: Pid, x: Effect)
    requires p in s.procs
  {
    var was := s.procs[p].pc;
    match x
    case Stay => true
    case Goto(next) => Aware(g, s, p, next)
    case Draw(_) => true
    case Commit(_) => s.commit == None
    case Lock(next) => Aware(g, s, p, next)
    case Free(next) => !Projecting(next)
    case Put(next, _, _) => Aware(g, s, p, next)
    case Pass(next, _) => Aware(g, s, p, next)
    case TakeSwap(next, step) => step !in s.swaps && Aware(g, s.(swaps := s.swaps[step := p]), p, next)
    case FreeSwap(next, step) => was.Unswap? && step == was.step && next.At? && s.commit == Some(next.d)
  }

  lemma StepAware(g: Setting, s: State, p: Pid, i: Input)
    requires p in s.procs && Aware(g, s, p, s.procs[p].pc)
    ensures AwareEffect(g, s, p, StepPc(g, s, p, s.procs[p], i))
  {
    hide Project, Land;
  }

  lemma EffectAware(g: Setting, s: State, p: Pid, x: Effect, q: Pid)
    requires AllAware(g, s) && p in s.procs && AwareEffect(g, s, p, x) && q in s.procs
    ensures var t := Apply(s, p, x); q in t.procs && Aware(g, t, q, t.procs[q].pc)
  {
    hide Project;
    assert Aware(g, s, p, s.procs[p].pc) && Aware(g, s, q, s.procs[q].pc);
  }

  lemma NextAware(g: Setting, s: State, a: Action)
    requires AllAware(g, s)
    ensures AllAware(g, Next(g, s, a))
  {
    hide Project, StepPc, AwareEffect;
    var t := Next(g, s, a);
    if a.Step? && a.p in s.procs {
      StepAware(g, s, a.p, a.i);
      KeysKept(s, a.p, StepPc(g, s, a.p, s.procs[a.p], a.i));
      forall q | q in t.procs ensures q !in t.dead && Aware(g, t, q, t.procs[q].pc) {
        EffectAware(g, s, a.p, StepPc(g, s, a.p, s.procs[a.p], a.i), q);
      }
    } else {
      forall q | q in t.procs ensures q !in t.dead && Aware(g, t, q, t.procs[q].pc) {
        if q in s.procs { assert Aware(g, s, q, s.procs[q].pc); }
      }
    }
  }

  lemma KeysKept(s: State, p: Pid, x: Effect)
    requires p in s.procs
    ensures Apply(s, p, x).procs.Keys == s.procs.Keys && Apply(s, p, x).dead == s.dead
  {
  }

  lemma {:induction false} RunAware(g: Setting, run: seq<State>, k: nat)
    requires Run(g, run) && k < |run|
    ensures AllAware(g, run[k])
  {
    hide Aware, Next;
    if k > 0 {
      RunAware(g, run, k - 1);
      var a := TheAction(g, run, k - 1);
      NextAware(g, run[k - 1], a);
    }
  }

  // ----- an orphaned swap lock

  /** A dead evaluator has left the swap lock of a file that its projection would still change. */
  ghost predicate Blocked(g: Setting, s: State, k: nat) {
    s.commit.Some? && Swaps(k) && k in s.swaps && s.swaps[k] in s.dead && Pending(g, k, s.files, s.commit.value)
  }

  /** The process has not passed the projection. */
  predicate Behind(pc: Pc, k: nat) {
    (Projecting(pc) ==> pc.step <= k) && !pc.Done? && (pc.Unlock? ==> !pc.completed)
  }

  ghost predicate Stuck(g: Setting, s: State, k: nat) {
    AllAware(g, s) && Blocked(g, s, k) && forall p :: p in s.procs ==> Behind(s.procs[p].pc, k)
  }

  lemma BlockedStuck(g: Setting, s: State, k: nat)
    requires Inv(g, s) && AllAware(g, s) && Blocked(g, s, k)
    ensures Stuck(g, s, k)
  {
    hide Project, Prefix, Fresh, Aware;
    if s.made > k { Redo(g, s.made, s.base, s.commit.value, k); }
    forall p | p in s.procs ensures Behind(s.procs[p].pc, k) { assert PcOk(g, s, p, s.procs[p].pc); }
  }

  ghost predicate StuckEffect(g: Setting, s: State, p: Pid, x: Effect, k: nat)
    requires p in s.procs
  {
    match x
    case Stay => true
    case Goto(next) => Behind(next, k)
    case Draw(_) => true
    case Commit(_) => false
    case Lock(next) => Behind(next, k)
    case Free(next) => Behind(next, k)
    case Put(next, step, files) => Behind(next, k) && SameFile(k, s.files, files)
    case Pass(next, _) => Behind(next, k)
    case TakeSwap(next, step) => Behind(next, k) && step != k
    case FreeSwap(next, step) => Behind(next, k) && step != k
  }

  lemma StepStuck(g: Setting, s: State, p: Pid, i: Input, k: nat)
    requires Stuck(g, s, k) && p in s.procs
    ensures StuckEffect(g, s, p, StepPc(g, s, p, s.procs[p], i), k)
  {
    hide Project, Land, SameFile;
    var pc := s.procs[p].pc;
    assert p !in s.dead && Aware(g, s, p, pc) && Behind(pc, k);
    if Computed(pc) && pc.step != k && Land(pc.step, s.files, pc.seen, pc.result).Lands? {
      LandsElsewhere(g, pc.step, k, s.files, pc.seen, pc.d, pc.result);
    }
  }

  lemma EffectStuck(g: Setting, s: State, p: Pid, x: Effect, k: nat)
    requires Stuck(g, s, k) && p in s.procs && StuckEffect(g, s, p, x, k)
    ensures var t := Apply(s, p, x); Blocked(g, t, k) && forall q :: q in t.procs ==> Behind(t.procs[q].pc, k)
  {
    hide Pending, SameFile, AllAware;
    if x.Put? { PendingSame(g, k, s.files, x.files, s.commit.value); }
  }

  lemma NextStuck(g: Setting, s: State, a: Action, k: nat)
    requires Stuck(g, s, k)
    ensures Stuck(g, Next(g, s, a), k)
  {
    NextAware(g, s, a);
    if a.Step? && a.p in s.procs {
      hide AllAware, StepPc, Stuck, StuckEffect, Apply, Blocked;
      StepStuck(g, s, a.p, a.i, k);
      EffectStuck(g, s, a.p, StepPc(g, s, a.p, s.procs[a.p], a.i), k);
      Together(g, Next(g, s, a), k);
    } else {
      hide AllAware, Pending;
    }
  }

  lemma Together(g: Setting, s: State, k: nat)
    requires AllAware(g, s) && Blocked(g, s, k) && forall p :: p in s.procs ==> Behind(s.procs[p].pc, k)
    ensures Stuck(g, s, k)
  {
    hide AllAware, Blocked;
  }

  /** From then on no evaluator completes, neither one at work nor a later one, and whatever is seized. */
  lemma {:induction false} OrphanBlocks(g: Setting, run: seq<State>, i: nat, j: nat, k: nat)
    requires Run(g, run) && i <= j < |run| && run[i].seizures == 0 && Blocked(g, run[i], k)
    ensures Stuck(g, run[j], k) && forall p :: p in run[j].procs ==> !run[j].procs[p].pc.Done?
  {
    hide Inv, Next, AllAware, Blocked;
    if i == j {
      RunInv(g, run, i);
      RunAware(g, run, i);
      BlockedStuck(g, run[i], k);
    } else {
      OrphanBlocks(g, run, i, j - 1, k);
      var a := TheAction(g, run, j - 1);
      NextStuck(g, run[j - 1], a, k);
    }
  }

  // ----- swap locks are held by evaluators inside a swap, or by the dead

  predicate InSwap(pc: Pc, k: nat) { (pc.Swap? || pc.Unswap?) && pc.step == k }

  ghost predicate Owned(s: State) {
    forall k :: k in s.swaps ==>
      Swaps(k) && var p := s.swaps[k]; p in s.dead || (p in s.procs && InSwap(s.procs[p].pc, k))
  }

  ghost predicate OwnedEffect(s: State, p: Pid, x: Effect)
    requires p in s.procs
  {
    var was := s.procs[p].pc;
    if x.TakeSwap? then Swaps(x.step) && InSwap(x.next, x.step) && !was.Swap? && !was.Unswap?
    else if x.FreeSwap? then was.Unswap? && x.step == was.step
    else was.Swap? || was.Unswap? ==> (x.Goto? || x.Put?) && InSwap(x.next, was.step)
  }

  lemma StepOwned(g: Setting, s: State, p: Pid, i: Input)
    requires p in s.procs
    ensures OwnedEffect(s, p, StepPc(g, s, p, s.procs[p], i))
  {
    hide Project, Land;
  }

  lemma EffectOwned(s: State, p: Pid, x: Effect)
    requires Owned(s) && p in s.procs && OwnedEffect(s, p, x)
    ensures Owned(Apply(s, p, x))
  {
  }

  lemma {:induction false} RunOwned(g: Setting, run: seq<State>, k: nat)
    requires Run(g, run) && k < |run|
    ensures Owned(run[k])
  {
    hide StepPc, OwnedEffect, Apply;
    if k > 0 {
      var s := run[k - 1];
      RunOwned(g, run, k - 1);
      var a := TheAction(g, run, k - 1);
      if a.Step? && a.p in s.procs {
        StepOwned(g, s, a.p, a.i);
        EffectOwned(s, a.p, StepPc(g, s, a.p, s.procs[a.p], a.i));
      }
    }
  }

  // ----- a rerun does complete

  ghost predicate Reaches(g: Setting, s: State, t: State) {
    exists run :: IsRun((x, y) => Steps(g, x, y), run) && run[0] == s && run[|run| - 1] == t
  }

  lemma ReachesItself(g: Setting, s: State)
    ensures Reaches(g, s, s)
  {
    assert IsRun((x, y) => Steps(g, x, y), [s]);
  }

  lemma ReachesOn(g: Setting, s: State, a: Action, t: State)
    requires Reaches(g, Next(g, s, a), t)
    ensures Reaches(g, s, t)
  {
    hide Next;
    var steps := (x, y) => Steps(g, x, y);
    var run :| IsRun((x, y) => Steps(g, x, y), run) && run[0] == Next(g, s, a) && run[|run| - 1] == t;
    var longer := [s] + run;
    assert Steps(g, s, Next(g, s, a));
    forall i | 0 <= i < |longer| - 1 ensures Steps(g, longer[i], longer[i + 1]) {
      if i > 0 { assert steps(run[i - 1], run[i - 1 + 1]); }
    }
    assert IsRun((x, y) => Steps(g, x, y), longer);
  }

  lemma {:induction false} CutCompletes(g: Setting, f: Files, d: Decision, n: nat)
    requires n <= STEPS && CleanRun(g, f, d).Some?
    ensures Prefix(g, n, f, d).Some?
    decreases STEPS - n
  {
    hide Project;
    if n < STEPS { CutCompletes(g, f, d, n + 1); }
  }

  /** One process makes `n` steps. */
  function Later(g: Setting, s: State, p: Pid, i: Input, n: nat): State
    decreases n
  {
    if n == 0 then s else Later(g, Next(g, s, Step(p, i)), p, i, n - 1)
  }

  lemma {:induction false} SameEvaluator(g: Setting, s: State, p: Pid, i: Input, n: nat)
    requires p in s.procs
    ensures var t := Later(g, s, p, i, n); p in t.procs && t.procs[p] == s.procs[p].(pc := t.procs[p].pc)
    decreases n
  {
    hide Project, Land, StepPc;
    if n > 0 { SameEvaluator(g, Next(g, s, Step(p, i)), p, i, n - 1); }
  }

  /** No swap lock stands on a file that its projection would still change. */
  ghost predicate Clear(g: Setting, s: State, d: Decision) {
    forall k :: k in s.swaps ==> Swaps(k) && !Pending(g, k, s.files, d)
  }

  lemma StepAt(g: Setting, s: State, p: Pid, i: Input)
    requires p in s.procs && s.procs[p].pc.At? && s.procs[p].pc.step < STEPS && s.procs[p].pc.tries == 0
    requires Project(g, s.procs[p].pc.step, s.files, s.procs[p].pc.d).Some?
    ensures var pc, t := s.procs[p].pc, Next(g, s, Step(p, i));
            var result := Project(g, pc.step, s.files, pc.d).value;
            if result == s.files then t == To(s.(made := Count(s, pc.step)), p, At(pc.d, pc.created, pc.step + 1, 0))
            else t == To(s, p, Write(pc.d, pc.created, pc.step, 0, s.files, result))
  {
    hide Project;
  }

  lemma StepWrite(g: Setting, s: State, p: Pid, i: Input)
    requires p in s.procs && s.procs[p].pc.Write? && s.procs[p].pc.step !in s.swaps
    requires Land(s.procs[p].pc.step, s.files, s.procs[p].pc.seen, s.procs[p].pc.result) == Lands(s.procs[p].pc.result)
    ensures var pc, t := s.procs[p].pc, Next(g, s, Step(p, i));
            if Swaps(pc.step)
            then t == To(s.(swaps := s.swaps[pc.step := p]), p, Swap(pc.d, pc.created, pc.step, pc.tries, pc.seen, pc.result))
            else t == To(s.(files := pc.result, made := Count(s, pc.step)), p, At(pc.d, pc.created, pc.step + 1, 0))
  {
    hide Project, Land;
  }

  lemma StepSwap(g: Setting, s: State, p: Pid, i: Input)
    requires p in s.procs && s.procs[p].pc.Swap?
    requires Land(s.procs[p].pc.step, s.files, s.procs[p].pc.seen, s.procs[p].pc.result) == Lands(s.procs[p].pc.result)
    ensures var pc := s.procs[p].pc;
            Next(g, s, Step(p, i)) ==
            To(s.(files := pc.result, made := Count(s, pc.step)), p, Unswap(pc.d, pc.created, pc.step, pc.tries, true))
  {
    hide Project, Land;
  }

  lemma StepUnswap(g: Setting, s: State, p: Pid, i: Input)
    requires p in s.procs && s.procs[p].pc.Unswap? && s.procs[p].pc.swapped
    ensures var pc := s.procs[p].pc;
            Next(g, s, Step(p, i)) == To(s.(swaps := s.swaps - {pc.step}), p, At(pc.d, pc.created, pc.step + 1, 0))
  {
    hide Project, Land;
  }

  /** A holder of the lock that is left alone makes its next projection, unless an orphan stands in its way. */
  lemma Projects(g: Setting, s: State, p: Pid, i: Input) returns (n: nat)
    requires p in s.procs && s.procs[p].pc.At? && s.procs[p].pc.step < STEPS && s.procs[p].pc.tries == 0
    requires Project(g, s.procs[p].pc.step, s.files, s.procs[p].pc.d).Some? && Clear(g, s, s.procs[p].pc.d)
    ensures var pc, t := s.procs[p].pc, Later(g, s, p, i, n);
            && p in t.procs && t.procs[p].pc == At(pc.d, pc.created, pc.step + 1, 0)
            && Project(g, pc.step, s.files, pc.d) == Some(t.files) && t.swaps == s.swaps
  {
    hide Project, Land, Next;
    var pc, result := s.procs[p].pc, Project(g, s.procs[p].pc.step, s.files, s.procs[p].pc.d).value;
    LandsResult(g, pc.step, s.files, pc.d, result);
    StepAt(g, s, p, i);
    var t := Next(g, s, Step(p, i));
    assert Later(g, s, p, i, 1) == Later(g, t, p, i, 0) == t;
    if result == s.files { return 1; }
    assert pc.step !in s.swaps;
    StepWrite(g, t, p, i);
    var u := Next(g, t, Step(p, i));
    assert Later(g, s, p, i, 2) == Later(g, t, p, i, 1) == Later(g, u, p, i, 0) == u;
    if !Swaps(pc.step) { return 2; }
    StepSwap(g, u, p, i);
    var v := Next(g, u, Step(p, i));
    StepUnswap(g, v, p, i);
    var w := Next(g, v, Step(p, i));
    assert Later(g, s, p, i, 4) == Later(g, t, p, i, 3) == Later(g, u, p, i, 2) == Later(g, v, p, i, 1) == Later(g, w, p, i, 0) == w;
    assert w.swaps == s.swaps;
    return 4;
  }

  lemma ClearKept(g: Setting, s: State, t: State, d: Decision, step: nat)
    requires Clear(g, s, d) && t.swaps == s.swaps && step < STEPS && Project(g, step, s.files, d) == Some(t.files)
    ensures Clear(g, t, d)
  {
    hide Project;
    LandsResult(g, step, s.files, d, t.files);
    forall k | k in t.swaps ensures Swaps(k) && !Pending(g, k, t.files, d) {
      if k != step {
        LandsElsewhere(g, step, k, s.files, s.files, d, t.files);
        PendingSame(g, k, s.files, t.files, d);
      }
    }
  }

  /** Such a holder runs through all of them. */
  lemma {:induction false} RunsThrough(g: Setting, s: State, p: Pid, i: Input) returns (t: State)
    requires Inv(g, s) && p in s.procs && s.procs[p].pc.At? && s.procs[p].pc.tries == 0
    requires Completes(s.base, s.procs[p].pc.d) && Clear(g, s, s.procs[p].pc.d)
    ensures Reaches(g, s, t) && Inv(g, t) && t.base == s.base
    ensures p in t.procs && t.procs[p] == s.procs[p].(pc := Done(s.procs[p].pc.d, s.procs[p].pc.created))
    decreases STEPS - s.procs[p].pc.step
  {
    hide Project, Prefix, Fresh, Completes, Left, Locals, Cut, Reaches, Clear;
    AtFacts(g, s, p);
    if s.procs[p].pc.step == STEPS {
      t := Finishes(g, s, p, i);
    } else {
      var n := Projects(g, s, p, i);
      var u := Later(g, s, p, i, n);
      KeepsLater(g, s, p, i, n);
      SameEvaluator(g, s, p, i, n);
      ClearKept(g, s, u, s.procs[p].pc.d, s.procs[p].pc.step);
      t := RunsThrough(g, u, p, i);
      ReachesLater(g, s, p, i, n, t);
    }
  }

  lemma Finishes(g: Setting, s: State, p: Pid, i: Input) returns (t: State)
    requires Inv(g, s) && p in s.procs && s.procs[p].pc.At? && s.procs[p].pc.step == STEPS
    ensures Reaches(g, s, t) && Inv(g, t) && t.base == s.base
    ensures p in t.procs && t.procs[p] == s.procs[p].(pc := Done(s.procs[p].pc.d, s.procs[p].pc.created))
  {
    hide Project, Inv, Land;
    t := Later(g, s, p, i, 2);
    var u := Next(g, s, Step(p, i));
    assert Later(g, s, p, i, 2) == Later(g, u, p, i, 1) == Later(g, Next(g, u, Step(p, i)), p, i, 0);
    KeepsLater(g, s, p, i, 2);
    SameEvaluator(g, s, p, i, 2);
    ReachesItself(g, t);
    ReachesLater(g, s, p, i, 2, t);
  }

  lemma AtFacts(g: Setting, s: State, p: Pid)
    requires Inv(g, s) && p in s.procs && s.procs[p].pc.At? && Completes(s.base, s.procs[p].pc.d)
    ensures var pc := s.procs[p].pc; pc.step <= STEPS && (pc.step < STEPS ==> Project(g, pc.step, s.files, pc.d).Some?)
  {
    hide Project, Prefix, Fresh, Completes, Left;
    var pc := s.procs[p].pc;
    assert PcOk(g, s, p, pc);
    if pc.step < STEPS { Projectable(g, s, pc.d, pc.step); }
  }

  lemma Projectable(g: Setting, s: State, d: Decision, step: nat)
    requires Cut(g, s) && s.commit == Some(d) && step <= s.made && step < STEPS && Completes(s.base, d)
    ensures Project(g, step, s.files, d).Some?
  {
    hide Project, Prefix, Fresh, Completes, Left;
    CleanContents(g, s.base, d);
    if step < s.made {
      Redo(g, s.made, s.base, d, step);
    } else {
      CutCompletes(g, s.base, d, step + 1);
      PrefixStep(g, step, s.base, d);
    }
  }

  /** A new evaluator of either verdict can complete after crashes unless an orphan stands in its way: from any state
      a run can reach without a seizure, with a decision committed that the original files admit and the projection
      lock free or left by the dead, it ends with that decision and the files of one uninterrupted run. */
  lemma RerunCompletes(g: Setting, run: seq<State>, k: nat, p: Pid, verdict: Verdict)
    requires Run(g, run) && k < |run| && run[k].seizures == 0 && p !in run[k].procs && p !in run[k].dead
    requires run[k].commit.Some? && Completes(run[0].base, run[k].commit.value)
    requires run[k].lock.None? || run[k].lock.value in run[k].dead
    requires forall step :: !Blocked(g, run[k], step)
    ensures exists t :: Reaches(g, run[k], t) && p in t.procs
                        && t.procs[p] == Proc(verdict, "", Done(run[k].commit.value, false))
                        && CleanRun(g, run[0].base, run[k].commit.value) == Some(t.files)
  {
    hide Project, Prefix, Fresh, Completes, Left, Reaches, Next, Inv, Blocked, Clear;
    RunInv(g, run, k);
    RunOwned(g, run, k);
    var s, d, i := run[k], run[k].commit.value, Input(true, [], 0, 0, false);
    var started := Next(g, s, Begin(p, verdict, ""));
    NextKeeps(g, s, Begin(p, verdict, ""));
    KeepsLater(g, started, p, i, 5);
    CommitTask(g, s);
    Arrives(g, s, p, verdict, i);
    Started(g, s, p, verdict);
    SameEvaluator(g, started, p, i, 5);
    AllOrphans(g, s);
    SameClear(g, s, Later(g, started, p, i, 5), d);
    var t := RunsThrough(g, Later(g, started, p, i, 5), p, i);
    ReachesLater(g, started, p, i, 5, t);
    ReachesOn(g, s, Begin(p, verdict, ""), t);
    DoneClean(g, t, p);
  }

  lemma Started(g: Setting, s: State, p: Pid, verdict: Verdict)
    requires p !in s.procs && p !in s.dead
    ensures var t := Next(g, s, Begin(p, verdict, "")); p in t.procs && t.procs[p] == Proc(verdict, "", Start)
  {
  }

  /** While nobody alive holds the projection lock, every swap lock that stands is an orphan. */
  lemma AllOrphans(g: Setting, s: State)
    requires Inv(g, s) && Owned(s) && s.commit.Some? && (s.lock.None? || s.lock.value in s.dead)
    requires forall step :: !Blocked(g, s, step)
    ensures Clear(g, s, s.commit.value)
  {
    hide Pending, Project, Prefix, Fresh;
    forall q | q in s.procs ensures !Holds(s.procs[q].pc) { assert PcOk(g, s, q, s.procs[q].pc); }
    forall k | k in s.swaps ensures Swaps(k) && !Pending(g, k, s.files, s.commit.value) {
      assert !Blocked(g, s, k);
    }
  }

  lemma SameClear(g: Setting, s: State, t: State, d: Decision)
    requires Clear(g, s, d) && t.files == s.files && t.swaps == s.swaps
    ensures Clear(g, t, d)
  {
    hide Pending;
  }

  /** Exactly when a rerun can complete: the original files admit the decision, and no orphaned swap lock stands on a
      file that its projection would still change. */
  lemma RerunCompletesExactly(g: Setting, run: seq<State>, k: nat, p: Pid)
    requires Run(g, run) && k < |run| && run[k].seizures == 0 && p !in run[k].procs && p !in run[k].dead
    requires run[k].commit.Some? && (run[k].lock.None? || run[k].lock.value in run[k].dead)
    ensures (exists t :: Reaches(g, run[k], t) && p in t.procs && t.procs[p].pc == Done(run[k].commit.value, false)
                         && CleanRun(g, run[0].base, run[k].commit.value) == Some(t.files))
            <==> Completes(run[0].base, run[k].commit.value) && forall step :: !Blocked(g, run[k], step)
  {
    hide Completes, Left, Blocked, Reaches, CleanRun, Fresh;
    RunInv(g, run, k);
    CommitFresh(g, run[k]);
    CleanContents(g, run[0].base, run[k].commit.value);
    if Completes(run[0].base, run[k].commit.value) && forall step :: !Blocked(g, run[k], step) {
      RerunCompletes(g, run, k, p, Accept);
    }
    forall t, step | Reaches(g, run[k], t) && p in t.procs && t.procs[p].pc.Done? ensures !Blocked(g, run[k], step) {
      if Blocked(g, run[k], step) { NeverDone(g, run, k, step, t, p); }
    }
  }

  lemma NeverDone(g: Setting, run: seq<State>, k: nat, step: nat, t: State, p: Pid)
    requires Run(g, run) && k < |run| && run[k].seizures == 0 && Blocked(g, run[k], step) && Reaches(g, run[k], t)
    ensures p in t.procs ==> !t.procs[p].pc.Done?
  {
    hide Blocked, Next, AllAware;
    OrphanBlocks(g, run, k, k, step);
    var steps := (x, y) => Steps(g, x, y);
    var path :| IsRun((x, y) => Steps(g, x, y), path) && path[0] == run[k] && path[|path| - 1] == t;
    StuckAlong(g, path, |path| - 1, step);
  }

  lemma {:induction false} StuckAlong(g: Setting, path: seq<State>, j: nat, k: nat)
    requires IsRun((x, y) => Steps(g, x, y), path) && j < |path| && Stuck(g, path[0], k)
    ensures Stuck(g, path[j], k)
  {
    hide Stuck, Next;
    if j > 0 {
      StuckAlong(g, path, j - 1, k);
      var steps := (x, y) => Steps(g, x, y);
      assert steps(path[j - 1], path[j - 1 + 1]);
      var a :| path[j] == Next(g, path[j - 1], a);
      NextStuck(g, path[j - 1], a, k);
    }
  }

  lemma CommitFresh(g: Setting, s: State)
    requires Inv(g, s) && s.commit.Some?
    ensures Fresh(s.base, s.commit.value)
  {
    hide Project, Prefix, Fresh, Locals;
  }

  lemma CommitTask(g: Setting, s: State)
    requires Inv(g, s) && s.commit.Some?
    ensures s.commit.value.task == g.task
  {
    hide Project, Prefix, Fresh, Locals;
  }

  lemma DoneClean(g: Setting, t: State, p: Pid)
    requires Inv(g, t) && p in t.procs && t.procs[p].pc.Done?
    ensures t.commit == Some(t.procs[p].pc.d) && CleanRun(g, t.base, t.procs[p].pc.d) == Some(t.files)
  {
    hide Project, Prefix, Fresh;
    assert PcOk(g, t, p, t.procs[p].pc);
  }

  lemma {:induction false} KeepsLater(g: Setting, s: State, p: Pid, i: Input, n: nat)
    requires Inv(g, s)
    ensures Inv(g, Later(g, s, p, i, n)) && Later(g, s, p, i, n).base == s.base
    decreases n
  {
    hide Inv, Next;
    if n > 0 {
      NextKeeps(g, s, Step(p, i));
      KeepsLater(g, Next(g, s, Step(p, i)), p, i, n - 1);
    }
  }

  lemma {:induction false} ReachesLater(g: Setting, s: State, p: Pid, i: Input, n: nat, t: State)
    requires Reaches(g, Later(g, s, p, i, n), t)
    ensures Reaches(g, s, t)
    decreases n
  {
    hide Reaches, Next;
    if n > 0 {
      ReachesLater(g, Next(g, s, Step(p, i)), p, i, n - 1, t);
      ReachesOn(g, s, Step(p, i), t);
    }
  }

  /** A new evaluator finds the commit, takes the lock and confirms the commit. */
  lemma Arrives(g: Setting, s: State, p: Pid, verdict: Verdict, i: Input)
    requires p !in s.procs && p !in s.dead && s.commit.Some? && s.commit.value.task == g.task && i.consumed
    requires s.lock.None? || s.lock.value in s.dead
    ensures var t := Later(g, Next(g, s, Begin(p, verdict, "")), p, i, 5);
            p in t.procs && t.procs[p].pc == At(s.commit.value, false, 0, 0) && t.files == s.files && t.swaps == s.swaps
  {
    hide Project, Land;
    var d := s.commit.value;
    var s0 := Next(g, s, Begin(p, verdict, ""));
    var s1 := Next(g, s0, Step(p, i));
    assert s1 == To(s0, p, s1.procs[p].pc) && s1.procs[p].pc.Look?;
    var s2 := Next(g, s1, Step(p, i));
    assert s2 == To(s1, p, Check(d, false));
    Locks(g, s2, p, i);
    assert Later(g, s0, p, i, 5) == Later(g, s1, p, i, 4) == Later(g, s2, p, i, 3);
  }

  lemma Locks(g: Setting, s: State, p: Pid, i: Input)
    requires p in s.procs && s.commit.Some? && s.commit.value.task == g.task
    requires s.procs[p].pc == Check(s.commit.value, false)
    requires s.lock.None? || s.lock.value in s.dead
    ensures var t := Later(g, s, p, i, 3);
            p in t.procs && t.procs[p].pc == At(s.commit.value, false, 0, 0) && t.files == s.files && t.swaps == s.swaps
  {
    hide Project, Land;
  }
}
