/** Who commits the decision of an evaluation, and on what. In a run with its actions, the committed decision is traced
    back to what its evaluator was called with and had read. */
module EvaluationCommits {
  import opened Common
  import opened Evaluation
  import opened EvaluationRuns

  /** A run with the action of each step. */
  ghost predicate Acted(g: Setting, run: seq<State>, acts: seq<Action>) {
    |run| == |acts| + 1 && Init(run[0]) && forall k :: 0 <= k < |acts| ==> run[k + 1] == Next(g, run[k], acts[k])
  }

  /** The evaluator has drawn a decision that it may yet commit. */
  predicate Drafting(pc: Pc) { pc.Relook? || pc.Create? }

  // ----- an acceptance needs a satisfied attempt

  /** The attempt's acceptance never changes, and whoever drafts an acceptance has found it satisfied. */
  ghost predicate Gated(s: State) {
    && s.files.attempt.satisfied == s.base.attempt.satisfied
    && (s.commit.Some? && s.commit.value.verdict == Accept ==> s.base.attempt.satisfied)
    && (forall p :: p in s.procs && Drafting(s.procs[p].pc) && s.procs[p].pc.d.verdict == Accept ==> s.base.attempt.satisfied)
    && (forall p :: p in s.procs && Computed(s.procs[p].pc) ==> s.procs[p].pc.result.attempt.satisfied == s.base.attempt.satisfied)
  }

  ghost predicate EffectGated(s: State, x: Effect) {
    && (x.Goto? || x.Lock? || x.Free? || x.Put? || x.Pass? || x.TakeSwap? || x.FreeSwap? ==>
          && (Drafting(x.next) && x.next.d.verdict == Accept ==> s.base.attempt.satisfied)
          && (Computed(x.next) ==> x.next.result.attempt.satisfied == s.base.attempt.satisfied))
    && (x.Draw? ==> x.d.verdict == Accept ==> s.base.attempt.satisfied)
    && (x.Commit? ==> x.d.verdict == Accept ==> s.base.attempt.satisfied)
    && (x.Put? ==> x.files.attempt.satisfied == s.base.attempt.satisfied)
  }

  lemma ProjectKeepsGate(g: Setting, step: nat, f: Files, d: Decision)
    ensures Project(g, step, f, d).Some? ==> Project(g, step, f, d).value.attempt.satisfied == f.attempt.satisfied
  {
    hide Implement, ImplementAll, Advance, Matching, IdentityConflict, LoggedAs;
  }

  lemma LandKeepsGate(step: nat, now: Files, seen: Files, result: Files)
    requires result.attempt.satisfied == now.attempt.satisfied
    ensures Land(step, now, seen, result).Lands? ==> Land(step, now, seen, result).files.attempt.satisfied == now.attempt.satisfied
  {
  }

  lemma StepGated(g: Setting, s: State, p: Pid, i: Input)
    requires Gated(s) && p in s.procs
    ensures EffectGated(s, StepPc(g, s, p, s.procs[p], i))
  {
    hide Project, Land;
    var pc := s.procs[p].pc;
    if pc.At? { ProjectKeepsGate(g, pc.step, s.files, pc.d); }
    if Computed(pc) { LandKeepsGate(pc.step, s.files, pc.seen, pc.result); }
  }

  lemma ApplyGated(s: State, p: Pid, x: Effect)
    requires Gated(s) && p in s.procs && EffectGated(s, x)
    ensures Gated(Apply(s, p, x)) && Apply(s, p, x).base == s.base
  {
  }

  lemma NextGated(g: Setting, s: State, a: Action)
    requires Gated(s)
    ensures Gated(Next(g, s, a)) && Next(g, s, a).base == s.base
  {
    hide StepPc, Apply, EffectGated;
    if a.Step? && a.p in s.procs {
      StepGated(g, s, a.p, a.i);
      ApplyGated(s, a.p, StepPc(g, s, a.p, s.procs[a.p], a.i));
    }
  }

  lemma {:induction false} RunGated(g: Setting, run: seq<State>, k: nat)
    requires Run(g, run) && k < |run|
    ensures Gated(run[k]) && run[k].base == run[0].base
  {
    hide Next, Gated;
    if k > 0 {
      RunGated(g, run, k - 1);
      var a := TheAction(g, run, k - 1);
      NextGated(g, run[k - 1], a);
    } else {
      InitGated(run[0]);
    }
  }

  lemma InitGated(s: State)
    requires Init(s)
    ensures Gated(s)
  {
  }

  /** In every run, seizures or not, a committed acceptance is of an attempt that the Acceptance gate had found satisfied. */
  lemma AcceptedWasSatisfied(g: Setting, run: seq<State>, k: nat)
    requires Run(g, run) && k < |run| && run[k].commit.Some? && run[k].commit.value.verdict == Accept
    ensures run[0].files.attempt.satisfied
  {
    RunGated(g, run, k);
    RunGated(g, run, 0);
  }

  // ----- the committing evaluator

  ghost predicate ActsAt(acts: seq<Action>, j: nat, p: Pid) { j < |acts| && acts[j].Step? && acts[j].p == p }

  /** The evaluator has found every delivered wake of the attempt consumed. */
  ghost predicate ConsumedStep(run: seq<State>, acts: seq<Action>, j: nat, p: Pid) {
    |acts| < |run| && ActsAt(acts, j, p) && acts[j].i.consumed
  }

  /** The decision was drawn at this step, when none was committed and the attempt was not judged: with the evaluator's
      own verdict and rationale, and with the evidence, time and generation of the step. */
  ghost predicate DrawStep(g: Setting, run: seq<State>, acts: seq<Action>, j: nat, p: Pid, d: Decision) {
    && |acts| < |run| && ActsAt(acts, j, p) && p in run[j].procs && run[j].commit.None? && d.id == run[j].nextId
    && d.task == g.task && d.verdict == run[j].procs[p].verdict && d.rationale == run[j].procs[p].rationale
    && d.evidence == acts[j].i.evidence && d.time == acts[j].i.time && d.generation == acts[j].i.generation
    && exists i :: 0 <= i < j && ConsumedStep(run, acts, i, p)
  }

  /** The process is where it was, begins, or moves by its own step. */
  lemma Moved(g: Setting, s: State, a: Action, p: Pid)
    requires p in Next(g, s, a).procs
    ensures var pr := Next(g, s, a).procs[p];
            || (p in s.procs && pr == s.procs[p])
            || (p !in s.procs && p !in s.dead && a.Begin? && a.p == p && pr.pc.Start?)
            || (a.Step? && a.p == p && p in s.procs && pr == s.procs[p].(pc := After(s.procs[p].pc, StepPc(g, s, p, s.procs[p], a.i))))
  {
    hide StepPc;
  }

  function After(was: Pc, x: Effect): Pc {
    if x.Stay? then was else if x.Draw? then Relook(x.d) else if x.Commit? then Check(x.d, true) else x.next
  }

  lemma StepReads(g: Setting, s: State, p: Pid, pr: Proc, i: Input)
    ensures var was, pc := pr.pc, After(pr.pc, StepPc(g, s, p, pr, i));
            && (!pc.Start? ==> !was.Start? || (pc.Failed? && !i.consumed) || i.consumed)
            && (!was.Start? ==> !pc.Start?)
            && (Drafting(pc) ==>
                  || (Drafting(was) && was.d == pc.d)
                  || (was.Look? && s.commit.None? && pc.d == Decision(s.nextId, g.task, pr.verdict, pr.rationale, i.evidence, i.time, i.generation)))
  {
    hide Project, Land;
  }

  lemma {:induction false} PastStart(g: Setting, run: seq<State>, acts: seq<Action>, k: nat, p: Pid)
    requires Acted(g, run, acts) && k < |run| && p in run[k].procs && !run[k].procs[p].pc.Start? && !run[k].procs[p].pc.Failed?
    ensures exists j :: 0 <= j < k && ConsumedStep(run, acts, j, p)
  {
    hide Next, StepPc;
    assert k > 0;
    var s, a := run[k - 1], acts[k - 1];
    assert run[k - 1 + 1] == Next(g, s, a);
    Moved(g, s, a, p);
    if p in s.procs && !s.procs[p].pc.Start? && !s.procs[p].pc.Failed? {
      PastStart(g, run, acts, k - 1, p);
    } else {
      StepReads(g, s, p, s.procs[p], a.i);
      FailedStays(g, s, p, a.i);
      assert ConsumedStep(run, acts, k - 1, p);
    }
  }

  lemma FailedStays(g: Setting, s: State, p: Pid, i: Input)
    requires p in s.procs
    ensures s.procs[p].pc.Failed? ==> StepPc(g, s, p, s.procs[p], i).Stay?
  {
  }

  lemma {:induction false} DraftWasDrawn(g: Setting, run: seq<State>, acts: seq<Action>, k: nat, p: Pid)
    requires Acted(g, run, acts) && k < |run| && p in run[k].procs && Drafting(run[k].procs[p].pc)
    ensures var pr := run[k].procs[p];
            exists j :: 0 <= j < k && DrawStep(g, run, acts, j, p, pr.pc.d) && run[j].procs[p].verdict == pr.verdict
  {
    hide Next, StepPc;
    assert k > 0;
    var s, a := run[k - 1], acts[k - 1];
    assert run[k - 1 + 1] == Next(g, s, a);
    Moved(g, s, a, p);
    if p in s.procs { StepReads(g, s, p, s.procs[p], if a.Step? then a.i else Input(true, [], 0, 0, false)); }
    if p in s.procs && Drafting(s.procs[p].pc) && s.procs[p].pc.d == run[k].procs[p].pc.d {
      DraftWasDrawn(g, run, acts, k - 1, p);
    } else {
      PastStart(g, run, acts, k - 1, p);
      assert DrawStep(g, run, acts, k - 1, p, run[k].procs[p].pc.d);
    }
  }

  lemma CommitIsCreated(g: Setting, s: State, a: Action)
    requires Next(g, s, a).commit != s.commit
    ensures s.commit.None? && a.Step? && a.p in s.procs && s.procs[a.p].pc.Create?
    ensures Next(g, s, a).commit == Some(s.procs[a.p].pc.d)
  {
    hide Project, Land;
  }

  /** In every run the decision is committed once, by an evaluator of its own verdict and rationale, which had drawn it when
      none was committed, after finding all delivered wakes of the attempt consumed. */
  lemma CommitExplained(g: Setting, run: seq<State>, acts: seq<Action>, k: nat)
    requires Acted(g, run, acts) && k < |acts| && run[k + 1].commit != run[k].commit
    ensures run[k].commit.None? && run[k + 1].commit.Some? && acts[k].Step?
    ensures var p, d := acts[k].p, run[k + 1].commit.value; exists j :: 0 <= j < k && DrawStep(g, run, acts, j, p, d)
  {
    hide Next, DrawStep;
    assert run[k + 1] == Next(g, run[k], acts[k]);
    CommitIsCreated(g, run[k], acts[k]);
    DraftWasDrawn(g, run, acts, k, acts[k].p);
  }

  // ----- whether a call says that it committed

  predicate Answers(pc: Pc) { pc.Check? || pc.TakeLock? || pc.Confirm? || pc.At? || pc.Write? || pc.Swap? || pc.Unswap? || pc.Unlock? || pc.Done? }

  /** Step `j` of the run is the commit, by this evaluator. */
  ghost predicate CommitStep(run: seq<State>, acts: seq<Action>, j: nat, p: Pid) {
    |acts| < |run| && ActsAt(acts, j, p) && p in run[j].procs && run[j].commit.None? && run[j + 1].commit.Some?
  }

  /** How a step hands on the mark that the call has committed. */
  lemma StepMarks(g: Setting, s: State, p: Pid, pr: Proc, i: Input)
    ensures var x := StepPc(g, s, p, pr, i);
            var pc := After(pr.pc, x);
            && (Answers(pc) && Answers(pr.pc) ==> pc.created == pr.pc.created)
            && (Answers(pc) && !Answers(pr.pc) ==> (pc.created <==> x.Commit?) && !pr.pc.Failed?)
            && (!Answers(pc) ==> !x.Commit?) && (Answers(pr.pc) ==> !x.Commit? && (Answers(pc) || pc.Failed?))
  {
    hide Project, Land;
  }

  lemma CommitsBy(g: Setting, s: State, p: Pid, i: Input)
    requires p in s.procs
    ensures StepPc(g, s, p, s.procs[p], i).Commit? <==> s.commit.None? && Next(g, s, Step(p, i)).commit.Some?
  {
    hide Project, Land;
  }

  lemma {:induction false} CommitterKnown(g: Setting, run: seq<State>, acts: seq<Action>, j: nat, k: nat, p: Pid)
    requires Acted(g, run, acts) && j < k < |run| && CommitStep(run, acts, j, p)
    ensures p in run[k].procs || p in run[k].dead
  {
    hide StepPc;
    assert run[k - 1 + 1] == Next(g, run[k - 1], acts[k - 1]);
    if j < k - 1 { CommitterKnown(g, run, acts, j, k - 1, p); }
  }

  /** In every run a call that answers says that it has committed the decision exactly when it has. */
  lemma {:induction false} CreatedExactly(g: Setting, run: seq<State>, acts: seq<Action>, k: nat, p: Pid)
    requires Acted(g, run, acts) && k < |run| && p in run[k].procs && !run[k].procs[p].pc.Failed?
    ensures Answers(run[k].procs[p].pc) ==> (run[k].procs[p].pc.created <==> exists j :: 0 <= j < k && CommitStep(run, acts, j, p))
    ensures !Answers(run[k].procs[p].pc) ==> forall j :: 0 <= j < k ==> !CommitStep(run, acts, j, p)
  {
    hide Next, StepPc, After;
    if k > 0 {
      var s, a := run[k - 1], acts[k - 1];
      assert run[k - 1 + 1] == Next(g, s, a);
      Moved(g, s, a, p);
      if p in s.procs {
        if s.procs[p].pc.Failed? { FailedEnds(g, s, a, p); }
        CreatedExactly(g, run, acts, k - 1, p);
        if a.Step? && a.p == p {
          StepMarks(g, s, p, s.procs[p], a.i);
          CommitsBy(g, s, p, a.i);
          StaysOrAfter(g, s, a, p);
        }
        assert CommitStep(run, acts, k - 1, p) <==> a.Step? && a.p == p && s.commit.None? && run[k].commit.Some?;
      } else {
        forall j | 0 <= j < k ensures !CommitStep(run, acts, j, p) {
          if CommitStep(run, acts, j, p) && j < k - 1 { CommitterKnown(g, run, acts, j, k - 1, p); }
        }
      }
    }
  }

  lemma FailedEnds(g: Setting, s: State, a: Action, p: Pid)
    requires p in s.procs && s.procs[p].pc.Failed? && p in Next(g, s, a).procs
    ensures Next(g, s, a).procs[p].pc.Failed?
  {
    hide Project, Land;
  }

  lemma StaysOrAfter(g: Setting, s: State, a: Action, p: Pid)
    requires a.Step? && a.p == p && p in s.procs
    ensures p in Next(g, s, a).procs && Next(g, s, a).procs[p] == s.procs[p].(pc := After(s.procs[p].pc, StepPc(g, s, p, s.procs[p], a.i)))
  {
    hide StepPc;
  }
}
