/** What an evaluator leaves of its locks, and which projections take a swap lock. */
module EvaluationLocks {
  import opened Common
  import opened Evaluation
  import EvaluationCommits
  import opened EvaluationRuns

  /** The evaluator is inside the swap of this projection. */
  predicate Within(pc: Pc, step: nat) { (pc.Swap? || pc.Unswap?) && pc.step == step }

  /** Every lock belongs to an evaluator that is still using it, or to the dead. */
  ghost predicate Tidy(s: State) {
    && (s.lock.Some? ==> s.lock.value in s.dead || (s.lock.value in s.procs && Holds(s.procs[s.lock.value].pc)))
    && (forall k :: k in s.swaps ==> s.swaps[k] in s.dead || (s.swaps[k] in s.procs && Within(s.procs[s.swaps[k]].pc, k)))
    && (forall p :: p in s.procs ==> p !in s.dead)
  }

  /** An effect lets go of a lock only by freeing it, and takes one only to use it. */
  ghost predicate EffectTidy(was: Pc, x: Effect) {
    && (x.Goto? || x.Put? || x.Pass? ==> (Holds(was) ==> Holds(x.next)) && forall k :: Within(was, k) ==> Within(x.next, k))
    && (x.Draw? || x.Commit? ==> !Holds(was))
    && (x.Lock? ==> Holds(x.next) && !Holds(was))
    && (x.Free? ==> forall k :: !Within(was, k))
    && (x.TakeSwap? ==> Holds(x.next) && Within(x.next, x.step) && forall k :: !Within(was, k))
    && (x.FreeSwap? ==> Holds(x.next) && Within(was, x.step))
  }

  lemma StepTidy(g: Setting, s: State, p: Pid, pr: Proc, i: Input)
    ensures EffectTidy(pr.pc, StepPc(g, s, p, pr, i))
  {
    hide Project, Land;
  }

  lemma ApplyTidy(s: State, p: Pid, x: Effect)
    requires Tidy(s) && p in s.procs && EffectTidy(s.procs[p].pc, x)
    ensures Tidy(Apply(s, p, x))
  {
  }

  lemma NextTidy(g: Setting, s: State, a: Action)
    requires Tidy(s)
    ensures Tidy(Next(g, s, a))
  {
    hide StepPc, Apply, EffectTidy;
    if a.Step? && a.p in s.procs {
      StepTidy(g, s, a.p, s.procs[a.p], a.i);
      ApplyTidy(s, a.p, StepPc(g, s, a.p, s.procs[a.p], a.i));
    }
  }

  /** In every run, seizures or not, an evaluator that has completed or failed holds neither the projection lock nor any
      swap lock. */
  lemma EndsUnlocked(g: Setting, run: seq<State>, k: nat, p: Pid)
    requires Run(g, run) && k < |run| && p in run[k].procs && (run[k].procs[p].pc.Done? || run[k].procs[p].pc.Failed?)
    ensures run[k].lock != Some(p)
    ensures forall step :: step in run[k].swaps ==> run[k].swaps[step] != p
  {
    hide Next;
    RunTidy(g, run, k);
  }

  lemma {:induction false} RunTidy(g: Setting, run: seq<State>, k: nat)
    requires Run(g, run) && k < |run|
    ensures Tidy(run[k])
  {
    hide Next, Tidy;
    if k > 0 {
      RunTidy(g, run, k - 1);
      var a := TheAction(g, run, k - 1);
      NextTidy(g, run[k - 1], a);
    } else {
      InitTidy(run[0]);
    }
  }

  lemma InitTidy(s: State)
    requires Init(s)
    ensures Tidy(s)
  {
  }

  /** The projections that take a swap lock are exactly those that replace a file: the attempt, the task, the requirements
      or the lifecycle state. All others only append to a log or create an event file. */
  lemma SwapsReplace(g: Setting, step: nat, f: Files, d: Decision)
    requires step < STEPS && Project(g, step, f, d).Some?
    ensures var t := Project(g, step, f, d).value;
            if Swaps(step) then t == f.(attempt := t.attempt, task := t.task, matrix := t.matrix, life := t.life)
            else t == f.(decisions := t.decisions, events := t.events, eventFiles := t.eventFiles)
                 && f.decisions <= t.decisions && f.events <= t.events && f.eventFiles.Keys <= t.eventFiles.Keys
  {
    hide Implement, ImplementAll, Advance, Matching, IdentityConflict, LoggedAs;
  }

  // ----- the swap of a file

  /** The file of this projection. */
  predicate Unchanged(step: nat, f: Files, h: Files) {
    && (step == 1 ==> f.attempt == h.attempt) && (step == 2 ==> f.task == h.task)
    && (step == 3 ==> f.matrix == h.matrix) && (step == 6 ==> f.life == h.life)
  }

  /** A swap replaces its file by what was computed exactly when the file is still the one read, and else leaves it and
      computes anew; no other file changes, whatever was seized. */
  lemma SwapExactly(g: Setting, s: State, p: Pid, i: Input)
    requires p in s.procs && s.procs[p].pc.Swap? && Swaps(s.procs[p].pc.step)
    ensures var pc, t := s.procs[p].pc, Next(g, s, Step(p, i));
            && p in t.procs && t.procs[p].pc == Unswap(pc.d, pc.created, pc.step, pc.tries, Unchanged(pc.step, s.files, pc.seen))
            && t.files == if !Unchanged(pc.step, s.files, pc.seen) then s.files
                          else if pc.step == 1 then s.files.(attempt := pc.result.attempt)
                          else if pc.step == 2 then s.files.(task := pc.result.task)
                          else if pc.step == 3 then s.files.(matrix := pc.result.matrix)
                          else s.files.(life := pc.result.life)
  {
    hide Project;
  }

  /** An evaluator counts at most forty swaps that came to nothing, and begins none after them. */
  predicate FewTries(pc: Pc) {
    && (pc.At? ==> pc.tries <= 40)
    && (pc.Write? || pc.Swap? || pc.Unswap? ==> pc.tries < 40)
  }

  ghost predicate AllFew(s: State) { forall p :: p in s.procs ==> FewTries(s.procs[p].pc) }

  lemma StepFew(g: Setting, s: State, p: Pid, pr: Proc, i: Input)
    requires FewTries(pr.pc)
    ensures FewTries(EvaluationCommits.After(pr.pc, StepPc(g, s, p, pr, i)))
  {
    hide Project, Land;
  }

  lemma NextFew(g: Setting, s: State, a: Action)
    requires AllFew(s)
    ensures AllFew(Next(g, s, a))
  {
    hide Next, StepPc, EvaluationCommits.After;
    var t := Next(g, s, a);
    forall p | p in t.procs ensures FewTries(t.procs[p].pc) {
      EvaluationCommits.Moved(g, s, a, p);
      if a.Step? && p in s.procs { StepFew(g, s, p, s.procs[p], a.i); }
    }
  }

  lemma {:induction false} AtMostFortyTries(g: Setting, run: seq<State>, k: nat)
    requires Run(g, run) && k < |run|
    ensures AllFew(run[k])
  {
    hide Next, FewTries;
    if k > 0 {
      AtMostFortyTries(g, run, k - 1);
      var a := TheAction(g, run, k - 1);
      NextFew(g, run[k - 1], a);
    }
  }

  /** Creating an event file fails exactly when the file is there by now with another content; the same content is
      taken as created, and no file that is there changes. */
  lemma CreatesOnce(step: nat, now: Files, seen: Files, result: Files)
    requires step == 5 || step == 8
    ensures Land(step, now, seen, result).Fails? <==>
              exists id :: id in result.eventFiles && id !in seen.eventFiles && id in now.eventFiles && now.eventFiles[id] != result.eventFiles[id]
    ensures !Land(step, now, seen, result).Fails? ==>
              var l := Land(step, now, seen, result);
              && l.Lands? && l.files == now.(eventFiles := l.files.eventFiles)
              && (forall id :: id in now.eventFiles ==> id in l.files.eventFiles && l.files.eventFiles[id] == now.eventFiles[id])
              && (forall id :: id in result.eventFiles && id !in seen.eventFiles ==> id in l.files.eventFiles && l.files.eventFiles[id] == result.eventFiles[id])
  {
  }
}
