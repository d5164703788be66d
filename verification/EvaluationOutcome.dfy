/** What one uninterrupted evaluation makes of the task, the requirements, the lifecycle state and the events,
    field by field. */
module EvaluationOutcome {
  import opened Common
  import opened Evaluation

  // ----- the task

  /** A run completes if and only if the task awaits its verdict, has completed, or is already in the state of
      this very verdict, and an accepted task names only known requirements. */
  lemma CompletesExactly(g: Setting, f: Files, d: Decision)
    requires Fresh(f, d)
    ensures CleanRun(g, f, d).Some? <==>
              && (match f.task.state
                  case AwaitingSupervisor => true
                  case Completed => true
                  case Accepted => d.verdict == Accept
                  case Rejected => d.verdict == Reject
                  case Unfinished(_) => false)
              && (d.verdict == Accept ==> forall k :: k in f.task.requirements ==> k in f.matrix)
  {
    hide CleanRun, Left;
    CleanContents(g, f, d);
  }

  /** An accepted task ends accepted, a rejected one rejected; the attempt carries the verdict, and the decision log
      ends with the decision. */
  lemma VerdictLands(g: Setting, f: Files, d: Decision)
    requires Fresh(f, d) && CleanRun(g, f, d).Some?
    ensures var t := CleanRun(g, f, d).value;
            && (d.verdict == Accept ==> t.task.state == Accepted)
            && (d.verdict == Reject ==> t.task.state == Rejected)
            && t.task.requirements == f.task.requirements
            && t.attempt.satisfied == f.attempt.satisfied && t.attempt.judgement.Some?
            && t.attempt.judgement.value.decision == d.id && t.attempt.judgement.value.verdict == d.verdict
            && t.attempt.judgement.value.rationale == d.rationale && t.attempt.judgement.value.evaluatedAt == d.time
            && t.decisions == f.decisions + [d]
  {
    hide CleanRun, Advance, NewEvents, EventFiles, Implement;
    CleanContents(g, f, d);
  }

  // ----- the requirements

  predicate Unfinal(s: RequirementState) { s.Open? || s.Implemented? }

  /** What an acceptance makes of a requirement that the task names: one that is open or implemented becomes
      implemented without a justification; one that is verified, deferred or not applicable stays so. The evidence of
      the decision is added behind the present one, each piece once, in the order of first mention. The time is that
      of the decision exactly when the requirement was open, or was implemented and its evidence has changed. */
  ghost predicate AcceptedRequirement(r: Requirement, d: Decision, t: Requirement) {
    && (Unfinal(r.state) ==> t.state == Implemented && t.justification == None)
    && (!Unfinal(r.state) ==> t.state == r.state && t.justification == r.justification)
    && (forall x :: x in t.evidence <==> x in r.evidence || x in d.evidence)
    && InOrder(r.evidence + d.evidence, t.evidence)
    && t.updatedAt == if r.state.Open? || (r.state.Implemented? && t.evidence != r.evidence) then d.time else r.updatedAt
  }

  lemma ImplementMeans(r: Requirement, d: Decision)
    ensures AcceptedRequirement(r, d, Implement(r, d))
  {
    var all := r.evidence + d.evidence;
    DedupMembers(all);
    DedupInOrder(all);
    assert Implement(r, d).evidence == Dedup(all);
    assert forall x :: x in all <==> x in r.evidence || x in d.evidence;
  }

  /** An acceptance changes exactly the requirements that the task names, and a rejection none. */
  lemma RequirementsAfter(g: Setting, f: Files, d: Decision, k: string)
    requires Fresh(f, d) && CleanRun(g, f, d).Some?
    ensures var t := CleanRun(g, f, d).value;
            && (k in t.matrix <==> k in f.matrix)
            && (k in f.matrix && (d.verdict == Reject || k !in f.task.requirements) ==> t.matrix[k] == f.matrix[k])
            && (k in f.matrix && d.verdict == Accept && k in f.task.requirements ==> AcceptedRequirement(f.matrix[k], d, t.matrix[k]))
  {
    hide CleanRun, Advance, NewEvents, EventFiles, Implement, AcceptedRequirement;
    CleanContents(g, f, d);
    if k in f.matrix { ImplementMeans(f.matrix[k], d); }
  }

  // ----- the lifecycle state

  /** The lifecycle state is at this task and attempt. */
  predicate AtWork(g: Setting, life: Life) { life.activeTask == Some(g.task) && life.activeAttempt == Some(g.attempt) }

  /** A pause asked for after the current task. */
  predicate PauseAsked(life: Life) { life.pause.Some? && life.pause.value.active && life.pause.value.afterCurrent }

  /** The pause takes effect, once, by this decision. */
  ghost predicate PauseTaken(p: Pause, d: Decision, q: Pause) {
    && q.active && !q.afterCurrent && q.appliedBy == Some(d.id) && q.reason == p.reason
    && q.appliedAt == Some(if p.appliedAt.Some? then p.appliedAt.value else d.time)
  }

  /** While another task is active the lifecycle state stays. Otherwise the task is no longer active; a pause asked for
      takes effect, and any other stays as it is; an acceptance is noted and clears the open issue, a rejection leaves
      the issue and the next action that say so. */
  lemma LifeAfter(g: Setting, f: Files, d: Decision)
    requires Fresh(f, d) && CleanRun(g, f, d).Some?
    ensures var a, b := f.life, CleanRun(g, f, d).value.life;
            && (!AtWork(g, a) ==> b == a)
            && (AtWork(g, a) ==>
                  && b.activeTask == None && b.activeAttempt == None && b.updatedAt == d.time
                  && (PauseAsked(a) ==> b.supervisor == "PAUSED" && b.pause.Some? && PauseTaken(a.pause.value, d, b.pause.value))
                  && (!PauseAsked(a) ==> b.supervisor == a.supervisor && b.pause == a.pause))
  {
    hide CleanRun, NewEvents, EventFiles, Implement;
    CleanContents(g, f, d);
  }

  lemma LifeAfterVerdict(g: Setting, f: Files, d: Decision)
    requires Fresh(f, d) && CleanRun(g, f, d).Some? && AtWork(g, f.life)
    ensures var t := CleanRun(g, f, d).value; var a, b := f.life, t.life;
            && (d.verdict == Accept ==>
                  && b.latestAccepted == Some(g.task) && b.issue == None
                  && b.nextAction == g.derive(b.(nextAction := a.nextAction, updatedAt := a.updatedAt), t.matrix))
            && (d.verdict == Reject ==>
                  && b.latestAccepted == a.latestAccepted
                  && b.issue == Some("Supervisor rejected " + g.task + ": " + d.rationale)
                  && b.nextAction == "Create corrective work for " + g.task + ".")
  {
    hide CleanRun, NewEvents, EventFiles, Implement;
    CleanContents(g, f, d);
  }

  /** A pause that this decision had applied already stays applied by it, from the time it was applied. */
  lemma AppliedPauseStays(g: Setting, f: Files, d: Decision)
    requires AtWork(g, f.life) && f.life.pause.Some? && f.life.pause.value.active && f.life.pause.value.appliedBy == Some(d.id)
    ensures Project(g, 6, f, d).Some?
    ensures var b := Project(g, 6, f, d).value.life;
            b.supervisor == "PAUSED" && b.pause.Some? && PauseTaken(f.life.pause.value, d, b.pause.value)
  {
  }

  // ----- the events

  /** The event of the decision, and that of the pause it applied. */
  function Verdicts(g: Setting, d: Decision): Event {
    Event(Derived(d.id, SupervisorDecision), SupervisorDecision, d.time, d.generation, g.task, g.attempt, Some(d.id), Judged(d.verdict))
  }

  function Pauses(g: Setting, d: Decision, reason: string): Event {
    Event(Derived(d.id, PauseApplied), PauseApplied, d.time, d.generation, g.task, g.attempt, Some(d.id),
      Paused(if d.verdict == Accept then Accepted else Rejected, reason))
  }

  /** The event log gains the event of the decision and, exactly when the decision has applied a pause, that of the
      pause; each has its file, and no other file of an event changes. */
  lemma EventsAfter(g: Setting, f: Files, d: Decision)
    requires Fresh(f, d) && CleanRun(g, f, d).Some?
    ensures var t := CleanRun(g, f, d).value;
            var e := Verdicts(g, d);
            if AtWork(g, f.life) && PauseAsked(f.life) then
              var p := Pauses(g, d, f.life.pause.value.reason);
              t.events == f.events + [e, p] && t.eventFiles == f.eventFiles[e.id := e][p.id := p]
            else
              t.events == f.events + [e] && t.eventFiles == f.eventFiles[e.id := e]
  {
    hide CleanRun, Implement;
    CleanContents(g, f, d);
  }
}
