/** Every step of every process keeps the invariant. */
module WakeSteps {
  import opened Common
  import opened WakeProtocol
  import opened WakeInvariant

  // What the invariant tells about one process, one started claim, one journal, one decision.

  lemma ProcFacts(s: State, p: Pid)
    requires Inv(s) && p in s.procs
    ensures ProcOk(s, s.procs[p])
    ensures s.procs[p].Worker? || s.procs[p].Helper? ==> s.procs[p].c in s.made
    ensures Actor(s.procs[p]) ==> ActorOk(s, s.procs[p].c) && s.procs[p].c !in s.starts
  {
    hide Exclusive, Started, Records;
  }

  lemma StartFacts(s: State, c: Claim)
    requires Inv(s) && c in s.starts
    ensures StartOk(s, c)
    ensures forall p :: p in s.procs && Actor(s.procs[p]) ==> s.procs[p].c.event != c.event
  {
    hide Numbered, Exclusive, Records, Locals;
    forall p | p in s.procs && Actor(s.procs[p]) ensures s.procs[p].c.event != c.event {
      assert ActorOk(s, s.procs[p].c);
    }
  }

  lemma JournalFacts(s: State, a: Id)
    requires Inv(s) && a in s.evidence
    ensures s.evidence[a].claim in s.made && s.evidence[a].claim.attempt == a && CopyOk(s, s.evidence[a])
  {
    hide Exclusive, Actors, Started, Locals;
  }

  /** The journal under a claim's attempt identifier is the journal of that claim. */
  lemma OwnJournal(s: State, c: Claim)
    requires Inv(s) && c in s.made && c.attempt in s.evidence
    ensures s.evidence[c.attempt].claim == c
  {
    hide Exclusive, Actors, Started, Records, Locals;
    assert s.evidence[c.attempt].claim.decision == c.decision;
  }

  lemma DecisionFacts(s: State, e: EventId)
    requires Inv(s) && e in s.decisions
    ensures s.decisions[e].claim in s.made && s.decisions[e].claim.event == e
    ensures forall p :: p in s.procs && Actor(s.procs[p]) && s.procs[p].c.event == e
              ==> s.decisions[e].claim == s.procs[p].c && s.decisions[e].status.Claimed?
    ensures s.decisions[e].status.NotStarted? ==> forall c :: c in s.starts ==> c.event != e
  {
    hide Exclusive, Records, Locals;
    forall p | p in s.procs && Actor(s.procs[p]) && s.procs[p].c.event == e
      ensures s.decisions[e].claim == s.procs[p].c && s.decisions[e].status.Claimed?
    {
      assert ActorOk(s, s.procs[p].c);
    }
    forall c | c in s.starts && c.event == e ensures !s.decisions[e].status.NotStarted? { assert StartOk(s, c); }
  }

  lemma RecordFacts(s: State, e: EventId)
    requires Inv(s)
    ensures e in s.receipts ==> s.receipts[e].claim.event == e && s.receipts[e].claim in s.starts
    ensures e in s.consumptions ==> ReportedConsumed(s, e)
  {
    hide Numbered, Exclusive, Actors, Started, Locals;
  }

  /** A worker past its launch and past its wait is alone with its claim. */
  lemma WorkerAlone(s: State, p: Pid)
    requires Inv(s) && p in s.procs && s.procs[p].Worker? && !s.procs[p].at.Wait?
    ensures forall q :: q in s.procs && q != p && (s.procs[q].Worker? || s.procs[q].Helper?) ==> s.procs[q].c != s.procs[p].c
  {
    hide Numbered, Actors, Started, Records, Locals;
  }

  lemma HelperAlone(s: State, p: Pid)
    requires Inv(s) && p in s.procs && s.procs[p].Helper?
    ensures forall q :: q in s.procs && q != p && s.procs[q].Helper? ==> s.procs[q].c != s.procs[p].c
    ensures forall q :: q in s.procs && s.procs[q].Worker? && s.procs[q].c == s.procs[p].c ==> s.procs[q].at.Wait?
  {
    hide Numbered, Actors, Started, Records, Locals;
  }

  /** An unclaimed or settled decision has no process that may still start its transport. */
  lemma NoActorOf(s: State, e: EventId)
    requires Inv(s) && e in s.decisions && !s.decisions[e].status.Claimed?
    ensures NoActor(s, s.decisions[e].claim.decision)
  {
    hide Exclusive, Started, Records, Locals;
    forall p | p in s.procs && Actor(s.procs[p]) ensures s.procs[p].c.decision != s.decisions[e].claim.decision {
      assert ActorOk(s, s.procs[p].c);
    }
  }

  // ----- every effect is sound

  lemma ApproachLate(s: State, p: Pid, i: Input)
    requires Inv(s) && p in s.procs && s.procs[p].Approaching?
    requires s.procs[p].approach.LateDecision? || s.procs[p].approach.LateEvidence?
    ensures EffectOk(s, p, StepApproach(s, p, s.procs[p].e, s.procs[p].approach, i))
  {
    hide Inv;
    var e, pc := s.procs[p].e, s.procs[p].approach;
    ProcFacts(s, p);
    if pc.LateDecision? && e in s.decisions { DecisionFacts(s, e); }
    if pc.LateEvidence? && pc.d.claim.attempt in s.evidence { JournalFacts(s, pc.d.claim.attempt); }
  }

  lemma ApproachReads(s: State, p: Pid, i: Input)
    requires p in s.procs && s.procs[p].Approaching?
    requires var pc := s.procs[p].approach; pc.Look? || pc.Classify? || pc.Reclassify? || pc.LeaseRead? || pc.ClaimFence? || pc.ClaimRead?
    ensures EffectOk(s, p, StepApproach(s, p, s.procs[p].e, s.procs[p].approach, i))
  {
  }

  lemma ApproachWrites(s: State, p: Pid, i: Input)
    requires p in s.procs && s.procs[p].Approaching?
    requires var pc := s.procs[p].approach; pc.LeaseCas? || pc.ClaimCreate? || pc.ClaimCas?
    ensures EffectOk(s, p, StepApproach(s, p, s.procs[p].e, s.procs[p].approach, i))
  {
  }

  lemma ApproachEffect(s: State, p: Pid, i: Input)
    requires Inv(s) && p in s.procs && s.procs[p].Approaching?
    ensures EffectOk(s, p, StepApproach(s, p, s.procs[p].e, s.procs[p].approach, i))
  {
    hide Inv, EffectOk, StepApproach;
    var pc := s.procs[p].approach;
    if pc.LateDecision? || pc.LateEvidence? { ApproachLate(s, p, i); }
    else if pc.LeaseCas? || pc.ClaimCreate? || pc.ClaimCas? { ApproachWrites(s, p, i); }
    else { ApproachReads(s, p, i); }
  }

  lemma LateEffect(s: State, p: Pid, i: Input)
    requires Inv(s) && p in s.procs && s.procs[p].Late?
    ensures EffectOk(s, p, StepLate(s, p, s.procs[p].d, s.procs[p].journal, s.procs[p].late, i))
  {
    hide Inv;
    var d := s.procs[p].d;
    ProcFacts(s, p);
    StartFacts(s, s.procs[p].journal.claim);
    if d.claim.event in s.decisions { DecisionFacts(s, d.claim.event); }
  }

  lemma WorkerWrites(s: State, p: Pid, i: Input)
    requires Inv(s) && p in s.procs && s.procs[p].Worker?
    requires var pc := s.procs[p].at; pc.Prepare? || pc.ResumeWrite? || pc.AfterWrite?
    ensures EffectOk(s, p, StepWorker(s, p, s.procs[p].c, s.procs[p].l, s.procs[p].at, i))
  {
    hide Inv;
    ProcFacts(s, p);
    WorkerAlone(s, p);
  }

  lemma WorkerCopies(s: State, p: Pid, i: Input)
    requires Inv(s) && p in s.procs && s.procs[p].Worker?
    requires s.procs[p].at.ResumeRead? || s.procs[p].at.AfterRead?
    ensures EffectOk(s, p, StepWorker(s, p, s.procs[p].c, s.procs[p].l, s.procs[p].at, i))
  {
    hide Inv;
    var c := s.procs[p].c;
    ProcFacts(s, p);
    if c.attempt in s.evidence { OwnJournal(s, c); JournalFacts(s, c.attempt); }
  }

  lemma WorkerLaunches(s: State, p: Pid, i: Input)
    requires Inv(s) && p in s.procs && s.procs[p].Worker?
    requires s.procs[p].at.Launch? || s.procs[p].at.Wait?
    ensures EffectOk(s, p, StepWorker(s, p, s.procs[p].c, s.procs[p].l, s.procs[p].at, i))
  {
    hide Inv;
    var pc := s.procs[p].at;
    if pc.Wait? && pc.helper in s.procs { ProcFacts(s, pc.helper); }
  }

  lemma WorkerMarks(s: State, p: Pid, i: Input)
    requires Inv(s) && p in s.procs && s.procs[p].Worker? && s.procs[p].at.MarkCas?
    ensures EffectOk(s, p, StepWorker(s, p, s.procs[p].c, s.procs[p].l, s.procs[p].at, i))
  {
    hide Inv;
    var c := s.procs[p].c;
    ProcFacts(s, p);
    WorkerAlone(s, p);
    if c.event in s.decisions { DecisionFacts(s, c.event); }
  }

  lemma WorkerReads(s: State, p: Pid, i: Input)
    requires Inv(s) && p in s.procs && s.procs[p].Worker?
    requires var pc := s.procs[p].at; pc.Hold? || pc.Final? || pc.PreDelivery? || pc.CheckReceipt? || pc.Confirm? || pc.MarkRead?
    ensures EffectOk(s, p, StepWorker(s, p, s.procs[p].c, s.procs[p].l, s.procs[p].at, i))
  {
    hide Inv;
    ProcFacts(s, p);
  }

  lemma ReleaseEffect(s: State, p: Pid, i: Input)
    requires Inv(s) && p in s.procs && s.procs[p].Releasing?
    ensures EffectOk(s, p, StepRelease(s, p, s.procs[p].held, s.procs[p].seen, s.procs[p].pending, i))
  {
    hide Inv;
    ProcFacts(s, p);
  }

  lemma CommitEffect(s: State, p: Pid, i: Input)
    requires Inv(s) && p in s.procs && s.procs[p].Committing?
    ensures EffectOk(s, p, StepCommit(s, p, s.procs[p].r, s.procs[p].checked, i))
  {
    hide Inv;
    ProcFacts(s, p);
  }

  lemma HelperPrepares(s: State, p: Pid, i: Input)
    requires Inv(s) && p in s.procs && s.procs[p].Helper? && (s.procs[p].step.Begin? || s.procs[p].step.Announce?)
    ensures EffectOk(s, p, StepHelper(s, p, s.procs[p].c, s.procs[p].step, i))
  {
    hide Inv;
    ProcFacts(s, p);
    HelperAlone(s, p);
  }

  predicate Reporting(pc: HelperPc) { pc.Observe? || pc.Journal? || pc.Clean? }

  lemma HelperJournals(s: State, p: Pid, i: Input)
    requires Inv(s) && p in s.procs && s.procs[p].Helper? && Reporting(s.procs[p].step)
    ensures EffectOk(s, p, StepHelper(s, p, s.procs[p].c, s.procs[p].step, i))
  {
    hide Inv;
    ProcFacts(s, p);
    HelperAlone(s, p);
  }

  lemma HelperStarts(s: State, p: Pid, i: Input)
    requires Inv(s) && p in s.procs && s.procs[p].Helper? && (s.procs[p].step.Read? || s.procs[p].step.Spawn?)
    ensures EffectOk(s, p, StepHelper(s, p, s.procs[p].c, s.procs[p].step, i))
  {
    hide Inv;
    var c, pc := s.procs[p].c, s.procs[p].step;
    ProcFacts(s, p);
    if pc.Read? && c.attempt in s.evidence { OwnJournal(s, c); JournalFacts(s, c.attempt); }
  }

  lemma HelperCommits(s: State, p: Pid, i: Input)
    requires Inv(s) && p in s.procs && s.procs[p].Helper? && (s.procs[p].step.Create? || s.procs[p].step.CasUpdate?)
    ensures EffectOk(s, p, StepHelper(s, p, s.procs[p].c, s.procs[p].step, i))
  {
    hide Inv;
    ProcFacts(s, p);
    RecordFacts(s, s.procs[p].c.event);
  }

  lemma HelperMarks(s: State, p: Pid, i: Input)
    requires Inv(s) && p in s.procs && s.procs[p].Helper? && s.procs[p].step.CasMark?
    ensures EffectOk(s, p, StepHelper(s, p, s.procs[p].c, s.procs[p].step, i))
  {
    hide Inv;
    var c := s.procs[p].c;
    ProcFacts(s, p);
    StartFacts(s, c);
  }

  lemma HelperReads(s: State, p: Pid, i: Input)
    requires Inv(s) && p in s.procs && s.procs[p].Helper?
    requires var pc := s.procs[p].step; pc.SeeDecision? || pc.SeeLease? || pc.SeeFence? || pc.Check? || pc.SeeMark? || pc.Update?
    ensures EffectOk(s, p, StepHelper(s, p, s.procs[p].c, s.procs[p].step, i))
  {
    hide Inv;
    ProcFacts(s, p);
  }

  predicate Reconciles(pc: OperatorPc) { pc.AbsentDecision? || pc.AbsentEvidence? || pc.AbsentReceipt? || pc.AbsentCas? }

  lemma ReconcileEffect(s: State, p: Pid, i: Input)
    requires Inv(s) && p in s.procs && s.procs[p].Operating? && Reconciles(s.procs[p].operator)
    ensures EffectOk(s, p, StepOperator(s, p, s.procs[p].operator, i))
  {
    hide Inv;
    var pc := s.procs[p].operator;
    ProcFacts(s, p);
    if pc.AbsentDecision? {
      if pc.e in s.decisions && s.decisions[pc.e].status.Uncertain? { DecisionFacts(s, pc.e); NoActorOf(s, pc.e); }
    } else if pc.AbsentEvidence? {
      if pc.d.claim.attempt in s.evidence { JournalFacts(s, pc.d.claim.attempt); }
    } else if pc.AbsentCas? && pc.d.claim.event in s.decisions {
      DecisionFacts(s, pc.d.claim.event);
    }
  }

  lemma ConsumeEffect(s: State, p: Pid, i: Input)
    requires Inv(s) && p in s.procs && s.procs[p].Operating? && !Reconciles(s.procs[p].operator)
    ensures EffectOk(s, p, StepOperator(s, p, s.procs[p].operator, i))
  {
    hide Inv;
    var pc := s.procs[p].operator;
    ProcFacts(s, p);
    RecordFacts(s, if pc.ConsumeReceipt? then pc.e else pc.r.claim.event);
  }

  // ----- every step keeps the invariant

  lemma WorkerEffect(s: State, p: Pid, i: Input)
    requires Inv(s) && p in s.procs && s.procs[p].Worker?
    ensures EffectOk(s, p, StepWorker(s, p, s.procs[p].c, s.procs[p].l, s.procs[p].at, i))
  {
    hide *;
    var pc := s.procs[p].at;
    if pc.Prepare? || pc.ResumeWrite? || pc.AfterWrite? { WorkerWrites(s, p, i); }
    else if pc.MarkCas? { WorkerMarks(s, p, i); }
    else if pc.Launch? || pc.Wait? { WorkerLaunches(s, p, i); }
    else if pc.ResumeRead? || pc.AfterRead? { WorkerCopies(s, p, i); }
    else { WorkerReads(s, p, i); }
  }

  lemma HelperEffect(s: State, p: Pid, i: Input)
    requires Inv(s) && p in s.procs && s.procs[p].Helper?
    ensures EffectOk(s, p, StepHelper(s, p, s.procs[p].c, s.procs[p].step, i))
  {
    hide Inv, EffectOk, StepHelper;
    var pc := s.procs[p].step;
    if Reporting(pc) { HelperJournals(s, p, i); }
    else if pc.Begin? || pc.Announce? { HelperPrepares(s, p, i); }
    else if pc.Create? || pc.CasUpdate? { HelperCommits(s, p, i); }
    else if pc.CasMark? { HelperMarks(s, p, i); }
    else if pc.Read? || pc.Spawn? { HelperStarts(s, p, i); }
    else { HelperReads(s, p, i); }
  }

  lemma StepEffect(s: State, p: Pid, i: Input)
    requires Inv(s) && p in s.procs
    ensures EffectOk(s, p, ProcStep(s, p, i))
  {
    hide Inv, StepApproach, StepLate, StepWorker, StepRelease, StepCommit, StepHelper, StepOperator, ProcOk, Yields;
    var pc := s.procs[p];
    if pc.Approaching? { ApproachEffect(s, p, i); }
    else if pc.Late? { LateEffect(s, p, i); }
    else if pc.Worker? { WorkerEffect(s, p, i); }
    else if pc.Releasing? { ReleaseEffect(s, p, i); }
    else if pc.Committing? { CommitEffect(s, p, i); }
    else if pc.Helper? { HelperEffect(s, p, i); }
    else if pc.Operating? {
      if Reconciles(pc.operator) { ReconcileEffect(s, p, i); } else { ConsumeEffect(s, p, i); }
    }
  }

  lemma NextKeeps(s: State, a: Action)
    requires Inv(s)
    ensures Inv(Next(s, a))
  {
    hide Inv, ProcStep, EffectOk, Apply;
    match a
    case Step(p, i) => if p in s.procs && i.gen <= s.gen { StepEffect(s, p, i); ApplyKeeps(s, p, ProcStep(s, p, i)); }
    case Enqueue(e, r) => Irrelevant(s, Next(s, a));
    case Recover => Irrelevant(s, Next(s, a));
    case Deliver(p, e) => if Next(s, a) != s { ComeOrGo(s, Next(s, a), p); }
    case Reconcile(p, e) => if Next(s, a) != s { ComeOrGo(s, Next(s, a), p); }
    case Consume(p, e, delivery) => if Next(s, a) != s { ComeOrGo(s, Next(s, a), p); }
    case Crash(p) => if p in s.procs { ComeOrGo(s, Next(s, a), p); }
  }
}
