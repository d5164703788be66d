/** How a decision is settled. In a run with its actions, every decision marked delivered or not started is traced
    back to what the marking process had read: a receipt, its own current lease, cleaned evidence, or evidence that
    the transport never started. */
module WakeSettlement {
  import opened Common
  import opened WakeProtocol
  import opened WakeInvariant
  import opened WakeSteps
  import opened WakeTheorems
  import opened WakeLeases
  import opened WakeFences
  import opened WakeConsumption

  // ----- who marks a decision delivered for its receipt

  ghost predicate HasReceipt(s: State, c: Claim) { c.event in s.receipts && s.receipts[c.event].claim == c }

  /** Marking a decision delivered without committing it, the process has the receipt of its claim behind it. */
  ghost predicate Backed(s: State, pc: Proc) {
    && (pc.Worker? && (pc.at.MarkRead? || pc.at.MarkCas?) && pc.at.to.Delivered? && !pc.at.commit ==> HasReceipt(s, pc.c))
    && (pc.Helper? && (pc.step.SeeMark? || pc.step.CasMark?) ==> HasReceipt(s, pc.c))
  }

  ghost predicate AllBacked(s: State) { forall p :: p in s.procs ==> Backed(s, s.procs[p]) }

  /** The receipt that a worker finds for its claim is that of the claim. */
  lemma FoundReceipt(s: State, c: Claim)
    requires Inv(s) && c in s.made && c.event in s.receipts && s.receipts[c.event].claim.decision == c.decision
    ensures HasReceipt(s, c)
  {
    RecordFacts(s, c.event);
    StartFacts(s, s.receipts[c.event].claim);
    hide Exclusive, Actors, Started, Records, Locals;
  }

  lemma WorkerBacked(s: State, p: Pid, c: Claim, l: Lease, pc: WorkerPc, i: Input)
    requires Backed(s, Worker(c, l, pc))
    requires c.event in s.receipts && s.receipts[c.event].claim.decision == c.decision ==> HasReceipt(s, c)
    ensures var x := StepWorker(s, p, c, l, pc, i); Regular(x) ==> Backed(Apply(s, p, x), x.next)
  {
  }

  lemma HelperBacked(s: State, p: Pid, c: Claim, pc: HelperPc, i: Input)
    requires Backed(s, Helper(c, pc)) && (pc.Create? ==> pc.r.claim == c)
    ensures var x := StepHelper(s, p, c, pc, i); Regular(x) ==> Backed(Apply(s, p, x), x.next)
  {
  }

  lemma ApproachBacked(s: State, p: Pid, e: EventId, pc: ApproachPc, i: Input)
    ensures var x := StepApproach(s, p, e, pc, i); Regular(x) ==> Backed(Apply(s, p, x), x.next)
  {
  }

  lemma OthersBacked(s: State, p: Pid, i: Input)
    requires p in s.procs && !s.procs[p].Approaching? && !s.procs[p].Worker? && !s.procs[p].Helper?
    ensures var x := ProcStep(s, p, i); Regular(x) ==> !x.next.Worker? && !x.next.Helper?
  {
  }

  lemma ProcBacked(s: State, p: Pid, i: Input)
    requires Inv(s) && AllBacked(s) && p in s.procs
    ensures var x := ProcStep(s, p, i); Regular(x) ==> Backed(Apply(s, p, x), x.next)
  {
    hide Inv, StepApproach, StepWorker, StepHelper, Apply, HasReceipt;
    var pc := s.procs[p];
    assert Backed(s, pc);
    if pc.Approaching? { ApproachBacked(s, p, pc.e, pc.approach, i); }
    else if pc.Worker? {
      ProcFacts(s, p);
      if pc.c.event in s.receipts && s.receipts[pc.c.event].claim.decision == pc.c.decision { FoundReceipt(s, pc.c); }
      WorkerBacked(s, p, pc.c, pc.l, pc.at, i);
    } else if pc.Helper? {
      ProcFacts(s, p);
      HelperBacked(s, p, pc.c, pc.step, i);
    } else { OthersBacked(s, p, i); }
  }

  lemma BackedStays(s: State, t: State, pc: Proc)
    requires Kept(s, t) && Backed(s, pc)
    ensures Backed(t, pc)
  {
  }

  lemma NextBacked(s: State, a: Action)
    requires Inv(s) && AllBacked(s)
    ensures AllBacked(Next(s, a))
  {
    hide Inv, Next, ProcStep, Apply, Backed, Kept, After;
    var t := Next(s, a);
    NextKept(s, a);
    forall q | q in t.procs ensures Backed(t, t.procs[q]) {
      Moved(s, a, q);
      PlaceBacked(s, a, q);
    }
  }

  lemma PlaceBacked(s: State, a: Action, q: Pid)
    requires Inv(s) && AllBacked(s) && q in Next(s, a).procs && Kept(s, Next(s, a))
    requires var pc := Next(s, a).procs[q];
             || (q in s.procs && pc == s.procs[q])
             || (Acts(s, a, q) && pc == After(s.procs[q], ProcStep(s, q, a.i)))
             || (Launched(s, a, q) && pc == Helper(ProcStep(s, a.p, a.i).claim, Read))
             || Begins(a, q, pc)
    ensures Backed(Next(s, a), Next(s, a).procs[q])
  {
    hide ProcStep, Next, Apply, Kept, HasReceipt, Inv;
    var t, pc := Next(s, a), Next(s, a).procs[q];
    if q in s.procs && pc == s.procs[q] {
      BackedStays(s, t, pc);
    } else if Acts(s, a, q) && pc == After(s.procs[q], ProcStep(s, q, a.i)) {
      ProcBacked(s, q, a.i);
      Stepped(s, a);
    }
  }

  ghost predicate Grounded(s: State) { Inv(s) && AllBacked(s) }

  lemma InitGrounded(s: State)
    requires Init(s)
    ensures Grounded(s)
  {
  }

  lemma RunGrounded(run: seq<State>, k: nat)
    requires Run(run) && k < |run|
    ensures Inv(run[k]) && AllBacked(run[k])
  {
    hide Next, Inv, AllBacked, Init;
    InitGrounded(run[0]);
    forall s, t | Grounded(s) && Steps(s, t) ensures Grounded(t) {
      var a :| t == Next(s, a);
      NextKeeps(s, a);
      NextBacked(s, a);
    }
    Invariance(Grounded, Steps, run, k);
  }

  // ----- what the others have read

  /** The journal of the decision's attempt: cleaned up, the reader's own, of the same claim and under the session's binding;
      the transport is found to have been confirmed after all. */
  ghost predicate ReadsLate(s: State, p: Pid, d: Decision, journal: Evidence, i: Input) {
    && d.claim.attempt in s.evidence
    && var ev := s.evidence[d.claim.attempt];
       && ev.claim.event == d.claim.event && ev.claim.decision == d.claim.decision && ev.claim.token == d.claim.token
       && ev.cleaned && ev.owner == p && ev.binding == i.binding && i.choice > 1
       && journal == ev.(confirmed := true, absent := false)
  }

  /** The journal of the decision's attempt says that its transport was never requested. */
  ghost predicate ReadsAbsent(s: State, d: Decision) {
    && d.claim.attempt in s.evidence
    && var ev := s.evidence[d.claim.attempt];
       ev.claim == d.claim && ev.absent && !ev.confirmed && !ev.requested
  }

  /** The decision is still that of the reconciled attempt, and unsettled. */
  ghost predicate ReadsPending(s: State, d: Decision, seen: Decision) {
    && d.claim.event in s.decisions && s.decisions[d.claim.event] == seen
    && seen.claim.decision == d.claim.decision && seen.claim.attempt == d.claim.attempt
    && !seen.status.NotStarted? && !seen.status.Delivered?
  }

  /** What the step has read when its process goes on to settle a decision. */
  ghost predicate ReadsToSettle(s: State, p: Pid, was: Proc, x: Effect, i: Input) {
    Regular(x) ==>
      && (x.next.Late? ==> (was.Late? && was.d == x.next.d && was.journal == x.next.journal) || ReadsLate(s, p, x.next.d, x.next.journal, i))
      && (x.next.Late? && x.next.late.LateCas? ==> was.Late? && ReadsPending(s, x.next.d, x.next.late.seen))
      && (x.next.Operating? && (x.next.operator.AbsentReceipt? || x.next.operator.AbsentCas?) ==>
            || (was.Operating? && was.operator == AbsentReceipt(x.next.operator.d))
            || ReadsAbsent(s, x.next.operator.d))
      && (x.next.Operating? && x.next.operator.AbsentCas? ==>
            was == Operating(AbsentReceipt(x.next.operator.d)) && x.next.operator.d.claim.event !in s.receipts)
      && (x.next.Worker? && (x.next.at.MarkRead? || x.next.at.MarkCas?) ==> WorkerReads(s, was, x.next, i))
  }

  /** A worker that marks its claim delivered and commits it has a confirmation and has read its lease as current; one that
      marks it not started has failed its last check before the launch. */
  ghost predicate WorkerReads(s: State, was: Proc, next: Proc, i: Input)
    requires next.Worker? && (next.at.MarkRead? || next.at.MarkCas?)
  {
    && was.Worker? && was.c == next.c && was.l == next.l
    && (|| (was.at.MarkRead? && was.at.to == next.at.to && was.at.commit == next.at.commit)
        || (next.at.commit && next.at.to.Delivered? && was.at.Confirm? && was.at.out.Confirmed? && Current(s, was.l, i))
        || (!next.at.commit && (next.at.to.NotStarted? ==> was.at.PreDelivery? && i.choice != 0)))
  }

  lemma ApproachReadsToSettle(s: State, p: Pid, e: EventId, pc: ApproachPc, i: Input)
    requires pc.LateEvidence? ==> pc.d.claim.event == e
    ensures ReadsToSettle(s, p, Approaching(e, pc), StepApproach(s, p, e, pc, i), i)
  {
  }

  lemma WorkerReadsToSettle(s: State, p: Pid, c: Claim, l: Lease, pc: WorkerPc, i: Input)
    ensures ReadsToSettle(s, p, Worker(c, l, pc), StepWorker(s, p, c, l, pc, i), i)
  {
  }

  lemma HelperReadsToSettle(s: State, p: Pid, c: Claim, pc: HelperPc, i: Input)
    ensures ReadsToSettle(s, p, Helper(c, pc), StepHelper(s, p, c, pc, i), i)
  {
  }

  lemma OthersReadToSettle(s: State, p: Pid, i: Input)
    requires p in s.procs && !s.procs[p].Approaching? && !s.procs[p].Worker? && !s.procs[p].Helper?
    ensures ReadsToSettle(s, p, s.procs[p], ProcStep(s, p, i), i)
  {
  }

  lemma ProcReadsToSettle(s: State, p: Pid, i: Input)
    requires Inv(s) && p in s.procs
    ensures ReadsToSettle(s, p, s.procs[p], ProcStep(s, p, i), i)
  {
    hide Inv, ReadsToSettle, StepApproach, StepWorker, StepHelper;
    var pc := s.procs[p];
    if pc.Approaching? { ProcFacts(s, p); ApproachReadsToSettle(s, p, pc.e, pc.approach, i); }
    else if pc.Worker? { WorkerReadsToSettle(s, p, pc.c, pc.l, pc.at, i); }
    else if pc.Helper? { HelperReadsToSettle(s, p, pc.c, pc.step, i); }
    else { OthersReadToSettle(s, p, i); }
  }

  // ----- those readings are steps of the run

  ghost predicate LateStep(run: seq<State>, acts: seq<Action>, j: nat, p: Pid, d: Decision, journal: Evidence) {
    |acts| < |run| && ActsAt(acts, j, p) && ReadsLate(run[j], p, d, journal, acts[j].i)
  }

  ghost predicate PendingStep(run: seq<State>, acts: seq<Action>, j: nat, p: Pid, d: Decision, seen: Decision) {
    |acts| < |run| && ActsAt(acts, j, p) && ReadsPending(run[j], d, seen)
  }

  ghost predicate AbsentStep(run: seq<State>, acts: seq<Action>, j: nat, p: Pid, d: Decision) {
    |acts| < |run| && ActsAt(acts, j, p) && ReadsAbsent(run[j], d)
  }

  /** The worker has failed the check that it makes just before the launch. */
  ghost predicate RefusedStep(run: seq<State>, acts: seq<Action>, j: nat, p: Pid, c: Claim) {
    && |acts| < |run| && ActsAt(acts, j, p) && acts[j].i.choice != 0
    && p in run[j].procs && run[j].procs[p].Worker? && run[j].procs[p].c == c && run[j].procs[p].at.PreDelivery?
  }

  lemma {:induction false} LateHasRead(run: seq<State>, acts: seq<Action>, k: nat, p: Pid)
    requires Acted(run, acts) && k < |run| && p in run[k].procs && run[k].procs[p].Late?
    ensures exists j :: 0 <= j < k && LateStep(run, acts, j, p, run[k].procs[p].d, run[k].procs[p].journal)
  {
    hide Next, ProcStep, Inv, ReadsLate, ReadsPending;
    assert k > 0;
    var s, a, pc := run[k - 1], acts[k - 1], run[k].procs[p];
    assert run[k - 1 + 1] == Next(s, a);
    ActedRun(run, acts);
    RunInv(run, k - 1);
    Moved(s, a, p);
    if p in s.procs && s.procs[p].Late? && s.procs[p].d == pc.d && s.procs[p].journal == pc.journal {
      LateHasRead(run, acts, k - 1, p);
    } else {
      ProcReadsToSettle(s, p, a.i);
      assert LateStep(run, acts, k - 1, p, pc.d, pc.journal);
    }
  }

  lemma {:induction false} PendingHasRead(run: seq<State>, acts: seq<Action>, k: nat, p: Pid)
    requires Acted(run, acts) && k < |run| && p in run[k].procs && run[k].procs[p].Late? && run[k].procs[p].late.LateCas?
    ensures exists j :: 0 <= j < k && PendingStep(run, acts, j, p, run[k].procs[p].d, run[k].procs[p].late.seen)
  {
    hide Next, ProcStep, Inv, ReadsLate, ReadsPending;
    assert k > 0;
    var s, a, pc := run[k - 1], acts[k - 1], run[k].procs[p];
    assert run[k - 1 + 1] == Next(s, a);
    ActedRun(run, acts);
    RunInv(run, k - 1);
    Moved(s, a, p);
    if p in s.procs && s.procs[p] == pc {
      PendingHasRead(run, acts, k - 1, p);
    } else {
      ProcReadsToSettle(s, p, a.i);
      assert PendingStep(run, acts, k - 1, p, pc.d, pc.late.seen);
    }
  }

  predicate Absents(pc: Proc) { pc.Operating? && (pc.operator.AbsentReceipt? || pc.operator.AbsentCas?) }

  lemma {:induction false} AbsentHasRead(run: seq<State>, acts: seq<Action>, k: nat, p: Pid)
    requires Acted(run, acts) && k < |run| && p in run[k].procs && Absents(run[k].procs[p])
    ensures exists j :: 0 <= j < k && AbsentStep(run, acts, j, p, run[k].procs[p].operator.d)
  {
    hide Next, ProcStep, Inv, ReadsLate, ReadsPending, ReadsAbsent;
    assert k > 0;
    var s, a, pc := run[k - 1], acts[k - 1], run[k].procs[p];
    assert run[k - 1 + 1] == Next(s, a);
    ActedRun(run, acts);
    RunInv(run, k - 1);
    Moved(s, a, p);
    if p in s.procs && Absents(s.procs[p]) && s.procs[p].operator.d == pc.operator.d {
      AbsentHasRead(run, acts, k - 1, p);
    } else {
      ProcReadsToSettle(s, p, a.i);
      assert AbsentStep(run, acts, k - 1, p, pc.operator.d);
    }
  }

  /** A reconciler about to mark a decision not started has looked for a receipt after it read the evidence. */
  ghost predicate NoReceiptStep(run: seq<State>, acts: seq<Action>, j: nat, p: Pid, d: Decision) {
    && |acts| < |run| && ActsAt(acts, j, p) && d.claim.event !in run[j].receipts
    && exists i :: 0 <= i < j && AbsentStep(run, acts, i, p, d)
  }

  lemma {:induction false} UnreceiptedHasRead(run: seq<State>, acts: seq<Action>, k: nat, p: Pid)
    requires Acted(run, acts) && k < |run| && p in run[k].procs && run[k].procs[p].Operating? && run[k].procs[p].operator.AbsentCas?
    ensures exists j :: 0 <= j < k && NoReceiptStep(run, acts, j, p, run[k].procs[p].operator.d)
  {
    hide Next, ProcStep, Inv, ReadsLate, ReadsPending, ReadsAbsent, AbsentStep;
    assert k > 0;
    var s, a, pc := run[k - 1], acts[k - 1], run[k].procs[p];
    assert run[k - 1 + 1] == Next(s, a);
    ActedRun(run, acts);
    RunInv(run, k - 1);
    Moved(s, a, p);
    if p in s.procs && s.procs[p] == pc {
      UnreceiptedHasRead(run, acts, k - 1, p);
    } else {
      ProcReadsToSettle(s, p, a.i);
      AbsentHasRead(run, acts, k - 1, p);
      assert NoReceiptStep(run, acts, k - 1, p, pc.operator.d);
    }
  }

  predicate Marks(pc: Proc) { pc.Worker? && (pc.at.MarkRead? || pc.at.MarkCas?) }

  /** Why a worker marks its claim as it does. */
  ghost predicate MarkReason(run: seq<State>, acts: seq<Action>, k: nat, p: Pid, c: Claim, l: Lease, to: Status, commit: bool) {
    && (commit ==> to.Delivered? && exists j :: 0 <= j < k && Fenced(run, acts, j, p, l))
    && (to.NotStarted? ==> exists j :: 0 <= j < k && RefusedStep(run, acts, j, p, c))
  }

  lemma {:induction false} MarkerHasReason(run: seq<State>, acts: seq<Action>, k: nat, p: Pid)
    requires Acted(run, acts) && k < |run| && p in run[k].procs && Marks(run[k].procs[p])
    ensures var pc := run[k].procs[p]; MarkReason(run, acts, k, p, pc.c, pc.l, pc.at.to, pc.at.commit)
  {
    hide Next, ProcStep, Inv, ReadsLate, ReadsPending, ReadsCurrent;
    assert k > 0;
    var s, a, pc := run[k - 1], acts[k - 1], run[k].procs[p];
    assert run[k - 1 + 1] == Next(s, a);
    ActedRun(run, acts);
    RunInv(run, k - 1);
    Moved(s, a, p);
    if p in s.procs && pc == s.procs[p] {
      MarkerHasReason(run, acts, k - 1, p);
    } else {
      ProcReadsToSettle(s, p, a.i);
      HeldIsOwn(run, k - 1, p);
      if s.procs[p].at.MarkRead? && s.procs[p].at.to == pc.at.to && s.procs[p].at.commit == pc.at.commit {
        MarkerHasReason(run, acts, k - 1, p);
      } else {
        if pc.at.commit { assert Fenced(run, acts, k - 1, p, pc.l); }
        if pc.at.to.NotStarted? { assert RefusedStep(run, acts, k - 1, p, pc.c); }
      }
    }
  }

  // ----- the write

  /** Who settles a decision, and how. */
  ghost predicate SettlesAs(s: State, was: Proc, x: Effect) {
    x.PutDecision? ==>
      && x.e in s.decisions && x.decision.claim == s.decisions[x.e].claim && x.decision.prior == s.decisions[x.e].prior
      && x.decision.late == (s.decisions[x.e].late || was.Late?)
      && (|| (was.Late? && was.late.LateCas? && was.late.seen == s.decisions[x.e] && was.d.claim.event == x.e && x.decision.status.Delivered?)
          || (was.Worker? && was.at.MarkCas? && was.at.cur == s.decisions[x.e] && was.c.event == x.e && x.decision.status == was.at.to)
          || (was.Helper? && was.step.CasMark? && was.c.event == x.e && x.decision.status.Delivered?)
          || (was.Operating? && was.operator == AbsentCas(s.decisions[x.e]) && x.decision.status.NotStarted?))
  }

  lemma WorkerSettlesAs(s: State, p: Pid, c: Claim, l: Lease, pc: WorkerPc, i: Input)
    ensures SettlesAs(s, Worker(c, l, pc), StepWorker(s, p, c, l, pc, i))
  {
  }

  lemma HelperSettlesAs(s: State, p: Pid, c: Claim, pc: HelperPc, i: Input)
    ensures SettlesAs(s, Helper(c, pc), StepHelper(s, p, c, pc, i))
  {
  }

  lemma ApproachSettlesAs(s: State, p: Pid, e: EventId, pc: ApproachPc, i: Input)
    ensures SettlesAs(s, Approaching(e, pc), StepApproach(s, p, e, pc, i))
  {
  }

  lemma OthersSettleAs(s: State, p: Pid, i: Input)
    requires p in s.procs && !s.procs[p].Approaching? && !s.procs[p].Worker? && !s.procs[p].Helper?
    requires s.procs[p].Operating? && s.procs[p].operator.AbsentCas? && s.procs[p].operator.d.claim.event in s.decisions ==>
               s.decisions[s.procs[p].operator.d.claim.event].claim.event == s.procs[p].operator.d.claim.event
    ensures SettlesAs(s, s.procs[p], ProcStep(s, p, i))
  {
  }

  lemma ProcSettlesAs(s: State, p: Pid, i: Input)
    requires Inv(s) && p in s.procs
    ensures SettlesAs(s, s.procs[p], ProcStep(s, p, i))
  {
    hide Inv, SettlesAs, StepApproach, StepWorker, StepHelper;
    var pc := s.procs[p];
    if pc.Approaching? { ApproachSettlesAs(s, p, pc.e, pc.approach, i); }
    else if pc.Worker? { WorkerSettlesAs(s, p, pc.c, pc.l, pc.at, i); }
    else if pc.Helper? { HelperSettlesAs(s, p, pc.c, pc.step, i); }
    else {
      if pc.Operating? && pc.operator.AbsentCas? && pc.operator.d.claim.event in s.decisions { DecisionFacts(s, pc.operator.d.claim.event); }
      OthersSettleAs(s, p, i);
    }
  }

  lemma DecisionChanges(s: State, a: Action, e: EventId)
    requires e in s.decisions && e in Next(s, a).decisions && Next(s, a).decisions[e].status != s.decisions[e].status
    requires !Next(s, a).decisions[e].status.Claimed?
    ensures a.Step? && Acts(s, a, a.p)
    ensures var x := ProcStep(s, a.p, a.i); x.PutDecision? && x.e == e && x.decision == Next(s, a).decisions[e]
  {
    hide ProcStep, Apply;
    if a.Step? && a.p in s.procs { ApplyDecides(s, a.p, ProcStep(s, a.p, a.i), e); }
  }

  lemma ApplyDecides(s: State, p: Pid, x: Effect, e: EventId)
    requires e in s.decisions
    ensures var t := Apply(s, p, x);
            e in t.decisions && (t.decisions[e] == s.decisions[e] || t.decisions[e].status.Claimed? || (x.PutDecision? && x.e == e && x.decision == t.decisions[e]))
  {
  }

  /** In every run a decision becomes delivered only so: its claim has its receipt by then; or its worker, which has the
      confirmation, has read its own lease, the one named in the claim, as current; or a later delivery has read the
      cleaned evidence of that very attempt as its own, under its session's binding, and found it confirmed. Only the
      last one marks the decision as late. */
  lemma DeliveredExplained(run: seq<State>, acts: seq<Action>, k: nat, e: EventId)
    requires Acted(run, acts) && k < |acts| && e in run[k].decisions && e in run[k + 1].decisions
    requires !run[k].decisions[e].status.Delivered? && run[k + 1].decisions[e].status.Delivered?
    ensures acts[k].Step? && run[k + 1].decisions[e].claim == run[k].decisions[e].claim
    ensures acts[k].p in run[k].procs && (run[k + 1].decisions[e].late <==> run[k].decisions[e].late || run[k].procs[acts[k].p].Late?)
    ensures var c, p := run[k].decisions[e].claim, acts[k].p;
            || HasReceipt(run[k], c)
            || (exists j, l :: 0 <= j < k && Names(c, l) && Fenced(run, acts, j, p, l))
            || (exists j, d: Decision, journal :: 0 <= j < k && d.claim.decision == c.decision && d.claim.attempt == c.attempt
                                        && LateStep(run, acts, j, p, d, journal))
  {
    hide Next, ProcStep, Inv, LateStep, HasReceipt, Fenced;
    var s, a := run[k], acts[k];
    assert run[k + 1] == Next(s, a);
    ActedRun(run, acts);
    RunGrounded(run, k);
    DecisionChanges(s, a, e);
    ProcSettlesAs(s, a.p, a.i);
    var was := s.procs[a.p];
    assert Backed(s, was);
    ProcFacts(s, a.p);
    if was.Worker? {
      MarkerHasReason(run, acts, k, a.p);
      HeldIsOwn(run, k, a.p);
    } else if was.Late? {
      LateHasRead(run, acts, k, a.p);
      PendingHasRead(run, acts, k, a.p);
    } else {
      ReceiptDecides(s, was.c);
    }
  }

  lemma ReceiptDecides(s: State, c: Claim)
    requires Inv(s) && HasReceipt(s, c)
    ensures c.event in s.decisions && s.decisions[c.event].claim == c
  {
    hide Inv;
    RecordFacts(s, c.event);
    StartFacts(s, c);
  }

  /** In every run a decision becomes not started only so: a reconciler has read it as uncertain, then its evidence as
      that of a transport never requested, and after that found no receipt of the event; or its own worker has failed
      the last check before the launch. */
  lemma NotStartedExplained(run: seq<State>, acts: seq<Action>, k: nat, e: EventId)
    requires Acted(run, acts) && k < |acts| && e in run[k].decisions && e in run[k + 1].decisions
    requires !run[k].decisions[e].status.NotStarted? && run[k + 1].decisions[e].status.NotStarted?
    ensures acts[k].Step? && run[k + 1].decisions[e].claim == run[k].decisions[e].claim
    ensures var d, p := run[k].decisions[e], acts[k].p;
            || (d.status.Uncertain? && exists j :: 0 <= j < k && NoReceiptStep(run, acts, j, p, d))
            || (exists j :: 0 <= j < k && RefusedStep(run, acts, j, p, d.claim))
  {
    hide Next, ProcStep, Inv, NoReceiptStep, RefusedStep, Fenced;
    var s, a := run[k], acts[k];
    assert run[k + 1] == Next(s, a);
    ActedRun(run, acts);
    RunInv(run, k);
    DecisionChanges(s, a, e);
    ProcSettlesAs(s, a.p, a.i);
    var was := s.procs[a.p];
    ProcFacts(s, a.p);
    if was.Worker? {
      MarkerHasReason(run, acts, k, a.p);
    } else {
      UnreceiptedHasRead(run, acts, k, a.p);
      SettledForever(run, k, k);
      assert Settling(s, was);
    }
  }

  // ----- a worker that can settle its claim does

  /** The worker's claim is the event's unsettled decision. */
  ghost predicate Holding(s: State, c: Claim) {
    c.event in s.decisions && s.decisions[c.event].claim == c && s.decisions[c.event].status.Claimed?
  }

  lemma MarksReads(s: State, p: Pid, i: Input)
    requires p in s.procs && s.procs[p].Worker? && s.procs[p].at.MarkRead? && Holding(s, s.procs[p].c) && i.gen <= s.gen
    ensures var c, l, at := s.procs[p].c, s.procs[p].l, s.procs[p].at;
            Next(s, Step(p, i)) == s.(procs := s.procs[p := Worker(c, l, MarkCas(at.to, at.commit, s.decisions[c.event]))])
  {
    hide StepApproach, StepLate, StepRelease, StepCommit, StepHelper, StepOperator;
  }

  lemma MarksWrites(s: State, p: Pid, j: Input)
    requires p in s.procs && s.procs[p].Worker? && s.procs[p].at.MarkCas? && j.gen <= s.gen && j.choice == 0
    requires var c := s.procs[p].c; c.event in s.decisions && s.decisions[c.event] == s.procs[p].at.cur
    ensures var c, l, at := s.procs[p].c, s.procs[p].l, s.procs[p].at;
            Next(s, Step(p, j)) == s.(procs := s.procs[p := Releasing(l, false, if at.commit then Some(c) else None)],
                                      decisions := s.decisions[c.event := at.cur.(status := at.to)])
  {
    hide StepApproach, StepLate, StepRelease, StepCommit, StepHelper, StepOperator;
  }

  lemma MarksAlone(s: State, p: Pid, i: Input, j: Input)
    requires p in s.procs && s.procs[p].Worker? && s.procs[p].at.MarkRead? && Holding(s, s.procs[p].c)
    requires i.gen <= s.gen && j.gen <= s.gen && j.choice == 0
    ensures var c, l, at, t := s.procs[p].c, s.procs[p].l, s.procs[p].at, Next(Next(s, Step(p, i)), Step(p, j));
            && t == s.(procs := t.procs, decisions := s.decisions[c.event := s.decisions[c.event].(status := at.to)])
            && p in t.procs && t.procs[p].Releasing? && t.procs[p].held == l && t.procs[p].pending == if at.commit then Some(c) else None
  {
    hide Next;
    MarksReads(s, p, i);
    MarksWrites(Next(s, Step(p, i)), p, j);
  }

  lemma FindsReceipt(s: State, p: Pid, i: Input)
    requires p in s.procs && s.procs[p].Worker? && s.procs[p].at.CheckReceipt? && HasReceipt(s, s.procs[p].c) && i.gen <= s.gen
    ensures Next(s, Step(p, i)) == s.(procs := s.procs[p := Worker(s.procs[p].c, s.procs[p].l, MarkRead(Delivered, false))])
  {
    hide StepApproach, StepLate, StepRelease, StepCommit, StepHelper, StepOperator;
  }

  lemma FindsConfirmation(s: State, p: Pid, i: Input)
    requires p in s.procs && s.procs[p].Worker? && s.procs[p].at.Confirm? && s.procs[p].at.out.Confirmed? && i.gen <= s.gen
    requires i.choice == 0 && Current(s, s.procs[p].l, i) && s.procs[p].l.owner in s.procs
    ensures Next(s, Step(p, i)) == s.(procs := s.procs[p := Worker(s.procs[p].c, s.procs[p].l, MarkRead(Delivered, true))])
  {
    hide StepApproach, StepLate, StepRelease, StepCommit, StepHelper, StepOperator;
  }

  /** Undisturbed, a worker that finds the receipt of its claim marks the decision delivered, with nothing left to commit;
      and one that finds none but has the confirmation, under its current lease, marks it delivered and goes on to
      commit the receipt. */
  lemma WorkerDelivers(s: State, p: Pid, i: Input, j: Input, k: Input)
    requires p in s.procs && s.procs[p].Worker? && Holding(s, s.procs[p].c) && i.gen <= s.gen && j.gen <= s.gen && k.gen <= s.gen
    requires k.choice == 0
    requires (s.procs[p].at.CheckReceipt? && HasReceipt(s, s.procs[p].c))
             || (s.procs[p].at.Confirm? && s.procs[p].at.out.Confirmed? && i.choice == 0
                 && Current(s, s.procs[p].l, i) && s.procs[p].l.owner in s.procs)
    ensures var c, t := s.procs[p].c, Next(Next(Next(s, Step(p, i)), Step(p, j)), Step(p, k));
            && c.event in t.decisions && t.decisions[c.event] == s.decisions[c.event].(status := Delivered)
            && p in t.procs && t.procs[p].Releasing? && t.procs[p].held == s.procs[p].l
            && t.procs[p].pending == if s.procs[p].at.CheckReceipt? then None else Some(c)
  {
    hide Next, HasReceipt, ReadsCurrent;
    if s.procs[p].at.CheckReceipt? { FindsReceipt(s, p, i); } else { FindsConfirmation(s, p, i); }
    MarksAlone(Next(s, Step(p, i)), p, j, k);
  }
}
