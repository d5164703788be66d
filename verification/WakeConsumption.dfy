/** The consumption of a delivered wake: what a successful consume call had been given and had read, and that a
    consumed wake belongs to a delivered decision for good. */
module WakeConsumption {
  import opened Common
  import opened WakeProtocol
  import opened WakeInvariant
  import opened WakeSteps
  import opened WakeTheorems
  import opened WakeLeases

  // ----- a delivered decision stays

  /** The event's decision is delivered, and is that of this claim. */
  ghost predicate DeliveredAs(s: State, e: EventId, c: Claim) {
    e in s.decisions && s.decisions[e].status.Delivered? && s.decisions[e].claim == c
  }

  /** A process about to settle a decision has read it as unsettled; one about to consume, as delivered. */
  ghost predicate Settling(s: State, pc: Proc) {
    && (pc.Late? && pc.late.LateCas? ==> !pc.late.seen.status.Delivered?)
    && (pc.Worker? && pc.at.MarkCas? ==> pc.at.cur.status.Claimed?)
    && (pc.Helper? && pc.step.CasMark? ==> pc.step.cur.status.Claimed?)
    && (pc.Operating? && (pc.operator.AbsentEvidence? || pc.operator.AbsentReceipt? || pc.operator.AbsentCas?) ==>
          pc.operator.d.status.Uncertain?)
    && (pc.Operating? && pc.operator.ConsumeCreate? ==> DeliveredAs(s, pc.operator.r.claim.event, pc.operator.r.claim))
  }

  ghost predicate Delivery(s: State) {
    && (forall p :: p in s.procs ==> Settling(s, s.procs[p]))
    && (forall e :: e in s.consumptions ==> e in s.receipts && DeliveredAs(s, e, s.receipts[e].claim))
  }

  predicate Unsettled(s: State, e: EventId) { e in s.decisions ==> !s.decisions[e].status.Delivered? }

  ghost predicate EffectSettles(s: State, was: Proc, x: Effect) {
    && (x.PutDecision? ==> Unsettled(s, x.e))
    && (x.NewClaim? ==> Unsettled(s, x.claim.event))
    && (x.PutConsumption? ==> was.Operating? && was.operator.ConsumeCreate? && was.operator.r.claim.event == x.e)
    && (Regular(x) ==> Settling(s, x.next))
  }

  lemma ApproachSettling(s: State, p: Pid, e: EventId, pc: ApproachPc, i: Input)
    ensures EffectSettles(s, Approaching(e, pc), StepApproach(s, p, e, pc, i))
  {
  }

  lemma WorkerSettling(s: State, p: Pid, c: Claim, l: Lease, pc: WorkerPc, i: Input)
    requires Settling(s, Worker(c, l, pc))
    ensures EffectSettles(s, Worker(c, l, pc), StepWorker(s, p, c, l, pc, i))
  {
  }

  lemma HelperSettling(s: State, p: Pid, c: Claim, pc: HelperPc, i: Input)
    requires Settling(s, Helper(c, pc))
    ensures EffectSettles(s, Helper(c, pc), StepHelper(s, p, c, pc, i))
  {
  }

  lemma OthersSettling(s: State, p: Pid, i: Input)
    requires p in s.procs && Settling(s, s.procs[p])
    requires !s.procs[p].Approaching? && !s.procs[p].Worker? && !s.procs[p].Helper?
    ensures EffectSettles(s, s.procs[p], ProcStep(s, p, i))
  {
  }

  lemma ProcSettling(s: State, p: Pid, i: Input)
    requires p in s.procs && Settling(s, s.procs[p])
    ensures EffectSettles(s, s.procs[p], ProcStep(s, p, i))
  {
    hide EffectSettles, Settling, StepApproach, StepWorker, StepHelper;
    var pc := s.procs[p];
    if pc.Approaching? { ApproachSettling(s, p, pc.e, pc.approach, i); }
    else if pc.Worker? { WorkerSettling(s, p, pc.c, pc.l, pc.at, i); }
    else if pc.Helper? { HelperSettling(s, p, pc.c, pc.step, i); }
    else { OthersSettling(s, p, i); }
  }

  /** What is delivered stays so, under the same claim. */
  ghost predicate Settled(s: State, t: State) {
    forall e, c :: DeliveredAs(s, e, c) ==> DeliveredAs(t, e, c)
  }

  lemma ApplySettled(s: State, p: Pid, was: Proc, x: Effect)
    requires EffectSettles(s, was, x)
    ensures Settled(s, Apply(s, p, x))
  {
    hide Settling;
  }

  lemma SettlingStays(s: State, t: State, pc: Proc)
    requires Settled(s, t) && Settling(s, pc)
    ensures Settling(t, pc)
  {
    hide DeliveredAs;
  }

  lemma ConsumptionsDelivered(s: State, p: Pid, x: Effect)
    requires Delivery(s) && p in s.procs && EffectSettles(s, s.procs[p], x) && Settled(s, Apply(s, p, x))
    requires Kept(s, Apply(s, p, x))
    requires ProcOk(s, s.procs[p])
    ensures var t := Apply(s, p, x); forall e :: e in t.consumptions ==> e in t.receipts && DeliveredAs(t, e, t.receipts[e].claim)
  {
    var t := Apply(s, p, x);
    forall e | e in t.consumptions ensures e in t.receipts && DeliveredAs(t, e, t.receipts[e].claim) {
      if e in s.consumptions {
        SameClaim(s, t, e);
      } else {
        NewConsumption(s, p, x, e);
        var r := s.procs[p].operator.r;
        assert Settling(s, s.procs[p]);
        SameClaim(s, t, e);
      }
    }
  }

  lemma SameClaim(s: State, t: State, e: EventId)
    requires Kept(s, t) && e in s.receipts
    ensures e in t.receipts && t.receipts[e].claim == s.receipts[e].claim
  {
  }

  lemma NewConsumption(s: State, p: Pid, x: Effect, e: EventId)
    requires p in s.procs && EffectSettles(s, s.procs[p], x) && ProcOk(s, s.procs[p])
    requires e !in s.consumptions && e in Apply(s, p, x).consumptions
    ensures var pc := s.procs[p];
            && pc.Operating? && pc.operator.ConsumeCreate? && pc.operator.r.claim.event == e
            && e in s.receipts && s.receipts[e].claim == pc.operator.r.claim
  {
    hide Settling;
  }

  lemma NextDelivery(s: State, a: Action)
    requires Inv(s) && Delivery(s)
    ensures Delivery(Next(s, a)) && Settled(s, Next(s, a))
  {
    hide Inv, ProcStep, Apply, Settling, DeliveredAs, Kept, ProcOk, EffectSettles;
    var t := Next(s, a);
    NextKept(s, a);
    if a.Step? && a.p in s.procs && a.i.gen <= s.gen {
      var x := ProcStep(s, a.p, a.i);
      ProcSettling(s, a.p, a.i);
      ApplySettled(s, a.p, s.procs[a.p], x);
      ProcFacts(s, a.p);
      ConsumptionsDelivered(s, a.p, x);
    } else {
      CallsSettle(s, a);
    }
    forall q | q in t.procs ensures Settling(t, t.procs[q]) {
      Moved(s, a, q);
      PlaceSettles(s, a, q);
    }
  }

  lemma CallsSettle(s: State, a: Action)
    requires Delivery(s) && (a.Step? ==> Next(s, a) == s)
    ensures var t := Next(s, a);
            && Settled(s, t)
            && (forall e :: e in t.consumptions ==> e in t.receipts && DeliveredAs(t, e, t.receipts[e].claim))
  {
    hide Settling;
  }

  /** Wherever the step has put the process, it has read what it should. */
  lemma PlaceSettles(s: State, a: Action, q: Pid)
    requires Delivery(s) && q in Next(s, a).procs && Settled(s, Next(s, a))
    requires var pc := Next(s, a).procs[q];
             || (q in s.procs && pc == s.procs[q])
             || (Acts(s, a, q) && pc == After(s.procs[q], ProcStep(s, q, a.i)))
             || (Launched(s, a, q) && pc == Helper(ProcStep(s, a.p, a.i).claim, Read))
             || Begins(a, q, pc)
    ensures Settling(Next(s, a), Next(s, a).procs[q])
  {
    hide ProcStep, Next, Settling, Settled, DeliveredAs;
    var t, pc := Next(s, a), Next(s, a).procs[q];
    if q in s.procs && pc == s.procs[q] {
      SettlingStays(s, t, pc);
    } else if Acts(s, a, q) && pc == After(s.procs[q], ProcStep(s, q, a.i)) {
      ProcSettling(s, q, a.i);
      AfterSettles(s, s.procs[q], ProcStep(s, q, a.i));
      SettlingStays(s, t, pc);
    } else {
      FreshSettles(t, pc);
    }
  }

  lemma AfterSettles(s: State, was: Proc, x: Effect)
    requires EffectSettles(s, was, x) && Settling(s, was)
    ensures Settling(s, After(was, x))
  {
  }

  lemma FreshSettles(s: State, pc: Proc)
    requires pc.Approaching? || (pc.Helper? && pc.step.Read?) || (pc.Operating? && (pc.operator.AbsentDecision? || pc.operator.ConsumeReceipt?))
    ensures Settling(s, pc)
  {
  }

  // ----- in every run

  ghost predicate Whole(s: State) { Inv(s) && Delivery(s) }

  lemma InitWhole(s: State)
    requires Init(s)
    ensures Whole(s)
  {
  }

  lemma SettledForever(run: seq<State>, i: nat, k: nat)
    requires Run(run) && i <= k < |run|
    ensures Settled(run[i], run[k]) && Whole(run[k])
  {
    hide Next, Inv, Delivery, DeliveredAs, Init;
    InitWhole(run[0]);
    forall s, t | Whole(s) && Steps(s, t) ensures Whole(t) && Settled(s, t) {
      var a :| t == Next(s, a);
      NextKeeps(s, a);
      NextDelivery(s, a);
    }
    Persistence(Whole, Settled, Steps, run, i, k);
  }

  /** A consumed wake belongs to a delivered decision: in the state in which it is consumed and in every later one,
      the event's decision is delivered, under the claim that its receipt carried then and carries now. */
  lemma ConsumedWasDelivered(run: seq<State>, i: nat, k: nat, e: EventId)
    requires Run(run) && i <= k < |run| && e in run[i].consumptions
    ensures e in run[i].receipts && e in run[k].receipts && run[k].receipts[e].claim == run[i].receipts[e].claim
    ensures e in run[k].decisions && run[k].decisions[e].status.Delivered?
    ensures run[k].decisions[e].claim == run[k].receipts[e].claim
  {
    hide Inv, Settling;
    SettledForever(run, i, i);
    SettledForever(run, i, k);
    KeptForever(run, i, k);
    assert DeliveredAs(run[i], e, run[i].receipts[e].claim);
  }

  /** A process whose consume call has succeeded stands beside such a decision and the record it returns. */
  lemma ConsumerSeesDelivered(run: seq<State>, k: nat, p: Pid)
    requires Run(run) && k < |run| && p in run[k].procs && run[k].procs[p].Consumed?
    ensures var record := run[k].procs[p].record;
            && record.event in run[k].consumptions && run[k].consumptions[record.event] == record
            && record.event in run[k].decisions && run[k].decisions[record.event].status.Delivered?
            && run[k].decisions[record.event].claim.delivery == record.delivery
            && run[k].decisions[record.event].claim.gen == record.gen
  {
    hide Inv;
    RunInv(run, k);
    ProcFacts(run[k], p);
    var e := run[k].procs[p].record.event;
    ConsumedWasDelivered(run, k, k, e);
    RecordFacts(run[k], e);
  }

  /** Every consume call that succeeds, first or repeated, by whatever process, returns the one durable record of its
      event, and the event's decision is delivered, under the claim of that delivery and generation. */
  lemma ConsumesAgree(run: seq<State>, i: nat, k: nat, p: Pid, q: Pid)
    requires Run(run) && i <= k < |run| && p in run[i].procs && q in run[k].procs
    requires run[i].procs[p].Consumed? && run[k].procs[q].Consumed?
    requires run[i].procs[p].record.event == run[k].procs[q].record.event
    ensures run[i].procs[p].record == run[k].procs[q].record
    ensures var record := run[k].procs[q].record;
            && record.event in run[k].decisions && run[k].decisions[record.event].status.Delivered?
            && run[k].decisions[record.event].claim.delivery == record.delivery
            && run[k].decisions[record.event].claim.gen == record.gen
  {
    hide Inv;
    KeptForever(run, i, k);
    RunInv(run, i);
    ProcFacts(run[i], p);
    ConsumerSeesDelivered(run, k, q);
  }

  // ----- what a consume call has been given, and has read

  /** What a consume call asks for, or returns. */
  datatype Wake = Wake(event: EventId, delivery: Id, gen: nat, binding: nat)

  function WakeOf(r: Receipt): Wake { Wake(r.claim.event, r.claim.delivery, r.claim.gen, r.binding) }

  /** The wake that a consume call is about, once it has found a receipt. */
  function Consuming(pc: Proc): Option<Wake> {
    match pc
    case Operating(ConsumeDecision(r)) => Some(WakeOf(r))
    case Operating(ConsumeCreate(r)) => Some(WakeOf(r))
    case Consumed(record, _) => Some(Wake(record.event, record.delivery, record.gen, record.binding))
    case _ => None
  }

  predicate Asking(pc: Proc, e: EventId, delivery: Id) { pc == Operating(ConsumeReceipt(e, delivery)) }

  /** The receipt is that of the wake, and its generation and binding are those of the reader and of the request. */
  ghost predicate Matching(s: State, w: Wake, i: Input) {
    && w.event in s.receipts && w.event in s.requests
    && s.receipts[w.event].claim.delivery == w.delivery && s.receipts[w.event].claim.gen == w.gen
    && s.receipts[w.event].binding == w.binding && s.requests[w.event].gen == w.gen
    && w.gen == i.gen && w.binding == i.binding
  }

  /** What the step has read when its process goes on to consume. */
  ghost predicate ReadsForConsume(s: State, was: Proc, x: Effect, i: Input) {
    Regular(x) ==>
      && !(x.next.Operating? && x.next.operator.ConsumeReceipt?)
      && (Consuming(x.next).Some? ==>
            || Consuming(was) == Consuming(x.next)
            || (Asking(was, Consuming(x.next).value.event, Consuming(x.next).value.delivery)
                && Matching(s, Consuming(x.next).value, i)))
  }

  lemma OperatorReadsForConsume(s: State, p: Pid, pc: OperatorPc, i: Input)
    requires pc.ConsumeReceipt? && pc.e in s.receipts ==> s.receipts[pc.e].claim.event == pc.e
    ensures ReadsForConsume(s, Operating(pc), StepOperator(s, p, pc, i), i)
  {
  }

  lemma ApproachConsumesNothing(s: State, p: Pid, e: EventId, pc: ApproachPc, i: Input)
    ensures ReadsForConsume(s, Approaching(e, pc), StepApproach(s, p, e, pc, i), i)
  {
  }

  lemma WorkerConsumesNothing(s: State, p: Pid, c: Claim, l: Lease, pc: WorkerPc, i: Input)
    ensures ReadsForConsume(s, Worker(c, l, pc), StepWorker(s, p, c, l, pc, i), i)
  {
  }

  lemma HelperConsumesNothing(s: State, p: Pid, c: Claim, pc: HelperPc, i: Input)
    ensures ReadsForConsume(s, Helper(c, pc), StepHelper(s, p, c, pc, i), i)
  {
  }

  lemma ProcReadsForConsume(s: State, p: Pid, i: Input)
    requires Inv(s) && p in s.procs
    ensures ReadsForConsume(s, s.procs[p], ProcStep(s, p, i), i)
  {
    hide Inv, ReadsForConsume, StepApproach, StepWorker, StepHelper, StepOperator;
    var pc := s.procs[p];
    if pc.Approaching? { ApproachConsumesNothing(s, p, pc.e, pc.approach, i); }
    else if pc.Worker? { WorkerConsumesNothing(s, p, pc.c, pc.l, pc.at, i); }
    else if pc.Helper? { HelperConsumesNothing(s, p, pc.c, pc.step, i); }
    else if pc.Operating? {
      if pc.operator.ConsumeReceipt? { RecordFacts(s, pc.operator.e); }
      OperatorReadsForConsume(s, p, pc.operator, i);
    } else { OthersConsumeNothing(s, p, i); }
  }

  lemma OthersConsumeNothing(s: State, p: Pid, i: Input)
    requires p in s.procs
    requires var pc := s.procs[p]; !pc.Approaching? && !pc.Worker? && !pc.Helper? && !pc.Operating?
    ensures ReadsForConsume(s, s.procs[p], ProcStep(s, p, i), i)
  {
    hide StepApproach, StepWorker, StepHelper, StepOperator;
  }

  /** The process has been called to consume this wake, by its event and delivery. */
  ghost predicate Called(acts: seq<Action>, k: nat, p: Pid, e: EventId, delivery: Id) {
    k <= |acts| && exists j :: 0 <= j < k && acts[j] == Consume(p, e, delivery)
  }

  /** After that call the process has found the receipt of the wake, in the generation and under the binding that
      it was given at that step. */
  ghost predicate Found(run: seq<State>, acts: seq<Action>, j: nat, p: Pid, w: Wake) {
    && |acts| < |run| && Called(acts, j, p, w.event, w.delivery)
    && ActsAt(acts, j, p) && Matching(run[j], w, acts[j].i)
  }

  lemma {:induction false} AskingWasCalled(run: seq<State>, acts: seq<Action>, k: nat, p: Pid)
    requires Acted(run, acts) && k < |run| && p in run[k].procs
    requires run[k].procs[p].Operating? && run[k].procs[p].operator.ConsumeReceipt?
    ensures var pc := run[k].procs[p].operator; Called(acts, k, p, pc.e, pc.delivery)
  {
    hide Next, ProcStep, Inv;
    assert k > 0;
    var s, a := run[k - 1], acts[k - 1];
    assert run[k - 1 + 1] == Next(s, a);
    ActedRun(run, acts);
    RunInv(run, k - 1);
    Moved(s, a, p);
    if p in s.procs && s.procs[p] == run[k].procs[p] { AskingWasCalled(run, acts, k - 1, p); }
    else if Acts(s, a, p) { ProcReadsForConsume(s, p, a.i); }
  }

  lemma {:induction false} ConsumingHasFound(run: seq<State>, acts: seq<Action>, k: nat, p: Pid)
    requires Acted(run, acts) && k < |run| && p in run[k].procs && Consuming(run[k].procs[p]).Some?
    ensures exists j :: 0 <= j < k && Found(run, acts, j, p, Consuming(run[k].procs[p]).value)
  {
    hide Next, ProcStep, Inv, Matching, Called;
    assert k > 0;
    var s, a := run[k - 1], acts[k - 1];
    assert run[k - 1 + 1] == Next(s, a);
    ActedRun(run, acts);
    RunInv(run, k - 1);
    Moved(s, a, p);
    var w := Consuming(run[k].procs[p]);
    if p in s.procs && Consuming(s.procs[p]) == w { ConsumingHasFound(run, acts, k - 1, p); }
    else {
      ProcReadsForConsume(s, p, a.i);
      AskingWasCalled(run, acts, k - 1, p);
      assert Found(run, acts, k - 1, p, w.value);
    }
  }

  /** Every consume call that succeeds, first or repeated, was given the event and the delivery of the record it
      returns, and has found since a receipt of that delivery, in the generation of the supervisor file and of the
      request, under the binding of the session. */
  lemma ConsumerWasEntitled(run: seq<State>, acts: seq<Action>, k: nat, p: Pid)
    requires Acted(run, acts) && k < |run| && p in run[k].procs && run[k].procs[p].Consumed?
    ensures var record := run[k].procs[p].record;
            exists j :: 0 <= j < k && Found(run, acts, j, p, Wake(record.event, record.delivery, record.gen, record.binding))
  {
    hide Next, Found;
    ConsumingHasFound(run, acts, k, p);
  }

  // ----- a consume call alone

  /** A consume call and its three reads and writes, with nothing in between. */
  function Consumes(s: State, p: Pid, e: EventId, delivery: Id, i: Input, j: Input, k: Input): State {
    Next(Next(Next(Next(s, Consume(p, e, delivery)), Step(p, i)), Step(p, j)), Step(p, k))
  }

  /** The wake may be consumed by whoever names this delivery. */
  ghost predicate Consumable(s: State, e: EventId, delivery: Id, i: Input) {
    && e in s.receipts && e in s.requests && DeliveredAs(s, e, s.receipts[e].claim)
    && s.receipts[e].claim.delivery == delivery
    && s.receipts[e].claim.gen == i.gen == s.requests[e].gen && s.receipts[e].binding == i.binding
  }

  lemma ConsumeAsks(s: State, p: Pid, e: EventId, delivery: Id, i: Input)
    requires Ready(s, p) && e in s.requests && i.gen <= s.gen && (e in s.receipts ==> s.receipts[e].claim.event == e)
    ensures var t := Next(Next(s, Consume(p, e, delivery)), Step(p, i));
            && t == s.(procs := t.procs) && p in t.procs
            && t.procs[p] == if Matching(s, Wake(e, delivery, i.gen, i.binding), i) then Operating(ConsumeDecision(s.receipts[e])) else Idle
  {
    hide StepApproach, StepLate, StepWorker, StepRelease, StepCommit, StepHelper;
  }

  lemma ConsumeDecides(s: State, p: Pid, r: Receipt, j: Input, k: Input)
    requires Inv(s) && p in s.procs && s.procs[p] == Operating(ConsumeDecision(r)) && j.gen <= s.gen && k.gen <= s.gen
    requires r.claim.event in s.receipts && s.receipts[r.claim.event] == r && r.claim.event in s.requests
    ensures var t := Next(Next(s, Step(p, j)), Step(p, k));
            && t == s.(procs := t.procs, consumptions := t.consumptions) && p in t.procs
            && (t.procs[p].Consumed? <==> DeliveredAs(s, r.claim.event, r.claim))
            && (t.procs[p].Consumed? ==> t.procs[p].record.event == r.claim.event
                                         && (t.procs[p].duplicate <==> r.claim.event in s.consumptions))
            && (!t.procs[p].Consumed? ==> t.consumptions == s.consumptions)
  {
    hide Inv, StepApproach, StepLate, StepWorker, StepRelease, StepCommit, StepHelper;
    RecordFacts(s, r.claim.event);
  }

  /** Undisturbed, a consume call succeeds if and only if the wake may be consumed; it then leaves the wake reported
      consumed, and calls itself a duplicate exactly when it was consumed before; otherwise it changes no file. */
  lemma ConsumeExactly(s: State, p: Pid, e: EventId, delivery: Id, i: Input, j: Input, k: Input)
    requires Inv(s) && Ready(s, p) && e in s.requests && i.gen <= s.gen && j.gen <= s.gen && k.gen <= s.gen
    ensures var t := Consumes(s, p, e, delivery, i, j, k);
            && t == s.(procs := t.procs, consumptions := t.consumptions) && p in t.procs
            && (t.procs[p].Consumed? <==> Consumable(s, e, delivery, i))
            && (t.procs[p].Consumed? ==> t.procs[p].record.event == e && ReportedConsumed(t, e)
                                         && (t.procs[p].duplicate <==> e in s.consumptions))
            && (!t.procs[p].Consumed? ==> t.consumptions == s.consumptions)
  {
    hide Inv, Next, DeliveredAs;
    var s1 := Next(s, Consume(p, e, delivery));
    var s2 := Next(s1, Step(p, i));
    RecordFacts(s, e);
    ConsumeAsks(s, p, e, delivery, i);
    NextKeeps(s, Consume(p, e, delivery));
    NextKeeps(s1, Step(p, i));
    if s2.procs[p].Idle? {
      IdleStays(s2, p, j);
      IdleStays(s2, p, k);
    } else {
      var t := Consumes(s, p, e, delivery, i, j, k);
      ConsumeDecides(s2, p, s.receipts[e], j, k);
      assert DeliveredAs(s2, e, s.receipts[e].claim) == DeliveredAs(s, e, s.receipts[e].claim) by { SameDecisions(s, s2, e, s.receipts[e].claim); }
      NextKeeps(s2, Step(p, j));
      NextKeeps(Next(s2, Step(p, j)), Step(p, k));
      ProcFacts(t, p);
      RecordFacts(t, e);
    }
  }

  lemma SameDecisions(s: State, t: State, e: EventId, c: Claim)
    requires s.decisions == t.decisions
    ensures DeliveredAs(s, e, c) == DeliveredAs(t, e, c)
  {
  }

  lemma IdleStays(s: State, p: Pid, i: Input)
    requires p in s.procs && s.procs[p].Idle?
    ensures Next(s, Step(p, i)) == s
  {
  }
}
