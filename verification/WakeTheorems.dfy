/** What the wake protocol guarantees in every run: any number of workers, helpers, reconcilers
    and consumers, lease expiry, takeover, retries after a proven non-start, and death anywhere. */
module WakeTheorems {
  import opened Common
  import opened WakeProtocol
  import opened WakeInvariant
  import opened WakeSteps

  lemma RunInv(run: seq<State>, k: nat)
    requires Run(run) && k < |run|
    ensures Inv(run[k])
  {
    hide Inv, Next;
    InitInv(run[0]);
    forall s, t | Inv(s) && Steps(s, t) ensures Inv(t) {
      var a :| t == Next(s, a);
      NextKeeps(s, a);
    }
    Invariance(Inv, Steps, run, k);
  }

  /** At most one native transport start per wake event. */
  lemma AtMostOneStart(run: seq<State>, k: nat)
    requires Run(run) && k < |run|
    ensures forall i, j :: 0 <= i < j < |run[k].starts| ==> run[k].starts[i].event != run[k].starts[j].event
  {
    hide Numbered, Exclusive, Actors, Records, Locals;
    RunInv(run, k);
  }

  /** A decision that may be claimed again belongs to an event whose transport never started,
      under this claim or any earlier one. */
  lemma ReclaimableNeverStarted(run: seq<State>, k: nat, e: EventId)
    requires Run(run) && k < |run| && e in run[k].decisions && run[k].decisions[e].status.NotStarted?
    ensures forall c :: c in run[k].starts ==> c.event != e
  {
    hide Inv;
    RunInv(run, k);
    DecisionFacts(run[k], e);
  }

  // ----- what no step takes back

  ghost predicate Kept(s: State, t: State) {
    && (forall e :: e in s.receipts ==> e in t.receipts && FenceOf(t.receipts[e]) == FenceOf(s.receipts[e]))
    && (forall e :: e in s.consumptions ==> e in t.consumptions && t.consumptions[e] == s.consumptions[e])
    && (forall e :: e in s.requests ==> e in t.requests && t.requests[e] == s.requests[e])
    && s.starts <= t.starts && s.leases <= t.leases
  }

  /** The durable part of an effect that the store may not take back. */
  ghost predicate EffectKeeps(s: State, x: Effect) {
    && (x.PutReceipt? && x.e in s.receipts ==> FenceOf(x.receipt) == FenceOf(s.receipts[x.e]))
    && (x.PutConsumption? ==> x.e !in s.consumptions)
  }

  lemma ProcKept(s: State, p: Pid, i: Input)
    requires Inv(s) && p in s.procs
    ensures EffectKeeps(s, ProcStep(s, p, i))
  {
    hide Inv, ProcStep, ProcOk, Yields;
    StepEffect(s, p, i);
  }

  lemma ApplyKept(s: State, p: Pid, x: Effect)
    requires EffectKeeps(s, x)
    ensures Kept(s, Apply(s, p, x))
  {
  }

  lemma NextKept(s: State, a: Action)
    requires Inv(s)
    ensures Kept(s, Next(s, a))
  {
    hide Inv, ProcStep, Apply;
    if a.Step? && a.p in s.procs && a.i.gen <= s.gen {
      ProcKept(s, a.p, a.i);
      ApplyKept(s, a.p, ProcStep(s, a.p, a.i));
    }
  }

  lemma KeptOrder()
    ensures forall s :: Kept(s, s)
    ensures forall s, t, u :: Kept(s, t) && Kept(t, u) ==> Kept(s, u)
  {
  }

  lemma KeptForever(run: seq<State>, i: nat, k: nat)
    requires Run(run) && i <= k < |run|
    ensures Kept(run[i], run[k])
  {
    hide Next, Inv, Kept, Init;
    InitInv(run[0]);
    forall s, t | Inv(s) && Steps(s, t) ensures Inv(t) && Kept(s, t) {
      var a :| t == Next(s, a);
      NextKeeps(s, a);
      NextKept(s, a);
    }
    KeptOrder();
    Persistence(Inv, Kept, Steps, run, i, k);
  }

  /** Once a receipt exists, in every later state the event has a receipt with the same fence, its
      decision is the one that authorised it, with the same lease, token, delivery and attempt,
      that decision is not retryable, and the claimed transport did start. */
  lemma ReceiptAgreesForever(run: seq<State>, i: nat, k: nat, e: EventId)
    requires Run(run) && i <= k < |run| && e in run[i].receipts
    ensures e in run[k].receipts && FenceOf(run[k].receipts[e]) == FenceOf(run[i].receipts[e])
    ensures e in run[k].decisions && run[k].decisions[e].claim == run[i].receipts[e].claim
    ensures !run[k].decisions[e].status.NotStarted?
    ensures run[i].receipts[e].claim in run[k].starts
  {
    hide Inv;
    KeptForever(run, i, k);
    RunInv(run, k);
    RecordFacts(run[k], e);
    StartFacts(run[k], run[k].receipts[e].claim);
  }

  /** Once consumed, a wake is reported consumed in every later state, with the same record. */
  lemma ConsumedForever(run: seq<State>, i: nat, k: nat, e: EventId)
    requires Run(run) && i <= k < |run| && e in run[i].consumptions
    ensures ReportedConsumed(run[k], e) && run[k].consumptions[e] == run[i].consumptions[e]
  {
    hide Inv;
    KeptForever(run, i, k);
    RunInv(run, k);
    RecordFacts(run[k], e);
  }

  // ----- lease fencing

  ghost predicate LeaseInv(s: State) {
    && (s.lease.None? ==> s.leases == [])
    && (s.lease.Some? ==> |s.leases| > 0 && s.lease.value == s.leases[|s.leases| - 1].(owned := s.lease.value.owned))
    && (forall i, j :: 0 <= i < j < |s.leases| ==> s.leases[i].token < s.leases[j].token)
  }

  /** A lease write either marks the current lease, or writes a larger token. */
  ghost predicate EffectFences(s: State, x: Effect) {
    && (x.FreeLease? ==> s.lease.Some? && x.lease == s.lease.value.(owned := false))
    && (x.NewLease? ==> x.lease.token == if s.lease.Some? then s.lease.value.token + 1 else 1)
  }

  lemma ApproachFences(s: State, p: Pid, e: EventId, pc: ApproachPc, i: Input)
    ensures EffectFences(s, StepApproach(s, p, e, pc, i))
  {
  }

  lemma ReleaseFences(s: State, p: Pid, held: Lease, seen: bool, pending: Option<Claim>, i: Input)
    ensures EffectFences(s, StepRelease(s, p, held, seen, pending, i))
  {
  }

  lemma WorkerFences(s: State, p: Pid, c: Claim, l: Lease, pc: WorkerPc, i: Input)
    ensures EffectFences(s, StepWorker(s, p, c, l, pc, i))
  {
  }

  lemma HelperFences(s: State, p: Pid, c: Claim, pc: HelperPc, i: Input)
    ensures EffectFences(s, StepHelper(s, p, c, pc, i))
  {
  }

  lemma ProcFences(s: State, p: Pid, i: Input)
    requires p in s.procs
    ensures EffectFences(s, ProcStep(s, p, i))
  {
    hide StepApproach, StepWorker, StepRelease, StepHelper;
    var pc := s.procs[p];
    if pc.Approaching? { ApproachFences(s, p, pc.e, pc.approach, i); }
    if pc.Worker? { WorkerFences(s, p, pc.c, pc.l, pc.at, i); }
    if pc.Releasing? { ReleaseFences(s, p, pc.held, pc.seen, pc.pending, i); }
    if pc.Helper? { HelperFences(s, p, pc.c, pc.step, i); }
  }

  lemma ApplyLease(s: State, p: Pid, x: Effect)
    requires LeaseInv(s) && EffectFences(s, x)
    ensures LeaseInv(Apply(s, p, x))
  {
  }

  lemma NextLease(s: State, a: Action)
    requires LeaseInv(s)
    ensures LeaseInv(Next(s, a))
  {
    hide ProcStep, Apply;
    if a.Step? && a.p in s.procs && a.i.gen <= s.gen {
      ProcFences(s, a.p, a.i);
      ApplyLease(s, a.p, ProcStep(s, a.p, a.i));
    }
  }

  /** Fencing tokens strictly increase over every run, and a lease that passes the fence check is
      the newest ever written: every other lease of the run has a smaller token. */
  lemma LeaseFencing(run: seq<State>, k: nat, l: Lease, now: int)
    requires Run(run) && k < |run|
    ensures forall i, j :: 0 <= i < j < |run[k].leases| ==> run[k].leases[i].token < run[k].leases[j].token
    ensures LeaseCurrent(run[k], l, now) ==>
              |run[k].leases| > 0 && l.(owned := true) == run[k].leases[|run[k].leases| - 1].(owned := true)
              && forall i :: 0 <= i < |run[k].leases| - 1 ==> run[k].leases[i].token < l.token
  {
    hide Next;
    forall s, t | LeaseInv(s) && Steps(s, t) ensures LeaseInv(t) {
      var a :| t == Next(s, a);
      NextLease(s, a);
    }
    Invariance(LeaseInv, Steps, run, k);
  }
}
