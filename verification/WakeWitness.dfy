/** The wake protocol does deliver: a run in which an event is claimed, its transport started once, the
    confirmed receipt committed and cleaned up, and the wake consumed; and a run in which a first
    attempt is reconciled as not started, after which a second claim of the same event may go on. */
module WakeWitness {
  import opened Common
  import opened WakeProtocol

  ghost predicate Reachable(s: State) { Reached(Init, Steps, s) }

  lemma Reach(s: State, a: Action, t: State)
    requires Reachable(s) && t == Next(s, a)
    ensures Reachable(t)
  {
    hide Next;
    assert Steps(s, t);
    ReachedNext(Init, Steps, s, t);
  }

  const GO := Input(0, 0, 0, 0, 2)

  /** One process at work on the files of `rest`. */
  function Sole(p: Pid, pc: Proc, rest: State): State { rest.(procs := map[p := pc]) }

  /** The worker waits while the helper is at work. */
  function Helping(c: Claim, l: Lease, step: HelperPc, rest: State): State {
    rest.(procs := map[1 := Worker(c, l, Wait(2))][2 := Helper(c, step)])
  }

  predicate Plain(x: Effect) {
    x.Goto? || x.PutJournal? || x.PutDecision? || x.PutReceipt? || x.PutConsumption? || x.FreeLease? || x.PassFence?
  }

  /** The files after an effect that moves on to `x.next`. */
  function After(rest: State, x: Effect): State {
    match x
    case PutJournal(_, a, journal) => rest.(evidence := rest.evidence[a := journal])
    case PutDecision(_, e, decision) => rest.(decisions := rest.decisions[e := decision])
    case PutReceipt(_, e, receipt) => rest.(receipts := rest.receipts[e := receipt])
    case PutConsumption(_, e, consumption) => rest.(consumptions := rest.consumptions[e := consumption])
    case FreeLease(_, lease) => rest.(lease := Some(lease))
    case PassFence(_, pass) => rest.(checks := rest.checks + {pass})
    case _ => rest
  }

  lemma Alone(p: Pid, pc: Proc, rest: State, x: Effect)
    requires Reachable(Sole(p, pc, rest)) && ProcStep(Sole(p, pc, rest), p, GO) == x && Plain(x)
    ensures Reachable(Sole(p, x.next, After(rest, x)))
  {
    hide ProcStep;
    AloneWith(p, pc, rest, GO, x);
  }

  lemma AloneWith(p: Pid, pc: Proc, rest: State, i: Input, x: Effect)
    requires Reachable(Sole(p, pc, rest)) && ProcStep(Sole(p, pc, rest), p, i) == x && Plain(x) && i.gen == 0
    ensures Reachable(Sole(p, x.next, After(rest, x)))
  {
    hide ProcStep, Apply, After;
    var t := Apply(Sole(p, pc, rest), p, x);
    PlainApply(Sole(p, pc, rest), p, x);
    AfterProcs(rest, map[p := pc], x);
    assert map[p := pc][p := x.next] == map[p := x.next];
    Reach(Sole(p, pc, rest), Step(p, i), t);
  }

  lemma PlainApply(s: State, p: Pid, x: Effect)
    requires Plain(x)
    ensures Apply(s, p, x) == At(After(s, x), p, x.next)
  {
  }

  lemma AfterProcs(rest: State, procs: map<Pid, Proc>, x: Effect)
    ensures After(rest.(procs := procs), x) == After(rest, x).(procs := procs)
  {
    match x
    case PutJournal(_, a, journal) => assert After(rest, x) == rest.(evidence := rest.evidence[a := journal]);
    case PutDecision(_, e, decision) => assert After(rest, x) == rest.(decisions := rest.decisions[e := decision]);
    case PutReceipt(_, e, receipt) => assert After(rest, x) == rest.(receipts := rest.receipts[e := receipt]);
    case PutConsumption(_, e, consumption) => assert After(rest, x) == rest.(consumptions := rest.consumptions[e := consumption]);
    case FreeLease(_, lease) => assert After(rest, x) == rest.(lease := Some(lease));
    case PassFence(_, pass) => assert After(rest, x) == rest.(checks := rest.checks + {pass});
    case _ => assert After(rest, x) == rest;
  }

  lemma Helps(c: Claim, l: Lease, step: HelperPc, rest: State, x: Effect)
    requires Reachable(Helping(c, l, step, rest)) && ProcStep(Helping(c, l, step, rest), 2, GO) == x && Plain(x)
    requires x.next.Helper? && x.next.c == c
    ensures Reachable(Helping(c, l, x.next.step, After(rest, x)))
  {
    hide ProcStep, Apply, After;
    var t := Apply(Helping(c, l, step, rest), 2, x);
    PlainApply(Helping(c, l, step, rest), 2, x);
    AfterProcs(rest, Helping(c, l, step, rest).procs, x);
    assert t.procs == Helping(c, l, x.next.step, rest).procs;
    Reach(Helping(c, l, step, rest), Step(2, GO), t);
  }

  // ----- delivery

  const REQUEST := WakeProtocol.Request(0, 0, 0)
  const LEASE := Lease(0, 0, 0, 1, 1, 1, true)
  const CLAIM := Claim(0, 0, 1, 0, 1, 2, 3)
  const BLANK := Evidence(CLAIM, 1, 0, true, false, false, false)
  const ANNOUNCED := Evidence(CLAIM, 1, 0, false, true, false, false)
  const SEEN := Evidence(CLAIM, 1, 0, false, true, true, false)
  const CLEANED := Evidence(CLAIM, 1, 0, false, true, true, true)
  const RECEIPT := Receipt(CLAIM, 1, 0, 0, false, Pending)
  const PROVEN := Receipt(CLAIM, 1, 0, 0, false, Proven)

  ghost predicate Asked(s: State) {
    s.gen == 0 && 0 in s.requests && s.requests[0] == REQUEST && s.consumptions == map[] && s.dead == {}
  }

  /** The files of event 0 once it is claimed. */
  ghost predicate Files(s: State, status: Status, journal: Option<Evidence>, receipt: Option<Receipt>, starts: seq<Claim>) {
    && Asked(s) && s.lease == Some(LEASE) && s.starts == starts
    && 0 in s.decisions && s.decisions[0] == Decision(CLAIM, status, false, [])
    && (if journal.Some? then 2 in s.evidence && s.evidence[2] == journal.value else 2 !in s.evidence)
    && (if receipt.Some? then 0 in s.receipts && s.receipts[0] == receipt.value else 0 !in s.receipts)
  }

  lemma Looks() returns (s: State)
    ensures Reachable(Sole(1, Approaching(0, LeaseRead(0)), s)) && Asked(s)
    ensures s.lease == None && s.nextId == 0 && s.decisions == map[] && s.evidence == map[] && s.receipts == map[]
    ensures s.starts == []
  {
    var e := State(0, map[], None, map[], map[], map[], map[], map[], {}, 0, {}, [], [], {});
    ReachedAtOnce(Init, Steps, e);
    s := e.(requests := e.requests[0 := REQUEST]);
    Reach(e, Enqueue(0, REQUEST), s);
    Reach(s, Deliver(1, 0), Sole(1, Approaching(0, Look), s));
    Alone(1, Approaching(0, Look), s, Goto(Approaching(0, Classify)));
    Alone(1, Approaching(0, Classify), s, Goto(Approaching(0, LateDecision)));
    Alone(1, Approaching(0, LateDecision), s, Goto(Approaching(0, Reclassify)));
    Alone(1, Approaching(0, Reclassify), s, Goto(Approaching(0, LeaseRead(0))));
  }

  lemma Leases() returns (s: State)
    ensures Reachable(Sole(1, Approaching(0, ClaimFence(LEASE)), s)) && Asked(s)
    ensures s.lease == Some(LEASE) && s.nextId == 1 && s.decisions == map[] && s.evidence == map[]
    ensures s.receipts == map[] && s.starts == []
  {
    var r := Looks();
    Alone(1, Approaching(0, LeaseRead(0)), r, Goto(Approaching(0, LeaseCas(0, None, 1, 0))));
    s := r.(lease := Some(LEASE), nextId := 1, leases := r.leases + [LEASE]);
    Reach(Sole(1, Approaching(0, LeaseCas(0, None, 1, 0)), r), Step(1, GO), Sole(1, Approaching(0, ClaimFence(LEASE)), s));
  }

  lemma Claims() returns (s: State)
    ensures Reachable(Sole(1, Worker(CLAIM, LEASE, Hold), s)) && Files(s, Claimed, None, None, []) && s.nextId == 4
    ensures s.receipts == map[]
  {
    var r := Leases();
    Alone(1, Approaching(0, ClaimFence(LEASE)), r, Goto(Approaching(0, ClaimCreate(LEASE, 0))));
    s := r.(decisions := r.decisions[0 := Decision(CLAIM, Claimed, false, [])], nextId := 4, made := r.made + {CLAIM});
    Reach(Sole(1, Approaching(0, ClaimCreate(LEASE, 0)), r), Step(1, GO), Sole(1, Worker(CLAIM, LEASE, Hold), s));
  }

  lemma Prepares() returns (s: State)
    ensures Reachable(Sole(1, Worker(CLAIM, LEASE, PreDelivery), s)) && Files(s, Claimed, Some(BLANK), None, [])
    ensures s.nextId == 4 && s.receipts == map[]
  {
    var r := Claims();
    Alone(1, Worker(CLAIM, LEASE, Hold), r, Goto(Worker(CLAIM, LEASE, Prepare)));
    var x := PutJournal(Worker(CLAIM, LEASE, Final), 2, BLANK);
    Alone(1, Worker(CLAIM, LEASE, Prepare), r, x);
    s := After(r, x);
    Alone(1, Worker(CLAIM, LEASE, Final), s, Goto(Worker(CLAIM, LEASE, PreDelivery)));
  }

  lemma Resumes() returns (s: State)
    ensures Reachable(Sole(1, Worker(CLAIM, LEASE, Launch), s)) && Files(s, Claimed, Some(BLANK), None, [])
  {
    var r := Prepares();
    Alone(1, Worker(CLAIM, LEASE, PreDelivery), r, Goto(Worker(CLAIM, LEASE, ResumeRead)));
    Alone(1, Worker(CLAIM, LEASE, ResumeRead), r, Goto(Worker(CLAIM, LEASE, ResumeWrite(BLANK))));
    var x := PutJournal(Worker(CLAIM, LEASE, Launch), 2, BLANK);
    Alone(1, Worker(CLAIM, LEASE, ResumeWrite(BLANK)), r, x);
    s := After(r, x);
  }

  lemma Launches() returns (s: State)
    ensures Reachable(Helping(CLAIM, LEASE, Read, s)) && Files(s, Claimed, Some(BLANK), None, [])
  {
    s := Resumes();
    var before, after := Sole(1, Worker(CLAIM, LEASE, Launch), s), Helping(CLAIM, LEASE, Read, s);
    assert Next(before, Step(1, GO)) == Apply(before, 1, Fork(CLAIM, LEASE, 2));
    assert Apply(before, 1, Fork(CLAIM, LEASE, 2)).procs == after.procs;
    Reach(before, Step(1, GO), after);
  }

  lemma Announces() returns (s: State)
    ensures Reachable(Helping(CLAIM, LEASE, Spawn(ANNOUNCED), s)) && Files(s, Claimed, Some(ANNOUNCED), None, [])
  {
    var r := Launches();
    var clear := BLANK.(absent := false);
    Helps(CLAIM, LEASE, Read, r, Goto(Helper(CLAIM, Begin(BLANK))));
    var x, y := PutJournal(Helper(CLAIM, Announce(clear)), 2, clear), PutJournal(Helper(CLAIM, Spawn(ANNOUNCED)), 2, ANNOUNCED);
    Helps(CLAIM, LEASE, Begin(BLANK), r, x);
    Helps(CLAIM, LEASE, Announce(clear), After(r, x), y);
    s := After(After(r, x), y);
  }

  lemma Starts() returns (s: State)
    ensures Reachable(Helping(CLAIM, LEASE, Observe(ANNOUNCED), s)) && Files(s, Claimed, Some(ANNOUNCED), None, [CLAIM])
  {
    var r := Announces();
    s := r.(starts := r.starts + [CLAIM]);
    var before, after := Helping(CLAIM, LEASE, Spawn(ANNOUNCED), r), Helping(CLAIM, LEASE, Observe(ANNOUNCED), s);
    assert Next(before, Step(2, GO)) == Apply(before, 2, Start(CLAIM, ANNOUNCED));
    assert Apply(before, 2, Start(CLAIM, ANNOUNCED)).procs == after.procs;
    Reach(before, Step(2, GO), after);
  }

  lemma Confirms() returns (s: State)
    ensures Reachable(Helping(CLAIM, LEASE, SeeDecision(SEEN), s)) && Files(s, Claimed, Some(SEEN), None, [CLAIM])
  {
    var r := Starts();
    Helps(CLAIM, LEASE, Observe(ANNOUNCED), r, Goto(Helper(CLAIM, Journal(SEEN))));
    var x := PutJournal(Helper(CLAIM, SeeDecision(SEEN)), 2, SEEN);
    Helps(CLAIM, LEASE, Journal(SEEN), r, x);
    s := After(r, x);
  }

  lemma Checks() returns (s: State)
    ensures Reachable(Helping(CLAIM, LEASE, Check(SEEN, RECEIPT), s)) && Files(s, Claimed, Some(SEEN), None, [CLAIM])
  {
    var r := Confirms();
    Helps(CLAIM, LEASE, SeeDecision(SEEN), r, Goto(Helper(CLAIM, SeeLease(SEEN))));
    Helps(CLAIM, LEASE, SeeLease(SEEN), r, Goto(Helper(CLAIM, SeeFence(SEEN, LEASE))));
    var x := PassFence(Helper(CLAIM, Check(SEEN, RECEIPT)), Pass(CLAIM, LEASE, 0));
    Helps(CLAIM, LEASE, SeeFence(SEEN, LEASE), r, x);
    s := After(r, x);
  }

  lemma Commits() returns (s: State)
    ensures Reachable(Helping(CLAIM, LEASE, SeeMark(SEEN), s)) && Files(s, Claimed, Some(SEEN), Some(RECEIPT), [CLAIM])
  {
    var r := Checks();
    Helps(CLAIM, LEASE, Check(SEEN, RECEIPT), r, Goto(Helper(CLAIM, Create(SEEN, RECEIPT))));
    var x := PutReceipt(Helper(CLAIM, SeeMark(SEEN)), 0, RECEIPT);
    Helps(CLAIM, LEASE, Create(SEEN, RECEIPT), r, x);
    s := After(r, x);
  }

  lemma Marks() returns (s: State)
    ensures Reachable(Helping(CLAIM, LEASE, Clean(SEEN, Confirmed, true), s))
    ensures Files(s, Delivered, Some(SEEN), Some(RECEIPT), [CLAIM])
  {
    var r := Commits();
    var d := Decision(CLAIM, Claimed, false, []);
    Helps(CLAIM, LEASE, SeeMark(SEEN), r, Goto(Helper(CLAIM, CasMark(SEEN, d))));
    var x := PutDecision(Helper(CLAIM, Clean(SEEN, Confirmed, true)), 0, d.(status := Delivered));
    Helps(CLAIM, LEASE, CasMark(SEEN, d), r, x);
    s := After(r, x);
  }

  lemma Cleans() returns (s: State)
    ensures Reachable(Helping(CLAIM, LEASE, CasUpdate(CLEANED, Confirmed, 0, RECEIPT), s))
    ensures Files(s, Delivered, Some(CLEANED), Some(RECEIPT), [CLAIM])
  {
    var r := Marks();
    var x := PutJournal(Helper(CLAIM, Update(CLEANED, Confirmed, 0)), 2, CLEANED);
    Helps(CLAIM, LEASE, Clean(SEEN, Confirmed, true), r, x);
    s := After(r, x);
    Helps(CLAIM, LEASE, Update(CLEANED, Confirmed, 0), s, Goto(Helper(CLAIM, CasUpdate(CLEANED, Confirmed, 0, RECEIPT))));
  }

  /** The consumer comes while worker and helper are still there: process 3. */
  function Consuming(pc: Proc, helper: Proc, rest: State): State {
    rest.(procs := map[1 := Worker(CLAIM, LEASE, Wait(2))][2 := helper][3 := pc])
  }

  function Settled(rest: State): State { rest.(procs := map[1 := Worker(CLAIM, LEASE, Wait(2))][2 := Exited(CLAIM, Confirmed)]) }

  lemma UpdateEffect(r: State)
    requires Files(r, Delivered, Some(CLEANED), Some(RECEIPT), [CLAIM])
    ensures var s := Helping(CLAIM, LEASE, CasUpdate(CLEANED, Confirmed, 0, RECEIPT), r);
            ProcStep(s, 2, GO) == PutReceipt(Exited(CLAIM, Confirmed), 0, PROVEN)
  {
  }

  lemma Updates() returns (s: State)
    ensures Reachable(Settled(s)) && Files(s, Delivered, Some(CLEANED), Some(PROVEN), [CLAIM])
  {
    var r := Cleans();
    var before := Helping(CLAIM, LEASE, CasUpdate(CLEANED, Confirmed, 0, RECEIPT), r);
    var x := PutReceipt(Exited(CLAIM, Confirmed), 0, PROVEN);
    UpdateEffect(r);
    s := After(r, x);
    hide ProcStep;
    assert before.procs[2 := Exited(CLAIM, Confirmed)] == Settled(s).procs;
    Reach(before, Step(2, GO), Settled(s));
  }

  lemma Settles() returns (s: State)
    ensures Reachable(Consuming(Operating(ConsumeReceipt(0, 3)), Exited(CLAIM, Confirmed), s))
    ensures Files(s, Delivered, Some(CLEANED), Some(PROVEN), [CLAIM])
  {
    s := Updates();
    hide ProcStep;
    Reach(Settled(s), Consume(3, 0, 3), Consuming(Operating(ConsumeReceipt(0, 3)), Exited(CLAIM, Confirmed), s));
  }

  lemma Consumes(pc: Proc, rest: State, x: Effect)
    requires var s := Consuming(pc, Exited(CLAIM, Confirmed), rest); Reachable(s) && ProcStep(s, 3, GO) == x && Plain(x)
    ensures Reachable(Consuming(x.next, Exited(CLAIM, Confirmed), After(rest, x)))
  {
    hide ProcStep;
    hide Apply, After;
    var s := Consuming(pc, Exited(CLAIM, Confirmed), rest);
    var t := Apply(s, 3, x);
    PlainApply(s, 3, x);
    AfterProcs(rest, s.procs, x);
    assert t.procs == Consuming(x.next, Exited(CLAIM, Confirmed), rest).procs;
    Reach(s, Step(3, GO), t);
  }

  const CONSUMPTION := Consumption(0, 3, 0, 0, REQUEST, FenceOf(PROVEN), 0)

  lemma Reads() returns (s: State)
    ensures Reachable(Consuming(Operating(ConsumeCreate(PROVEN)), Exited(CLAIM, Confirmed), s))
    ensures Files(s, Delivered, Some(CLEANED), Some(PROVEN), [CLAIM])
  {
    s := Settles();
    Consumes(Operating(ConsumeReceipt(0, 3)), s, Goto(Operating(ConsumeDecision(PROVEN))));
    Consumes(Operating(ConsumeDecision(PROVEN)), s, Goto(Operating(ConsumeCreate(PROVEN))));
  }

  /** One start, a confirmed receipt with its cleanup proven, a delivered decision, and a consumed wake. */
  lemma DeliveryHappens()
    ensures exists s: State ::
              Reachable(s) && Files(s.(consumptions := map[]), Delivered, Some(CLEANED), Some(PROVEN), [CLAIM]) && ReportedConsumed(s, 0)
  {
    var r := Reads();
    var x := PutConsumption(Consumed(CONSUMPTION, false), 0, CONSUMPTION);
    Consumes(Operating(ConsumeCreate(PROVEN)), r, x);
    var s := Consuming(x.next, Exited(CLAIM, Confirmed), After(r, x));
    hide Reachable;
    assert ReportedConsumed(s, 0) && Files(s.(consumptions := map[]), Delivered, Some(CLEANED), Some(PROVEN), [CLAIM]);
  }

  // ----- a retry

  const FREED := LEASE.(owned := false)
  const SECOND_LEASE := Lease(4, 0, 0, 2, 1, 1, true)
  const SECOND := Claim(0, 0, 5, 4, 2, 6, 7)
  const RETRIABLE := Decision(CLAIM, NotStarted, false, [])

  /** The first attempt failed before delivery, and its decision was marked as not started. */
  ghost predicate Failed(s: State, lease: Lease, nextId: nat) {
    && Asked(s) && s.lease == Some(lease) && s.nextId == nextId && s.starts == []
    && 0 in s.decisions && s.decisions[0] == RETRIABLE && s.receipts == map[]
  }

  lemma Stops() returns (s: State)
    ensures Reachable(Sole(1, Worker(CLAIM, LEASE, MarkRead(NotStarted, false)), s))
    ensures Files(s, Claimed, Some(BLANK), None, []) && s.nextId == 4 && s.receipts == map[]
  {
    s := Prepares();
    AloneWith(1, Worker(CLAIM, LEASE, PreDelivery), s, GO.(choice := 1), Goto(Worker(CLAIM, LEASE, MarkRead(NotStarted, false))));
  }

  lemma Unmarks() returns (s: State)
    ensures Reachable(Sole(1, Releasing(LEASE, false, None), s)) && Failed(s, LEASE, 4)
  {
    var r := Stops();
    var d := Decision(CLAIM, Claimed, false, []);
    Alone(1, Worker(CLAIM, LEASE, MarkRead(NotStarted, false)), r, Goto(Worker(CLAIM, LEASE, MarkCas(NotStarted, false, d))));
    var x := PutDecision(Releasing(LEASE, false, None), 0, RETRIABLE);
    Alone(1, Worker(CLAIM, LEASE, MarkCas(NotStarted, false, d)), r, x);
    s := After(r, x);
  }

  lemma Frees() returns (s: State)
    ensures Reachable(Sole(1, Approaching(0, Look), s)) && Failed(s, FREED, 4)
  {
    var r := Unmarks();
    Alone(1, Releasing(LEASE, false, None), r, Goto(Releasing(LEASE, true, None)));
    var x := FreeLease(Idle, FREED);
    Alone(1, Releasing(LEASE, true, None), r, x);
    s := After(r, x);
    hide ProcStep;
    assert map[1 := Idle][1 := Approaching(0, Look)] == map[1 := Approaching(0, Look)];
    Reach(Sole(1, Idle, s), Deliver(1, 0), Sole(1, Approaching(0, Look), s));
  }

  lemma Returns() returns (s: State)
    ensures Reachable(Sole(1, Approaching(0, LeaseRead(0)), s)) && Failed(s, FREED, 4)
  {
    s := Frees();
    Alone(1, Approaching(0, Look), s, Goto(Approaching(0, Classify)));
    Alone(1, Approaching(0, Classify), s, Goto(Approaching(0, LateDecision)));
    Alone(1, Approaching(0, LateDecision), s, Goto(Approaching(0, Reclassify)));
    Alone(1, Approaching(0, Reclassify), s, Goto(Approaching(0, LeaseRead(0))));
  }

  lemma Reacquires() returns (s: State)
    ensures Reachable(Sole(1, Approaching(0, ClaimFence(SECOND_LEASE)), s)) && Failed(s, SECOND_LEASE, 5)
  {
    var r := Returns();
    var pc := Approaching(0, LeaseCas(0, Some(FREED), 1, 0));
    Alone(1, Approaching(0, LeaseRead(0)), r, Goto(pc));
    s := r.(lease := Some(SECOND_LEASE), nextId := 5, leases := r.leases + [SECOND_LEASE]);
    var after := Sole(1, Approaching(0, ClaimFence(SECOND_LEASE)), s);
    assert Sole(1, pc, r).procs[1 := Approaching(0, ClaimFence(SECOND_LEASE))] == after.procs;
    Reach(Sole(1, pc, r), Step(1, GO), after);
  }

  lemma Rereads() returns (s: State)
    ensures Reachable(Sole(1, Approaching(0, ClaimCas(SECOND_LEASE, 0, RETRIABLE)), s)) && Failed(s, SECOND_LEASE, 5)
  {
    s := Reacquires();
    Alone(1, Approaching(0, ClaimFence(SECOND_LEASE)), s, Goto(Approaching(0, ClaimCreate(SECOND_LEASE, 0))));
    Alone(1, Approaching(0, ClaimCreate(SECOND_LEASE, 0)), s, Goto(Approaching(0, ClaimRead(SECOND_LEASE, 0))));
    Alone(1, Approaching(0, ClaimRead(SECOND_LEASE, 0)), s, Goto(Approaching(0, ClaimCas(SECOND_LEASE, 0, RETRIABLE))));
  }

  lemma RetryEffect(r: State)
    requires Failed(r, SECOND_LEASE, 5)
    ensures ProcStep(Sole(1, Approaching(0, ClaimCas(SECOND_LEASE, 0, RETRIABLE)), r), 1, GO) == NewClaim(SECOND, SECOND_LEASE, [CLAIM])
  {
    assert [] + [CLAIM] == [CLAIM];
  }

  /** After a proven non-start, the event is claimed again under a new lease with a larger token, and the
      first claim is kept in the retry history. */
  lemma RetryHappens()
    ensures exists s: State :: Reachable(s) && 0 in s.decisions && s.decisions[0] == Decision(SECOND, Claimed, false, [CLAIM])
                               && 1 in s.procs && s.procs[1] == Worker(SECOND, SECOND_LEASE, Hold) && s.starts == []
  {
    var r := Rereads();
    var before := Sole(1, Approaching(0, ClaimCas(SECOND_LEASE, 0, RETRIABLE)), r);
    var x := NewClaim(SECOND, SECOND_LEASE, [CLAIM]);
    RetryEffect(r);
    hide ProcStep, Reachable;
    var s := Apply(before, 1, x);
    Reach(before, Step(1, GO), s);
  }
}
