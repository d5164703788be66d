/** The wake delivery protocol of src/wakeup.js and src/codex-resume-transport.js, as a state
    machine over the durable files of one repository. Every step is one read or one atomic
    write of one process; any process may die between two steps.

    Conventions. Identifiers (leases, decisions, transport attempts, deliveries) are fresh
    numbers. A process is named by its exact identity (PID, start ticks and executable), which
    is never reused. Digests are injective, so records are compared in place of their hashes.
    The clock, the session binding and every external probe arrive as the `Input` of a step. */
module WakeProtocol {
  import opened Common

  type EventId = nat
  type Id = nat
  type Pid = nat

  /** The identity part of an activation decision; the evidence, the receipt and the
      retry history all carry it. */
  datatype Claim = Claim(event: EventId, gen: nat, decision: Id, lease: Id, token: nat, attempt: Id, delivery: Id)

  datatype Status = Claimed | NotStarted | Uncertain | Delivered

  datatype Decision = Decision(claim: Claim, status: Status, late: bool, prior: seq<Claim>)

  datatype Lease = Lease(id: Id, event: EventId, gen: nat, token: nat, owner: Pid, expires: int, owned: bool)

  datatype Request = Request(gen: nat, task: nat, attempt: nat)

  /** The journal of one transport attempt. `absent` is the mark "native-transport-not-started";
      `requested` says that a spawn timestamp is set; `cleaned` that the cleanup evidence is complete. */
  datatype Evidence = Evidence(claim: Claim, owner: Pid, binding: nat, absent: bool, requested: bool, confirmed: bool, cleaned: bool)

  datatype Cleanup = Unrecorded | Pending | Proven | Intervention

  /** `deliveredAt` is set when the receipt is written. */
  datatype Receipt = Receipt(claim: Claim, owner: Pid, binding: nat, deliveredAt: int, late: bool, cleanup: Cleanup)

  /** deliveryReceiptFence: the receipt without the fields that the cleanup update rewrites. */
  datatype Fence = Fence(claim: Claim, owner: Pid, binding: nat, deliveredAt: int)

  function FenceOf(r: Receipt): Fence { Fence(r.claim, r.owner, r.binding, r.deliveredAt) }

  datatype Consumption = Consumption(event: EventId, delivery: Id, gen: nat, binding: nat, request: Request, fence: Fence, consumedAt: int)

  /** A fence check that the confirmed path passed: for which claim, under which lease, and at which
      reading of the clock. */
  datatype Pass = Pass(claim: Claim, lease: Lease, now: int)

  datatype Outcome = Confirmed | Unconfirmed

  /** deliverWake before it holds a claim: receipt and decision checks, then the activation lease. */
  datatype ApproachPc =
    | Look
    | Classify
    | LateDecision
    | LateEvidence(d: Decision)
    | Reclassify
    | LeaseRead(tries: nat)
    | LeaseCas(tries: nat, seen: Option<Lease>, expires: int, g: nat)
    | ClaimFence(l: Lease)
    | ClaimCreate(l: Lease, g: nat)
    | ClaimRead(l: Lease, g: nat)
    | ClaimCas(l: Lease, g: nat, cur: Decision)

  /** reconcileLateConfirmation, once cleaned evidence and a confirmation were found. */
  datatype LatePc = LateWrite | LateReread | LateCas(seen: Decision)

  /** deliverWake while it holds a claim. */
  datatype WorkerPc =
    | Hold
    | Prepare
    | Final
    | PreDelivery
    | ResumeRead
    | ResumeWrite(journal: Evidence)
    | Launch
    | Wait(helper: Pid)
    | AfterRead(out: Outcome, rounds: nat)
    | AfterWrite(out: Outcome, rounds: nat, journal: Evidence)
    | CheckReceipt(out: Outcome)
    | Confirm(out: Outcome)
    | MarkRead(to: Status, commit: bool)
    | MarkCas(to: Status, commit: bool, cur: Decision)

  /** The resume helper: transport, commit of the confirmed receipt, cleanup. */
  datatype HelperPc =
    | Read
    | Begin(copy: Evidence)
    | Announce(copy: Evidence)
    | Spawn(copy: Evidence)
    | Observe(copy: Evidence)
    | Journal(copy: Evidence)
    | SeeDecision(copy: Evidence)
    | SeeLease(copy: Evidence)
    | SeeFence(copy: Evidence, l: Lease)
    | Check(copy: Evidence, r: Receipt)
    | Create(copy: Evidence, r: Receipt)
    | SeeMark(copy: Evidence)
    | CasMark(copy: Evidence, cur: Decision)
    | Clean(copy: Evidence, out: Outcome, committed: bool)
    | Update(copy: Evidence, out: Outcome, tries: nat)
    | CasUpdate(copy: Evidence, out: Outcome, tries: nat, found: Receipt)

  datatype OperatorPc =
    | AbsentDecision(e: EventId)
    | AbsentEvidence(d: Decision)
    | AbsentReceipt(d: Decision)
    | AbsentCas(d: Decision)
    | ConsumeReceipt(e: EventId, delivery: Id)
    | ConsumeDecision(r: Receipt)
    | ConsumeCreate(r: Receipt)

  /** Program counter and local variables of one process. */
  datatype Proc =
    | Idle
    | Approaching(e: EventId, approach: ApproachPc)
    | Late(d: Decision, journal: Evidence, late: LatePc)
    | Worker(c: Claim, l: Lease, at: WorkerPc)
    | Releasing(held: Lease, seen: bool, pending: Option<Claim>)
    | Committing(r: Receipt, checked: bool)
    | Helper(c: Claim, step: HelperPc)
    | Exited(c: Claim, out: Outcome)
    | Operating(operator: OperatorPc)
    | Consumed(record: Consumption, duplicate: bool)

  /** The durable files, the processes, and a history: every claim made, every native transport
      start in order, every lease written in order, and every fence check of the confirmed path that passed. */
  datatype State = State(
    gen: nat,
    requests: map<EventId, Request>,
    lease: Option<Lease>,
    decisions: map<EventId, Decision>,
    evidence: map<Id, Evidence>,
    receipts: map<EventId, Receipt>,
    consumptions: map<EventId, Consumption>,
    procs: map<Pid, Proc>,
    dead: set<Pid>,
    nextId: Id,
    made: set<Claim>,
    starts: seq<Claim>,
    leases: seq<Lease>,
    checks: set<Pass>)

  ghost predicate Init(s: State) {
    && s.lease == None && s.decisions == map[] && s.evidence == map[] && s.receipts == map[]
    && s.consumptions == map[] && s.procs == map[] && s.made == {} && s.starts == [] && s.leases == [] && s.checks == {}
  }

  /** What one step takes from outside: the clock, a supervisor generation that the file held
      now or earlier, the binding digest, the verdict of an external probe or of an operation
      that can fail, and a process identity for a spawned helper. */
  datatype Input = Input(now: int, gen: nat, binding: nat, choice: nat, child: Pid)

  datatype Action =
    | Step(p: Pid, i: Input)
    | Deliver(p: Pid, e: EventId)
    | Reconcile(p: Pid, e: EventId)
    | Consume(p: Pid, e: EventId, delivery: Id)
    | Enqueue(e: EventId, r: Request)
    | Recover
    | Crash(p: Pid)

  /** The one durable effect of a step, with the program counter the process moves to. */
  datatype Effect =
    | Stay
    | Goto(next: Proc)
    | PutJournal(next: Proc, attempt: Id, journal: Evidence)
    | PutDecision(next: Proc, e: EventId, decision: Decision)
    | PutReceipt(next: Proc, e: EventId, receipt: Receipt)
    | PutConsumption(next: Proc, e: EventId, consumption: Consumption)
    | FreeLease(next: Proc, lease: Lease)
    | NewLease(e: EventId, lease: Lease)
    | NewClaim(claim: Claim, l: Lease, prior: seq<Claim>)
    | Fork(claim: Claim, l: Lease, helper: Pid)
    | Start(claim: Claim, journal: Evidence)
    | PassFence(next: Proc, pass: Pass)

  /** An effect that names the next program counter of its process. */
  predicate Regular(x: Effect) {
    x.Goto? || x.PutJournal? || x.PutDecision? || x.PutReceipt? || x.PutConsumption? || x.FreeLease? || x.PassFence?
  }

  function At(s: State, p: Pid, pc: Proc): State { s.(procs := s.procs[p := pc]) }

  function AfterClaim(s: State, p: Pid, c: Claim, l: Lease, prior: seq<Claim>): State {
    At(s.(decisions := s.decisions[c.event := Decision(c, Claimed, false, prior)], nextId := s.nextId + 3,
          made := s.made + {c}), p, Worker(c, l, Hold))
  }

  function AfterFork(s: State, p: Pid, c: Claim, l: Lease, helper: Pid): State {
    At(At(s, p, Worker(c, l, Wait(helper))), helper, Helper(c, Read))
  }

  function AfterStart(s: State, p: Pid, c: Claim, journal: Evidence): State {
    At(s.(starts := s.starts + [c]), p, Helper(c, Observe(journal)))
  }

  function Apply(s: State, p: Pid, x: Effect): State {
    match x
    case Stay => s
    case Goto(next) => At(s, p, next)
    case PutJournal(next, attempt, journal) => At(s.(evidence := s.evidence[attempt := journal]), p, next)
    case PutDecision(next, e, decision) => At(s.(decisions := s.decisions[e := decision]), p, next)
    case PutReceipt(next, e, receipt) => At(s.(receipts := s.receipts[e := receipt]), p, next)
    case PutConsumption(next, e, consumption) => At(s.(consumptions := s.consumptions[e := consumption]), p, next)
    case FreeLease(next, lease) => At(s.(lease := Some(lease)), p, next)
    case NewLease(e, lease) =>
      At(s.(lease := Some(lease), nextId := s.nextId + 1, leases := s.leases + [lease]), p, Approaching(e, ClaimFence(lease)))
    case NewClaim(claim, l, prior) => AfterClaim(s, p, claim, l, prior)
    case Fork(claim, l, helper) => AfterFork(s, p, claim, l, helper)
    case Start(claim, journal) => AfterStart(s, p, claim, journal)
    case PassFence(next, pass) => At(s.(checks := s.checks + {pass}), p, next)
  }

  /** decisionFenceCurrent, apart from the supervisor generation read before it. */
  predicate LeaseCurrent(s: State, l: Lease, now: int) {
    s.lease.Some? && s.lease.value == l && l.owned && now < l.expires && l.owner in s.procs
  }

  predicate FenceCurrent(s: State, l: Lease, i: Input) {
    LeaseCurrent(s, l, i.now) && l.gen == i.gen
  }

  // deliverWake from its first read to the claim

  function StepApproach(s: State, p: Pid, e: EventId, pc: ApproachPc, i: Input): Effect {
    match pc
    case Look => Goto(if e in s.receipts then Idle else Approaching(e, Classify))
    case Classify => Goto(if i.choice == 0 then Approaching(e, LateDecision) else Idle)
    case LateDecision =>
      Goto(Approaching(e, if e in s.decisions && !s.decisions[e].status.NotStarted?
        then LateEvidence(s.decisions[e]) else Reclassify))
    case LateEvidence(d) =>
      var a := d.claim.attempt;
      if a !in s.evidence then Goto(Approaching(e, Reclassify)) else
      var ev := s.evidence[a];
      if ev.claim.event != e || ev.claim.decision != d.claim.decision || ev.claim.token != d.claim.token
         || ev.binding != i.binding || !ev.cleaned || i.choice == 0 then Goto(Approaching(e, Reclassify))
      else if ev.owner != p || i.choice == 1 then Goto(Idle)
      else Goto(Late(d, ev.(confirmed := true, absent := false), LateWrite))
    case Reclassify =>
      Goto(if (e in s.decisions && !s.decisions[e].status.NotStarted?) || i.choice != 0
        then Idle else Approaching(e, LeaseRead(0)))
    case LeaseRead(tries) =>
      if s.lease.Some? && s.lease.value.owned && s.lease.value.gen == i.gen && i.now < s.lease.value.expires then
        Goto(if s.lease.value.event == e && s.lease.value.owner == p
          then Approaching(e, ClaimFence(s.lease.value)) else Idle)
      else Goto(Approaching(e, LeaseCas(tries, s.lease, i.now + 1 + i.choice, i.gen)))
    case LeaseCas(tries, seen, expires, g) =>
      if i.choice != 0 then Goto(Idle)
      else if s.lease != seen then Goto(if tries < 1 then Approaching(e, LeaseRead(tries + 1)) else Idle)
      else NewLease(e, Lease(s.nextId, e, g, if seen.Some? then seen.value.token + 1 else 1, p, expires, true))
    case ClaimFence(l) =>
      Goto(if FenceCurrent(s, l, i) && e in s.requests && s.requests[e].gen == i.gen
        then Approaching(e, ClaimCreate(l, i.gen)) else Releasing(l, false, None))
    case ClaimCreate(l, g) =>
      if e in s.decisions then Goto(Approaching(e, ClaimRead(l, g))) else NewClaim(FreshClaim(s, e, l, g), l, [])
    case ClaimRead(l, g) =>
      Goto(if e in s.decisions && s.decisions[e].status.NotStarted? && FenceCurrent(s, l, i)
        then Approaching(e, ClaimCas(l, g, s.decisions[e])) else Releasing(l, false, None))
    case ClaimCas(l, g, cur) =>
      if e in s.decisions && s.decisions[e] == cur && cur.status.NotStarted? && i.choice == 0
      then NewClaim(FreshClaim(s, e, l, g), l, cur.prior + [cur.claim])
      else Goto(Releasing(l, false, None))
  }

  /** A claim whose identifiers nothing else carries. */
  function FreshClaim(s: State, e: EventId, l: Lease, g: nat): Claim {
    Claim(e, g, s.nextId, l.id, l.token, s.nextId + 1, s.nextId + 2)
  }

  /** reconcileLateConfirmation: journal the confirmation, settle the decision, commit. */
  function StepLate(s: State, p: Pid, d: Decision, journal: Evidence, pc: LatePc, i: Input): Effect {
    var e := d.claim.event;
    var receipt := Receipt(journal.claim, journal.owner, journal.binding, 0, true, Unrecorded);
    match pc
    case LateWrite => PutJournal(Late(d, journal, LateReread), d.claim.attempt, journal)
    case LateReread =>
      Goto(
        if e !in s.decisions || s.decisions[e].claim.decision != d.claim.decision
           || s.decisions[e].claim.attempt != d.claim.attempt || s.decisions[e].status.NotStarted? then Idle
        else if s.decisions[e].status.Delivered? then Committing(receipt, false)
        else Late(d, journal, LateCas(s.decisions[e])))
    case LateCas(seen) =>
      if e in s.decisions && s.decisions[e] == seen && i.choice == 0
      then PutDecision(Committing(receipt, false), e, seen.(status := Delivered, late := true))
      else Goto(Idle)
  }

  /** deliverWake holding a claim: prepare, launch the helper, wait, and settle the decision. */
  function StepWorker(s: State, p: Pid, c: Claim, l: Lease, pc: WorkerPc, i: Input): Effect {
    match pc
    case Hold => Goto(Worker(c, l, if FenceCurrent(s, l, i) then Prepare else MarkRead(Uncertain, false)))
    case Prepare =>
      if c.attempt in s.evidence then Goto(Worker(c, l, MarkRead(Uncertain, false)))
      else PutJournal(Worker(c, l, Final), c.attempt, Evidence(c, p, i.binding, true, false, false, false))
    case Final =>
      Goto(Worker(c, l, if FenceCurrent(s, l, i) && i.choice == 0 then PreDelivery else MarkRead(Uncertain, false)))
    case PreDelivery => Goto(Worker(c, l, if i.choice == 0 then ResumeRead else MarkRead(NotStarted, false)))
    case ResumeRead =>
      Goto(Worker(c, l, if c.attempt in s.evidence && i.choice == 0
        then ResumeWrite(s.evidence[c.attempt]) else MarkRead(Uncertain, false)))
    case ResumeWrite(journal) =>
      if i.choice == 0 then PutJournal(Worker(c, l, Launch), c.attempt, journal)
      else Goto(Worker(c, l, MarkRead(Uncertain, false)))
    case Launch =>
      if i.choice != 0 then Goto(Worker(c, l, AfterRead(Unconfirmed, 2)))
      else if i.child in s.procs || i.child in s.dead then Stay
      else Fork(c, l, i.child)
    case Wait(helper) =>
      if helper !in s.procs then Goto(Worker(c, l, AfterRead(Unconfirmed, 2)))
      else if s.procs[helper].Exited?
      then Goto(Worker(c, l, AfterRead(if s.procs[helper].c == c then s.procs[helper].out else Unconfirmed, 2)))
      else Stay
    case AfterRead(out, rounds) =>
      Goto(Worker(c, l,
        if rounds == 0 then CheckReceipt(out)
        else if c.attempt in s.evidence && i.choice == 0 then AfterWrite(out, rounds - 1, s.evidence[c.attempt])
        else MarkRead(Uncertain, false)))
    case AfterWrite(out, rounds, journal) =>
      if i.choice == 0 then PutJournal(Worker(c, l, AfterRead(out, rounds)), c.attempt, journal)
      else Goto(Worker(c, l, MarkRead(Uncertain, false)))
    case CheckReceipt(out) =>
      Goto(Worker(c, l,
        if c.event in s.receipts && s.receipts[c.event].claim.delivery == c.delivery
           && s.receipts[c.event].claim.attempt == c.attempt && s.receipts[c.event].claim.decision == c.decision
        then MarkRead(Delivered, false) else Confirm(out)))
    case Confirm(out) =>
      Goto(Worker(c, l, if out.Confirmed? && i.choice == 0 && FenceCurrent(s, l, i)
        then MarkRead(Delivered, true) else MarkRead(Uncertain, false)))
    case MarkRead(to, commit) =>
      Goto(if c.event in s.decisions && s.decisions[c.event].claim == c && s.decisions[c.event].status.Claimed?
        then Worker(c, l, MarkCas(to, commit, s.decisions[c.event])) else Releasing(l, false, None))
    case MarkCas(to, commit, cur) =>
      if c.event in s.decisions && s.decisions[c.event] == cur && i.choice == 0
      then PutDecision(Releasing(l, false, if commit then Some(c) else None), c.event, cur.(status := to))
      else Goto(Releasing(l, false, None))
  }

  /** releaseActivationLease, then the receipt when one is still to be committed. */
  function StepRelease(s: State, p: Pid, held: Lease, seen: bool, pending: Option<Claim>, i: Input): Effect {
    var after := if pending.Some?
                 then Committing(Receipt(pending.value, p, i.binding, 0, false, Unrecorded), false) else Idle;
    if seen then
      if s.lease == Some(held) && i.choice == 0 then FreeLease(after, held.(owned := false))
      else Goto(after)
    else if s.lease.Some? && s.lease.value.id == held.id && s.lease.value.token == held.token
            && s.lease.value.gen == held.gen && s.lease.value.owned
    then Goto(Releasing(s.lease.value, true, pending))
    else Goto(after)
  }

  /** The ownership fence of commitDeliveredReceipt. */
  predicate CommitFence(s: State, r: Receipt, i: Input) {
    var e := r.claim.event;
    e in s.decisions && s.decisions[e].claim == r.claim
    && (s.decisions[e].status.Claimed? || s.decisions[e].status.Delivered?)
    && r.owner in s.procs && e in s.requests && i.choice == 0
  }

  /** commitDeliveredReceipt as deliverWake runs it. */
  function StepCommit(s: State, p: Pid, r: Receipt, checked: bool, i: Input): Effect {
    if !checked then Goto(if CommitFence(s, r, i) then Committing(r, true) else Idle)
    else if r.claim.event in s.receipts then Goto(Idle)
    else PutReceipt(Idle, r.claim.event, r.(deliveredAt := i.now))
  }

  /** The resume helper. A journal write may fail silently, except the one made just before spawning. */
  function StepHelper(s: State, p: Pid, c: Claim, pc: HelperPc, i: Input): Effect {
    var e, a := c.event, c.attempt;
    match pc
    case Read =>
      Goto(if a in s.evidence && i.choice == 0 then Helper(c, Begin(s.evidence[a])) else Exited(c, Unconfirmed))
    case Begin(copy) =>
      if i.choice > 1 then Goto(Exited(c, Unconfirmed)) else
      var x := copy.(absent := false, confirmed := false, requested := false);
      if i.choice == 0 then PutJournal(Helper(c, Announce(x)), a, x) else Goto(Helper(c, Announce(x)))
    case Announce(copy) =>
      var x := copy.(requested := true);
      PutJournal(Helper(c, Spawn(x)), a, x)
    case Spawn(copy) =>
      if i.choice == 0 then Start(c, copy)
      else Goto(Exited(c, Unconfirmed))
    case Observe(copy) =>
      if i.choice == 0 then Goto(Helper(c, Journal(copy.(confirmed := true))))
      else if i.choice == 1 then Goto(Helper(c, Clean(copy, Unconfirmed, false)))
      else PutJournal(Helper(c, pc), a, copy)
    case Journal(copy) =>
      if i.choice > 1 then Goto(Helper(c, Clean(copy.(confirmed := false), Unconfirmed, false)))
      else PutJournal(Helper(c, if i.choice == 0 then SeeDecision(copy) else Clean(copy, Confirmed, false)), a, copy)
    case SeeDecision(copy) =>
      Goto(Helper(c, if e in s.decisions && s.decisions[e].status.Claimed? && s.decisions[e].claim == copy.claim
        then SeeLease(copy) else Clean(copy, Unconfirmed, false)))
    case SeeLease(copy) =>
      Goto(Helper(c, if s.lease.Some? && s.lease.value.id == copy.claim.lease
             && s.lease.value.token == copy.claim.token && s.lease.value.owner == copy.owner
        then SeeFence(copy, s.lease.value) else Clean(copy, Unconfirmed, false)))
    case SeeFence(copy, l) =>
      if FenceCurrent(s, l, i) && i.choice == 0
      then PassFence(Helper(c, Check(copy, Receipt(copy.claim, copy.owner, copy.binding, 0, false, Pending))), Pass(c, l, i.now))
      else Goto(Helper(c, Clean(copy, Unconfirmed, false)))
    case Check(copy, r) =>
      Goto(Helper(c, if CommitFence(s, r, i) then Create(copy, r) else Clean(copy, Unconfirmed, false)))
    case Create(copy, r) =>
      if e !in s.receipts then PutReceipt(Helper(c, SeeMark(copy)), e, r.(deliveredAt := i.now))
      else Goto(Helper(c,
        if s.receipts[e].claim.delivery == r.claim.delivery && s.receipts[e].claim.attempt == r.claim.attempt
        then Clean(copy, Confirmed, true) else Clean(copy, Unconfirmed, false)))
    case SeeMark(copy) =>
      Goto(Helper(c, if e in s.decisions && s.decisions[e].claim == copy.claim && s.decisions[e].status.Claimed?
        then CasMark(copy, s.decisions[e]) else Clean(copy, Confirmed, true)))
    case CasMark(copy, cur) =>
      var after := Helper(c, Clean(copy, Confirmed, true));
      if e in s.decisions && s.decisions[e] == cur && i.choice == 0
      then PutDecision(after, e, cur.(status := Delivered)) else Goto(after)
    case Clean(copy, out, committed) =>
      var x := copy.(cleaned := i.choice == 0);
      var after := if committed then Helper(c, Update(x, out, 0)) else Exited(c, out);
      if i.choice < 2 then PutJournal(after, a, x) else Goto(after)
    case Update(copy, out, tries) =>
      Goto(if e in s.receipts && s.receipts[e].claim.delivery == copy.claim.delivery
             && s.receipts[e].claim.attempt == copy.claim.attempt
             && !s.receipts[e].cleanup.Proven? && !s.receipts[e].cleanup.Intervention?
        then Helper(c, CasUpdate(copy, out, tries, s.receipts[e])) else Exited(c, out))
    case CasUpdate(copy, out, tries, found) =>
      if i.choice != 0 then Goto(Exited(c, out))
      else if e in s.receipts && s.receipts[e] == found then
        PutReceipt(Exited(c, out), e, found.(cleanup := if copy.cleaned then Proven else Intervention))
      else Goto(if tries < 1 then Helper(c, Update(copy, out, tries + 1)) else Exited(c, out))
  }

  /** reconcileWakeTransportNotStarted and consumeWakeDelivery. */
  function StepOperator(s: State, p: Pid, pc: OperatorPc, i: Input): Effect {
    match pc
    case AbsentDecision(e) =>
      Goto(if e in s.decisions && s.decisions[e].status.Uncertain?
        then Operating(AbsentEvidence(s.decisions[e])) else Idle)
    case AbsentEvidence(d) =>
      var a := d.claim.attempt;
      Goto(if a in s.evidence && s.evidence[a].claim == d.claim && s.evidence[a].absent
           && !s.evidence[a].confirmed && !s.evidence[a].requested
        then Operating(AbsentReceipt(d)) else Idle)
    case AbsentReceipt(d) => Goto(if d.claim.event in s.receipts then Idle else Operating(AbsentCas(d)))
    case AbsentCas(d) =>
      var e := d.claim.event;
      if e in s.decisions && s.decisions[e] == d && i.choice == 0
      then PutDecision(Idle, e, d.(status := NotStarted))
      else Goto(Idle)
    case ConsumeReceipt(e, delivery) =>
      Goto(if e in s.receipts && e in s.requests && s.receipts[e].claim.delivery == delivery
           && s.receipts[e].claim.gen == i.gen && s.requests[e].gen == i.gen && s.receipts[e].binding == i.binding
        then Operating(ConsumeDecision(s.receipts[e])) else Idle)
    case ConsumeDecision(r) =>
      var e := r.claim.event;
      Goto(if e in s.decisions && s.decisions[e].status.Delivered? && s.decisions[e].claim == r.claim
        then Operating(ConsumeCreate(r)) else Idle)
    case ConsumeCreate(r) =>
      var e := r.claim.event;
      if e !in s.requests then Goto(Idle) else
      var record := Consumption(e, r.claim.delivery, r.claim.gen, r.binding, s.requests[e], FenceOf(r), i.now);
      if e !in s.consumptions then PutConsumption(Consumed(record, false), e, record)
      else if s.consumptions[e].(consumedAt := i.now) == record then Goto(Consumed(s.consumptions[e], true))
      else Goto(Idle)
  }

  function ProcStep(s: State, p: Pid, i: Input): Effect
    requires p in s.procs
  {
    match s.procs[p]
    case Approaching(e, pc) => StepApproach(s, p, e, pc, i)
    case Late(d, journal, pc) => StepLate(s, p, d, journal, pc, i)
    case Worker(c, l, pc) => StepWorker(s, p, c, l, pc, i)
    case Releasing(held, seen, pending) => StepRelease(s, p, held, seen, pending, i)
    case Committing(r, checked) => StepCommit(s, p, r, checked, i)
    case Helper(c, pc) => StepHelper(s, p, c, pc, i)
    case Operating(pc) => StepOperator(s, p, pc, i)
    case _ => Stay
  }

  /** A process may begin a call when it is new or has finished its previous call. */
  predicate Ready(s: State, p: Pid) {
    p !in s.dead && (p in s.procs ==> s.procs[p].Idle? || s.procs[p].Consumed?)
  }

  function Next(s: State, a: Action): State {
    match a
    case Step(p, i) => if p in s.procs && i.gen <= s.gen then Apply(s, p, ProcStep(s, p, i)) else s
    case Deliver(p, e) => if Ready(s, p) && e in s.requests then At(s, p, Approaching(e, Look)) else s
    case Reconcile(p, e) => if Ready(s, p) && e in s.requests then At(s, p, Operating(AbsentDecision(e))) else s
    case Consume(p, e, delivery) => if Ready(s, p) && e in s.requests then At(s, p, Operating(ConsumeReceipt(e, delivery))) else s
    case Enqueue(e, r) => if e in s.requests then s else s.(requests := s.requests[e := r])
    case Recover => s.(gen := s.gen + 1)
    case Crash(p) => if p in s.procs then s.(procs := s.procs - {p}, dead := s.dead + {p}) else s
  }

  ghost predicate Steps(s: State, t: State) { exists a :: t == Next(s, a) }

  ghost predicate Run(run: seq<State>) { IsRun(Steps, run) && Init(run[0]) }

  /** A run with the action of each step. */
  ghost predicate Acted(run: seq<State>, acts: seq<Action>) {
    |run| == |acts| + 1 && Init(run[0]) && forall k :: 0 <= k < |acts| ==> run[k + 1] == Next(run[k], acts[k])
  }

  /** wakeDeliveryConsumptionStatus: the wake is reported consumed. */
  predicate ReportedConsumed(s: State, e: EventId) {
    && e in s.receipts && e in s.consumptions && e in s.requests
    && var r := s.receipts[e];
       var c := s.consumptions[e];
       c.event == e && c.delivery == r.claim.delivery && c.gen == r.claim.gen && c.binding == r.binding
       && c.request == s.requests[e] && c.fence == FenceOf(r)
  }
}
