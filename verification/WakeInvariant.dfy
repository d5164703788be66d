/** The invariant behind at-most-once transport and the agreement of receipts with decisions,
    kept by every step of every process. */
module WakeInvariant {
  import opened Common
  import opened WakeProtocol

  predicate PreLaunch(at: WorkerPc) {
    at.Hold? || at.Prepare? || at.Final? || at.PreDelivery? || at.ResumeRead? || at.ResumeWrite? || at.Launch?
  }

  predicate PreSpawn(step: HelperPc) { step.Read? || step.Begin? || step.Announce? || step.Spawn? }

  /** A process that may still start the native transport of its claim. */
  predicate Actor(pc: Proc) { (pc.Worker? && PreLaunch(pc.at)) || (pc.Helper? && PreSpawn(pc.step)) }

  ghost predicate NoActor(s: State, id: Id) {
    forall p :: p in s.procs && Actor(s.procs[p]) ==> s.procs[p].c.decision != id
  }

  ghost predicate Numbered(s: State) {
    && (forall c :: c in s.made ==> c.attempt == c.decision + 1 && c.delivery == c.decision + 2 && c.delivery < s.nextId)
    && (forall c, d :: c in s.made && d in s.made && c.decision == d.decision ==> c == d)
    && (forall e :: e in s.decisions ==> s.decisions[e].claim in s.made && s.decisions[e].claim.event == e)
    && (forall a :: a in s.evidence ==> s.evidence[a].claim in s.made && s.evidence[a].claim.attempt == a)
    && (forall p :: p in s.procs && (s.procs[p].Worker? || s.procs[p].Helper?) ==> s.procs[p].c in s.made)
  }

  /** One worker and one helper at most act for a claim, and while the helper runs the worker waits for it. */
  ghost predicate Exclusive(s: State) {
    && (forall p, q :: p in s.procs && q in s.procs && s.procs[p].Worker? && s.procs[q].Worker? && p != q
          ==> s.procs[p].c != s.procs[q].c)
    && (forall p, q :: p in s.procs && q in s.procs && s.procs[p].Helper? && s.procs[q].Helper? && p != q
          ==> s.procs[p].c != s.procs[q].c)
    && (forall p, q :: p in s.procs && q in s.procs && s.procs[p].Worker? && s.procs[q].Helper? && s.procs[p].c == s.procs[q].c
          ==> s.procs[p].at == Wait(q))
  }

  ghost predicate ActorOk(s: State, c: Claim) {
    && c.event in s.decisions && s.decisions[c.event].claim == c && s.decisions[c.event].status.Claimed?
    && forall x :: x in s.starts ==> x.event != c.event
  }

  ghost predicate Actors(s: State) {
    forall p :: p in s.procs && Actor(s.procs[p]) ==> ActorOk(s, s.procs[p].c)
  }

  ghost predicate StartOk(s: State, c: Claim) {
    && c in s.made
    && c.event in s.decisions && s.decisions[c.event].claim == c && !s.decisions[c.event].status.NotStarted?
    && c.attempt in s.evidence && s.evidence[c.attempt].requested
  }

  ghost predicate Started(s: State) {
    && (forall c :: c in s.starts ==> StartOk(s, c))
    && (forall i, j :: 0 <= i < j < |s.starts| ==> s.starts[i].event != s.starts[j].event)
  }

  /** A journal that may be written back: it cannot hide a start, and claims cleanup only after one. */
  ghost predicate CopyOk(s: State, copy: Evidence) {
    (copy.claim in s.starts ==> copy.requested) && (copy.cleaned ==> copy.claim in s.starts)
  }

  ghost predicate Records(s: State) {
    && (forall a :: a in s.evidence ==> CopyOk(s, s.evidence[a]))
    && (forall e :: e in s.receipts ==> s.receipts[e].claim.event == e && s.receipts[e].claim in s.starts)
    && (forall e :: e in s.consumptions ==> ReportedConsumed(s, e))
  }

  // What the local variables of a process tell about the durable files.

  ghost predicate ApproachOk(e: EventId, pc: ApproachPc) {
    (pc.LateEvidence? ==> pc.d.claim.event == e)
  }

  ghost predicate LateOk(s: State, d: Decision, journal: Evidence, pc: LatePc) {
    && journal.claim in s.starts && journal.requested && journal.claim.attempt == d.claim.attempt
    && journal.claim.event == d.claim.event
    && (pc.LateCas? ==> !pc.seen.status.NotStarted? && pc.seen.claim.event == d.claim.event)
  }

  predicate Reports(pc: WorkerPc) { pc.AfterRead? || pc.AfterWrite? || pc.CheckReceipt? || pc.Confirm? }

  ghost predicate WorkerOk(s: State, c: Claim, pc: WorkerPc) {
    && (pc.ResumeWrite? || pc.AfterWrite? ==> pc.journal.claim == c && CopyOk(s, pc.journal))
    && (Reports(pc) && pc.out.Confirmed? ==> c in s.starts)
    && (pc.MarkRead? || pc.MarkCas? ==> (pc.commit ==> c in s.starts) && (pc.to.NotStarted? ==> c !in s.starts))
    && (pc.MarkCas? ==> pc.cur.claim == c)
  }

  ghost predicate HelperOk(s: State, c: Claim, pc: HelperPc) {
    && (!pc.Read? ==> pc.copy.claim == c && CopyOk(s, pc.copy))
    && (pc.Spawn? ==> pc.copy.requested && c.attempt in s.evidence && s.evidence[c.attempt].requested)
    && (!PreSpawn(pc) ==> c in s.starts && pc.copy.requested)
    && (pc.Check? || pc.Create? ==> pc.r.claim == c)
  }

  ghost predicate OperatorOk(s: State, pc: OperatorPc) {
    && (pc.AbsentEvidence? || pc.AbsentReceipt? || pc.AbsentCas? ==> pc.d.claim in s.made && NoActor(s, pc.d.claim.decision))
    && (pc.AbsentReceipt? || pc.AbsentCas? ==> pc.d.claim !in s.starts)
    && (pc.ConsumeDecision? || pc.ConsumeCreate? ==>
          pc.r.claim.event in s.receipts && FenceOf(s.receipts[pc.r.claim.event]) == FenceOf(pc.r))
  }

  ghost predicate ProcOk(s: State, pc: Proc) {
    && (pc.Approaching? ==> ApproachOk(pc.e, pc.approach))
    && (pc.Late? ==> LateOk(s, pc.d, pc.journal, pc.late))
    && (pc.Worker? ==> WorkerOk(s, pc.c, pc.at))
    && (pc.Helper? ==> HelperOk(s, pc.c, pc.step))
    && (pc.Exited? && pc.out.Confirmed? ==> pc.c in s.starts)
    && (pc.Releasing? && pc.pending.Some? ==> pc.pending.value in s.starts)
    && (pc.Committing? ==> pc.r.claim in s.starts)
    && (pc.Operating? ==> OperatorOk(s, pc.operator))
    && (pc.Consumed? ==> pc.record.event in s.consumptions && s.consumptions[pc.record.event] == pc.record)
  }

  ghost predicate Locals(s: State) { forall p :: p in s.procs ==> ProcOk(s, s.procs[p]) }

  ghost predicate Inv(s: State) {
    Numbered(s) && Exclusive(s) && Actors(s) && Started(s) && Records(s) && Locals(s)
  }

  lemma InitInv(s: State)
    requires Init(s)
    ensures Inv(s)
  {
  }

  // ----- a process moves on without a write

  /** The process gains no claim, and leaves a wait only when its helper has ended. */
  predicate Yields(s: State, p: Pid, pc: Proc)
    requires p in s.procs
  {
    var was := s.procs[p];
    && (pc.Worker? ==> was.Worker? && was.c == pc.c && (pc.at.Wait? ==> was.at == pc.at))
    && (pc.Helper? ==> was.Helper? && was.c == pc.c)
    && (Actor(pc) ==> Actor(was))
    && (was.Worker? && was.at.Wait? && was.at.helper in s.procs ==> !s.procs[was.at.helper].Helper?)
  }

  lemma MoveNumbered(s: State, p: Pid, pc: Proc)
    requires Numbered(s) && p in s.procs && Yields(s, p, pc)
    ensures Numbered(At(s, p, pc))
  {
  }

  lemma MoveExclusive(s: State, p: Pid, pc: Proc)
    requires Exclusive(s) && p in s.procs && Yields(s, p, pc)
    ensures Exclusive(At(s, p, pc))
  {
  }

  lemma MoveActors(s: State, p: Pid, pc: Proc)
    requires Actors(s) && Started(s) && Records(s) && p in s.procs && Yields(s, p, pc)
    ensures Actors(At(s, p, pc)) && Started(At(s, p, pc)) && Records(At(s, p, pc))
  {
  }

  lemma MoveLocals(s: State, p: Pid, pc: Proc)
    requires Locals(s) && p in s.procs && ProcOk(s, pc) && Yields(s, p, pc)
    ensures Locals(At(s, p, pc))
  {
    var t := At(s, p, pc);
    forall id | NoActor(s, id) ensures NoActor(t, id) {}
    forall q | q in t.procs ensures ProcOk(t, t.procs[q]) {
      assert ProcOk(s, t.procs[q]);
    }
  }

  lemma Move(s: State, p: Pid, pc: Proc)
    requires Inv(s) && p in s.procs && Yields(s, p, pc) && ProcOk(s, pc)
    ensures Inv(At(s, p, pc))
  {
    hide Numbered, Exclusive, Actors, Started, Records, Locals;
    MoveNumbered(s, p, pc);
    MoveExclusive(s, p, pc);
    MoveActors(s, p, pc);
    MoveLocals(s, p, pc);
  }

  // ----- what each part of the invariant depends on

  lemma FrameNumbered(s: State, t: State)
    requires Numbered(s) && s.nextId <= t.nextId
    requires t.made == s.made && t.decisions == s.decisions && t.evidence == s.evidence && t.procs == s.procs
    ensures Numbered(t)
  {
  }

  lemma FrameExclusive(s: State, t: State)
    requires Exclusive(s) && t.procs == s.procs
    ensures Exclusive(t)
  {
  }

  lemma FrameActors(s: State, t: State)
    requires Actors(s) && t.decisions == s.decisions && t.starts == s.starts && t.procs == s.procs
    ensures Actors(t)
  {
    forall p | p in t.procs && Actor(t.procs[p]) ensures ActorOk(t, t.procs[p].c) { assert ActorOk(s, s.procs[p].c); }
  }

  lemma FrameStarted(s: State, t: State)
    requires Started(s) && t.made == s.made && t.decisions == s.decisions && t.starts == s.starts
    requires t.evidence == s.evidence
    ensures Started(t)
  {
    forall c | c in t.starts ensures StartOk(t, c) { assert StartOk(s, c); }
  }

  lemma FrameRecords(s: State, t: State)
    requires Records(s) && t.starts == s.starts && t.evidence == s.evidence && t.receipts == s.receipts
    requires t.consumptions == s.consumptions
    requires forall e :: e in s.requests ==> e in t.requests && t.requests[e] == s.requests[e]
    ensures Records(t)
  {
    forall a | a in t.evidence ensures CopyOk(t, t.evidence[a]) { assert CopyOk(s, s.evidence[a]); }
    forall e | e in t.consumptions ensures ReportedConsumed(t, e) { assert ReportedConsumed(s, e); }
  }

  /** Local knowledge survives a write that starts nothing, keeps the fence of every receipt,
      keeps consumptions, and clears no request mark under a helper about to spawn. */
  lemma FrameLocals(s: State, t: State)
    requires Locals(s) && t.procs == s.procs && t.starts == s.starts && t.made == s.made
    requires forall e :: e in s.receipts ==> e in t.receipts && FenceOf(t.receipts[e]) == FenceOf(s.receipts[e])
    requires forall e :: e in s.consumptions ==> e in t.consumptions && t.consumptions[e] == s.consumptions[e]
    requires forall p :: p in s.procs && s.procs[p].Helper? && s.procs[p].step.Spawn? ==>
               var a := s.procs[p].c.attempt;
               a in s.evidence && s.evidence[a].requested ==> a in t.evidence && t.evidence[a].requested
    ensures Locals(t)
  {
    forall id | NoActor(s, id) ensures NoActor(t, id) {}
    forall p | p in t.procs ensures ProcOk(t, t.procs[p]) {
      assert ProcOk(s, s.procs[p]);
    }
  }

  // ----- one durable write

  lemma JournalParts(s: State, a: Id, copy: Evidence)
    requires Numbered(s) && Started(s) && Records(s)
    requires copy.claim in s.made && copy.claim.attempt == a && CopyOk(s, copy)
    ensures var t := s.(evidence := s.evidence[a := copy]); Numbered(t) && Started(t) && Records(t)
  {
    var t := s.(evidence := s.evidence[a := copy]);
    forall c | c in s.starts ensures StartOk(t, c) {
      assert StartOk(s, c);
      assert c.attempt == a ==> c.decision == copy.claim.decision;
    }
    forall x | x in t.evidence ensures CopyOk(t, t.evidence[x]) { assert x != a ==> CopyOk(s, s.evidence[x]); }
    forall e | e in t.consumptions ensures ReportedConsumed(t, e) { assert ReportedConsumed(s, e); }
  }

  lemma JournalWrite(s: State, a: Id, copy: Evidence)
    requires Inv(s) && copy.claim in s.made && copy.claim.attempt == a && CopyOk(s, copy)
    requires forall p :: p in s.procs && s.procs[p].Helper? && s.procs[p].step.Spawn? && s.procs[p].c == copy.claim
               ==> copy.requested
    ensures Inv(s.(evidence := s.evidence[a := copy]))
  {
    hide Numbered, Exclusive, Actors, Started, Records, Locals;
    var t := s.(evidence := s.evidence[a := copy]);
    FrameExclusive(s, t);
    JournalParts(s, a, copy);
    FrameActors(s, t);
    SpawnersKeep(s, a, copy);
    FrameLocals(s, t);
  }

  lemma SpawnersKeep(s: State, a: Id, copy: Evidence)
    requires Numbered(s) && copy.claim in s.made && copy.claim.attempt == a
    requires forall p :: p in s.procs && s.procs[p].Helper? && s.procs[p].step.Spawn? && s.procs[p].c == copy.claim
               ==> copy.requested
    ensures forall p :: p in s.procs && s.procs[p].Helper? && s.procs[p].step.Spawn? && s.procs[p].c.attempt == a
              ==> copy.requested
  {
    forall p | p in s.procs && s.procs[p].Helper? && s.procs[p].step.Spawn? && s.procs[p].c.attempt == a
      ensures copy.requested
    {
      assert s.procs[p].c.decision == copy.claim.decision;
    }
  }

  lemma DecisionParts(s: State, e: EventId, d: Decision)
    requires Numbered(s) && Started(s) && Actors(s)
    requires e in s.decisions && d.claim == s.decisions[e].claim
    requires forall p :: p in s.procs && Actor(s.procs[p]) ==> s.procs[p].c.event != e
    requires d.status.NotStarted? ==> d.claim !in s.starts
    ensures var t := s.(decisions := s.decisions[e := d]); Numbered(t) && Started(t) && Actors(t)
  {
    var t := s.(decisions := s.decisions[e := d]);
    forall c | c in s.starts ensures StartOk(t, c) { assert StartOk(s, c); }
    forall p | p in t.procs && Actor(t.procs[p]) ensures ActorOk(t, t.procs[p].c) {
      assert ActorOk(s, s.procs[p].c);
    }
  }

  lemma DecisionWrite(s: State, e: EventId, d: Decision)
    requires Inv(s) && e in s.decisions && d.claim == s.decisions[e].claim
    requires forall p :: p in s.procs && Actor(s.procs[p]) ==> s.procs[p].c.event != e
    requires d.status.NotStarted? ==> d.claim !in s.starts
    ensures Inv(s.(decisions := s.decisions[e := d]))
  {
    hide Numbered, Exclusive, Actors, Started, Records, Locals;
    var t := s.(decisions := s.decisions[e := d]);
    FrameExclusive(s, t);
    DecisionParts(s, e, d);
    FrameRecords(s, t);
    FrameLocals(s, t);
  }

  lemma ReceiptParts(s: State, e: EventId, r: Receipt)
    requires Records(s) && r.claim.event == e && r.claim in s.starts
    requires e in s.receipts ==> FenceOf(r) == FenceOf(s.receipts[e])
    ensures Records(s.(receipts := s.receipts[e := r]))
  {
    var t := s.(receipts := s.receipts[e := r]);
    forall a | a in t.evidence ensures CopyOk(t, t.evidence[a]) { assert CopyOk(s, s.evidence[a]); }
    forall x | x in t.consumptions ensures ReportedConsumed(t, x) { assert ReportedConsumed(s, x); }
  }

  lemma ReceiptWrite(s: State, e: EventId, r: Receipt)
    requires Inv(s) && r.claim.event == e && r.claim in s.starts
    requires e in s.receipts ==> FenceOf(r) == FenceOf(s.receipts[e])
    ensures Inv(s.(receipts := s.receipts[e := r]))
  {
    hide Numbered, Exclusive, Actors, Started, Records, Locals;
    var t := s.(receipts := s.receipts[e := r]);
    FrameExclusive(s, t);
    FrameNumbered(s, t);
    FrameActors(s, t);
    FrameStarted(s, t);
    ReceiptParts(s, e, r);
    FrameLocals(s, t);
  }

  lemma ConsumptionParts(s: State, e: EventId, c: Consumption)
    requires Records(s) && e !in s.consumptions
    requires ReportedConsumed(s.(consumptions := s.consumptions[e := c]), e)
    ensures Records(s.(consumptions := s.consumptions[e := c]))
  {
    var t := s.(consumptions := s.consumptions[e := c]);
    forall a | a in t.evidence ensures CopyOk(t, t.evidence[a]) { assert CopyOk(s, s.evidence[a]); }
    forall x | x in t.consumptions ensures ReportedConsumed(t, x) { assert x != e ==> ReportedConsumed(s, x); }
  }

  lemma ConsumptionWrite(s: State, e: EventId, c: Consumption)
    requires Inv(s) && e !in s.consumptions
    requires ReportedConsumed(s.(consumptions := s.consumptions[e := c]), e)
    ensures Inv(s.(consumptions := s.consumptions[e := c]))
  {
    hide Numbered, Exclusive, Actors, Started, Records, Locals;
    var t := s.(consumptions := s.consumptions[e := c]);
    FrameExclusive(s, t);
    FrameNumbered(s, t);
    FrameActors(s, t);
    FrameStarted(s, t);
    ConsumptionParts(s, e, c);
    FrameLocals(s, t);
  }

  /** The supervisor, the requests, the lease and the history of leases and checks play no part. */
  lemma Irrelevant(s: State, t: State)
    requires Inv(s) && s.nextId <= t.nextId
    requires t == s.(gen := t.gen, requests := t.requests, lease := t.lease, nextId := t.nextId, leases := t.leases,
                     checks := t.checks)
    requires forall e :: e in s.requests ==> e in t.requests && t.requests[e] == s.requests[e]
    ensures Inv(t)
  {
    hide Numbered, Exclusive, Actors, Started, Records, Locals;
    FrameExclusive(s, t);
    FrameNumbered(s, t);
    FrameActors(s, t);
    FrameStarted(s, t);
    FrameRecords(s, t);
    FrameLocals(s, t);
  }

  // ----- the steps that change who may start a transport

  /** Knowledge of the processes other than those in `moved`, when no finished claim gains an actor. */
  lemma KeepsLocals(s: State, t: State, moved: set<Pid>)
    requires Locals(s) && s.made <= t.made && t.receipts == s.receipts && t.consumptions == s.consumptions
    requires t.evidence == s.evidence && t.starts == s.starts
    requires forall q :: q in t.procs && q !in moved ==> q in s.procs && t.procs[q] == s.procs[q]
    requires forall q :: q in t.procs && q in moved ==> ProcOk(t, t.procs[q])
    requires forall c :: c in s.made && NoActor(s, c.decision) ==> NoActor(t, c.decision)
    ensures Locals(t)
  {
    forall q | q in t.procs ensures ProcOk(t, t.procs[q]) {
      if q !in moved { assert ProcOk(s, s.procs[q]); }
    }
  }

  lemma ClaimNumbered(s: State, p: Pid, c: Claim, l: Lease, prior: seq<Claim>)
    requires c == FreshClaim(s, c.event, l, c.gen)
    requires Numbered(s) && Exclusive(s) && p in s.procs && s.procs[p].Approaching?
    ensures var t := AfterClaim(s, p, c, l, prior); Numbered(t) && Exclusive(t)
  {
  }

  lemma ClaimActors(s: State, p: Pid, c: Claim, l: Lease, prior: seq<Claim>)
    requires Actors(s) && Started(s)
    requires c.event in s.decisions ==> s.decisions[c.event].status.NotStarted?
    ensures var t := AfterClaim(s, p, c, l, prior); Actors(t) && Started(t)
  {
    var t := AfterClaim(s, p, c, l, prior);
    forall x | x in s.starts ensures StartOk(t, x) && x.event != c.event { assert StartOk(s, x); }
    forall q | q in t.procs && Actor(t.procs[q]) ensures ActorOk(t, t.procs[q].c) {
      if q != p { assert ActorOk(s, s.procs[q].c); }
    }
  }

  lemma ClaimLocals(s: State, p: Pid, c: Claim, l: Lease, prior: seq<Claim>)
    requires c == FreshClaim(s, c.event, l, c.gen)
    requires Numbered(s) && Locals(s)
    ensures Locals(AfterClaim(s, p, c, l, prior))
  {
    var t := AfterClaim(s, p, c, l, prior);
    assert ProcOk(t, t.procs[p]);
    forall d | d in s.made && NoActor(s, d.decision) ensures NoActor(t, d.decision) {
      assert t.procs[p].c.decision == s.nextId;
    }
    KeepsLocals(s, t, {p});
  }

  lemma ClaimMade(s: State, p: Pid, c: Claim, l: Lease, prior: seq<Claim>)
    requires c == FreshClaim(s, c.event, l, c.gen)
    requires Inv(s) && p in s.procs && s.procs[p].Approaching?
    requires c.event in s.decisions ==> s.decisions[c.event].status.NotStarted?
    ensures Inv(AfterClaim(s, p, c, l, prior))
  {
    hide Numbered, Exclusive, Actors, Started, Records, Locals;
    ClaimNumbered(s, p, c, l, prior);
    ClaimActors(s, p, c, l, prior);
    FrameRecords(s, AfterClaim(s, p, c, l, prior));
    ClaimLocals(s, p, c, l, prior);
  }

  lemma LaunchNumbered(s: State, p: Pid, c: Claim, l: Lease, h: Pid)
    requires Numbered(s) && p in s.procs && s.procs[p] == Worker(c, l, Launch)
    ensures Numbered(AfterFork(s, p, c, l, h))
  {
    assert c in s.made;
  }

  lemma LaunchExclusive(s: State, p: Pid, c: Claim, l: Lease, h: Pid)
    requires Exclusive(s) && p in s.procs && s.procs[p] == Worker(c, l, Launch) && h !in s.procs
    ensures Exclusive(AfterFork(s, p, c, l, h))
  {
    assert forall q :: q in s.procs && s.procs[q].Helper? ==> s.procs[q].c != c;
  }

  lemma LaunchActors(s: State, p: Pid, c: Claim, l: Lease, h: Pid)
    requires Actors(s) && p in s.procs && s.procs[p] == Worker(c, l, Launch) && h !in s.procs
    ensures Actors(AfterFork(s, p, c, l, h))
  {
    var t := AfterFork(s, p, c, l, h);
    assert Actor(s.procs[p]) && ActorOk(s, c);
    forall q | q in t.procs && Actor(t.procs[q]) ensures ActorOk(t, t.procs[q].c) {
      if q != p && q != h { assert ActorOk(s, s.procs[q].c); }
    }
  }

  lemma LaunchLocals(s: State, p: Pid, c: Claim, l: Lease, h: Pid)
    requires Locals(s) && p in s.procs && s.procs[p] == Worker(c, l, Launch) && h !in s.procs
    ensures Locals(AfterFork(s, p, c, l, h))
  {
    var t := AfterFork(s, p, c, l, h);
    assert Actor(s.procs[p]);
    forall d | d in s.made && NoActor(s, d.decision) ensures NoActor(t, d.decision) {}
    assert ProcOk(t, t.procs[p]) && ProcOk(t, t.procs[h]);
    KeepsLocals(s, t, {p, h});
  }

  lemma LaunchHelper(s: State, p: Pid, c: Claim, l: Lease, h: Pid)
    requires Inv(s) && p in s.procs && s.procs[p] == Worker(c, l, Launch) && h !in s.procs
    ensures Inv(AfterFork(s, p, c, l, h))
  {
    hide Numbered, Exclusive, Actors, Started, Records, Locals;
    LaunchNumbered(s, p, c, l, h);
    LaunchExclusive(s, p, c, l, h);
    LaunchActors(s, p, c, l, h);
    FrameStarted(s, AfterFork(s, p, c, l, h));
    FrameRecords(s, AfterFork(s, p, c, l, h));
    LaunchLocals(s, p, c, l, h);
  }

  lemma StartNumbered(s: State, p: Pid, c: Claim, copy: Evidence)
    requires Numbered(s) && Exclusive(s) && p in s.procs && s.procs[p] == Helper(c, Spawn(copy))
    ensures Numbered(AfterStart(s, p, c, copy)) && Exclusive(AfterStart(s, p, c, copy))
  {
  }

  lemma StartActors(s: State, p: Pid, c: Claim, copy: Evidence)
    requires Exclusive(s) && Actors(s) && p in s.procs && s.procs[p] == Helper(c, Spawn(copy))
    ensures Actors(AfterStart(s, p, c, copy))
  {
    var t := AfterStart(s, p, c, copy);
    assert Actor(s.procs[p]) && ActorOk(s, c);
    forall q | q in t.procs && Actor(t.procs[q]) ensures ActorOk(t, t.procs[q].c) {
      assert q != p && ActorOk(s, s.procs[q].c);
    }
  }

  lemma StartStarted(s: State, p: Pid, c: Claim, copy: Evidence)
    requires Actors(s) && Started(s) && c in s.made
    requires p in s.procs && s.procs[p] == Helper(c, Spawn(copy)) && HelperOk(s, c, Spawn(copy))
    ensures Started(AfterStart(s, p, c, copy))
  {
    var t := AfterStart(s, p, c, copy);
    assert Actor(s.procs[p]) && ActorOk(s, c);
    forall x | x in t.starts ensures StartOk(t, x) { assert x in s.starts ==> StartOk(s, x); }
  }

  lemma StartRecords(s: State, p: Pid, c: Claim, copy: Evidence)
    requires Numbered(s) && Records(s) && c in s.made
    requires p in s.procs && s.procs[p] == Helper(c, Spawn(copy)) && HelperOk(s, c, Spawn(copy))
    ensures Records(AfterStart(s, p, c, copy))
  {
    var t := AfterStart(s, p, c, copy);
    forall a | a in t.evidence ensures CopyOk(t, t.evidence[a]) {
      assert CopyOk(s, s.evidence[a]);
      assert s.evidence[a].claim == c ==> a == c.attempt;
    }
    forall x | x in t.consumptions ensures ReportedConsumed(t, x) { assert ReportedConsumed(s, x); }
  }

  lemma StartLocals(s: State, p: Pid, c: Claim, copy: Evidence)
    requires Exclusive(s) && Actors(s) && Locals(s) && p in s.procs && s.procs[p] == Helper(c, Spawn(copy))
    ensures Locals(AfterStart(s, p, c, copy))
  {
    var t := AfterStart(s, p, c, copy);
    assert ProcOk(s, s.procs[p]) && Actor(s.procs[p]) && ActorOk(s, c);
    forall id | NoActor(s, id) ensures NoActor(t, id) && id != c.decision { assert Actor(s.procs[p]); }
    forall q | q in t.procs ensures ProcOk(t, t.procs[q]) {
      if q != p {
        assert ProcOk(s, s.procs[q]);
        assert s.procs[q].Worker? && s.procs[q].c == c ==> s.procs[q].at.Wait?;
      }
    }
  }

  /** The native transport starts: nothing had started for the event, and nothing else may. */
  lemma StartTransport(s: State, p: Pid, c: Claim, copy: Evidence)
    requires Inv(s) && p in s.procs && s.procs[p] == Helper(c, Spawn(copy)) && c in s.made && ProcOk(s, s.procs[p])
    ensures Inv(AfterStart(s, p, c, copy))
  {
    hide Numbered, Exclusive, Actors, Started, Records, Locals;
    StartNumbered(s, p, c, copy);
    StartActors(s, p, c, copy);
    StartStarted(s, p, c, copy);
    StartRecords(s, p, c, copy);
    StartLocals(s, p, c, copy);
  }

  // ----- processes come and go

  lemma FewerProcs(s: State, t: State, p: Pid)
    requires Numbered(s) && Exclusive(s) && Actors(s) && Started(s) && Records(s)
    requires t == s.(procs := t.procs, dead := t.dead)
    requires forall q :: q in t.procs && q != p ==> q in s.procs && t.procs[q] == s.procs[q]
    requires p in t.procs ==> !t.procs[p].Worker? && !t.procs[p].Helper?
    ensures Numbered(t) && Exclusive(t) && Actors(t) && Started(t) && Records(t)
  {
    forall x | x in t.starts ensures StartOk(t, x) { assert StartOk(s, x); }
    forall x | x in t.consumptions ensures ReportedConsumed(t, x) { assert ReportedConsumed(s, x); }
    forall q | q in t.procs && Actor(t.procs[q]) ensures ActorOk(t, t.procs[q].c) { assert ActorOk(s, s.procs[q].c); }
  }

  /** A new process begins a call that knows nothing yet, or a process dies. */
  lemma ComeOrGo(s: State, t: State, p: Pid)
    requires Inv(s) && t == s.(procs := t.procs, dead := t.dead)
    requires forall q :: q in t.procs && q != p ==> q in s.procs && t.procs[q] == s.procs[q]
    requires p in t.procs ==> !t.procs[p].Worker? && !t.procs[p].Helper? && ProcOk(t, t.procs[p])
    ensures Inv(t)
  {
    FewerProcs(s, t, p);
    forall c | c in s.made && NoActor(s, c.decision) ensures NoActor(t, c.decision) {}
    KeepsLocals(s, t, {p});
  }

  // ----- one step: a durable effect together with a move

  ghost predicate EffectOk(s: State, p: Pid, x: Effect)
    requires p in s.procs
  {
    match x
    case Stay => true
    case Goto(next) => Yields(s, p, next) && ProcOk(s, next)
    case PutJournal(next, a, journal) =>
      && Yields(s, p, next) && ProcOk(s.(evidence := s.evidence[a := journal]), next)
      && journal.claim in s.made && journal.claim.attempt == a && CopyOk(s, journal)
      && (forall q :: q in s.procs && s.procs[q].Helper? && s.procs[q].step.Spawn? && s.procs[q].c == journal.claim
            ==> journal.requested)
    case PutDecision(next, e, decision) =>
      && Yields(s, p, next) && ProcOk(s, next)
      && e in s.decisions && decision.claim == s.decisions[e].claim
      && (forall q :: q in s.procs && Actor(s.procs[q]) ==> s.procs[q].c.event != e)
      && (decision.status.NotStarted? ==> decision.claim !in s.starts)
    case PutReceipt(next, e, receipt) =>
      && Yields(s, p, next) && ProcOk(s, next)
      && receipt.claim.event == e && receipt.claim in s.starts
      && (e in s.receipts ==> FenceOf(receipt) == FenceOf(s.receipts[e]))
    case PutConsumption(next, e, consumption) =>
      && Yields(s, p, next) && ProcOk(s.(consumptions := s.consumptions[e := consumption]), next)
      && e !in s.consumptions && ReportedConsumed(s.(consumptions := s.consumptions[e := consumption]), e)
    case FreeLease(next, lease) => Yields(s, p, next) && ProcOk(s, next)
    case NewLease(e, lease) => s.procs[p].Approaching?
    case NewClaim(c, l, prior) =>
      && s.procs[p].Approaching? && c == FreshClaim(s, c.event, l, c.gen)
      && (c.event in s.decisions ==> s.decisions[c.event].status.NotStarted?)
    case Fork(c, l, helper) => s.procs[p] == Worker(c, l, Launch) && helper !in s.procs
    case Start(c, journal) => s.procs[p] == Helper(c, Spawn(journal)) && c in s.made && ProcOk(s, s.procs[p])
    case PassFence(next, _) => Yields(s, p, next) && ProcOk(s, next)
  }

  /** The write of an effect alone, before the process moves on. */
  function Write(s: State, x: Effect): State {
    match x
    case PutJournal(_, a, journal) => s.(evidence := s.evidence[a := journal])
    case PutDecision(_, e, decision) => s.(decisions := s.decisions[e := decision])
    case PutReceipt(_, e, receipt) => s.(receipts := s.receipts[e := receipt])
    case PutConsumption(_, e, consumption) => s.(consumptions := s.consumptions[e := consumption])
    case FreeLease(_, lease) => s.(lease := Some(lease))
    case NewLease(e, lease) => s.(lease := Some(lease), nextId := s.nextId + 1, leases := s.leases + [lease])
    case PassFence(_, pass) => s.(checks := s.checks + {pass})
    case _ => s
  }

  lemma WriteKeeps(s: State, p: Pid, x: Effect)
    requires Inv(s) && p in s.procs && EffectOk(s, p, x)
    ensures Inv(Write(s, x))
  {
    hide Inv, ProcOk, Yields;
    match x
    case PutJournal(_, a, journal) => JournalWrite(s, a, journal);
    case PutDecision(_, e, decision) => DecisionWrite(s, e, decision);
    case PutReceipt(_, e, receipt) => ReceiptWrite(s, e, receipt);
    case PutConsumption(_, e, consumption) => ConsumptionWrite(s, e, consumption);
    case _ => Irrelevant(s, Write(s, x));
  }

  lemma ApplyKeeps(s: State, p: Pid, x: Effect)
    requires Inv(s) && p in s.procs && EffectOk(s, p, x)
    ensures Inv(Apply(s, p, x))
  {
    hide Inv;
    if x.NewClaim? { ClaimMade(s, p, x.claim, x.l, x.prior); }
    else if x.Fork? { LaunchHelper(s, p, x.claim, x.l, x.helper); }
    else if x.Start? { StartTransport(s, p, x.claim, x.journal); }
    else if !x.Stay? {
      WriteKeeps(s, p, x);
      MoveAfterWrite(s, p, x);
    }
  }

  lemma MoveAfterWrite(s: State, p: Pid, x: Effect)
    requires p in s.procs && EffectOk(s, p, x) && Inv(Write(s, x))
    requires !x.NewClaim? && !x.Fork? && !x.Start? && !x.Stay?
    ensures Inv(Apply(s, p, x))
  {
    hide Inv, FreshClaim;
    Move(Write(s, x), p, if x.NewLease? then Approaching(x.e, ClaimFence(x.lease)) else x.next);
  }
}
