/** The confirmed path of a receipt: its helper commits only past a check that its own lease is current
    and unexpired, after the start, while no receipt exists and nobody else brings one. */
module WakeReceipts {
  import opened Common
  import opened WakeProtocol
  import opened WakeInvariant
  import opened WakeSteps
  import opened WakeTheorems

  // ----- while a started helper has not committed, its event is undelivered

  /** The helper has started its transport and may still commit the confirmed receipt. */
  predicate Confirming(pc: HelperPc) {
    pc.Observe? || pc.Journal? || pc.SeeDecision? || pc.SeeLease? || pc.SeeFence? || pc.Check? || pc.Create?
  }

  /** The process brings no receipt for the claim. */
  predicate BringsNone(pc: Proc, c: Claim) {
    && (pc.Late? ==> pc.journal.claim != c)
    && (pc.Committing? ==> pc.r.claim != c)
    && (pc.Releasing? ==> pc.pending != Some(c))
  }

  ghost predicate Undelivered(s: State, c: Claim) {
    && c.event !in s.receipts
    && (c.attempt in s.evidence ==> !s.evidence[c.attempt].cleaned)
    && forall p :: p in s.procs ==> BringsNone(s.procs[p], c)
  }

  ghost predicate ClearOk(s: State, pc: Proc) {
    pc.Helper? && Confirming(pc.step) ==> !pc.step.copy.cleaned && Undelivered(s, pc.c)
  }

  ghost predicate Clear(s: State) { forall p :: p in s.procs ==> ClearOk(s, s.procs[p]) }

  /** Where a receipt can come from: what a process must have been to bring one, or to mark evidence cleaned. */
  ghost predicate Origin(s: State, was: Proc, x: Effect) {
    && (x.Goto? || x.PutJournal? || x.PutDecision? || x.PutReceipt? || x.PutConsumption? || x.FreeLease? || x.PassFence? ==>
          OriginNext(s, was, x.next))
    && (x.PutJournal? && x.journal.cleaned ==>
          || (was.Late? && was.journal.claim == x.journal.claim)
          || (was.Worker? && !was.at.Wait? && was.c == x.journal.claim)
          || (was.Helper? && was.c == x.journal.claim))
    && (x.PutReceipt? && x.e !in s.receipts ==>
          || (was.Committing? && was.r.claim == x.receipt.claim)
          || (was.Helper? && was.c == x.receipt.claim))
  }

  ghost predicate OriginNext(s: State, was: Proc, next: Proc) {
    && (next.Late? ==>
          || (was.Late? && was.journal.claim == next.journal.claim)
          || exists a :: a in s.evidence && s.evidence[a].claim == next.journal.claim && s.evidence[a].cleaned)
    && (next.Committing? ==>
          || (was.Late? && was.journal.claim == next.r.claim)
          || (was.Committing? && was.r.claim == next.r.claim)
          || (was.Releasing? && was.pending == Some(next.r.claim)))
    && (next.Releasing? && next.pending.Some? ==>
          || (was.Releasing? && was.pending == next.pending)
          || (was.Worker? && !was.at.Wait? && was.c == next.pending.value))
  }

  lemma ApproachOrigin(s: State, p: Pid, e: EventId, pc: ApproachPc, i: Input)
    ensures Origin(s, Approaching(e, pc), StepApproach(s, p, e, pc, i))
  {
  }

  lemma WorkerOrigin(s: State, p: Pid, c: Claim, l: Lease, pc: WorkerPc, i: Input)
    requires WorkerOk(s, c, pc)
    ensures Origin(s, Worker(c, l, pc), StepWorker(s, p, c, l, pc, i))
  {
  }

  lemma HelperOrigin(s: State, p: Pid, c: Claim, pc: HelperPc, i: Input)
    requires HelperOk(s, c, pc)
    ensures Origin(s, Helper(c, pc), StepHelper(s, p, c, pc, i))
  {
  }

  lemma OthersOrigin(s: State, p: Pid, i: Input)
    requires p in s.procs && (s.procs[p].Late? || s.procs[p].Releasing? || s.procs[p].Committing? || s.procs[p].Operating?)
    ensures Origin(s, s.procs[p], ProcStep(s, p, i))
  {
  }

  lemma ProcOrigin(s: State, p: Pid, i: Input)
    requires Inv(s) && p in s.procs
    ensures Origin(s, s.procs[p], ProcStep(s, p, i))
  {
    hide Inv, Origin, StepApproach, StepWorker, StepHelper;
    var pc := s.procs[p];
    ProcFacts(s, p);
    if pc.Approaching? { ApproachOrigin(s, p, pc.e, pc.approach, i); }
    else if pc.Worker? { WorkerOrigin(s, p, pc.c, pc.l, pc.at, i); }
    else if pc.Helper? { HelperOrigin(s, p, pc.c, pc.step, i); }
    else if pc.Late? || pc.Releasing? || pc.Committing? || pc.Operating? { OthersOrigin(s, p, i); }
    else { StayOrigin(s, p, i); }
  }

  lemma StayOrigin(s: State, p: Pid, i: Input)
    requires p in s.procs && (s.procs[p].Idle? || s.procs[p].Exited? || s.procs[p].Consumed?)
    ensures Origin(s, s.procs[p], ProcStep(s, p, i))
  {
  }

  // ----- the effect of one process on what another knows

  /** A process other than the helper of a claim and the worker that waits for it. */
  ghost predicate ActsForOthers(s: State, c: Claim, was: Proc) {
    && (was.Worker? && !was.at.Wait? ==> was.c != c)
    && (was.Helper? ==> was.c != c)
  }

  lemma NextBringsNone(s: State, c: Claim, was: Proc, next: Proc)
    requires Numbered(s) && c in s.made && Undelivered(s, c) && BringsNone(was, c) && ActsForOthers(s, c, was) && OriginNext(s, was, next)
    ensures BringsNone(next, c)
  {
    if next.Late? && !was.Late? {
      var a :| a in s.evidence && s.evidence[a].claim == next.journal.claim && s.evidence[a].cleaned;
      assert s.evidence[a].claim.attempt == a;
    }
  }

  /** A journal of the same attempt belongs to the same claim. */
  lemma JournalElsewhere(s: State, c: Claim, journal: Evidence)
    requires Numbered(s) && c in s.made && journal.claim in s.made && journal.claim != c
    ensures journal.claim.attempt != c.attempt
  {
    assert journal.claim.decision == c.decision ==> journal.claim == c;
  }

  lemma JournalKeeps(s: State, p: Pid, x: Effect, c: Claim)
    requires Numbered(s) && p in s.procs && c in s.made && Undelivered(s, c) && ActsForOthers(s, c, s.procs[p])
    requires EffectOk(s, p, x) && Origin(s, s.procs[p], x) && x.PutJournal?
    ensures var t := Apply(s, p, x); c.attempt in t.evidence ==> !t.evidence[c.attempt].cleaned
  {
    hide ProcOk, Yields, OriginNext;
    if x.journal.claim != c { JournalElsewhere(s, c, x.journal); }
  }

  lemma ReceiptKeeps(s: State, p: Pid, x: Effect, c: Claim)
    requires Started(s) && p in s.procs && c in s.starts && Undelivered(s, c) && ActsForOthers(s, c, s.procs[p])
    requires EffectOk(s, p, x) && Origin(s, s.procs[p], x) && x.PutReceipt?
    ensures x.e != c.event
  {
    hide ProcOk, Yields, OriginNext, StartOk;
  }

  lemma ProcsKept(s: State, p: Pid, x: Effect, c: Claim)
    requires Numbered(s) && p in s.procs && c in s.made && Undelivered(s, c) && ActsForOthers(s, c, s.procs[p])
    requires Origin(s, s.procs[p], x)
    ensures var t := Apply(s, p, x); forall q :: q in t.procs ==> BringsNone(t.procs[q], c)
  {
    hide Numbered;
    if Regular(x) { NextBringsNone(s, c, s.procs[p], x.next); }
    hide OriginNext;
  }

  lemma UndeliveredKept(s: State, p: Pid, x: Effect, c: Claim)
    requires Inv(s) && p in s.procs && c in s.made && c in s.starts && Undelivered(s, c) && ActsForOthers(s, c, s.procs[p])
    requires EffectOk(s, p, x) && Origin(s, s.procs[p], x)
    ensures Undelivered(Apply(s, p, x), c)
  {
    hide Numbered, Exclusive, Actors, Records, Locals, Started;
    ProcsKept(s, p, x, c);
    if x.PutJournal? { JournalKeeps(s, p, x, c); }
    if x.PutReceipt? { ReceiptKeeps(s, p, x, c); }
    hide EffectOk, Origin, BringsNone;
  }

  /** Before the transport starts, nothing of its event is delivered or on its way. */
  lemma StartClear(s: State, p: Pid, c: Claim, copy: Evidence)
    requires Inv(s) && p in s.procs && s.procs[p] == Helper(c, Spawn(copy))
    ensures !copy.cleaned && Undelivered(s, c) && Undelivered(AfterStart(s, p, c, copy), c)
  {
    hide Inv;
    ProcFacts(s, p);
    RecordFacts(s, c.event);
    if c.attempt in s.evidence { OwnJournal(s, c); JournalFacts(s, c.attempt); }
    forall q | q in s.procs ensures BringsNone(s.procs[q], c) { ProcFacts(s, q); }
  }

  /** A step that leaves a helper confirming found it so, and neither cleaned nor delivered anything. */
  lemma HelperStays(s: State, p: Pid, c: Claim, pc: HelperPc, i: Input)
    requires var x := StepHelper(s, p, c, pc, i); !x.Stay? && !x.Start? && !x.NewLease? && !x.NewClaim? && !x.Fork?
    ensures var x := StepHelper(s, p, c, pc, i);
            x.next.Helper? && Confirming(x.next.step) ==>
              && x.next.c == c && Confirming(pc) && x.next.step.copy.cleaned == pc.copy.cleaned
              && (x.Goto? || x.PassFence? || (x.PutJournal? && x.journal.cleaned == pc.copy.cleaned))
  {
  }

  lemma HelperKind(s: State, p: Pid, c: Claim, pc: HelperPc, i: Input)
    ensures var x := StepHelper(s, p, c, pc, i);
            && !x.Stay? && !x.NewLease? && !x.NewClaim? && !x.Fork?
            && (x.Start? ==> x.claim == c && pc == Spawn(x.journal))
  {
  }

  /** Another process is a rival of a helper: it neither works nor helps for the same claim. */
  lemma OthersDiffer(s: State, p: Pid, q: Pid)
    requires Inv(s) && p in s.procs && q in s.procs && p != q && s.procs[q].Helper?
    ensures ActsForOthers(s, s.procs[q].c, s.procs[p])
  {
    hide Inv;
    HelperAlone(s, q);
  }

  lemma OtherClear(s: State, p: Pid, i: Input, q: Pid)
    requires Inv(s) && Clear(s) && p in s.procs && q in s.procs && p != q
    ensures ClearOk(Apply(s, p, ProcStep(s, p, i)), s.procs[q])
  {
    hide Inv, ProcStep, Apply, Undelivered, EffectOk, Origin, ActsForOthers;
    assert ClearOk(s, s.procs[q]);
    if s.procs[q].Helper? && Confirming(s.procs[q].step) {
      StepEffect(s, p, i);
      ProcOrigin(s, p, i);
      OthersDiffer(s, p, q);
      HelperFacts(s, q);
      UndeliveredKept(s, p, ProcStep(s, p, i), s.procs[q].c);
    }
  }

  lemma HelperFacts(s: State, q: Pid)
    requires Inv(s) && q in s.procs && s.procs[q].Helper?
    ensures var c, pc := s.procs[q].c, s.procs[q].step;
            && c in s.made && (!pc.Read? ==> pc.copy.claim == c) && (!PreSpawn(pc) ==> c in s.starts)
            && (pc.Check? || pc.Create? ==> pc.r.claim == c)
  {
    hide Inv;
    ProcFacts(s, q);
  }

  /** A quiet step of the helper itself keeps its event undelivered. */
  lemma QuietKeeps(s: State, p: Pid, x: Effect, c: Claim)
    requires Numbered(s) && c in s.made && Undelivered(s, c)
    requires x.Goto? || x.PassFence? || (x.PutJournal? && !x.journal.cleaned)
    requires x.next.Helper?
    ensures Undelivered(Apply(s, p, x), c)
  {
    hide Numbered;
  }

  lemma OwnClear(s: State, p: Pid, i: Input)
    requires Inv(s) && Clear(s) && p in s.procs && s.procs[p].Helper?
    ensures var t := Apply(s, p, StepHelper(s, p, s.procs[p].c, s.procs[p].step, i)); p in t.procs && ClearOk(t, t.procs[p])
  {
    hide Inv, StepHelper, Undelivered;
    var c, pc := s.procs[p].c, s.procs[p].step;
    var x := StepHelper(s, p, c, pc, i);
    assert ClearOk(s, s.procs[p]);
    HelperFacts(s, p);
    HelperKind(s, p, c, pc, i);
    if x.Start? {
      StartClear(s, p, c, x.journal);
    } else {
      HelperStays(s, p, c, pc, i);
      if x.next.Helper? && Confirming(x.next.step) {
        MadeNumbered(s);
        QuietKeeps(s, p, x, c);
      }
    }
  }

  lemma MadeNumbered(s: State)
    requires Inv(s)
    ensures Numbered(s)
  {
    hide Numbered, Exclusive, Actors, Started, Records, Locals;
  }

  /** Who is a helper after a step was one before, or has just been forked. */
  lemma NoNewHelper(s: State, p: Pid, x: Effect, q: Pid)
    requires p in s.procs && EffectOk(s, p, x) && !s.procs[p].Helper?
    requires q in Apply(s, p, x).procs && Apply(s, p, x).procs[q].Helper? && (q !in s.procs || q == p)
    ensures !Confirming(Apply(s, p, x).procs[q].step)
  {
    hide ProcOk;
  }

  lemma StepClear(s: State, p: Pid, i: Input)
    requires Inv(s) && Clear(s) && p in s.procs
    ensures Clear(Apply(s, p, ProcStep(s, p, i)))
  {
    hide Inv, ClearOk, StepHelper, EffectOk, Apply;
    var x := ProcStep(s, p, i);
    var t := Apply(s, p, x);
    StepEffect(s, p, i);
    forall q | q in t.procs ensures ClearOk(t, t.procs[q]) {
      ApplyProcs(s, p, x, q);
      if q in s.procs && q != p { OtherClear(s, p, i, q); }
      else if s.procs[p].Helper? { OwnClear(s, p, i); }
      else if t.procs[q].Helper? { NoNewHelper(s, p, x, q); NotConfirming(t, t.procs[q]); }
      else { NotConfirming(t, t.procs[q]); }
    }
  }

  lemma NotConfirming(s: State, pc: Proc)
    requires pc.Helper? ==> !Confirming(pc.step)
    ensures ClearOk(s, pc)
  {
  }

  lemma ApplyProcs(s: State, p: Pid, x: Effect, q: Pid)
    requires p in s.procs && EffectOk(s, p, x) && q in Apply(s, p, x).procs
    ensures q in s.procs && q != p ==> Apply(s, p, x).procs[q] == s.procs[q]
    ensures q !in s.procs ==> x.Fork? && !s.procs[p].Helper?
  {
    hide ProcOk;
  }

  lemma NextClear(s: State, a: Action)
    requires Inv(s) && Clear(s)
    ensures Clear(Next(s, a))
  {
    hide Inv, ProcStep, Apply;
    if a.Step? {
      if a.p in s.procs && a.i.gen <= s.gen { hide Clear; StepClear(s, a.p, a.i); }
    } else {
      OtherActionClear(s, a);
    }
  }

  lemma OtherActionClear(s: State, a: Action)
    requires Clear(s) && !a.Step?
    ensures Clear(Next(s, a))
  {
    var t := Next(s, a);
    forall q | q in t.procs ensures ClearOk(t, t.procs[q]) {
      if q in s.procs { assert ClearOk(s, s.procs[q]); }
    }
  }

  // ----- what a receipt on the confirmed path has behind it

  ghost predicate Logged(s: State, c: Claim) {
    exists x :: x in s.checks && x.claim == c
  }

  /** The helper has committed, or found its receipt committed. */
  predicate Committed(pc: HelperPc) { pc.SeeMark? || pc.CasMark? || (pc.Clean? && pc.committed) || pc.Update? || pc.CasUpdate? }

  ghost predicate Checked(s: State, pc: Proc) {
    && (pc.Committing? ==> pc.r.cleanup.Unrecorded?)
    && (pc.Helper? && pc.step.SeeFence? ==>
          pc.step.l.id == pc.step.copy.claim.lease && pc.step.l.token == pc.step.copy.claim.token)
    && (pc.Helper? && (pc.step.Check? || pc.step.Create?) ==> pc.step.r.cleanup.Pending? && Logged(s, pc.c))
    && (pc.Helper? && Committed(pc.step) ==> pc.c.event in s.receipts && !s.receipts[pc.c.event].cleanup.Unrecorded?)
  }

  /** A receipt that a helper created, or whose cleanup one recorded, has its fence check on record. */
  ghost predicate CheckInv(s: State) {
    && (forall e :: e in s.receipts && !s.receipts[e].cleanup.Unrecorded? ==> Logged(s, s.receipts[e].claim))
    && (forall p :: p in s.procs ==> Checked(s, s.procs[p]))
  }

  /** What an effect may do to receipts and checks. */
  ghost predicate EffectChecks(s: State, p: Pid, x: Effect) {
    && (x.PutReceipt? && !x.receipt.cleanup.Unrecorded? ==> Logged(s, x.receipt.claim))
    && (x.PutReceipt? && x.e in s.receipts && !s.receipts[x.e].cleanup.Unrecorded? ==> !x.receipt.cleanup.Unrecorded?)
    && (x.PassFence? ==> PassOk(s, x.pass))
    && (Regular(x) ==> Checked(Apply(s, p, x), x.next))
  }

  /** The check was made after the start, with no receipt yet, of the current and unexpired lease of its claim. */
  ghost predicate PassOk(s: State, x: Pass) {
    && x.lease.id == x.claim.lease && x.lease.token == x.claim.token
    && s.lease == Some(x.lease) && x.lease.owned && x.now < x.lease.expires && x.lease.owner in s.procs
    && x.claim in s.starts && x.claim.event !in s.receipts
  }

  lemma ApproachChecks(s: State, p: Pid, e: EventId, pc: ApproachPc, i: Input)
    ensures EffectChecks(s, p, StepApproach(s, p, e, pc, i))
  {
  }

  lemma WorkerChecks(s: State, p: Pid, c: Claim, l: Lease, pc: WorkerPc, i: Input)
    ensures EffectChecks(s, p, StepWorker(s, p, c, l, pc, i))
  {
  }

  lemma OthersCheck(s: State, p: Pid, i: Input)
    requires p in s.procs && Checked(s, s.procs[p])
    requires var pc := s.procs[p]; !pc.Approaching? && !pc.Worker? && !pc.Helper?
    ensures EffectChecks(s, p, ProcStep(s, p, i))
  {
  }

  lemma HelperBefore(s: State, p: Pid, c: Claim, pc: HelperPc, i: Input)
    requires !Committed(pc) && !pc.SeeFence? && !pc.SeeLease? && !pc.Check? && !pc.Create?
    ensures EffectChecks(s, p, StepHelper(s, p, c, pc, i))
  {
  }

  lemma HelperFenceChecks(s: State, p: Pid, c: Claim, pc: HelperPc, i: Input)
    requires pc.SeeFence? || pc.SeeLease?
    requires pc.copy.claim == c && c in s.starts && c.event !in s.receipts && Checked(s, Helper(c, pc))
    ensures EffectChecks(s, p, StepHelper(s, p, c, pc, i))
  {
    var x := StepHelper(s, p, c, pc, i);
    if x.PassFence? { assert x.pass in Apply(s, p, x).checks && x.pass.claim == c; }
  }

  lemma HelperCreates(s: State, p: Pid, c: Claim, pc: HelperPc, i: Input)
    requires pc.Check? || pc.Create?
    requires pc.r.claim == c && c.event !in s.receipts && Checked(s, Helper(c, pc))
    ensures EffectChecks(s, p, StepHelper(s, p, c, pc, i))
  {
    hide Logged;
    SameLog(s, p, StepHelper(s, p, c, pc, i));
  }

  lemma HelperCommitted(s: State, p: Pid, c: Claim, pc: HelperPc, i: Input)
    requires Committed(pc) && Checked(s, Helper(c, pc))
    requires c.event in s.receipts ==> Logged(s, s.receipts[c.event].claim)
    ensures EffectChecks(s, p, StepHelper(s, p, c, pc, i))
  {
    hide Logged;
    SameLog(s, p, StepHelper(s, p, c, pc, i));
  }

  lemma SameLog(s: State, p: Pid, x: Effect)
    requires !x.PassFence?
    ensures forall c :: Logged(Apply(s, p, x), c) <==> Logged(s, c)
  {
    forall c ensures Logged(Apply(s, p, x), c) <==> Logged(s, c) {
      assert Apply(s, p, x).checks == s.checks;
    }
  }

  lemma HelperChecks(s: State, p: Pid, i: Input)
    requires Inv(s) && Clear(s) && CheckInv(s) && p in s.procs && s.procs[p].Helper?
    ensures EffectChecks(s, p, StepHelper(s, p, s.procs[p].c, s.procs[p].step, i))
  {
    hide Inv, StepHelper, EffectChecks, Logged;
    var c, pc := s.procs[p].c, s.procs[p].step;
    assert Checked(s, s.procs[p]) && ClearOk(s, s.procs[p]);
    HelperFacts(s, p);
    if pc.SeeFence? || pc.SeeLease? { HelperFenceChecks(s, p, c, pc, i); }
    else if pc.Check? || pc.Create? { HelperCreates(s, p, c, pc, i); }
    else if Committed(pc) { HelperCommitted(s, p, c, pc, i); }
    else { HelperBefore(s, p, c, pc, i); }
  }

  lemma ProcChecks(s: State, p: Pid, i: Input)
    requires Inv(s) && Clear(s) && CheckInv(s) && p in s.procs
    ensures EffectChecks(s, p, ProcStep(s, p, i))
  {
    hide Inv, Clear, StepApproach, StepWorker, StepHelper, EffectChecks, Checked;
    var pc := s.procs[p];
    if pc.Approaching? { ApproachChecks(s, p, pc.e, pc.approach, i); }
    else if pc.Worker? { WorkerChecks(s, p, pc.c, pc.l, pc.at, i); }
    else if pc.Helper? { HelperChecks(s, p, i); }
    else { OthersCheck(s, p, i); }
  }

  /** Checks are never taken back, nor is a receipt or the mark of its cleanup. */
  ghost predicate Remembers(s: State, t: State) {
    && s.checks <= t.checks
    && forall e :: e in s.receipts && !s.receipts[e].cleanup.Unrecorded? ==> e in t.receipts && !t.receipts[e].cleanup.Unrecorded?
  }

  lemma CheckedStays(s: State, t: State)
    requires Remembers(s, t)
    ensures forall c :: Logged(s, c) ==> Logged(t, c)
    ensures forall pc :: Checked(s, pc) ==> Checked(t, pc)
  {
    forall c | Logged(s, c) ensures Logged(t, c) {
      var x :| x in s.checks && x.claim == c;
      assert x in t.checks;
    }
    hide Logged;
  }

  lemma ApplyRemembers(s: State, p: Pid, x: Effect)
    requires EffectChecks(s, p, x)
    ensures Remembers(s, Apply(s, p, x))
    ensures Apply(s, p, x).checks == if x.PassFence? then s.checks + {x.pass} else s.checks
  {
    hide Checked, Logged, PassOk;
  }

  lemma ReceiptsLogged(s: State, p: Pid, x: Effect)
    requires CheckInv(s) && EffectChecks(s, p, x)
    ensures var t := Apply(s, p, x); forall e :: e in t.receipts && !t.receipts[e].cleanup.Unrecorded? ==> Logged(t, t.receipts[e].claim)
  {
    ApplyRemembers(s, p, x);
    CheckedStays(s, Apply(s, p, x));
    hide Logged, Checked, PassOk;
  }

  lemma ApplyChecks(s: State, p: Pid, x: Effect)
    requires CheckInv(s) && EffectChecks(s, p, x)
    ensures CheckInv(Apply(s, p, x))
  {
    var t := Apply(s, p, x);
    ReceiptsLogged(s, p, x);
    ApplyRemembers(s, p, x);
    CheckedStays(s, t);
    forall q | q in t.procs ensures Checked(t, t.procs[q]) {
      ProcsOf(s, p, x, q);
      hide Checked, Logged, PassOk, Apply;
    }
  }

  lemma ProcsOf(s: State, p: Pid, x: Effect, q: Pid)
    requires q in Apply(s, p, x).procs
    ensures var pc := Apply(s, p, x).procs[q];
            || (q in s.procs && pc == s.procs[q])
            || (Regular(x) && pc == x.next)
            || pc.Approaching? || pc.Worker?
            || (pc.Helper? && (pc.step.Read? || pc.step.Observe?))
  {
  }

  lemma NextChecks(s: State, a: Action)
    requires Inv(s) && Clear(s) && CheckInv(s)
    ensures CheckInv(Next(s, a))
    ensures forall x :: x in Next(s, a).checks && x !in s.checks ==> PassOk(s, x)
  {
    hide Inv, Clear, ProcStep, Apply, Checked, Logged;
    if a.Step? && a.p in s.procs && a.i.gen <= s.gen {
      ProcChecks(s, a.p, a.i);
      ApplyChecks(s, a.p, ProcStep(s, a.p, a.i));
      ApplyRemembers(s, a.p, ProcStep(s, a.p, a.i));
    } else {
      OtherChecks(s, a);
    }
  }

  lemma OtherChecks(s: State, a: Action)
    requires CheckInv(s) && (a.Step? ==> Next(s, a) == s)
    ensures CheckInv(Next(s, a)) && Next(s, a).checks == s.checks
  {
    CheckedStays(s, Next(s, a));
    hide Logged;
  }

  // ----- theorems

  ghost predicate Sound(s: State) { Inv(s) && Clear(s) && CheckInv(s) }

  lemma InitSound(s: State)
    requires Init(s)
    ensures Sound(s)
  {
  }

  lemma RunSound(run: seq<State>, k: nat)
    requires Run(run) && k < |run|
    ensures Inv(run[k]) && Clear(run[k]) && CheckInv(run[k])
  {
    hide Next, Inv, Clear, CheckInv, Init;
    InitSound(run[0]);
    forall s, t | Sound(s) && Steps(s, t) ensures Sound(t) {
      var a :| t == Next(s, a);
      NextKeeps(s, a);
      NextClear(s, a);
      NextChecks(s, a);
    }
    Invariance(Sound, Steps, run, k);
  }

  /** Step `j` of the run is the fence check that is on record as `x`: it reads the lease of the claim as
      current, owned and, at the clock reading of the check, unexpired; the claim's transport has
      started, and its event has no receipt. */
  ghost predicate ChecksAt(run: seq<State>, j: nat, x: Pass) {
    j + 1 < |run| && x !in run[j].checks && x in run[j + 1].checks && PassOk(run[j], x)
  }

  /** Every fence check on record was such a step. */
  lemma {:induction false} ChecksWereCurrent(run: seq<State>, k: nat, x: Pass)
    requires Run(run) && k < |run| && x in run[k].checks
    ensures exists j :: 0 <= j < k && ChecksAt(run, j, x)
  {
    hide Next, Inv, Clear, CheckInv, PassOk;
    if k > 0 {
      if x in run[k - 1].checks {
        ChecksWereCurrent(run, k - 1, x);
      } else {
        RunSound(run, k - 1);
        assert Steps(run[k - 1], run[k - 1 + 1]);
        var a :| run[k] == Next(run[k - 1], a);
        NextChecks(run[k - 1], a);
        assert ChecksAt(run, k - 1, x);
      }
    }
  }

  /** The confirmed path commits only past a current lease. A receipt that a helper created has behind it
      the fence check of the same claim's helper: made after that claim's transport started and before
      the event had any receipt, of the lease with the claim's own identifier and token, current and
      unexpired at the clock reading of that check. */
  lemma ConfirmedPastCurrentLease(run: seq<State>, k: nat, e: EventId)
    requires Run(run) && k < |run| && e in run[k].receipts && !run[k].receipts[e].cleanup.Unrecorded?
    ensures exists j, x :: 0 <= j < k && ChecksAt(run, j, x) && x.claim == run[k].receipts[e].claim
  {
    hide Inv, Clear, ChecksAt, PassOk;
    RunSound(run, k);
    var x :| x in run[k].checks && x.claim == run[k].receipts[e].claim;
    ChecksWereCurrent(run, k, x);
  }

  /** While a started helper has not committed, nobody else has a receipt for its event, or brings one. */
  lemma UncommittedUndelivered(run: seq<State>, k: nat, p: Pid)
    requires Run(run) && k < |run| && p in run[k].procs && run[k].procs[p].Helper? && Confirming(run[k].procs[p].step)
    ensures Undelivered(run[k], run[k].procs[p].c)
  {
    hide Inv, Undelivered, CheckInv;
    RunSound(run, k);
    assert ClearOk(run[k], run[k].procs[p]);
  }
}
