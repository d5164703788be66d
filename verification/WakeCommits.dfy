/** How a receipt comes about, and how its cleanup is marked. In a run with its actions, every receipt written is
    traced back to the fence that its writer passed, and every mark to the evidence of the cleanup. */
module WakeCommits {
  import opened Common
  import opened WakeProtocol
  import opened WakeInvariant
  import opened WakeSteps
  import opened WakeTheorems
  import WakeConsumption
  import opened WakeLeases
  import opened WakeSettlement

  /** The event's decision is that of the receipt, claimed or delivered; the receipt's owner is alive, and the wake is
      still requested. */
  ghost predicate Authorised(s: State, r: Receipt) {
    && r.claim.event in s.decisions && s.decisions[r.claim.event].claim == r.claim
    && (s.decisions[r.claim.event].status == Claimed || s.decisions[r.claim.event].status == Delivered)
    && r.owner in s.procs && r.claim.event in s.requests
  }

  /** The event's decision is this claim, and unsettled. */
  ghost predicate StillClaimed(s: State, e: EventId, c: Claim) {
    e in s.decisions && s.decisions[e].claim == c && s.decisions[e].status == Claimed
  }

  predicate Confirms(pc: Proc) { pc.Helper? && (pc.step.SeeLease? || pc.step.SeeFence? || pc.step.Check? || pc.step.Create?) }

  predicate Updates(pc: Proc) { pc.Helper? && (pc.step.Update? || pc.step.CasUpdate?) }

  /** What the step has read, or written, when its process goes on to commit or to mark. */
  ghost predicate ReadsToCommit(s: State, was: Proc, x: Effect, i: Input) {
    Regular(x) ==>
      && (x.next.Committing? && x.next.checked ==> was == Committing(x.next.r, false) && Authorised(s, x.next.r))
      && (Confirms(x.next) ==>
            && was.Helper? && was.c == x.next.c
            && ((Confirms(was) && was.step.copy == x.next.step.copy) || StillClaimed(s, x.next.c.event, x.next.step.copy.claim)))
      && (x.next.Helper? && x.next.step.Create? ==>
            && was.Helper? && was.c == x.next.c && was.step == Check(x.next.step.copy, x.next.step.r) && Authorised(s, x.next.step.r))
      && (Updates(x.next) ==>
            && was.Helper? && was.c == x.next.c
            && ((Updates(was) && was.step.copy == x.next.step.copy)
                || (x.next.step.copy.cleaned ==> x.PutJournal? && x.attempt == was.c.attempt && x.journal.cleaned)))
      && (x.next.Helper? && x.next.step.CasUpdate? ==> Markable(x.next.step.found, x.next.step.copy))
  }

  /** The receipt is that of the copy's delivery and attempt, and its cleanup is not marked yet. */
  predicate Markable(r: Receipt, copy: Evidence) {
    && r.claim.delivery == copy.claim.delivery && r.claim.attempt == copy.claim.attempt
    && r.cleanup != Proven && r.cleanup != Intervention
  }

  lemma HelperReadsToCommit(s: State, p: Pid, c: Claim, pc: HelperPc, i: Input)
    ensures ReadsToCommit(s, Helper(c, pc), StepHelper(s, p, c, pc, i), i)
  {
  }

  lemma WorkerReadsToCommit(s: State, p: Pid, c: Claim, l: Lease, pc: WorkerPc, i: Input)
    ensures ReadsToCommit(s, Worker(c, l, pc), StepWorker(s, p, c, l, pc, i), i)
  {
  }

  lemma ApproachReadsToCommit(s: State, p: Pid, e: EventId, pc: ApproachPc, i: Input)
    ensures ReadsToCommit(s, Approaching(e, pc), StepApproach(s, p, e, pc, i), i)
  {
  }

  lemma OthersReadToCommit(s: State, p: Pid, i: Input)
    requires p in s.procs && !s.procs[p].Approaching? && !s.procs[p].Worker? && !s.procs[p].Helper?
    ensures ReadsToCommit(s, s.procs[p], ProcStep(s, p, i), i)
  {
  }

  lemma ProcReadsToCommit(s: State, p: Pid, i: Input)
    requires p in s.procs
    ensures ReadsToCommit(s, s.procs[p], ProcStep(s, p, i), i)
  {
    hide ReadsToCommit, StepApproach, StepWorker, StepHelper;
    var pc := s.procs[p];
    if pc.Approaching? { ApproachReadsToCommit(s, p, pc.e, pc.approach, i); }
    else if pc.Worker? { WorkerReadsToCommit(s, p, pc.c, pc.l, pc.at, i); }
    else if pc.Helper? { HelperReadsToCommit(s, p, pc.c, pc.step, i); }
    else { OthersReadToCommit(s, p, i); }
  }

  // ----- those readings are steps of the run

  ghost predicate AuthorisedStep(run: seq<State>, acts: seq<Action>, j: nat, p: Pid, r: Receipt) {
    |acts| < |run| && ActsAt(acts, j, p) && Authorised(run[j], r)
  }

  ghost predicate ClaimedStep(run: seq<State>, acts: seq<Action>, j: nat, p: Pid, e: EventId, c: Claim) {
    |acts| < |run| && ActsAt(acts, j, p) && StillClaimed(run[j], e, c)
  }

  /** The process leaves evidence of a complete cleanup under the attempt. */
  ghost predicate CleanedStep(run: seq<State>, acts: seq<Action>, j: nat, p: Pid, attempt: Id) {
    && |acts| < |run| && ActsAt(acts, j, p)
    && attempt in run[j + 1].evidence && run[j + 1].evidence[attempt].cleaned
  }

  lemma {:induction false} CommitterHasRead(run: seq<State>, acts: seq<Action>, k: nat, p: Pid)
    requires Acted(run, acts) && k < |run| && p in run[k].procs && run[k].procs[p].Committing? && run[k].procs[p].checked
    ensures exists j :: 0 <= j < k && AuthorisedStep(run, acts, j, p, run[k].procs[p].r)
  {
    hide Next, ProcStep, Authorised, StillClaimed, Markable;
    assert k > 0;
    var s, a, pc := run[k - 1], acts[k - 1], run[k].procs[p];
    assert run[k - 1 + 1] == Next(s, a);
    Moved(s, a, p);
    if p in s.procs && s.procs[p] == pc {
      CommitterHasRead(run, acts, k - 1, p);
    } else {
      ProcReadsToCommit(s, p, a.i);
      assert AuthorisedStep(run, acts, k - 1, p, pc.r);
    }
  }

  lemma {:induction false} ConfirmerHasRead(run: seq<State>, acts: seq<Action>, k: nat, p: Pid)
    requires Acted(run, acts) && k < |run| && p in run[k].procs && Confirms(run[k].procs[p])
    ensures var pc := run[k].procs[p]; exists j :: 0 <= j < k && ClaimedStep(run, acts, j, p, pc.c.event, pc.step.copy.claim)
  {
    hide Next, ProcStep, Authorised, StillClaimed, Markable;
    assert k > 0;
    var s, a, pc := run[k - 1], acts[k - 1], run[k].procs[p];
    assert run[k - 1 + 1] == Next(s, a);
    Moved(s, a, p);
    if p in s.procs && Confirms(s.procs[p]) && s.procs[p].c == pc.c && s.procs[p].step.copy == pc.step.copy {
      ConfirmerHasRead(run, acts, k - 1, p);
    } else {
      ProcReadsToCommit(s, p, a.i);
      assert ClaimedStep(run, acts, k - 1, p, pc.c.event, pc.step.copy.claim);
    }
  }

  /** A helper about to create the receipt has passed its fence after it saw the decision unsettled. */
  ghost predicate ConfirmedFence(run: seq<State>, acts: seq<Action>, j: nat, p: Pid, r: Receipt, e: EventId, c: Claim) {
    AuthorisedStep(run, acts, j, p, r) && exists i :: 0 <= i < j && ClaimedStep(run, acts, i, p, e, c)
  }

  lemma {:induction false} CreatorHasRead(run: seq<State>, acts: seq<Action>, k: nat, p: Pid)
    requires Acted(run, acts) && k < |run| && p in run[k].procs && run[k].procs[p].Helper? && run[k].procs[p].step.Create?
    ensures var pc := run[k].procs[p];
            exists j :: 0 <= j < k && ConfirmedFence(run, acts, j, p, pc.step.r, pc.c.event, pc.step.copy.claim)
  {
    hide Next, ProcStep, Authorised, StillClaimed, Markable, ClaimedStep;
    assert k > 0;
    var s, a, pc := run[k - 1], acts[k - 1], run[k].procs[p];
    assert run[k - 1 + 1] == Next(s, a);
    Moved(s, a, p);
    if p in s.procs && s.procs[p] == pc {
      CreatorHasRead(run, acts, k - 1, p);
    } else {
      ProcReadsToCommit(s, p, a.i);
      ConfirmerHasRead(run, acts, k - 1, p);
      assert ConfirmedFence(run, acts, k - 1, p, pc.step.r, pc.c.event, pc.step.copy.claim);
    }
  }

  lemma {:induction false} CleanerHasCleaned(run: seq<State>, acts: seq<Action>, k: nat, p: Pid)
    requires Acted(run, acts) && k < |run| && p in run[k].procs && Updates(run[k].procs[p]) && run[k].procs[p].step.copy.cleaned
    ensures exists j :: 0 <= j < k && CleanedStep(run, acts, j, p, run[k].procs[p].c.attempt)
  {
    hide Next, ProcStep, Authorised, StillClaimed, Markable, Apply;
    assert k > 0;
    var s, a, pc := run[k - 1], acts[k - 1], run[k].procs[p];
    assert run[k - 1 + 1] == Next(s, a);
    Moved(s, a, p);
    if p in s.procs && Updates(s.procs[p]) && s.procs[p].c == pc.c && s.procs[p].step.copy == pc.step.copy {
      CleanerHasCleaned(run, acts, k - 1, p);
    } else {
      ProcReadsToCommit(s, p, a.i);
      WritesJournal(s, a);
      assert CleanedStep(run, acts, k - 1, p, pc.c.attempt);
    }
  }

  lemma WritesJournal(s: State, a: Action)
    requires a.Step? && Acts(s, a, a.p) && ProcStep(s, a.p, a.i).PutJournal?
    ensures var x := ProcStep(s, a.p, a.i); x.attempt in Next(s, a).evidence && Next(s, a).evidence[x.attempt] == x.journal
  {
    hide ProcStep;
  }

  lemma {:induction false} UpdaterFound(run: seq<State>, acts: seq<Action>, k: nat, p: Pid)
    requires Acted(run, acts) && k < |run| && p in run[k].procs && run[k].procs[p].Helper? && run[k].procs[p].step.CasUpdate?
    ensures var pc := run[k].procs[p].step; Markable(pc.found, pc.copy)
  {
    hide Next, ProcStep, Authorised, StillClaimed, Markable;
    assert k > 0;
    var s, a := run[k - 1], acts[k - 1];
    assert run[k - 1 + 1] == Next(s, a);
    Moved(s, a, p);
    if p in s.procs && s.procs[p] == run[k].procs[p] {
      UpdaterFound(run, acts, k - 1, p);
    } else {
      ProcReadsToCommit(s, p, a.i);
    }
  }

  // ----- the write

  ghost predicate Writes(s: State, was: Proc, x: Effect, i: Input) {
    x.PutReceipt? ==>
      || (x.e !in s.receipts && was.Committing? && was.checked && x.e == was.r.claim.event && x.receipt == was.r.(deliveredAt := i.now))
      || (x.e !in s.receipts && was.Helper? && was.step.Create? && x.e == was.c.event && x.receipt == was.step.r.(deliveredAt := i.now))
      || (x.e in s.receipts && was.Helper? && was.step.CasUpdate? && x.e == was.c.event && s.receipts[x.e] == was.step.found
          && x.receipt == was.step.found.(cleanup := if was.step.copy.cleaned then Proven else Intervention))
  }

  lemma HelperWrites(s: State, p: Pid, c: Claim, pc: HelperPc, i: Input)
    ensures Writes(s, Helper(c, pc), StepHelper(s, p, c, pc, i), i)
  {
  }

  lemma WorkerWritesNone(s: State, p: Pid, c: Claim, l: Lease, pc: WorkerPc, i: Input)
    ensures Writes(s, Worker(c, l, pc), StepWorker(s, p, c, l, pc, i), i)
  {
  }

  lemma ApproachWritesNone(s: State, p: Pid, e: EventId, pc: ApproachPc, i: Input)
    ensures Writes(s, Approaching(e, pc), StepApproach(s, p, e, pc, i), i)
  {
  }

  lemma OthersWrite(s: State, p: Pid, i: Input)
    requires p in s.procs && !s.procs[p].Approaching? && !s.procs[p].Worker? && !s.procs[p].Helper?
    ensures Writes(s, s.procs[p], ProcStep(s, p, i), i)
  {
  }

  lemma ProcWrites(s: State, p: Pid, i: Input)
    requires p in s.procs
    ensures Writes(s, s.procs[p], ProcStep(s, p, i), i)
  {
    hide Writes, StepApproach, StepWorker, StepHelper;
    var pc := s.procs[p];
    if pc.Approaching? { ApproachWritesNone(s, p, pc.e, pc.approach, i); }
    else if pc.Worker? { WorkerWritesNone(s, p, pc.c, pc.l, pc.at, i); }
    else if pc.Helper? { HelperWrites(s, p, pc.c, pc.step, i); }
    else { OthersWrite(s, p, i); }
  }

  lemma ReceiptChanges(s: State, a: Action, e: EventId)
    requires e in Next(s, a).receipts && (e in s.receipts ==> Next(s, a).receipts[e] != s.receipts[e])
    ensures a.Step? && Acts(s, a, a.p)
    ensures var x := ProcStep(s, a.p, a.i); x.PutReceipt? && x.e == e && x.receipt == Next(s, a).receipts[e]
  {
    hide ProcStep, Apply;
    if a.Step? && a.p in s.procs { ApplyReceipts(s, a.p, ProcStep(s, a.p, a.i)); }
  }

  lemma ApplyReceipts(s: State, p: Pid, x: Effect)
    ensures Apply(s, p, x).receipts == if x.PutReceipt? then s.receipts[x.e := x.receipt] else s.receipts
  {
  }

  /** In every run a receipt appears only past its fence: its writer had read, at an earlier step, the event's decision
      as the receipt's own claim, claimed or delivered, with the receipt's owner alive and the wake requested. The
      time is that of the writing step. A receipt that a helper creates is of its own claim, and before that fence the
      helper had seen the decision still unsettled. */
  lemma ReceiptsAreFenced(run: seq<State>, acts: seq<Action>, k: nat, e: EventId)
    requires Acted(run, acts) && k < |acts| && e !in run[k].receipts && e in run[k + 1].receipts
    ensures acts[k].Step? && run[k + 1].receipts[e].deliveredAt == acts[k].i.now
    ensures var r, p := run[k + 1].receipts[e], acts[k].p;
            && p in run[k].procs
            && (exists j, read: Receipt :: 0 <= j < k && r == read.(deliveredAt := acts[k].i.now) && AuthorisedStep(run, acts, j, p, read))
            && (run[k].procs[p].Helper? ==>
                  exists j, read: Receipt :: 0 <= j < k && r == read.(deliveredAt := acts[k].i.now)
                                             && ConfirmedFence(run, acts, j, p, read, e, run[k].procs[p].c))
  {
    hide Next, ProcStep, Inv, Authorised, StillClaimed, ClaimedStep;
    var s, a := run[k], acts[k];
    assert run[k + 1] == Next(s, a);
    ActedRun(run, acts);
    RunInv(run, k);
    ReceiptChanges(s, a, e);
    ProcWrites(s, a.p, a.i);
    ProcFacts(s, a.p);
    if s.procs[a.p].Helper? { CreatorHasRead(run, acts, k, a.p); } else { CommitterHasRead(run, acts, k, a.p); }
  }

  /** In every run an existing receipt changes only by the mark of its cleanup, once: it was not marked before; it says
      that cleanup is proven only when its helper has left evidence of a complete cleanup under its own attempt. */
  lemma MarksAreFinal(run: seq<State>, acts: seq<Action>, k: nat, e: EventId)
    requires Acted(run, acts) && k < |acts| && e in run[k].receipts && e in run[k + 1].receipts
    requires run[k + 1].receipts[e] != run[k].receipts[e]
    ensures run[k].receipts[e].cleanup != Proven && run[k].receipts[e].cleanup != Intervention
    ensures run[k + 1].receipts[e] == run[k].receipts[e].(cleanup := run[k + 1].receipts[e].cleanup)
    ensures run[k + 1].receipts[e].cleanup == Proven || run[k + 1].receipts[e].cleanup == Intervention
    ensures acts[k].Step? && acts[k].p in run[k].procs && run[k].procs[acts[k].p].Helper?
    ensures run[k + 1].receipts[e].cleanup == Proven ==>
              exists j :: 0 <= j < k && CleanedStep(run, acts, j, acts[k].p, run[k].receipts[e].claim.attempt)
  {
    hide Next, ProcStep, Inv, CleanedStep;
    var s, a := run[k], acts[k];
    assert run[k + 1] == Next(s, a);
    ActedRun(run, acts);
    RunInv(run, k);
    ReceiptChanges(s, a, e);
    ProcWrites(s, a.p, a.i);
    ProcFacts(s, a.p);
    UpdaterFound(run, acts, k, a.p);
    if run[k + 1].receipts[e].cleanup == Proven { CleanerHasCleaned(run, acts, k, a.p); }
  }

  // ----- whose receipt it is

  /** Where the receipt that a process is about to commit comes from: a late one from the journal of a late confirmation,
      any other from the process itself, under the binding it was given. */
  ghost predicate Brings(run: seq<State>, acts: seq<Action>, k: nat, p: Pid, r: Receipt) {
    && r.cleanup == Unrecorded
    && (r.late ==> exists j, d, journal: Evidence :: 0 <= j < k && LateStep(run, acts, j, p, d, journal)
                     && r.claim == journal.claim && r.owner == journal.owner && r.binding == journal.binding)
    && (!r.late ==> r.owner == p && exists j :: 0 <= j < k && BoundStep(run, acts, j, p, r.binding))
  }

  ghost predicate BoundStep(run: seq<State>, acts: seq<Action>, j: nat, p: Pid, binding: nat) {
    |acts| < |run| && ActsAt(acts, j, p) && acts[j].i.binding == binding
  }

  /** What the step brings to be committed. */
  ghost predicate ReadsToBring(p: Pid, was: Proc, x: Effect, i: Input) {
    Regular(x) && x.next.Committing? ==>
      var r := x.next.r;
      || (was.Committing? && was.r == r)
      || (was.Late? && r.late && r.cleanup == Unrecorded && r.claim == was.journal.claim && r.owner == was.journal.owner && r.binding == was.journal.binding)
      || (was.Releasing? && !r.late && r.cleanup == Unrecorded && r.owner == p && r.binding == i.binding)
  }

  lemma ProcBrings(s: State, p: Pid, i: Input)
    requires p in s.procs
    ensures ReadsToBring(p, s.procs[p], ProcStep(s, p, i), i)
  {
    hide StepApproach, StepWorker, StepHelper;
    var pc := s.procs[p];
    if pc.Approaching? { ApproachBrings(s, p, pc.e, pc.approach, i); }
    else if pc.Worker? { WorkerBrings(s, p, pc.c, pc.l, pc.at, i); }
    else if pc.Helper? { HelperBrings(s, p, pc.c, pc.step, i); }
  }

  lemma ApproachBrings(s: State, p: Pid, e: EventId, pc: ApproachPc, i: Input)
    ensures var x := StepApproach(s, p, e, pc, i); Regular(x) ==> !x.next.Committing?
  {
  }

  lemma WorkerBrings(s: State, p: Pid, c: Claim, l: Lease, pc: WorkerPc, i: Input)
    ensures var x := StepWorker(s, p, c, l, pc, i); Regular(x) ==> !x.next.Committing?
  {
  }

  lemma HelperBrings(s: State, p: Pid, c: Claim, pc: HelperPc, i: Input)
    ensures var x := StepHelper(s, p, c, pc, i); Regular(x) ==> !x.next.Committing?
  {
  }

  /** In every run a receipt about to be committed is marked late exactly when it is brought by a late confirmation, whose
      journal it repeats; any other is the committing process's own, under a binding that it was given. */
  lemma {:induction false} CommitterBrings(run: seq<State>, acts: seq<Action>, k: nat, p: Pid)
    requires Acted(run, acts) && k < |run| && p in run[k].procs && run[k].procs[p].Committing?
    ensures Brings(run, acts, k, p, run[k].procs[p].r)
  {
    hide Next, ProcStep, LateStep;
    assert k > 0;
    var s, a, pc := run[k - 1], acts[k - 1], run[k].procs[p];
    assert run[k - 1 + 1] == Next(s, a);
    Moved(s, a, p);
    if p in s.procs && s.procs[p].Committing? && s.procs[p].r == pc.r {
      CommitterBrings(run, acts, k - 1, p);
    } else {
      ProcBrings(s, p, a.i);
      if s.procs[p].Late? { LateHasRead(run, acts, k - 1, p); } else { assert BoundStep(run, acts, k - 1, p, pc.r.binding); }
    }
  }

  lemma CommitChecks(s: State, p: Pid, i: Input)
    requires p in s.procs && s.procs[p].Committing? && !s.procs[p].checked && i.gen <= s.gen && i.choice == 0
    ensures Next(s, Step(p, i)) == s.(procs := s.procs[p := if Authorised(s, s.procs[p].r) then Committing(s.procs[p].r, true) else Idle])
  {
    hide StepApproach, StepLate, StepWorker, StepRelease, StepHelper, StepOperator;
  }

  lemma CommitWrites(s: State, p: Pid, j: Input)
    requires p in s.procs && s.procs[p].Committing? && s.procs[p].checked && j.gen <= s.gen
    ensures var r := s.procs[p].r;
            Next(s, Step(p, j)) == s.(procs := s.procs[p := Idle],
              receipts := if r.claim.event in s.receipts then s.receipts else s.receipts[r.claim.event := r.(deliveredAt := j.now)])
  {
    hide StepApproach, StepLate, StepWorker, StepRelease, StepHelper, StepOperator;
  }

  /** Undisturbed, a commit writes its receipt, with the time of the writing, if and only if there is none and the fence
      holds; it changes no other file. */
  lemma CommitAlone(s: State, p: Pid, i: Input, j: Input)
    requires p in s.procs && s.procs[p].Committing? && !s.procs[p].checked && i.gen <= s.gen && j.gen <= s.gen && i.choice == 0
    ensures var r, t := s.procs[p].r, Next(Next(s, Step(p, i)), Step(p, j));
            && p in t.procs && t.procs[p] == Idle && t == s.(procs := t.procs, receipts := t.receipts)
            && t.receipts == if Authorised(s, r) && r.claim.event !in s.receipts
                             then s.receipts[r.claim.event := r.(deliveredAt := j.now)] else s.receipts
  {
    hide Next, Authorised;
    var u := Next(s, Step(p, i));
    CommitChecks(s, p, i);
    if Authorised(s, s.procs[p].r) { CommitWrites(u, p, j); } else { WakeConsumption.IdleStays(u, p, j); }
  }

  // ----- the mark of the cleanup

  /** The helper has created its receipt, and has not come to mark it. */
  predicate Unmarked(pc: HelperPc) { pc.SeeMark? || pc.CasMark? || (pc.Clean? && pc.committed && pc.out.Confirmed?) }

  lemma UnmarkedGoesOn(s: State, p: Pid, c: Claim, pc: HelperPc, i: Input)
    requires Unmarked(pc)
    ensures var x := StepHelper(s, p, c, pc, i);
            && Regular(x) && x.next.Helper? && x.next.c == c
            && if pc.Clean? then x.next.step.Update? && x.next.step.out.Confirmed? && x.next.step.tries == 0
               else Unmarked(x.next.step) && !x.next.step.SeeMark?
  {
  }

  /** A helper that has created its receipt goes on, past its decision and its cleanup, to mark that receipt, and tells its
      worker of the confirmation; only its death keeps it from the mark. */
  lemma CommittedGoesOn(s: State, p: Pid, i: Input)
    requires p in s.procs && s.procs[p].Helper? && i.gen <= s.gen && Unmarked(s.procs[p].step)
    ensures var t := Next(s, Step(p, i));
            && p in t.procs && t.procs[p].Helper? && t.procs[p].c == s.procs[p].c
            && var pc := t.procs[p].step;
               if s.procs[p].step.Clean? then pc.Update? && pc.out.Confirmed? && pc.tries == 0 else Unmarked(pc) && !pc.SeeMark?
  {
    hide StepHelper, Apply;
    UnmarkedGoesOn(s, p, s.procs[p].c, s.procs[p].step, i);
    AfterOwn(s, p, ProcStep(s, p, i));
  }

  /** Reading a receipt that it may mark, a helper goes on to mark it; reading any other, it ends. */
  lemma MarkReads(s: State, p: Pid, i: Input)
    requires p in s.procs && s.procs[p].Helper? && s.procs[p].step.Update? && i.gen <= s.gen
    ensures var c, pc, t := s.procs[p].c, s.procs[p].step, Next(s, Step(p, i));
            && t == s.(procs := t.procs) && p in t.procs
            && t.procs[p] == if c.event in s.receipts && Markable(s.receipts[c.event], pc.copy)
                             then Helper(c, CasUpdate(pc.copy, pc.out, pc.tries, s.receipts[c.event])) else Exited(c, pc.out)
  {
    hide StepApproach, StepLate, StepWorker, StepRelease, StepCommit, StepOperator;
  }

  /** The swap marks the receipt by what its cleanup came to; finding it changed, the helper reads it once more, and then
      leaves it. */
  lemma MarkWrites(s: State, p: Pid, i: Input)
    requires p in s.procs && s.procs[p].Helper? && s.procs[p].step.CasUpdate? && i.gen <= s.gen && i.choice == 0
    ensures var c, pc, t := s.procs[p].c, s.procs[p].step, Next(s, Step(p, i));
            && t == s.(procs := t.procs, receipts := t.receipts) && p in t.procs
            && if c.event in s.receipts && s.receipts[c.event] == pc.found then
                 && t.receipts == s.receipts[c.event := pc.found.(cleanup := if pc.copy.cleaned then Proven else Intervention)]
                 && t.procs[p] == Exited(c, pc.out)
               else
                 && t.receipts == s.receipts
                 && t.procs[p] == if pc.tries == 0 then Helper(c, Update(pc.copy, pc.out, 1)) else Exited(c, pc.out)
  {
    hide StepApproach, StepLate, StepWorker, StepRelease, StepCommit, StepOperator;
    assert s.procs[p].step.tries == 0 <==> s.procs[p].step.tries < 1;
  }

  /** Undisturbed, a receipt that is not marked yet is marked by what its helper's cleanup came to, and no other field
      or file changes. */
  lemma MarkAlone(s: State, p: Pid, i: Input, j: Input)
    requires p in s.procs && s.procs[p].Helper? && s.procs[p].step.Update? && i.gen <= s.gen && j.gen <= s.gen && j.choice == 0
    requires s.procs[p].c.event in s.receipts && Markable(s.receipts[s.procs[p].c.event], s.procs[p].step.copy)
    ensures var c, copy, t := s.procs[p].c, s.procs[p].step.copy, Next(Next(s, Step(p, i)), Step(p, j));
            && t == s.(procs := t.procs, receipts := t.receipts)
            && t.receipts == s.receipts[c.event := s.receipts[c.event].(cleanup := if copy.cleaned then Proven else Intervention)]
  {
    hide Next, Markable;
    MarkReads(s, p, i);
    MarkWrites(Next(s, Step(p, i)), p, j);
  }
}
