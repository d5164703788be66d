/** The activation lease and what is done under it. In a run with its actions, each lease written, each lease
    released, each claim made and each transport started is traced back to what the acting process had read,
    and to the clock and the generation that it was given when it read it. */
module WakeLeases {
  import opened Common
  import opened WakeProtocol
  import opened WakeInvariant
  import opened WakeSteps
  import opened WakeTheorems

  lemma ActedRun(run: seq<State>, acts: seq<Action>)
    requires Acted(run, acts)
    ensures Run(run)
  {
    hide Next, Init;
    forall k | 0 <= k < |run| - 1 ensures Steps(run[k], run[k + 1]) { assert run[k + 1] == Next(run[k], acts[k]); }
  }

  /** Action `j` is a step of this process. */
  ghost predicate ActsAt(acts: seq<Action>, j: nat, p: Pid) { j < |acts| && acts[j].Step? && acts[j].p == p }

  // ----- whose lease a process holds

  /** The lease that the process works under, or is about to give back. */
  function LeaseOf(pc: Proc): Option<Lease> {
    match pc
    case Approaching(_, ClaimFence(l)) => Some(l)
    case Approaching(_, ClaimCreate(l, _)) => Some(l)
    case Approaching(_, ClaimRead(l, _)) => Some(l)
    case Approaching(_, ClaimCas(l, _, _)) => Some(l)
    case Worker(_, l, _) => Some(l)
    case Releasing(l, _, _) => Some(l)
    case _ => None
  }

  ghost predicate OwnLease(s: State, p: Pid, pc: Proc) {
    && (LeaseOf(pc).Some? ==> LeaseOf(pc).value.owner == p && LeaseOf(pc).value.(owned := true) in s.leases)
    && (LeaseOf(pc).Some? && pc.Approaching? ==> LeaseOf(pc).value.event == pc.e)
    && (pc.Worker? ==> Names(pc.c, pc.l))
  }

  /** The claim was made under this lease. */
  predicate Names(c: Claim, l: Lease) { c.lease == l.id && c.token == l.token && c.event == l.event }

  /** Every process holds only leases that were written for it. */
  ghost predicate Holders(s: State) {
    && LeaseInv(s)
    && (forall j :: 0 <= j < |s.leases| ==> s.leases[j].owned)
    && forall p :: p in s.procs ==> OwnLease(s, p, s.procs[p])
  }

  /** A step goes on with the lease the process has, or takes up its own current one, for its own event. */
  ghost predicate NextHolds(s: State, p: Pid, was: Proc, next: Proc) {
    && (LeaseOf(next).Some? && LeaseOf(next) != LeaseOf(was) ==>
          && LeaseOf(next) == s.lease && s.lease.value.owned
          && if LeaseOf(was).None? then next.Approaching? && s.lease.value.owner == p && s.lease.value.event == next.e
             else next.Releasing? && s.lease.value.token == LeaseOf(was).value.token)
    && (LeaseOf(next).Some? && next.Approaching? && LeaseOf(next) == LeaseOf(was) ==> was.Approaching? && was.e == next.e)
    && (next.Worker? ==> was.Worker? && was.c == next.c && was.l == next.l)
  }

  /** A process writes a lease for itself, claims under the lease it holds, and gives back only that. */
  ghost predicate EffectHolds(s: State, p: Pid, was: Proc, x: Effect) {
    && (x.NewLease? ==> x.lease.owner == p && x.lease.owned && x.lease.event == x.e)
    && (x.NewClaim? ==> was.Approaching? && LeaseOf(was) == Some(x.l) && x.claim.event == was.e
                        && x.claim.lease == x.l.id && x.claim.token == x.l.token)
    && (x.Fork? ==> was.Worker? && was.c == x.claim && was.l == x.l)
    && (x.FreeLease? ==> LeaseOf(was).Some? && s.lease == LeaseOf(was) && x.lease == LeaseOf(was).value.(owned := false))
    && (Regular(x) ==> NextHolds(s, p, was, x.next))
  }

  lemma ApproachHolds(s: State, p: Pid, e: EventId, pc: ApproachPc, i: Input)
    ensures EffectHolds(s, p, Approaching(e, pc), StepApproach(s, p, e, pc, i))
  {
  }

  lemma WorkerHolds(s: State, p: Pid, c: Claim, l: Lease, pc: WorkerPc, i: Input)
    ensures EffectHolds(s, p, Worker(c, l, pc), StepWorker(s, p, c, l, pc, i))
  {
  }

  lemma HelperHolds(s: State, p: Pid, c: Claim, pc: HelperPc, i: Input)
    ensures EffectHolds(s, p, Helper(c, pc), StepHelper(s, p, c, pc, i))
  {
  }

  lemma OthersHold(s: State, p: Pid, i: Input)
    requires p in s.procs && !s.procs[p].Approaching? && !s.procs[p].Worker? && !s.procs[p].Helper?
    ensures EffectHolds(s, p, s.procs[p], ProcStep(s, p, i))
  {
  }

  lemma ProcHolds(s: State, p: Pid, i: Input)
    requires p in s.procs
    ensures EffectHolds(s, p, s.procs[p], ProcStep(s, p, i))
  {
    hide EffectHolds, StepApproach, StepWorker, StepHelper;
    var pc := s.procs[p];
    if pc.Approaching? { ApproachHolds(s, p, pc.e, pc.approach, i); }
    else if pc.Worker? { WorkerHolds(s, p, pc.c, pc.l, pc.at, i); }
    else if pc.Helper? { HelperHolds(s, p, pc.c, pc.step, i); }
    else { OthersHold(s, p, i); }
  }

  /** Leases of one token are one lease. */
  lemma OneToken(s: State, l: Lease, m: Lease)
    requires LeaseInv(s) && l.(owned := true) in s.leases && m.(owned := true) in s.leases && l.token == m.token
    ensures l.(owned := true) == m.(owned := true)
  {
    var i :| 0 <= i < |s.leases| && s.leases[i] == l.(owned := true);
    var j :| 0 <= j < |s.leases| && s.leases[j] == m.(owned := true);
    assert s.leases[i].token == s.leases[j].token;
    assert i == j;
  }

  lemma CurrentWritten(s: State)
    requires LeaseInv(s) && s.lease.Some? && forall j :: 0 <= j < |s.leases| ==> s.leases[j].owned
    ensures s.lease.value.(owned := true) in s.leases
  {
    assert s.leases[|s.leases| - 1] in s.leases;
  }

  lemma NextOwns(s: State, p: Pid, was: Proc, next: Proc)
    requires Holders(s) && OwnLease(s, p, was) && NextHolds(s, p, was, next)
    ensures OwnLease(s, p, next)
  {
    if LeaseOf(next).Some? && LeaseOf(next) != LeaseOf(was) {
      CurrentWritten(s);
      if LeaseOf(was).Some? { OneToken(s, LeaseOf(was).value, LeaseOf(next).value); }
    }
  }

  lemma OwnedStays(s: State, t: State, p: Pid, pc: Proc)
    requires OwnLease(s, p, pc) && s.leases <= t.leases
    ensures OwnLease(t, p, pc)
  {
    if LeaseOf(pc).Some? {
      var i :| 0 <= i < |s.leases| && s.leases[i] == LeaseOf(pc).value.(owned := true);
      assert t.leases[i] == s.leases[i];
    }
  }

  lemma ActorOwns(s: State, p: Pid, x: Effect)
    requires Holders(s) && p in s.procs && EffectHolds(s, p, s.procs[p], x)
    ensures OwnLease(Apply(s, p, x), p, Apply(s, p, x).procs[p])
  {
    hide LeaseInv;
    var t := Apply(s, p, x);
    assert OwnLease(s, p, s.procs[p]);
    OwnedStays(s, t, p, s.procs[p]);
    if Regular(x) {
      NextOwns(s, p, s.procs[p], x.next);
      OwnedStays(s, t, p, x.next);
    } else if x.NewLease? {
      assert t.leases[|s.leases|] == x.lease;
    }
  }

  /** The processes other than the acting one keep their place, but for a helper that is launched. */
  lemma OthersStay(s: State, p: Pid, x: Effect, q: Pid)
    requires q != p && q in Apply(s, p, x).procs
    ensures (q in s.procs && Apply(s, p, x).procs[q] == s.procs[q])
      || (x.Fork? && q == x.helper && Apply(s, p, x).procs[q] == Helper(x.claim, Read))
    ensures s.leases <= Apply(s, p, x).leases
  {
  }

  lemma ApplyHolders(s: State, p: Pid, x: Effect)
    requires Holders(s) && p in s.procs && EffectHolds(s, p, s.procs[p], x) && EffectFences(s, x)
    ensures Holders(Apply(s, p, x))
  {
    var t := Apply(s, p, x);
    ApplyLease(s, p, x);
    LeasesOwned(s, p, x);
    hide Apply, LeaseInv, NextHolds, EffectFences;
    forall q | q in t.procs ensures OwnLease(t, q, t.procs[q]) {
      if q == p { ActorOwns(s, p, x); } else {
        OthersStay(s, p, x, q);
        if q in s.procs && t.procs[q] == s.procs[q] { OwnedStays(s, t, q, s.procs[q]); }
      }
    }
  }

  lemma LeasesOwned(s: State, p: Pid, x: Effect)
    requires Holders(s) && p in s.procs && EffectHolds(s, p, s.procs[p], x)
    ensures var t := Apply(s, p, x); forall j :: 0 <= j < |t.leases| ==> t.leases[j].owned
  {
    hide LeaseInv, NextHolds, OwnLease;
  }

  lemma NextHolders(s: State, a: Action)
    requires Holders(s)
    ensures Holders(Next(s, a))
  {
    hide ProcStep, Apply, EffectHolds, LeaseInv, OwnLease;
    NextLease(s, a);
    var t := Next(s, a);
    if a.Step? && a.p in s.procs && a.i.gen <= s.gen {
      ProcHolds(s, a.p, a.i);
      ProcFences(s, a.p, a.i);
      ApplyHolders(s, a.p, ProcStep(s, a.p, a.i));
    } else {
      forall q | q in t.procs ensures OwnLease(t, q, t.procs[q]) { CallsHold(s, a, q); }
    }
  }

  lemma CallsHold(s: State, a: Action, q: Pid)
    requires Holders(s) && q in Next(s, a).procs && (a.Step? ==> Next(s, a) == s)
    ensures OwnLease(Next(s, a), q, Next(s, a).procs[q])
  {
    hide ProcStep, LeaseInv;
    assert q in s.procs ==> OwnLease(s, q, s.procs[q]);
  }

  lemma RunHolders(run: seq<State>, k: nat)
    requires Run(run) && k < |run|
    ensures Holders(run[k])
  {
    hide Next, LeaseInv;
    InitHolders(run[0]);
    forall s, t | Holders(s) && Steps(s, t) ensures Holders(t) {
      var a :| t == Next(s, a);
      NextHolders(s, a);
    }
    Invariance(Holders, Steps, run, k);
  }

  lemma InitHolders(s: State)
    requires Init(s)
    ensures Holders(s)
  {
  }

  // ----- a lease is replaced only by a process that had read that it may be

  /** No lease, or one that is released, of another generation than the one read beside it, or expired by now. */
  predicate Replaceable(lease: Option<Lease>, i: Input) {
    lease.None? || !lease.value.owned || lease.value.gen != i.gen || lease.value.expires <= i.now
  }

  /** Step `j` of the run is the reading of the lease by `p`, as replaceable, for a lease of this generation and expiry. */
  ghost predicate ReadReplaceable(run: seq<State>, acts: seq<Action>, j: nat, p: Pid, seen: Option<Lease>, expires: int, g: nat) {
    && |acts| < |run| && ActsAt(acts, j, p)
    && run[j].lease == seen && Replaceable(seen, acts[j].i) && acts[j].i.gen == g && acts[j].i.now < expires
  }

  predicate AtLeaseCas(pc: Proc) { pc.Approaching? && pc.approach.LeaseCas? }

  /** What the step has read when its process is about to write a lease. */
  ghost predicate CasRead(s: State, x: Effect, i: Input) {
    Regular(x) && AtLeaseCas(x.next) ==>
      var pc := x.next.approach;
      s.lease == pc.seen && Replaceable(pc.seen, i) && i.gen == pc.g && i.now < pc.expires
  }

  lemma ApproachReadsLease(s: State, p: Pid, e: EventId, pc: ApproachPc, i: Input)
    ensures CasRead(s, StepApproach(s, p, e, pc, i), i)
  {
  }

  lemma ProcReadsLease(s: State, p: Pid, i: Input)
    requires p in s.procs
    ensures CasRead(s, ProcStep(s, p, i), i)
  {
    hide StepApproach, StepWorker, StepHelper, EffectHolds;
    var pc := s.procs[p];
    if pc.Approaching? { ApproachReadsLease(s, p, pc.e, pc.approach, i); }
    else if pc.Worker? { WorkerNeverReads(s, p, pc.c, pc.l, pc.at, i); }
    else if pc.Helper? { HelperNeverReads(s, p, pc.c, pc.step, i); }
  }

  lemma WorkerNeverReads(s: State, p: Pid, c: Claim, l: Lease, pc: WorkerPc, i: Input)
    ensures var x := StepWorker(s, p, c, l, pc, i); Regular(x) ==> !x.next.Approaching?
  {
  }

  lemma HelperNeverReads(s: State, p: Pid, c: Claim, pc: HelperPc, i: Input)
    ensures var x := StepHelper(s, p, c, pc, i); Regular(x) ==> !x.next.Approaching?
  {
  }

  // ----- where a process can be after a step

  /** The place of the acting process after its effect. */
  function After(was: Proc, x: Effect): Proc {
    if x.Stay? then was
    else if x.NewLease? then Approaching(x.e, ClaimFence(x.lease))
    else if x.NewClaim? then Worker(x.claim, x.l, Hold)
    else if x.Fork? then Worker(x.claim, x.l, Wait(x.helper))
    else if x.Start? then Helper(x.claim, Observe(x.journal))
    else x.next
  }

  ghost predicate Acts(s: State, a: Action, p: Pid) { a.Step? && a.p == p && p in s.procs && a.i.gen <= s.gen }

  ghost predicate Launched(s: State, a: Action, p: Pid) {
    a.Step? && a.p in s.procs && var x := ProcStep(s, a.p, a.i); x.Fork? && x.helper == p
  }

  /** The action is a call, and this is where it begins. */
  ghost predicate Begins(a: Action, p: Pid, pc: Proc) {
    match a
    case Deliver(q, e) => q == p && pc == Approaching(e, Look)
    case Reconcile(q, e) => q == p && pc == Operating(AbsentDecision(e))
    case Consume(q, e, delivery) => q == p && pc == Operating(ConsumeReceipt(e, delivery))
    case _ => false
  }

  lemma AfterOwn(s: State, p: Pid, x: Effect)
    requires p in s.procs && (x.Fork? ==> x.helper != p)
    ensures p in Apply(s, p, x).procs && Apply(s, p, x).procs[p] == After(s.procs[p], x)
  {
  }

  lemma ForksAnother(s: State, p: Pid, i: Input)
    requires p in s.procs
    ensures ProcStep(s, p, i).Fork? ==> ProcStep(s, p, i).helper !in s.procs
  {
    hide StepApproach, StepHelper;
    var pc := s.procs[p];
    if pc.Approaching? { ApproachForks(s, p, pc.e, pc.approach, i); }
    if pc.Helper? { HelperForks(s, p, pc.c, pc.step, i); }
  }

  lemma ApproachForks(s: State, p: Pid, e: EventId, pc: ApproachPc, i: Input)
    ensures !StepApproach(s, p, e, pc, i).Fork?
  {
  }

  lemma HelperForks(s: State, p: Pid, c: Claim, pc: HelperPc, i: Input)
    ensures !StepHelper(s, p, c, pc, i).Fork?
  {
  }

  /** A process is where it was, moves by its own step, is launched, or begins a call. */
  lemma Moved(s: State, a: Action, p: Pid)
    requires p in Next(s, a).procs
    ensures var pc := Next(s, a).procs[p];
            || (p in s.procs && pc == s.procs[p])
            || (Acts(s, a, p) && pc == After(s.procs[p], ProcStep(s, p, a.i)))
            || (Launched(s, a, p) && pc == Helper(ProcStep(s, a.p, a.i).claim, Read))
            || Begins(a, p, pc)
  {
    hide ProcStep, Apply, After;
    if a.Step? && a.p in s.procs && a.i.gen <= s.gen {
      var x := ProcStep(s, a.p, a.i);
      ForksAnother(s, a.p, a.i);
      if a.p == p { AfterOwn(s, p, x); } else { OthersStay(s, a.p, x, p); }
    }
  }

  /** Whoever is about to write a lease has read, within the run, that it may. */
  lemma {:induction false} CasHasRead(run: seq<State>, acts: seq<Action>, k: nat, p: Pid)
    requires Acted(run, acts) && k < |run| && p in run[k].procs && AtLeaseCas(run[k].procs[p])
    ensures var pc := run[k].procs[p].approach;
            exists j :: 0 <= j < k && ReadReplaceable(run, acts, j, p, pc.seen, pc.expires, pc.g)
  {
    hide Next, ProcStep;
    assert k > 0;
    var s, a := run[k - 1], acts[k - 1];
    assert run[k - 1 + 1] == Next(s, a);
    Moved(s, a, p);
    if p in s.procs && run[k].procs[p] == s.procs[p] {
      CasHasRead(run, acts, k - 1, p);
    } else {
      ProcReadsLease(s, p, a.i);
      var pc := run[k].procs[p].approach;
      assert ReadReplaceable(run, acts, k - 1, p, pc.seen, pc.expires, pc.g);
    }
  }

  /** A lease is written by a process that stands at its compare-and-swap, in place of the lease it had read. */
  lemma ApproachWritesLease(s: State, p: Pid, e: EventId, pc: ApproachPc, i: Input)
    ensures var x := StepApproach(s, p, e, pc, i);
            x.NewLease? ==> pc.LeaseCas? && s.lease == pc.seen && x.lease.gen == pc.g && x.lease.expires == pc.expires
  {
  }

  lemma WritesLease(s: State, p: Pid, i: Input)
    requires p in s.procs && ProcStep(s, p, i).NewLease?
    ensures AtLeaseCas(s.procs[p])
    ensures var pc := s.procs[p].approach;
            var l := ProcStep(s, p, i).lease;
            s.lease == pc.seen && l.gen == pc.g && l.expires == pc.expires
  {
    hide StepApproach, StepWorker, StepHelper;
    var pc := s.procs[p];
    if pc.Approaching? { ApproachWritesLease(s, p, pc.e, pc.approach, i); }
    else if pc.Worker? { WorkerFences(s, p, pc.c, pc.l, pc.at, i); WorkerWritesNoLease(s, p, pc.c, pc.l, pc.at, i); }
    else if pc.Helper? { HelperWritesNoLease(s, p, pc.c, pc.step, i); }
  }

  lemma WorkerWritesNoLease(s: State, p: Pid, c: Claim, l: Lease, pc: WorkerPc, i: Input)
    ensures !StepWorker(s, p, c, l, pc, i).NewLease?
  {
  }

  lemma HelperWritesNoLease(s: State, p: Pid, c: Claim, pc: HelperPc, i: Input)
    ensures !StepHelper(s, p, c, pc, i).NewLease?
  {
  }

  /** The step releases the lease, and its process is the owner. */
  ghost predicate GivesBack(s: State, a: Action, t: State) {
    && a.Step? && s.lease.Some? && s.lease.value.owner == a.p
    && t.lease == Some(s.lease.value.(owned := false))
  }

  /** The step writes the next lease for its process, which had read at step `j` that it may: the lease was then
      what it still is, and it was none, or released, or of another generation than the one of the file, or
      expired at the clock of the reader. */
  ghost predicate Takes(run: seq<State>, acts: seq<Action>, j: nat, k: nat) {
    && k < |acts| < |run| && j < k && acts[k].Step? && run[k + 1].lease.Some?
    && var l := run[k + 1].lease.value;
       && l.owner == acts[k].p && l.owned
       && l.token == (if run[k].lease.Some? then run[k].lease.value.token + 1 else 1)
       && ReadReplaceable(run, acts, j, acts[k].p, run[k].lease, l.expires, l.gen)
  }

  /** In every run the activation lease changes only in two ways: its owner gives it back, or a process takes it
      that had read it as replaceable. A lease that is owned and of the generation of the file is not replaced
      before a clock has passed its expiry. */
  lemma LeaseTakenOnlyWhenFree(run: seq<State>, acts: seq<Action>, k: nat)
    requires Acted(run, acts) && k < |acts| && run[k + 1].lease != run[k].lease
    ensures GivesBack(run[k], acts[k], run[k + 1]) || exists j :: Takes(run, acts, j, k)
  {
    hide Next, Holders, ReadReplaceable, EffectHolds, EffectFences;
    var s, a := run[k], acts[k];
    ActedRun(run, acts);
    RunHolders(run, k);
    assert run[k + 1] == Next(s, a);
    LeaseChanges(s, a);
    var x := ProcStep(s, a.p, a.i);
    ProcHolds(s, a.p, a.i);
    ProcFences(s, a.p, a.i);
    if x.NewLease? {
      WritesLease(s, a.p, a.i);
      CasHasRead(run, acts, k, a.p);
      var pc := s.procs[a.p].approach;
      var j :| 0 <= j < k && ReadReplaceable(run, acts, j, a.p, pc.seen, pc.expires, pc.g);
      TakesHere(run, acts, j, k);
    } else {
      GivenBack(s, a.p, x);
    }
  }

  lemma TakesHere(run: seq<State>, acts: seq<Action>, j: nat, k: nat)
    requires Acted(run, acts) && j < k < |acts| && acts[k].Step? && Acts(run[k], acts[k], acts[k].p)
    requires var x := ProcStep(run[k], acts[k].p, acts[k].i);
             && x.NewLease? && EffectHolds(run[k], acts[k].p, run[k].procs[acts[k].p], x) && EffectFences(run[k], x)
             && ReadReplaceable(run, acts, j, acts[k].p, run[k].lease, x.lease.expires, x.lease.gen)
    ensures Takes(run, acts, j, k)
  {
    hide ProcStep, ReadReplaceable, Init;
    assert run[k + 1] == Next(run[k], acts[k]);
  }

  lemma GivenBack(s: State, p: Pid, x: Effect)
    requires Holders(s) && p in s.procs && EffectHolds(s, p, s.procs[p], x) && x.FreeLease?
    ensures s.lease.Some? && s.lease.value.owner == p
    ensures Apply(s, p, x).lease == Some(s.lease.value.(owned := false))
  {
    hide LeaseInv, NextHolds;
    assert OwnLease(s, p, s.procs[p]);
  }

  lemma LeaseChanges(s: State, a: Action)
    requires Next(s, a).lease != s.lease
    ensures a.Step? && Acts(s, a, a.p) && Next(s, a) == Apply(s, a.p, ProcStep(s, a.p, a.i))
    ensures ProcStep(s, a.p, a.i).NewLease? || ProcStep(s, a.p, a.i).FreeLease?
  {
    hide ProcStep, Apply;
    if a.Step? && a.p in s.procs { ApplyChangesLease(s, a.p, ProcStep(s, a.p, a.i)); }
  }

  lemma ApplyChangesLease(s: State, p: Pid, x: Effect)
    ensures Apply(s, p, x).lease != s.lease ==> x.NewLease? || x.FreeLease?
  {
  }

  // ----- the three answers of acquireActivationLease

  predicate AtLeaseRead(s: State, p: Pid, e: EventId) {
    p in s.procs && s.procs[p].Approaching? && s.procs[p].e == e && s.procs[p].approach.LeaseRead?
  }

  /** A process that reads another's lease as owned, of its generation and unexpired, is refused: it ends, and
      nothing else changes. */
  lemma RefusedLeavesLease(s: State, p: Pid, e: EventId, i: Input)
    requires AtLeaseRead(s, p, e) && i.gen <= s.gen && s.lease.Some?
    requires var l := s.lease.value;
             l.owned && l.gen == i.gen && i.now < l.expires && (l.event != e || l.owner != p)
    ensures Next(s, Step(p, i)) == s.(procs := s.procs[p := Idle])
  {
  }

  /** A process that reads a replaceable lease takes it when nobody changes it before its compare-and-swap. */
  lemma FreeLeaseIsTaken(s: State, s': State, t: State, p: Pid, e: EventId, i: Input, j: Input)
    requires AtLeaseRead(s, p, e) && i.gen <= s.gen && Replaceable(s.lease, i) && s' == Next(s, Step(p, i))
    requires p in s'.procs && p in t.procs && t.procs[p] == s'.procs[p] && t.lease == s.lease
    requires j.gen <= t.gen && j.choice == 0
    ensures s'.lease == s.lease
    ensures var u := Next(t, Step(p, j));
            && p in u.procs && u.lease.Some? && LeaseOf(u.procs[p]) == u.lease
            && u.lease.value.owned && u.lease.value.owner == p && u.lease.value.event == e
            && u.lease.value.gen == i.gen && i.now < u.lease.value.expires
  {
    hide StepLate, StepWorker, StepRelease, StepCommit, StepHelper, StepOperator;
  }

  /** A process whose swap finds the lease changed leaves it; it reads the lease once more, and then gives up. */
  lemma RacedLeavesLease(s: State, p: Pid, e: EventId, i: Input)
    requires p in s.procs && s.procs[p].Approaching? && s.procs[p].e == e && AtLeaseCas(s.procs[p])
    requires i.gen <= s.gen && i.choice == 0 && s.lease != s.procs[p].approach.seen
    ensures var t := Next(s, Step(p, i));
            && t == s.(procs := t.procs) && p in t.procs
            && (s.procs[p].approach.tries == 0 ==> AtLeaseRead(t, p, e))
            && (s.procs[p].approach.tries > 0 ==> t.procs[p] == Idle)
  {
  }

  /** A process that reads its own current lease for the same event goes on under it. */
  lemma OwnLeaseIsKept(s: State, p: Pid, e: EventId, i: Input)
    requires AtLeaseRead(s, p, e) && i.gen <= s.gen && s.lease.Some?
    requires var l := s.lease.value; l.owned && l.gen == i.gen && i.now < l.expires && l.event == e && l.owner == p
    ensures Next(s, Step(p, i)).lease == s.lease && LeaseOf(Next(s, Step(p, i)).procs[p]) == s.lease
  {
  }

  /** A process that is done with its lease, and finds it still the current one, gives it back when nobody changes it in
      between, and then ends or goes on to commit. */
  lemma ReleaseGivesBack(s: State, s': State, t: State, p: Pid, i: Input, j: Input)
    requires p in s.procs && s.procs[p].Releasing? && !s.procs[p].seen
    requires s.lease == Some(s.procs[p].held) && s.procs[p].held.owned && i.gen <= s.gen && s' == Next(s, Step(p, i))
    requires p in s'.procs && p in t.procs && t.procs[p] == s'.procs[p] && t.lease == s.lease && j.gen <= t.gen && j.choice == 0
    ensures s'.lease == s.lease
    ensures var u := Next(t, Step(p, j));
            && u.lease == Some(s.procs[p].held.(owned := false)) && p in u.procs
            && (s.procs[p].pending.None? ==> u.procs[p] == Idle)
            && (s.procs[p].pending.Some? ==> u.procs[p].Committing? && u.procs[p].r.claim == s.procs[p].pending.value && u.procs[p].r.owner == p)
  {
    hide StepApproach, StepLate, StepWorker, StepCommit, StepHelper, StepOperator;
  }
}
