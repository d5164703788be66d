/** What is done under the activation lease. In a run with its actions, every claim made and every transport
    started is traced back to the steps in which the acting process had read its own lease as current. */
module WakeFences {
  import opened Common
  import opened WakeProtocol
  import opened WakeInvariant
  import opened WakeSteps
  import opened WakeTheorems
  import opened WakeLeases

  /** The lease is the durable one, it is owned by this process and of the generation of the file, and the clock
      has not reached its expiry. */
  ghost predicate ReadsCurrent(s: State, p: Pid, l: Lease, i: Input) {
    s.lease == Some(l) && l.owned && l.owner == p && l.gen == i.gen && i.now < l.expires
  }

  /** Step `j` of the run is such a reading by `p`. */
  ghost predicate Fenced(run: seq<State>, acts: seq<Action>, j: nat, p: Pid, l: Lease) {
    |acts| < |run| && ActsAt(acts, j, p) && ReadsCurrent(run[j], p, l, acts[j].i)
  }

  // ----- claims

  predicate Claiming(pc: Proc) { pc.Approaching? && (pc.approach.ClaimCreate? || pc.approach.ClaimRead? || pc.approach.ClaimCas?) }

  predicate Reclaiming(pc: Proc) { pc.Approaching? && pc.approach.ClaimCas? }

  ghost predicate Asked(s: State, e: EventId, l: Lease, g: nat) {
    e in s.requests && s.requests[e].gen == g && l.gen == g
  }

  ghost predicate Retryable(s: State, e: EventId, d: Decision) {
    e in s.decisions && s.decisions[e] == d && d.status.NotStarted?
  }

  /** What the step has read when its process goes on to claim. */
  ghost predicate ReadsForClaim(s: State, p: Pid, was: Proc, x: Effect, i: Input) {
    Regular(x) ==>
      && (Claiming(x.next) ==>
            || (Claiming(was) && was.e == x.next.e && was.approach.l == x.next.approach.l && was.approach.g == x.next.approach.g)
            || (was.Approaching? && LeaseOf(was) == Some(x.next.approach.l) && Current(s, x.next.approach.l, i)
                && Asked(s, x.next.e, x.next.approach.l, x.next.approach.g)))
      && (Reclaiming(x.next) ==>
            LeaseOf(was) == LeaseOf(x.next) && Current(s, x.next.approach.l, i) && Retryable(s, x.next.e, x.next.approach.cur))
  }

  /** ReadsCurrent, for whoever owns the lease. */
  ghost predicate Current(s: State, l: Lease, i: Input) { ReadsCurrent(s, l.owner, l, i) }

  lemma ApproachReadsClaim(s: State, p: Pid, e: EventId, pc: ApproachPc, i: Input)
    ensures ReadsForClaim(s, p, Approaching(e, pc), StepApproach(s, p, e, pc, i), i)
  {
  }

  lemma ProcReadsClaim(s: State, p: Pid, i: Input)
    requires p in s.procs
    ensures ReadsForClaim(s, p, s.procs[p], ProcStep(s, p, i), i)
  {
    hide StepApproach, StepWorker, StepHelper, FenceCurrent;
    var pc := s.procs[p];
    if pc.Approaching? { ApproachReadsClaim(s, p, pc.e, pc.approach, i); }
    else if pc.Worker? { WorkerNeverReads(s, p, pc.c, pc.l, pc.at, i); }
    else if pc.Helper? { HelperNeverReads(s, p, pc.c, pc.step, i); }
  }

  lemma HeldIsOwn(run: seq<State>, k: nat, p: Pid)
    requires Run(run) && k < |run| && p in run[k].procs
    ensures LeaseOf(run[k].procs[p]).Some? ==> LeaseOf(run[k].procs[p]).value.owner == p
    ensures LeaseOf(run[k].procs[p]).Some? && run[k].procs[p].Approaching? ==> LeaseOf(run[k].procs[p]).value.event == run[k].procs[p].e
    ensures run[k].procs[p].Worker? ==> Names(run[k].procs[p].c, run[k].procs[p].l)
  {
    hide LeaseInv;
    RunHolders(run, k);
    assert OwnLease(run[k], p, run[k].procs[p]);
  }

  /** Step `j` is a check of the lease that found the request of the event in the lease's generation. */
  ghost predicate FencedClaim(run: seq<State>, acts: seq<Action>, j: nat, p: Pid, e: EventId, l: Lease, g: nat) {
    Fenced(run, acts, j, p, l) && Asked(run[j], e, l, g)
  }

  /** Step `j` is a check of the lease that found the event's decision to be this one, and retryable. */
  ghost predicate FencedRetry(run: seq<State>, acts: seq<Action>, j: nat, p: Pid, e: EventId, l: Lease, d: Decision) {
    Fenced(run, acts, j, p, l) && Retryable(run[j], e, d)
  }

  lemma {:induction false} ClaimingHasRead(run: seq<State>, acts: seq<Action>, k: nat, p: Pid)
    requires Acted(run, acts) && k < |run| && p in run[k].procs && Claiming(run[k].procs[p])
    ensures var pc := run[k].procs[p]; exists j :: 0 <= j < k && FencedClaim(run, acts, j, p, pc.e, pc.approach.l, pc.approach.g)
  {
    hide Next, ProcStep, ReadsCurrent, Asked, Retryable;
    assert k > 0;
    var s, a, pc := run[k - 1], acts[k - 1], run[k].procs[p];
    assert run[k - 1 + 1] == Next(s, a);
    ActedRun(run, acts);
    Moved(s, a, p);
    if p in s.procs && pc == s.procs[p] {
      ClaimingHasRead(run, acts, k - 1, p);
    } else {
      ProcReadsClaim(s, p, a.i);
      HeldIsOwn(run, k - 1, p);
      if Claiming(s.procs[p]) && s.procs[p].e == pc.e && s.procs[p].approach.l == pc.approach.l && s.procs[p].approach.g == pc.approach.g {
        ClaimingHasRead(run, acts, k - 1, p);
      } else {
        assert FencedClaim(run, acts, k - 1, p, pc.e, pc.approach.l, pc.approach.g);
      }
    }
  }

  lemma {:induction false} ReclaimingHasRead(run: seq<State>, acts: seq<Action>, k: nat, p: Pid)
    requires Acted(run, acts) && k < |run| && p in run[k].procs && Reclaiming(run[k].procs[p])
    ensures var pc := run[k].procs[p]; exists j :: 0 <= j < k && FencedRetry(run, acts, j, p, pc.e, pc.approach.l, pc.approach.cur)
  {
    hide Next, ProcStep, ReadsCurrent, Asked, Retryable;
    assert k > 0;
    var s, a, pc := run[k - 1], acts[k - 1], run[k].procs[p];
    assert run[k - 1 + 1] == Next(s, a);
    ActedRun(run, acts);
    Moved(s, a, p);
    if p in s.procs && pc == s.procs[p] {
      ReclaimingHasRead(run, acts, k - 1, p);
    } else {
      ProcReadsClaim(s, p, a.i);
      HeldIsOwn(run, k - 1, p);
      assert FencedRetry(run, acts, k - 1, p, pc.e, pc.approach.l, pc.approach.cur);
    }
  }

  /** A claim replaces nothing, or the retryable decision its process had read, which it records. */
  ghost predicate Settles(s: State, was: Proc, x: Effect) {
    x.NewClaim? ==>
      && Claiming(was) && x.l == was.approach.l && x.claim.gen == was.approach.g && x.claim.event == was.e
      && (was.e in s.decisions ==>
            && Reclaiming(was) && s.decisions[was.e] == was.approach.cur
            && x.prior == was.approach.cur.prior + [was.approach.cur.claim])
      && (was.e !in s.decisions ==> x.prior == [])
  }

  lemma ApproachSettles(s: State, p: Pid, e: EventId, pc: ApproachPc, i: Input)
    ensures Settles(s, Approaching(e, pc), StepApproach(s, p, e, pc, i))
  {
  }

  lemma ProcSettles(s: State, p: Pid, i: Input)
    requires p in s.procs
    ensures Settles(s, s.procs[p], ProcStep(s, p, i))
  {
    hide StepApproach, StepWorker, StepHelper;
    var pc := s.procs[p];
    if pc.Approaching? { ApproachSettles(s, p, pc.e, pc.approach, i); }
    else if pc.Worker? { WorkerClaimsNothing(s, p, pc.c, pc.l, pc.at, i); }
    else if pc.Helper? { HelperClaimsNothing(s, p, pc.c, pc.step, i); }
  }

  lemma WorkerClaimsNothing(s: State, p: Pid, c: Claim, l: Lease, pc: WorkerPc, i: Input)
    ensures !StepWorker(s, p, c, l, pc, i).NewClaim?
  {
  }

  lemma HelperClaimsNothing(s: State, p: Pid, c: Claim, pc: HelperPc, i: Input)
    ensures !StepHelper(s, p, c, pc, i).NewClaim?
  {
  }

  lemma ClaimsAdded(s: State, a: Action)
    requires Next(s, a).made != s.made
    ensures a.Step? && Acts(s, a, a.p) && ProcStep(s, a.p, a.i).NewClaim?
    ensures Next(s, a) == Apply(s, a.p, ProcStep(s, a.p, a.i))
  {
    hide ProcStep, Apply;
    if a.Step? && a.p in s.procs { ApplyAdds(s, a.p, ProcStep(s, a.p, a.i)); }
  }

  lemma ApplyAdds(s: State, p: Pid, x: Effect)
    ensures Apply(s, p, x).made != s.made ==> x.NewClaim?
    ensures x.NewClaim? ==> Apply(s, p, x).made == s.made + {x.claim}
    ensures x.NewClaim? ==> Apply(s, p, x).decisions == s.decisions[x.claim.event := Decision(x.claim, Claimed, false, x.prior)]
  {
  }

  /** The decision of a new claim starts its history, or continues that of a decision whose transport did not start. */
  ghost predicate Continues(s: State, t: State, c: Claim) {
    && c.event in t.decisions && t.decisions[c.event].claim == c && t.decisions[c.event].status.Claimed?
    && (c.event !in s.decisions ==> t.decisions[c.event].prior == [])
    && (c.event in s.decisions ==>
          && s.decisions[c.event].status.NotStarted?
          && t.decisions[c.event].prior == s.decisions[c.event].prior + [s.decisions[c.event].claim])
  }

  /** In every run a claim is made only under a lease that its process has checked: at some earlier step the lease
      named in the claim, for the same event and generation, was current at the clock of that process, and the
      request of the event was of that generation. A claim that replaces another has a second such check, in which
      the replaced decision was already there and retryable. */
  lemma ClaimsAreFenced(run: seq<State>, acts: seq<Action>, k: nat, c: Claim)
    requires Acted(run, acts) && k < |acts| && c in run[k + 1].made && c !in run[k].made
    ensures acts[k].Step? && Continues(run[k], run[k + 1], c)
    ensures exists j, l :: 0 <= j < k && Names(c, l) && FencedClaim(run, acts, j, acts[k].p, c.event, l, c.gen)
    ensures c.event in run[k].decisions ==>
              exists j, l :: 0 <= j < k && Names(c, l) && FencedRetry(run, acts, j, acts[k].p, c.event, l, run[k].decisions[c.event])
  {
    hide Next, ProcStep, Apply, FencedClaim, FencedRetry, NextHolds;
    var s, a := run[k], acts[k];
    assert run[k + 1] == Next(s, a);
    ClaimsAdded(s, a);
    ActedRun(run, acts);
    var pc, x := s.procs[a.p], ProcStep(s, a.p, a.i);
    ApplyAdds(s, a.p, x);
    ProcHolds(s, a.p, a.i);
    ProcSettles(s, a.p, a.i);
    HeldIsOwn(run, k, a.p);
    assert x.claim == c && Names(c, x.l);
    ClaimingHasRead(run, acts, k, a.p);
    if c.event in s.decisions {
      ReclaimingHasRead(run, acts, k, a.p);
      var j :| 0 <= j < k && FencedRetry(run, acts, j, a.p, pc.e, pc.approach.l, pc.approach.cur);
      ReadRetryable(run, acts, j, a.p, pc.e, pc.approach.l, pc.approach.cur);
    }
  }

  lemma ReadRetryable(run: seq<State>, acts: seq<Action>, j: nat, p: Pid, e: EventId, l: Lease, d: Decision)
    requires FencedRetry(run, acts, j, p, e, l, d)
    ensures d.status.NotStarted?
  {
  }

  // ----- starts

  /** The worker has passed the check that follows its claim. */
  predicate Checked(at: WorkerPc) { at.Prepare? || at.Final? || Rechecked(at) }

  /** The worker has passed the last check before the launch. */
  predicate Rechecked(at: WorkerPc) { at.PreDelivery? || at.ResumeRead? || at.ResumeWrite? || at.Launch? }

  /** What the step has read when its worker goes on towards the launch. */
  ghost predicate ReadsForLaunch(s: State, was: Proc, x: Effect, i: Input) {
    && (Regular(x) && x.next.Worker? && Checked(x.next.at) ==>
          && was.Worker? && was.c == x.next.c && was.l == x.next.l
          && (Checked(was.at) || Current(s, was.l, i))
          && (x.next.at.Final? ==> was.at.Final? || (x.PutJournal? && x.attempt == was.c.attempt))
          && (Rechecked(x.next.at) ==> Rechecked(was.at) || (was.at.Final? && Current(s, was.l, i))))
    && (x.Fork? ==> was.Worker? && Rechecked(was.at) && was.c == x.claim && was.l == x.l)
    && (Regular(x) && x.next.Helper? ==> was.Helper? && was.c == x.next.c && (PreSpawn(x.next.step) ==> PreSpawn(was.step)))
    && (x.Start? ==> was.Helper? && PreSpawn(was.step) && was.c == x.claim)
  }

  lemma WorkerReadsForLaunch(s: State, p: Pid, c: Claim, l: Lease, pc: WorkerPc, i: Input)
    ensures ReadsForLaunch(s, Worker(c, l, pc), StepWorker(s, p, c, l, pc, i), i)
  {
  }

  lemma HelperReadsForLaunch(s: State, p: Pid, c: Claim, pc: HelperPc, i: Input)
    ensures ReadsForLaunch(s, Helper(c, pc), StepHelper(s, p, c, pc, i), i)
  {
  }

  lemma ApproachReadsForLaunch(s: State, p: Pid, e: EventId, pc: ApproachPc, i: Input)
    ensures ReadsForLaunch(s, Approaching(e, pc), StepApproach(s, p, e, pc, i), i)
  {
  }

  lemma ProcReadsForLaunch(s: State, p: Pid, i: Input)
    requires p in s.procs
    ensures ReadsForLaunch(s, s.procs[p], ProcStep(s, p, i), i)
  {
    hide StepApproach, StepWorker, StepHelper, ReadsCurrent;
    var pc := s.procs[p];
    if pc.Approaching? { ApproachReadsForLaunch(s, p, pc.e, pc.approach, i); }
    else if pc.Worker? { WorkerReadsForLaunch(s, p, pc.c, pc.l, pc.at, i); }
    else if pc.Helper? { HelperReadsForLaunch(s, p, pc.c, pc.step, i); }
  }

  /** Step `j` is a check of the lease, after the claim was made. */
  ghost predicate FencedStep(run: seq<State>, acts: seq<Action>, j: nat, p: Pid, c: Claim, l: Lease) {
    Fenced(run, acts, j, p, l) && c in run[j].made
  }

  ghost predicate FencedOnce(run: seq<State>, acts: seq<Action>, k: nat, p: Pid, c: Claim, l: Lease) {
    exists j :: 0 <= j < k && FencedStep(run, acts, j, p, c, l)
  }

  /** Two checks of the lease after the claim: one at once, and one when the journal of the attempt was there. */
  ghost predicate FencedTwice(run: seq<State>, acts: seq<Action>, k: nat, p: Pid, c: Claim, l: Lease) {
    exists i, j :: 0 <= i < j < k && FencedStep(run, acts, i, p, c, l) && FencedStep(run, acts, j, p, c, l)
                   && c.attempt in run[j].evidence
  }

  lemma EvidenceGrows(s: State, a: Action)
    ensures s.evidence.Keys <= Next(s, a).evidence.Keys
  {
    hide ProcStep, Apply;
    if a.Step? && a.p in s.procs { ApplyEvidence(s, a.p, ProcStep(s, a.p, a.i)); }
  }

  lemma ApplyEvidence(s: State, p: Pid, x: Effect)
    ensures s.evidence.Keys <= Apply(s, p, x).evidence.Keys
    ensures x.PutJournal? ==> x.attempt in Apply(s, p, x).evidence
  {
  }

  lemma WorkerClaim(run: seq<State>, k: nat, p: Pid)
    requires Run(run) && k < |run| && p in run[k].procs && run[k].procs[p].Worker?
    ensures run[k].procs[p].c in run[k].made && run[k].procs[p].l.owner == p
  {
    hide Inv;
    RunInv(run, k);
    ProcFacts(run[k], p);
    HeldIsOwn(run, k, p);
  }

  lemma {:induction false} FinalHasJournal(run: seq<State>, acts: seq<Action>, k: nat, p: Pid)
    requires Acted(run, acts) && k < |run| && p in run[k].procs && run[k].procs[p].Worker? && run[k].procs[p].at.Final?
    ensures run[k].procs[p].c.attempt in run[k].evidence
  {
    hide Next, ProcStep, ReadsCurrent, Apply;
    assert k > 0;
    var s, a := run[k - 1], acts[k - 1];
    assert run[k - 1 + 1] == Next(s, a);
    EvidenceGrows(s, a);
    Moved(s, a, p);
    if p in s.procs && s.procs[p].Worker? && s.procs[p].at.Final? && s.procs[p].c == run[k].procs[p].c {
      FinalHasJournal(run, acts, k - 1, p);
    } else {
      ProcReadsForLaunch(s, p, a.i);
      Stepped(s, a);
      ApplyEvidence(s, p, ProcStep(s, p, a.i));
    }
  }

  lemma Stepped(s: State, a: Action)
    requires a.Step? && Acts(s, a, a.p)
    ensures Next(s, a) == Apply(s, a.p, ProcStep(s, a.p, a.i))
  {
    hide ProcStep, Apply;
  }

  lemma {:induction false} CheckedHasRead(run: seq<State>, acts: seq<Action>, k: nat, p: Pid)
    requires Acted(run, acts) && k < |run| && p in run[k].procs && run[k].procs[p].Worker? && Checked(run[k].procs[p].at)
    ensures FencedOnce(run, acts, k, p, run[k].procs[p].c, run[k].procs[p].l)
  {
    hide Next, ProcStep, ReadsCurrent;
    assert k > 0;
    var s, a, pc := run[k - 1], acts[k - 1], run[k].procs[p];
    assert run[k - 1 + 1] == Next(s, a);
    ActedRun(run, acts);
    Moved(s, a, p);
    if p in s.procs && pc == s.procs[p] {
      CheckedHasRead(run, acts, k - 1, p);
    } else {
      ProcReadsForLaunch(s, p, a.i);
      if Checked(s.procs[p].at) { CheckedHasRead(run, acts, k - 1, p); }
      else {
        WorkerClaim(run, k - 1, p);
        assert FencedStep(run, acts, k - 1, p, pc.c, pc.l);
      }
    }
  }

  lemma {:induction false} RecheckedHasRead(run: seq<State>, acts: seq<Action>, k: nat, p: Pid)
    requires Acted(run, acts) && k < |run| && p in run[k].procs && run[k].procs[p].Worker? && Rechecked(run[k].procs[p].at)
    ensures FencedTwice(run, acts, k, p, run[k].procs[p].c, run[k].procs[p].l)
  {
    hide Next, ProcStep, ReadsCurrent;
    assert k > 0;
    var s, a, pc := run[k - 1], acts[k - 1], run[k].procs[p];
    assert run[k - 1 + 1] == Next(s, a);
    ActedRun(run, acts);
    Moved(s, a, p);
    if p in s.procs && pc == s.procs[p] {
      RecheckedHasRead(run, acts, k - 1, p);
    } else {
      ProcReadsForLaunch(s, p, a.i);
      if Rechecked(s.procs[p].at) { RecheckedHasRead(run, acts, k - 1, p); }
      else {
        WorkerClaim(run, k - 1, p);
        FinalHasJournal(run, acts, k - 1, p);
        CheckedHasRead(run, acts, k - 1, p);
        assert FencedStep(run, acts, k - 1, p, pc.c, pc.l);
      }
    }
  }

  /** Some worker has checked the lease of the claim twice. */
  ghost predicate WorkerFenced(run: seq<State>, acts: seq<Action>, k: nat, c: Claim) {
    exists w, l :: Names(c, l) && FencedTwice(run, acts, k, w, c, l)
  }

  lemma FencedLater(run: seq<State>, acts: seq<Action>, k: nat, c: Claim)
    requires WorkerFenced(run, acts, k, c)
    ensures WorkerFenced(run, acts, k + 1, c)
  {
    hide FencedStep, Names;
    var w, l :| Names(c, l) && FencedTwice(run, acts, k, w, c, l);
    assert FencedTwice(run, acts, k + 1, w, c, l);
  }

  lemma {:induction false} HelperWasFenced(run: seq<State>, acts: seq<Action>, k: nat, p: Pid)
    requires Acted(run, acts) && k < |run| && p in run[k].procs && run[k].procs[p].Helper? && PreSpawn(run[k].procs[p].step)
    ensures WorkerFenced(run, acts, k, run[k].procs[p].c)
  {
    hide Next, ProcStep, ReadsCurrent, FencedTwice, Names;
    assert k > 0;
    var s, a, pc := run[k - 1], acts[k - 1], run[k].procs[p];
    assert run[k - 1 + 1] == Next(s, a);
    ActedRun(run, acts);
    Moved(s, a, p);
    if p in s.procs && s.procs[p].Helper? && PreSpawn(s.procs[p].step) && s.procs[p].c == pc.c {
      HelperWasFenced(run, acts, k - 1, p);
    } else if Launched(s, a, p) && pc == Helper(ProcStep(s, a.p, a.i).claim, Read) {
      ProcReadsForLaunch(s, a.p, a.i);
      RecheckedHasRead(run, acts, k - 1, a.p);
      HeldIsOwn(run, k - 1, a.p);
    } else {
      ProcReadsForLaunch(s, p, a.i);
    }
    FencedLater(run, acts, k - 1, pc.c);
  }

  lemma StartsAdded(s: State, a: Action)
    requires Next(s, a).starts != s.starts
    ensures a.Step? && Acts(s, a, a.p) && ProcStep(s, a.p, a.i).Start?
    ensures Next(s, a).starts == s.starts + [ProcStep(s, a.p, a.i).claim]
  {
    hide ProcStep, Apply;
    if a.Step? && a.p in s.procs { ApplyStarts(s, a.p, ProcStep(s, a.p, a.i)); }
  }

  lemma ApplyStarts(s: State, p: Pid, x: Effect)
    ensures Apply(s, p, x).starts == if x.Start? then s.starts + [x.claim] else s.starts
  {
  }

  /** In every run a transport is started only for a claim whose worker has read the lease named in the claim as
      current, at its own clock, in two earlier steps: once after the claim was made, and again when the journal of
      the attempt was there. */
  lemma StartsAreFenced(run: seq<State>, acts: seq<Action>, k: nat)
    requires Acted(run, acts) && k < |acts| && run[k + 1].starts != run[k].starts
    ensures |run[k + 1].starts| == |run[k].starts| + 1 && run[k].starts < run[k + 1].starts
    ensures WorkerFenced(run, acts, k, run[k + 1].starts[|run[k].starts|])
  {
    hide Next, ProcStep, FencedTwice, ReadsCurrent;
    var s, a := run[k], acts[k];
    assert run[k + 1] == Next(s, a);
    StartsAdded(s, a);
    ProcReadsForLaunch(s, a.p, a.i);
    HelperWasFenced(run, acts, k, a.p);
  }
}
