/** What a call of the registry has done when it reports success, and what a failed registration leaves. */
module RegistryCalls {
  import opened Common
  import opened Registry

  /** No registry maps the repository. */
  ghost predicate Nowhere(s: State, r: Repo) { forall h :: h in s.registries ==> r !in s.registries[h] }

  /** What the call has achieved in this state. */
  ghost predicate Achieved(s: State, pr: Proc) {
    match pr.job
    case Register(w) =>
      && pr.repo in s.pointers && s.pointers[pr.repo].host == pr.host && s.pointers[pr.repo].herdr == w
      && pr.host in s.registries && pr.repo in s.registries[pr.host] && s.registries[pr.host][pr.repo] == w
    case Unregister => pr.repo !in s.pointers && Nowhere(s, pr.repo)
    case Refresh(w) => pr.repo in s.pointers && s.pointers[pr.repo].host == pr.host && s.pointers[pr.repo].herdr == w
    case Repair => pr.repo in s.pointers && s.pointers[pr.repo].host == pr.host
  }

  predicate Succeeded(pc: Pc) { (pc.FreeRepo? || pc.Done?) && pc.ok }

  lemma MapsIn(s: State, h: HostId, r: Repo)
    ensures r in Mapped(s, h) <==> h in s.registries && r in s.registries[h]
  {
  }

  lemma UnmappedIn(s: State, r: Repo)
    requires Unmapped(s, r)
    ensures Nowhere(s, r)
  {
    forall h | h in s.registries ensures r !in s.registries[h] { assert r !in Mapped(s, h); }
  }

  /** The step with which a call comes to report success has achieved it. */
  lemma SuccessAchieves(s: State, p: Pid)
    requires Inv(s) && p in s.procs && !Succeeded(s.procs[p].pc)
    requires p in Next(s, Step(p)).procs && Succeeded(Next(s, Step(p)).procs[p].pc)
    ensures Achieved(Next(s, Step(p)), s.procs[p])
  {
    hide Next, Achieved, Owned, ProcOk, Unmapped, Nowhere;
    assert ProcOk(s, p, s.procs[p]);
    if s.procs[p].job.Register? { RegisterAchieves(s, p); }
    else if s.procs[p].job.Unregister? { UnregisterAchieves(s, p); }
    else { RefreshAchieves(s, p); }
  }

  /** How a call comes to report success. */
  lemma SuccessStep(s: State, pr: Proc)
    requires !StepPc(s, pr).Stay? && Succeeded(StepPc(s, pr).next) && !Succeeded(pr.pc)
    requires pr.pc.Claim? ==> pr.job.Register? || pr.job.Repair?
    ensures var x, found := StepPc(s, pr), if pr.pc.Settle? then pr.pc.found else None;
            && (!pr.job.Repair? ==> pr.pc.Settle? && pr.pc.ok)
            && (pr.job.Register? ==> x.Goto?)
            && (pr.job.Unregister? ==> x.DropPointer? || (x.Goto? && found.None?))
            && (pr.job.Refresh? ==>
                  || (x.Goto? && (found.Some? ==> found.value.herdr == pr.job.herdr))
                  || (x.PutPointer? && found.Some? && x.pointer == Pointer(found.value.host, pr.job.herdr)))
            && (pr.job.Repair? && !pr.pc.Settle? ==>
                  || (x.Goto? && pr.repo in s.pointers && s.pointers[pr.repo].host == pr.host)
                  || (x.PutPointer? && pr.pc.Claim? && pr.pc.found == Some(x.pointer)))
  {
    hide Mutate, Distinct;
  }

  lemma RegisterAchieves(s: State, p: Pid)
    requires p in s.procs && s.procs[p].job.Register? && ProcOk(s, p, s.procs[p]) && !Succeeded(s.procs[p].pc)
    requires p in Next(s, Step(p)).procs && Succeeded(Next(s, Step(p)).procs[p].pc)
    ensures Achieved(Next(s, Step(p)), s.procs[p])
  {
    hide StepPc, Mutate, Distinct, Unmapped, Nowhere;
    SuccessStep(s, s.procs[p]);
  }

  lemma UnregisterAchieves(s: State, p: Pid)
    requires Inv(s) && p in s.procs && s.procs[p].job.Unregister? && !Succeeded(s.procs[p].pc)
    requires p in Next(s, Step(p)).procs && Succeeded(Next(s, Step(p)).procs[p].pc)
    ensures Achieved(Next(s, Step(p)), s.procs[p])
  {
    hide StepPc, Mutate, Distinct, Unmapped, Nowhere, Owned;
    SuccessStep(s, s.procs[p]);
    var r, t := s.procs[p].repo, Next(s, Step(p));
    assert ProcOk(s, p, s.procs[p]);
    if r !in s.pointers { NoPointerUnmapped(s, r); }
    assert t.registries == s.registries && Unmapped(s, r);
    UnmappedIn(s, r);
    SameNowhere(s, t, r);
  }

  lemma SameNowhere(s: State, t: State, r: Repo)
    requires s.registries == t.registries && Nowhere(s, r)
    ensures Nowhere(t, r)
  {
  }

  lemma RefreshAchieves(s: State, p: Pid)
    requires p in s.procs && (s.procs[p].job.Refresh? || s.procs[p].job.Repair?) && ProcOk(s, p, s.procs[p])
    requires !Succeeded(s.procs[p].pc) && p in Next(s, Step(p)).procs && Succeeded(Next(s, Step(p)).procs[p].pc)
    ensures Achieved(Next(s, Step(p)), s.procs[p])
  {
    hide StepPc, Mutate, Distinct, Unmapped, Nowhere;
    SuccessStep(s, s.procs[p]);
  }

  /** No other step brings a call to its success. */
  lemma OnlyOwnStep(s: State, a: Action, p: Pid)
    requires p in Next(s, a).procs && Succeeded(Next(s, a).procs[p].pc)
    ensures p in s.procs && Next(s, a).procs[p] == s.procs[p].(pc := Next(s, a).procs[p].pc)
    ensures Succeeded(s.procs[p].pc) || a == Step(p)
  {
    hide StepPc, Apply;
    if a.Step? && a.p in s.procs { ApplyMoves(s, a.p, StepPc(s, s.procs[a.p])); }
    if a.GiveUp? && a.p in s.procs {
      ApplyMoves(s, a.p, Goto(Done(false)));
      if s.procs[a.p].pc.TakeHost? { ApplyMoves(s, a.p, Goto(Settle(s.procs[a.p].pc.found, false))); }
    }
  }

  lemma ApplyMoves(s: State, p: Pid, x: Effect)
    requires p in s.procs
    ensures Apply(s, p, x).procs == if x.Stay? then s.procs else s.procs[p := s.procs[p].(pc := x.next)]
  {
  }

  /** In every run in which no lock has been seized from a live holder: a call that reports success has achieved it, at
      a step of its own. A registration has left the host's pointer with its binding, and the mapping with the same
      one; an unregistration, neither pointer nor mapping anywhere; a refresh, the new binding in the host's pointer; a
      repair, a pointer that names the host. */
  lemma {:induction false} SuccessWasAchieved(run: seq<State>, k: nat, p: Pid)
    requires Run(run) && k < |run| && run[k].seizures == 0 && p in run[k].procs && Succeeded(run[k].procs[p].pc)
    ensures exists j :: 0 < j <= k && Achieved(run[j], run[k].procs[p])
  {
    hide Next, Inv, Achieved;
    assert k > 0;
    RunUnseized(run, k - 1);
    RunSeizures(run, k - 1);
    var s := run[k - 1];
    assert Steps(s, run[k - 1 + 1]);
    var a :| run[k] == Next(s, a);
    OnlyOwnStep(s, a, p);
    var pr := run[k].procs[p];
    if Succeeded(s.procs[p].pc) {
      SuccessWasAchieved(run, k - 1, p);
      var j :| 0 < j <= k - 1 && Achieved(run[j], s.procs[p]);
      SameCall(run[j], s.procs[p], pr);
    } else {
      SuccessAchieves(s, p);
      SameCall(run[k], s.procs[p], pr);
    }
  }

  lemma SameCall(s: State, pr: Proc, other: Proc)
    requires pr.job == other.job && pr.host == other.host && pr.repo == other.repo
    ensures Achieved(s, pr) == Achieved(s, other)
  {
  }

  lemma RunUnseized(run: seq<State>, k: nat)
    requires Run(run) && k + 1 < |run| && run[k + 1].seizures == 0
    ensures Inv(run[k])
  {
    hide Inv, Next;
    RunSeizures(run, k);
    RunInv(run, k);
  }

  lemma RunSeizures(run: seq<State>, k: nat)
    requires Run(run) && k + 1 < |run|
    ensures run[k].seizures <= run[k + 1].seizures
  {
    hide Next;
    assert Steps(run[k], run[k + 1]);
    var a :| run[k + 1] == Next(run[k], a);
    SeizuresGrow(run[k], a);
  }

  lemma SeizuresGrow(s: State, a: Action)
    ensures s.seizures <= Next(s, a).seizures
  {
    hide StepPc;
  }

  /** A registration that found no owner and fails to map the repository takes its pointer back. */
  lemma FailureTakesBack(run: seq<State>, k: nat, p: Pid)
    requires Run(run) && k + 1 < |run| && run[k + 1].seizures == 0 && p in run[k].procs && p in run[k + 1].procs
    requires run[k].procs[p].job.Register? && run[k].procs[p].pc == Settle(None, false) && run[k + 1].procs[p] != run[k].procs[p]
    ensures run[k].procs[p].repo !in run[k + 1].pointers
    ensures Nowhere(run[k + 1], run[k].procs[p].repo)
  {
    hide Inv, Mutate;
    RunUnseized(run, k);
    assert Steps(run[k], run[k + 1]);
    var a :| run[k + 1] == Next(run[k], a);
    TakesBack(run[k], a, p);
  }

  lemma TakesBack(s: State, a: Action, p: Pid)
    requires Inv(s) && p in s.procs && p in Next(s, a).procs && Next(s, a).procs[p] != s.procs[p]
    requires s.procs[p].job.Register? && s.procs[p].pc == Settle(None, false)
    ensures s.procs[p].repo !in Next(s, a).pointers && Nowhere(Next(s, a), s.procs[p].repo)
  {
    hide Owned, Distinct, Mutate, Unmapped, Nowhere, StepPc;
    assert ProcOk(s, p, s.procs[p]);
    UnmappedIn(s, s.procs[p].repo);
    Drops(s, p);
    SameNowhere(s, Next(s, Step(p)), s.procs[p].repo);
  }

  lemma Drops(s: State, p: Pid)
    requires p in s.procs && s.procs[p].job.Register? && s.procs[p].pc == Settle(None, false)
    ensures StepPc(s, s.procs[p]) == DropPointer(FreeRepo(false))
  {
  }

  // ----- what an update makes of the mappings

  /** The workspace belongs to no other repository. */
  ghost predicate WorkspaceFree(m: Mappings, repo: Repo, w: Herdr) {
    forall k :: k in m && k != repo ==> m[k].workspace != w.workspace
  }

  /** A valid registry takes a registration exactly when no other repository has the workspace, a refresh exactly when
      besides the repository is mapped, and every removal; the one mapping changes, and no other. */
  lemma UpdatesExactly(job: Job, repo: Repo, m: Mappings)
    requires Distinct(m)
    ensures job.Register? ==> (Mutate(job, repo, m).Some? <==> WorkspaceFree(m, repo, job.herdr))
    ensures job.Refresh? ==> (Mutate(job, repo, m).Some? <==> repo in m && WorkspaceFree(m, repo, job.herdr))
    ensures job.Unregister? ==> Mutate(job, repo, m).Some?
    ensures Mutate(job, repo, m).Some? ==>
              var t := Mutate(job, repo, m).value;
              && (forall k :: k != repo ==> (k in t <==> k in m) && (k in m ==> t[k] == m[k]))
              && (job.Unregister? ==> repo !in t)
              && (job.Register? || job.Refresh? ==> repo in t && t[repo] == job.herdr)
  {
    if job.Register? || job.Refresh? {
      var t := m[repo := job.herdr];
      if WorkspaceFree(m, repo, job.herdr) {
        forall a, b | a in t && b in t && a != b ensures t[a].workspace != t[b].workspace {}
      } else {
        var k :| k in m && k != repo && m[k].workspace == job.herdr.workspace;
        assert t[k].workspace == t[repo].workspace;
      }
    }
  }

  // ----- whose lock is released

  /** Seized or not: the ownership lock of a process that has not died leaves it only by a seizure or by its own step, and
      so does the lock of a registry. */
  lemma LocksReleasedByOwner(s: State, a: Action, r: Repo, h: HostId)
    ensures r in s.repoLocks && s.repoLocks[r] !in s.dead && (r in Next(s, a).repoLocks ==> Next(s, a).repoLocks[r] != s.repoLocks[r])
      ==> a == SeizeRepo(r) || a == Step(s.repoLocks[r])
    ensures h in s.hostLocks && s.hostLocks[h] !in s.dead && (h in Next(s, a).hostLocks ==> Next(s, a).hostLocks[h] != s.hostLocks[h])
      ==> a == SeizeHost(h) || a == Step(s.hostLocks[h])
  {
    hide StepPc, Apply;
    if a.Step? && a.p in s.procs {
      LocksTakenFromDead(s, s.procs[a.p]);
      ApplyLocks(s, a.p, StepPc(s, s.procs[a.p]));
    }
    if a.GiveUp? && a.p in s.procs {
      ApplyLocks(s, a.p, Goto(Done(false)));
      if s.procs[a.p].pc.TakeHost? { ApplyLocks(s, a.p, Goto(Settle(s.procs[a.p].pc.found, false))); }
    }
  }

  lemma LocksTakenFromDead(s: State, pr: Proc)
    ensures StepPc(s, pr).LockRepo? ==> pr.repo !in s.repoLocks || s.repoLocks[pr.repo] in s.dead
    ensures StepPc(s, pr).LockHost? ==> pr.host !in s.hostLocks || s.hostLocks[pr.host] in s.dead
  {
    hide Mutate, Distinct;
  }

  /** What an effect does to the locks. */
  lemma ApplyLocks(s: State, p: Pid, x: Effect)
    requires p in s.procs
    ensures var t, r, h := Apply(s, p, x), s.procs[p].repo, s.procs[p].host;
            && (x.Goto? ==> t.repoLocks == s.repoLocks && t.hostLocks == s.hostLocks)
            && (forall k :: k in s.repoLocks && !(x.LockRepo? && k == r) && !(s.repoLocks[k] == p) ==> k in t.repoLocks && t.repoLocks[k] == s.repoLocks[k])
            && (forall k :: k in s.hostLocks && !(x.LockHost? && k == h) && !(s.hostLocks[k] == p) ==> k in t.hostLocks && t.hostLocks[k] == s.hostLocks[k])
  {
  }
}
