/** Cross-host ownership in src/opsled-registry.js: each host has a registry under its own lock, each
    repository a pointer to its owning host under another. Hosts register, unregister, refresh and
    repair at once; a process may die between any two file operations, and a lock left by the dead is
    taken over. The locks are those of module HostLock, which do not always exclude: a takeover that moves
    the wrong record takes the lock from a live holder. That is a step here, a seizure, and it is counted. */
module Registry {
  import opened Common

  type Pid = nat
  type HostId = nat
  type Repo = string

  datatype Herdr = Herdr(workspace: string, pane: string)

  /** A repository is identified by its realpath, of which its operational identifier is a digest. */
  type Mappings = map<Repo, Herdr>

  datatype Pointer = Pointer(host: HostId, herdr: Herdr)

  datatype Job = Register(herdr: Herdr) | Unregister | Refresh(herdr: Herdr) | Repair

  /** `found` is the ownership pointer read under the repository lock; `ok` tells whether the registry was updated. */
  datatype Pc =
    | Start
    | TakeRepo(mapping: Option<Herdr>)
    | ReadPointer(mapping: Option<Herdr>)
    | Claim(found: Option<Pointer>)
    | TakeHost(found: Option<Pointer>)
    | ReadRegistry(found: Option<Pointer>)
    | WriteRegistry(found: Option<Pointer>, base: Mappings, next: Mappings)
    | FreeHost(found: Option<Pointer>, ok: bool)
    | Settle(found: Option<Pointer>, ok: bool)
    | FreeRepo(ok: bool)
    | Done(ok: bool)

  datatype Proc = Proc(job: Job, host: HostId, repo: Repo, pc: Pc)

  datatype State = State(
    registries: map<HostId, Mappings>,
    pointers: map<Repo, Pointer>,
    hostLocks: map<HostId, Pid>,
    repoLocks: map<Repo, Pid>,
    procs: map<Pid, Proc>,
    dead: set<Pid>,
    seizures: nat)

  ghost predicate Init(s: State) {
    && s.registries == map[] && s.pointers == map[] && s.hostLocks == map[] && s.repoLocks == map[]
    && s.procs == map[] && s.dead == {} && s.seizures == 0
  }

  function Mapped(s: State, h: HostId): Mappings { if h in s.registries then s.registries[h] else map[] }

  function PointerOf(s: State, r: Repo): Option<Pointer> { if r in s.pointers then Some(s.pointers[r]) else None }

  /** validateRegistry: no Herdr workspace belongs to two repositories. */
  predicate Distinct(m: Mappings) { forall a, b :: a in m && b in m && a != b ==> m[a].workspace != m[b].workspace }

  datatype Effect =
    | Stay
    | Goto(next: Pc)
    | LockRepo(next: Pc)
    | UnlockRepo(next: Pc)
    | LockHost(next: Pc)
    | UnlockHost(next: Pc)
    | PutPointer(next: Pc, pointer: Pointer)
    | DropPointer(next: Pc)
    | PutRegistry(next: Pc, mappings: Mappings)

  function Apply(s: State, p: Pid, x: Effect): State
    requires p in s.procs
  {
    var h, r := s.procs[p].host, s.procs[p].repo;
    if x.Stay? then s
    else
      var t := s.(procs := s.procs[p := s.procs[p].(pc := x.next)]);
      match x
      case Stay => t
      case Goto(_) => t
      case LockRepo(_) => t.(repoLocks := s.repoLocks[r := p])
      case UnlockRepo(_) => // a release leaves a lock alone that does not carry its own record
        if r in s.repoLocks && s.repoLocks[r] == p then t.(repoLocks := s.repoLocks - {r}) else t
      case LockHost(_) => t.(hostLocks := s.hostLocks[h := p])
      case UnlockHost(_) => if h in s.hostLocks && s.hostLocks[h] == p then t.(hostLocks := s.hostLocks - {h}) else t
      case PutPointer(_, pointer) => t.(pointers := s.pointers[r := pointer])
      case DropPointer(_) => t.(pointers := s.pointers - {r})
      case PutRegistry(_, mappings) => t.(registries := s.registries[h := mappings])
  }

  /** What updateRegistry makes of the mappings; `None` when the mutation or the validation throws. */
  function Mutate(job: Job, repo: Repo, m: Mappings): Option<Mappings> {
    match job
    case Register(w) =>
      if exists k :: k in m && k != repo && m[k].workspace == w.workspace then None
      else if Distinct(m[repo := w]) then Some(m[repo := w]) else None
    case Unregister => if Distinct(m - {repo}) then Some(m - {repo}) else None
    case Refresh(w) => if repo in m && Distinct(m[repo := w]) then Some(m[repo := w]) else None
    case Repair => None
  }

  function StepPc(s: State, pr: Proc): Effect {
    var h, r := pr.host, pr.repo;
    match pr.pc
    case Start => Goto( // refresh and repair begin from a mapping read without any lock
      if pr.job.Register? || pr.job.Unregister? then TakeRepo(None)
      else if r in Mapped(s, h) then TakeRepo(Some(Mapped(s, h)[r]))
      else Done(false))
    case TakeRepo(mapping) =>
      if r !in s.repoLocks || s.repoLocks[r] in s.dead then LockRepo(ReadPointer(mapping)) else Stay
    case ReadPointer(mapping) =>
      var found := PointerOf(s, r);
      Goto(
        match pr.job
        case Register(_) => if found.Some? && found.value.host != h then FreeRepo(false) else Claim(found)
        case Unregister => if found.Some? && found.value.host != h then FreeRepo(false) else TakeHost(found)
        case Refresh(w) =>
          if found.None? || found.value.host != h then FreeRepo(false)
          else if mapping == Some(w) then Settle(found, true) else TakeHost(found)
        case Repair =>
          if found.Some? then FreeRepo(found.value.host == h && mapping == Some(found.value.herdr))
          else if mapping.Some? then Claim(Some(Pointer(h, mapping.value))) else FreeRepo(false))
    case Claim(found) =>
      if pr.job.Register? then PutPointer(TakeHost(found), Pointer(h, pr.job.herdr))
      else if found.Some? then PutPointer(FreeRepo(true), found.value)
      else Goto(FreeRepo(false))
    case TakeHost(found) =>
      if h !in s.hostLocks || s.hostLocks[h] in s.dead then LockHost(ReadRegistry(found)) else Stay
    case ReadRegistry(found) =>
      var base := Mapped(s, h);
      var next := Mutate(pr.job, r, base);
      Goto(if next.Some? then WriteRegistry(found, base, next.value) else FreeHost(found, false))
    case WriteRegistry(found, base, next) => PutRegistry(FreeHost(found, true), next)
    case FreeHost(found, ok) => UnlockHost(Settle(found, ok))
    case Settle(found, ok) =>
      match pr.job {
        case Register(_) => if !ok && found.None? then DropPointer(FreeRepo(false)) else Goto(FreeRepo(ok))
        case Unregister => if ok && found.Some? then DropPointer(FreeRepo(true)) else Goto(FreeRepo(ok))
        case Refresh(w) =>
          if ok && found.Some? && found.value.herdr != w then PutPointer(FreeRepo(true), found.value.(herdr := w))
          else Goto(FreeRepo(ok))
        case Repair => Goto(FreeRepo(ok))
      }
    case FreeRepo(ok) => UnlockRepo(Done(ok))
    case Done(_) => Stay
  }

  datatype Action =
    | Begin(p: Pid, job: Job, host: HostId, repo: Repo)
    | Step(p: Pid)
    | GiveUp(p: Pid)
    | Crash(p: Pid)
    | SeizeRepo(r: Repo)
    | SeizeHost(h: HostId)

  function Next(s: State, a: Action): State {
    match a
    case Begin(p, job, host, repo) =>
      if p in s.procs || p in s.dead then s else s.(procs := s.procs[p := Proc(job, host, repo, Start)])
    case Step(p) => if p in s.procs then Apply(s, p, StepPc(s, s.procs[p])) else s
    case GiveUp(p) => // BUSY: the wait for a lock ends without it
      if p in s.procs && s.procs[p].pc.TakeRepo? then Apply(s, p, Goto(Done(false)))
      else if p in s.procs && s.procs[p].pc.TakeHost? then Apply(s, p, Goto(Settle(s.procs[p].pc.found, false)))
      else s
    case Crash(p) => if p in s.procs then s.(procs := s.procs - {p}, dead := s.dead + {p}) else s
    case SeizeRepo(r) =>
      if r in s.repoLocks && s.repoLocks[r] in s.procs then s.(repoLocks := s.repoLocks - {r}, seizures := s.seizures + 1) else s
    case SeizeHost(h) =>
      if h in s.hostLocks && s.hostLocks[h] in s.procs then s.(hostLocks := s.hostLocks - {h}, seizures := s.seizures + 1) else s
  }

  ghost predicate Steps(s: State, t: State) { exists a :: t == Next(s, a) }

  ghost predicate Run(run: seq<State>) { IsRun(Steps, run) && Init(run[0]) }

  // ----- the invariant

  predicate HoldsRepo(pc: Pc) { !pc.Start? && !pc.TakeRepo? && !pc.Done? }

  predicate HoldsHost(pc: Pc) { pc.ReadRegistry? || pc.WriteRegistry? || pc.FreeHost? }

  ghost predicate Unmapped(s: State, r: Repo) { forall h :: r !in Mapped(s, h) }

  ghost predicate Named(s: State, h: HostId, r: Repo) { r in s.pointers && s.pointers[r].host == h }

  ghost predicate ProcOk(s: State, p: Pid, pr: Proc) {
    var h, r, pc := pr.host, pr.repo, pr.pc;
    && (HoldsRepo(pc) ==> r in s.repoLocks && s.repoLocks[r] == p)
    && (HoldsHost(pc) ==> h in s.hostLocks && s.hostLocks[h] == p)
    && (pc.WriteRegistry? ==> pc.base == Mapped(s, h) && Mutate(pr.job, r, pc.base) == Some(pc.next))
    && (pr.job.Register? ==> RegisterOk(s, h, r, pc) && RegisterDone(s, pr.job.herdr, h, r, pc))
    && (pr.job.Unregister? ==> UnregisterOk(s, h, r, pc))
    && (pr.job.Refresh? ==> RefreshOk(s, h, r, pc))
    && (pr.job.Repair? ==> RepairOk(s, h, r, pc))
  }

  ghost predicate RefreshOk(s: State, h: HostId, r: Repo, pc: Pc) {
    && !pc.Claim?
    && (pc.TakeHost? || HoldsHost(pc) || pc.Settle? ==> Named(s, h, r) && pc.found == Some(s.pointers[r]))
  }

  ghost predicate RepairOk(s: State, h: HostId, r: Repo, pc: Pc) {
    && !HoldsHost(pc) && !pc.TakeHost? && !pc.Settle?
    && (pc.Claim? ==> pc.found.Some? && pc.found.value.host == h && Unmapped(s, r))
  }

  /** A registration that found no pointer has claimed a repository that nobody maps. */
  ghost predicate RegisterOk(s: State, h: HostId, r: Repo, pc: Pc) {
    && (pc.Claim? ==> (pc.found.None? ==> Unmapped(s, r)) && (pc.found.Some? ==> pc.found.value.host == h && Named(s, h, r)))
    && (pc.TakeHost? || pc.ReadRegistry? || pc.WriteRegistry? ==> Named(s, h, r) && (pc.found.None? ==> Unmapped(s, r)))
    && (pc.FreeHost? || pc.Settle? ==> Named(s, h, r) && (pc.found.None? && !pc.ok ==> Unmapped(s, r)))
  }

  /** From its claim on the registration's own pointer stands, and after its update its own mapping. */
  ghost predicate RegisterDone(s: State, w: Herdr, h: HostId, r: Repo, pc: Pc) {
    && (pc.TakeHost? || HoldsHost(pc) || pc.Settle? ==> r in s.pointers && s.pointers[r] == Pointer(h, w))
    && ((pc.FreeHost? || pc.Settle?) && pc.ok ==> r in Mapped(s, h) && Mapped(s, h)[r] == w)
  }

  /** A removal that found the host's pointer leaves a repository that nobody maps. */
  ghost predicate UnregisterOk(s: State, h: HostId, r: Repo, pc: Pc) {
    && !pc.Claim?
    && (pc.TakeHost? || pc.ReadRegistry? || pc.WriteRegistry? ==> (pc.found.Some? ==> Named(s, h, r)))
    && (pc.TakeHost? || HoldsHost(pc) || pc.Settle? ==> (pc.found.None? ==> r !in s.pointers))
    && (pc.FreeHost? || pc.Settle? ==> (pc.found.Some? && pc.ok ==> Unmapped(s, r)))
  }

  ghost predicate Owned(s: State) { forall h, r :: r in Mapped(s, h) ==> Named(s, h, r) }

  ghost predicate Inv(s: State) {
    && Owned(s)
    && (forall h :: Distinct(Mapped(s, h)))
    && (forall p :: p in s.procs ==> p !in s.dead && ProcOk(s, p, s.procs[p]))
  }

  // ----- what an effect may do

  ghost predicate EffectOk(s: State, p: Pid, x: Effect)
    requires p in s.procs
  {
    var pr := s.procs[p];
    x.Stay? ||
    (var h, r, was := pr.host, pr.repo, pr.pc;
     var t := Apply(s, p, x);
     && ProcOk(t, p, pr.(pc := x.next))
     && (HoldsRepo(x.next) ==> HoldsRepo(was) || x.LockRepo?) && (HoldsHost(x.next) ==> HoldsHost(was) || x.LockHost?)
     && match x
        case Stay => true
        case Goto(_) => true
        case LockRepo(_) => r !in s.repoLocks || s.repoLocks[r] in s.dead
        case UnlockRepo(_) => HoldsRepo(was)
        case LockHost(_) => h !in s.hostLocks || s.hostLocks[h] in s.dead
        case UnlockHost(_) => HoldsHost(was)
        case PutPointer(_, pointer) => HoldsRepo(was) && pointer.host == h && (Named(s, h, r) || Unmapped(s, r))
        case DropPointer(_) => HoldsRepo(was) && Unmapped(s, r)
        case PutRegistry(_, m) =>
          HoldsRepo(was) && HoldsHost(was) && Distinct(m) && (r in m ==> Named(s, h, r)) && m - {r} == Mapped(s, h) - {r})
  }

  lemma NoPointerUnmapped(s: State, r: Repo)
    requires Owned(s) && r !in s.pointers
    ensures Unmapped(s, r)
  {
  }

  lemma SameRegistries(s: State, t: State)
    requires s.registries == t.registries
    ensures forall r :: Unmapped(s, r) <==> Unmapped(t, r)
  {
    forall r ensures Unmapped(s, r) <==> Unmapped(t, r) {
      assert forall h :: Mapped(s, h) == Mapped(t, h);
    }
  }

  /** Whoever removes its own host's mapping leaves the repository unmapped. */
  lemma RemovedUnmapped(s: State, t: State, h: HostId, r: Repo)
    requires Owned(s) && Named(s, h, r) && t.registries == s.registries[h := Mapped(s, h) - {r}]
    ensures Unmapped(t, r)
  {
    forall k ensures r !in Mapped(t, k) {
      if k != h { assert Mapped(t, k) == Mapped(s, k); }
    }
  }

  /** Up to the point where the registry is read, a process deals with the pointer; from there on, with the mappings. */
  predicate Early(pc: Pc) { pc.Start? || pc.TakeRepo? || pc.ReadPointer? || pc.Claim? || pc.TakeHost? }

  lemma RegisterEarly(s: State, p: Pid)
    requires Inv(s) && p in s.procs && s.procs[p].job.Register? && Early(s.procs[p].pc)
    ensures EffectOk(s, p, StepPc(s, s.procs[p]))
  {
    hide Unmapped, Distinct, Mutate;
    var r, x := s.procs[p].repo, StepPc(s, s.procs[p]);
    assert ProcOk(s, p, s.procs[p]);
    if r !in s.pointers { NoPointerUnmapped(s, r); }
    SameRegistries(s, Apply(s, p, x));
  }

  lemma RegisterLate(s: State, p: Pid)
    requires Inv(s) && p in s.procs && s.procs[p].job.Register? && !Early(s.procs[p].pc)
    ensures EffectOk(s, p, StepPc(s, s.procs[p]))
  {
    hide Unmapped, Distinct;
    var x := StepPc(s, s.procs[p]);
    assert ProcOk(s, p, s.procs[p]);
    if !x.PutRegistry? { SameRegistries(s, Apply(s, p, x)); }
  }

  lemma RegisterEffect(s: State, p: Pid)
    requires Inv(s) && p in s.procs && s.procs[p].job.Register?
    ensures EffectOk(s, p, StepPc(s, s.procs[p]))
  {
    hide Inv, EffectOk, StepPc;
    if Early(s.procs[p].pc) { RegisterEarly(s, p); } else { RegisterLate(s, p); }
  }

  lemma UnregisterEarly(s: State, p: Pid)
    requires Inv(s) && p in s.procs && s.procs[p].job.Unregister? && Early(s.procs[p].pc)
    ensures EffectOk(s, p, StepPc(s, s.procs[p]))
  {
    hide Unmapped, Distinct, Mutate;
    assert ProcOk(s, p, s.procs[p]);
    SameRegistries(s, Apply(s, p, StepPc(s, s.procs[p])));
  }

  lemma UnregisterLate(s: State, p: Pid)
    requires Inv(s) && p in s.procs && s.procs[p].job.Unregister? && !Early(s.procs[p].pc)
    ensures EffectOk(s, p, StepPc(s, s.procs[p]))
  {
    hide Unmapped, Distinct;
    var pr, x := s.procs[p], StepPc(s, s.procs[p]);
    assert ProcOk(s, p, pr);
    if !x.PutRegistry? { SameRegistries(s, Apply(s, p, x)); }
    else if pr.pc.found.Some? { RemovedUnmapped(s, Apply(s, p, x), pr.host, pr.repo); }
  }

  lemma UnregisterEffect(s: State, p: Pid)
    requires Inv(s) && p in s.procs && s.procs[p].job.Unregister?
    ensures EffectOk(s, p, StepPc(s, s.procs[p]))
  {
    hide Inv, EffectOk, StepPc;
    if Early(s.procs[p].pc) { UnregisterEarly(s, p); } else { UnregisterLate(s, p); }
  }

  lemma RefreshEarly(s: State, p: Pid)
    requires Inv(s) && p in s.procs && (s.procs[p].job.Refresh? || s.procs[p].job.Repair?) && Early(s.procs[p].pc)
    ensures EffectOk(s, p, StepPc(s, s.procs[p]))
  {
    hide Unmapped, Distinct, Mutate;
    var r, x := s.procs[p].repo, StepPc(s, s.procs[p]);
    assert ProcOk(s, p, s.procs[p]);
    if r !in s.pointers { NoPointerUnmapped(s, r); }
    SameRegistries(s, Apply(s, p, x));
  }

  lemma RefreshLate(s: State, p: Pid)
    requires Inv(s) && p in s.procs && (s.procs[p].job.Refresh? || s.procs[p].job.Repair?) && !Early(s.procs[p].pc)
    ensures EffectOk(s, p, StepPc(s, s.procs[p]))
  {
    hide Unmapped, Distinct;
    var x := StepPc(s, s.procs[p]);
    assert ProcOk(s, p, s.procs[p]);
    if !x.PutRegistry? { SameRegistries(s, Apply(s, p, x)); }
  }

  lemma RefreshEffect(s: State, p: Pid)
    requires Inv(s) && p in s.procs && (s.procs[p].job.Refresh? || s.procs[p].job.Repair?)
    ensures EffectOk(s, p, StepPc(s, s.procs[p]))
  {
    hide Inv, EffectOk, StepPc;
    if Early(s.procs[p].pc) { RefreshEarly(s, p); } else { RefreshLate(s, p); }
  }

  lemma KeepsOwned(s: State, p: Pid, x: Effect)
    requires Owned(s) && p in s.procs && EffectOk(s, p, x)
    ensures Owned(Apply(s, p, x))
  {
    hide ProcOk, Distinct;
    var t := Apply(s, p, x);
    var h, r := s.procs[p].host, s.procs[p].repo;
    forall k, q | q in Mapped(t, k) ensures Named(t, k, q) {
      if x.PutRegistry? && k == h {
        if q != r {
          assert q in x.mappings - {r} && q in Mapped(s, h) - {r};
          assert Named(s, k, q);
        }
      } else {
        assert Mapped(t, k) == Mapped(s, k) && Named(s, k, q);
      }
    }
  }

  lemma KeepsDistinct(s: State, p: Pid, x: Effect)
    requires (forall h :: Distinct(Mapped(s, h))) && p in s.procs && EffectOk(s, p, x)
    ensures forall h :: Distinct(Mapped(Apply(s, p, x), h))
  {
    hide ProcOk, Distinct;
    var t := Apply(s, p, x);
    forall h ensures Distinct(Mapped(t, h)) {
      if !(x.PutRegistry? && h == s.procs[p].host) { assert Mapped(t, h) == Mapped(s, h); }
    }
  }

  lemma UnmappedElsewhere(s: State, p: Pid, x: Effect, r: Repo)
    requires p in s.procs && EffectOk(s, p, x) && x.PutRegistry? && r != s.procs[p].repo && Unmapped(s, r)
    ensures Unmapped(Apply(s, p, x), r)
  {
    hide ProcOk, Distinct;
    var t := Apply(s, p, x);
    forall h ensures r !in Mapped(t, h) {
      if h == s.procs[p].host {
        assert r !in Mapped(s, h);
        assert r !in (Mapped(s, h) - {s.procs[p].repo}).Keys;
      } else {
        assert Mapped(t, h) == Mapped(s, h);
      }
    }
  }

  lemma MappedElsewhere(s: State, p: Pid, x: Effect, h: HostId, r: Repo)
    requires p in s.procs && EffectOk(s, p, x) && x.PutRegistry? && r != s.procs[p].repo && r in Mapped(s, h)
    ensures r in Mapped(Apply(s, p, x), h) && Mapped(Apply(s, p, x), h)[r] == Mapped(s, h)[r]
  {
    hide ProcOk, Distinct;
    if h == s.procs[p].host {
      var own := s.procs[p].repo;
      assert r in Mapped(s, h) - {own} && (Mapped(s, h) - {own})[r] == Mapped(s, h)[r];
      assert r in x.mappings - {own} && (x.mappings - {own})[r] == x.mappings[r];
    } else {
      assert Mapped(Apply(s, p, x), h) == Mapped(s, h);
    }
  }

  /** What one process knows under its locks survives the effect of another. */
  lemma OthersKeep(s: State, p: Pid, x: Effect, q: Pid)
    requires p in s.procs && q in s.procs && p != q && EffectOk(s, p, x) && q !in s.dead
    requires ProcOk(s, p, s.procs[p]) && ProcOk(s, q, s.procs[q])
    ensures ProcOk(Apply(s, p, x), q, s.procs[q])
  {
    hide Unmapped, Distinct, Mutate;
    var t, r := Apply(s, p, x), s.procs[q].repo;
    assert HoldsRepo(s.procs[q].pc) && HoldsRepo(s.procs[p].pc) ==> r != s.procs[p].repo;
    if x.PutRegistry? {
      if HoldsRepo(s.procs[q].pc) && Unmapped(s, r) { UnmappedElsewhere(s, p, x, r); }
      if HoldsRepo(s.procs[q].pc) && r in Mapped(s, s.procs[q].host) { MappedElsewhere(s, p, x, s.procs[q].host, r); }
    } else {
      SameRegistries(s, t);
    }
  }

  lemma EffectKeeps(s: State, p: Pid, x: Effect)
    requires Inv(s) && p in s.procs && EffectOk(s, p, x)
    ensures Inv(Apply(s, p, x))
  {
    hide Owned, Distinct, ProcOk, EffectOk;
    KeepsOwned(s, p, x);
    KeepsDistinct(s, p, x);
    var t := Apply(s, p, x);
    forall q | q in t.procs ensures q !in t.dead && ProcOk(t, q, t.procs[q]) {
      if q != p { OthersKeep(s, p, x, q); } else { OwnOk(s, p, x); }
    }
  }

  lemma StepKeeps(s: State, p: Pid)
    requires Inv(s) && p in s.procs
    ensures Inv(Next(s, Step(p)))
  {
    hide Inv, StepPc, EffectOk, Apply;
    if s.procs[p].job.Register? { RegisterEffect(s, p); }
    else if s.procs[p].job.Unregister? { UnregisterEffect(s, p); }
    else { RefreshEffect(s, p); }
    EffectKeeps(s, p, StepPc(s, s.procs[p]));
  }

  /** Giving up a wait leaves the lock to others, and what the process knows under the lock it has. */
  lemma GivesUp(s: State, p: Pid)
    requires Inv(s) && p in s.procs
    ensures s.procs[p].pc.TakeRepo? ==> EffectOk(s, p, Goto(Done(false)))
    ensures s.procs[p].pc.TakeHost? ==> EffectOk(s, p, Goto(Settle(s.procs[p].pc.found, false)))
  {
    hide Unmapped, Distinct, Mutate;
    assert ProcOk(s, p, s.procs[p]);
    if s.procs[p].pc.TakeHost? { SameRegistries(s, Apply(s, p, Goto(Settle(s.procs[p].pc.found, false)))); }
  }

  lemma GiveUpKeeps(s: State, p: Pid)
    requires Inv(s) && p in s.procs
    ensures Inv(Next(s, GiveUp(p)))
  {
    hide Inv, EffectOk, Apply;
    GivesUp(s, p);
    if s.procs[p].pc.TakeRepo? { EffectKeeps(s, p, Goto(Done(false))); }
    else if s.procs[p].pc.TakeHost? { EffectKeeps(s, p, Goto(Settle(s.procs[p].pc.found, false))); }
  }

  lemma OwnOk(s: State, p: Pid, x: Effect)
    requires p in s.procs && ProcOk(s, p, s.procs[p]) && EffectOk(s, p, x)
    ensures var t := Apply(s, p, x); p in t.procs && ProcOk(t, p, t.procs[p])
  {
    hide ProcOk;
  }

  lemma ComeOrGo(s: State, a: Action)
    requires Inv(s) && (a.Begin? || a.Crash?)
    ensures Inv(Next(s, a))
  {
    hide Distinct, ProcOk, Owned;
    var t := Next(s, a);
    SameFiles(s, t);
    forall q | q in t.procs ensures q !in t.dead && ProcOk(t, q, t.procs[q]) {
      if q in s.procs { StillOk(s, t, q); } else { NewOk(t, q); }
    }
  }

  lemma SameFiles(s: State, t: State)
    requires t == s.(procs := t.procs, dead := t.dead)
    ensures (forall h :: Mapped(t, h) == Mapped(s, h)) && (Owned(s) ==> Owned(t))
  {
    if Owned(s) {
      forall h, r | r in Mapped(t, h) ensures Named(t, h, r) { assert Named(s, h, r); }
    }
  }

  lemma StillOk(s: State, t: State, q: Pid)
    requires t == s.(procs := t.procs, dead := t.dead) && q in s.procs && ProcOk(s, q, s.procs[q])
    ensures ProcOk(t, q, s.procs[q])
  {
    hide Mutate, Unmapped;
    SameRegistries(s, t);
  }

  lemma NewOk(t: State, q: Pid)
    requires q in t.procs && t.procs[q].pc.Start?
    ensures ProcOk(t, q, t.procs[q])
  {
  }

  /** Every step keeps the invariant, as long as nothing has been seized. */
  ghost predicate Unseized(s: State) { s.seizures == 0 ==> Inv(s) }

  lemma NextUnseized(s: State, a: Action)
    requires Unseized(s)
    ensures Unseized(Next(s, a))
  {
    hide Inv, StepPc;
    if Next(s, a).seizures == 0 {
      if a.Step? || a.GiveUp? {
        if a.p !in s.procs { Idle(s, a); } else if a.Step? { StepKeeps(s, a.p); } else { GiveUpKeeps(s, a.p); }
      } else if a.Begin? || a.Crash? {
        ComeOrGo(s, a);
      }
    }
  }

  lemma RunInv(run: seq<State>, k: nat)
    requires Run(run) && k < |run| && run[k].seizures == 0
    ensures Inv(run[k])
  {
    hide Inv, Next;
    InitInv(run[0]);
    forall s, t | Unseized(s) && Steps(s, t) ensures Unseized(t) {
      var a :| t == Next(s, a);
      NextUnseized(s, a);
    }
    Invariance(Unseized, Steps, run, k);
  }

  lemma Idle(s: State, a: Action)
    requires (a.Step? || a.GiveUp?) && a.p !in s.procs
    ensures Next(s, a) == s
  {
  }

  lemma InitInv(s: State)
    requires Init(s)
    ensures Inv(s)
  {
  }
}
