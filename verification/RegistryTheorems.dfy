/** What registration guarantees while no lock is seized from a live holder, what it guarantees always, and
    what a seizure can do. */
module RegistryTheorems {
  import opened Common
  import opened Registry

  /** While no lock has been seized from a live holder, a repository mapped in a host's registry always has an
      ownership pointer that names that host, so no repository is mapped by two hosts. */
  lemma MappedNamesOwner(run: seq<State>, k: nat, h: HostId, r: Repo)
    requires Run(run) && k < |run| && run[k].seizures == 0 && r in Mapped(run[k], h)
    ensures r in run[k].pointers && run[k].pointers[r].host == h
    ensures forall other :: r in Mapped(run[k], other) ==> other == h
  {
    hide ProcOk, Distinct;
    RunInv(run, k);
    assert Named(run[k], h, r);
    forall other | r in Mapped(run[k], other) ensures other == h { assert Named(run[k], other, r); }
  }

  /** No registry, written or about to be written, gives a workspace to two repositories: each is validated. */
  ghost predicate AllDistinct(s: State) {
    && (forall h :: Distinct(Mapped(s, h)))
    && (forall p :: p in s.procs && s.procs[p].pc.WriteRegistry? ==> Distinct(s.procs[p].pc.next))
  }

  lemma StepDistinct(s: State, pr: Proc)
    ensures var x := StepPc(s, pr); !x.Stay? && x.next.WriteRegistry? ==> Distinct(x.next.next)
    ensures var x := StepPc(s, pr); x.PutRegistry? ==> pr.pc.WriteRegistry? && x.mappings == pr.pc.next
  {
    hide Distinct;
  }

  lemma StepAllDistinct(s: State, p: Pid, x: Effect)
    requires AllDistinct(s) && p in s.procs
    requires !x.Stay? && x.next.WriteRegistry? ==> Distinct(x.next.next)
    requires x.PutRegistry? ==> Distinct(x.mappings)
    ensures AllDistinct(Apply(s, p, x))
  {
    hide Distinct;
    var t := Apply(s, p, x);
    forall h ensures Distinct(Mapped(t, h)) {
      if !(x.PutRegistry? && h == s.procs[p].host) { assert Mapped(t, h) == Mapped(s, h); }
    }
  }

  lemma KeepsAllDistinct(s: State, a: Action)
    requires AllDistinct(s)
    ensures AllDistinct(Next(s, a))
  {
    hide Distinct, StepPc, Apply;
    if a.Step? && a.p in s.procs {
      StepDistinct(s, s.procs[a.p]);
      StepAllDistinct(s, a.p, StepPc(s, s.procs[a.p]));
    } else if a.GiveUp? && a.p in s.procs {
      StepAllDistinct(s, a.p, Goto(Done(false)));
      if s.procs[a.p].pc.TakeHost? { StepAllDistinct(s, a.p, Goto(Settle(s.procs[a.p].pc.found, false))); }
    } else {
      assert forall h :: Mapped(Next(s, a), h) == Mapped(s, h);
    }
  }

  /** Within a registry, no two repositories share a Herdr workspace, whatever was seized. */
  lemma WorkspacesDistinct(run: seq<State>, k: nat, h: HostId, a: Repo, b: Repo)
    requires Run(run) && k < |run| && a in Mapped(run[k], h) && b in Mapped(run[k], h) && a != b
    ensures Mapped(run[k], h)[a].workspace != Mapped(run[k], h)[b].workspace
  {
    hide Next;
    forall s, t | AllDistinct(s) && Steps(s, t) ensures AllDistinct(t) {
      var x :| t == Next(s, x);
      KeepsAllDistinct(s, x);
    }
    Invariance(AllDistinct, Steps, run, k);
    assert Distinct(Mapped(run[k], h));
  }

  /** While nothing has been seized, a pointer changes hands only when no registry maps the repository:
      ownership cannot be taken from a host that still maps it. */
  lemma OwnershipNotTaken(run: seq<State>, k: nat, r: Repo)
    requires Run(run) && k + 1 < |run| && run[k].seizures == 0 && r in run[k].pointers
    requires r !in run[k + 1].pointers || run[k + 1].pointers[r].host != run[k].pointers[r].host
    ensures Unmapped(run[k], r)
  {
    hide ProcOk, Owned, Distinct, StepPc, Unmapped;
    RunInv(run, k);
    assert Steps(run[k], run[k + 1]);
    var a :| run[k + 1] == Next(run[k], a);
    if a.Step? && a.p in run[k].procs { TakenUnmapped(run[k], a.p, r); }
  }

  lemma TakenUnmapped(s: State, p: Pid, r: Repo)
    requires Inv(s) && p in s.procs && r in s.pointers
    ensures var t := Next(s, Step(p));
            r !in t.pointers || t.pointers[r].host != s.pointers[r].host ==> Unmapped(s, r)
  {
    hide ProcOk, Owned, Distinct, StepPc, Unmapped;
    if s.procs[p].job.Register? { RegisterEffect(s, p); }
    else if s.procs[p].job.Unregister? { UnregisterEffect(s, p); }
    else { RefreshEffect(s, p); }
  }

  // ----- a registration does happen

  ghost predicate Reachable(s: State) { Reached(Init, Steps, s) }

  lemma Reach(s: State, a: Action, t: State)
    requires Reachable(s) && t == Next(s, a)
    ensures Reachable(t)
  {
    hide Next;
    assert Steps(s, t);
    ReachedNext(Init, Steps, s, t);
  }

  const FRESH := State(map[], map[], map[], map[], map[], {}, 0)
  const HERDR := Herdr("w", "p")

  /** One registration of a repository with host 1, on the files of `rest`. */
  function Registering(pc: Pc, rest: State): State { rest.(procs := map[1 := Proc(Register(HERDR), 1, "r", pc)]) }

  lemma MovesPc(s: State, p: Pid, x: Effect)
    requires p in s.procs && !x.Stay?
    ensures Apply(s, p, x).procs == s.procs[p := s.procs[p].(pc := x.next)]
  {
  }

  lemma Moves(pc: Pc, rest: State, x: Effect)
    requires Reachable(Registering(pc, rest)) && !x.Stay?
    requires StepPc(Registering(pc, rest), Proc(Register(HERDR), 1, "r", pc)) == x
    ensures Reachable(Apply(Registering(pc, rest), 1, x))
    ensures Apply(Registering(pc, rest), 1, x).procs == Registering(x.next, rest).procs
  {
    hide StepPc, Apply;
    MovesPc(Registering(pc, rest), 1, x);
    assert Registering(pc, rest).procs[1 := Proc(Register(HERDR), 1, "r", x.next)] == Registering(x.next, rest).procs;
    Reach(Registering(pc, rest), Step(1), Apply(Registering(pc, rest), 1, x));
  }

  const LOCKED := FRESH.(repoLocks := FRESH.repoLocks["r" := 1])
  const POINTED := LOCKED.(pointers := LOCKED.pointers["r" := Pointer(1, HERDR)])
  const BOTH := POINTED.(hostLocks := POINTED.hostLocks[1 := 1])
  const MAPPED := BOTH.(registries := BOTH.registries[1 := map["r" := HERDR]])

  lemma Points()
    ensures Reachable(Registering(TakeHost(None), POINTED))
  {
    ReachedAtOnce(Init, Steps, FRESH);
    Reach(FRESH, Begin(1, Register(HERDR), 1, "r"), Registering(Start, FRESH));
    Moves(Start, FRESH, Goto(TakeRepo(None)));
    Moves(TakeRepo(None), FRESH, LockRepo(ReadPointer(None)));
    Moves(ReadPointer(None), LOCKED, Goto(Claim(None)));
    Moves(Claim(None), LOCKED, PutPointer(TakeHost(None), Pointer(1, HERDR)));
  }

  const MAPPING: Mappings := map["r" := HERDR]

  lemma MapsFirst()
    ensures Mutate(Register(HERDR), "r", map[]) == Some(MAPPING)
  {
    assert map[]["r" := HERDR] == MAPPING && Distinct(MAPPING);
  }

  lemma Maps()
    ensures Reachable(Registering(FreeHost(None, true), MAPPED))
  {
    hide Mutate;
    Points();
    MapsFirst();
    Moves(TakeHost(None), POINTED, LockHost(ReadRegistry(None)));
    Moves(ReadRegistry(None), BOTH, Goto(WriteRegistry(None, map[], MAPPING)));
    Moves(WriteRegistry(None, map[], MAPPING), BOTH, PutRegistry(FreeHost(None, true), MAPPING));
  }

  /** A repository that nobody owned is registered: pointer and mapping in place, locks free. */
  lemma RegistrationHappens()
    ensures exists s: State :: Reachable(s) && "r" in Mapped(s, 1) && Named(s, 1, "r") && s.hostLocks == map[] && s.repoLocks == map[]
                               && 1 in s.procs && s.procs[1].pc == Done(true)
  {
    Maps();
    var a := MAPPED.(hostLocks := map[]);
    assert MAPPED.hostLocks - {1} == map[];
    Moves(FreeHost(None, true), MAPPED, UnlockHost(Settle(None, true)));
    Moves(Settle(None, true), a, Goto(FreeRepo(true)));
    assert a.repoLocks - {"r"} == map[];
    Moves(FreeRepo(true), a, UnlockRepo(Done(true)));
  }

  // ----- what a seizure can do

  /** Hosts 1 and 2 register the same repository at once. */
  function BothRegister(one: Pc, two: Pc, rest: State): State {
    rest.(procs := map[1 := Proc(Register(HERDR), 1, "r", one), 2 := Proc(Register(HERDR), 2, "r", two)])
  }

  lemma FirstMoves(one: Pc, two: Pc, rest: State, x: Effect, after: State)
    requires Reachable(BothRegister(one, two, rest)) && !x.Stay?
    requires StepPc(BothRegister(one, two, rest), Proc(Register(HERDR), 1, "r", one)) == x
    requires Apply(BothRegister(one, two, rest), 1, x).(procs := map[]) == after.(procs := map[])
    ensures Reachable(BothRegister(x.next, two, after))
  {
    hide StepPc, Apply;
    var t := Apply(BothRegister(one, two, rest), 1, x);
    MovesPc(BothRegister(one, two, rest), 1, x);
    assert t == t.(procs := map[]).(procs := t.procs) && t.procs == BothRegister(x.next, two, after).procs;
    Reach(BothRegister(one, two, rest), Step(1), t);
  }

  lemma SecondMoves(one: Pc, two: Pc, rest: State, x: Effect, after: State)
    requires Reachable(BothRegister(one, two, rest)) && !x.Stay?
    requires StepPc(BothRegister(one, two, rest), Proc(Register(HERDR), 2, "r", two)) == x
    requires Apply(BothRegister(one, two, rest), 2, x).(procs := map[]) == after.(procs := map[])
    ensures Reachable(BothRegister(one, x.next, after))
  {
    hide StepPc, Apply;
    var t := Apply(BothRegister(one, two, rest), 2, x);
    MovesPc(BothRegister(one, two, rest), 2, x);
    assert t == t.(procs := map[]).(procs := t.procs) && t.procs == BothRegister(one, x.next, after).procs;
    Reach(BothRegister(one, two, rest), Step(2), t);
  }

  const SEIZED := FRESH.(seizures := 1)
  const SECOND := SEIZED.(repoLocks := map["r" := 2])
  const SECOND_POINTS := SECOND.(pointers := map["r" := Pointer(2, HERDR)])
  const SECOND_LOCKS := SECOND_POINTS.(hostLocks := map[2 := 2])
  const SECOND_MAPS := SECOND_LOCKS.(registries := map[2 := MAPPING])
  const FIRST_POINTS := SECOND_MAPS.(pointers := map["r" := Pointer(1, HERDR)])
  const FIRST_LOCKS := FIRST_POINTS.(hostLocks := map[2 := 2, 1 := 1])
  const FIRST_MAPS := FIRST_LOCKS.(registries := map[2 := MAPPING, 1 := MAPPING])

  /** Host 1 has read that nobody owns the repository when its lock is seized. */
  lemma Seizes()
    ensures Reachable(BothRegister(Claim(None), Start, SEIZED))
  {
    ReachedAtOnce(Init, Steps, FRESH);
    Reach(FRESH, Begin(1, Register(HERDR), 1, "r"), Registering(Start, FRESH));
    Moves(Start, FRESH, Goto(TakeRepo(None)));
    Moves(TakeRepo(None), FRESH, LockRepo(ReadPointer(None)));
    Moves(ReadPointer(None), LOCKED, Goto(Claim(None)));
    Reach(Registering(Claim(None), LOCKED), SeizeRepo("r"), Registering(Claim(None), SEIZED));
    Reach(Registering(Claim(None), SEIZED), Begin(2, Register(HERDR), 2, "r"), BothRegister(Claim(None), Start, SEIZED));
  }

  lemma SecondPoints()
    ensures Reachable(BothRegister(Claim(None), TakeHost(None), SECOND_POINTS))
  {
    hide Mutate;
    Seizes();
    SecondMoves(Claim(None), Start, SEIZED, Goto(TakeRepo(None)), SEIZED);
    SecondMoves(Claim(None), TakeRepo(None), SEIZED, LockRepo(ReadPointer(None)), SECOND);
    SecondMoves(Claim(None), ReadPointer(None), SECOND, Goto(Claim(None)), SECOND);
    SecondMoves(Claim(None), Claim(None), SECOND, PutPointer(TakeHost(None), Pointer(2, HERDR)), SECOND_POINTS);
  }

  lemma SecondReads()
    ensures Reachable(BothRegister(Claim(None), ReadRegistry(None), SECOND_LOCKS))
  {
    hide Mutate;
    SecondPoints();
    SecondMoves(Claim(None), TakeHost(None), SECOND_POINTS, LockHost(ReadRegistry(None)), SECOND_LOCKS);
  }

  lemma SecondMaps()
    ensures Reachable(BothRegister(Claim(None), FreeHost(None, true), SECOND_MAPS))
  {
    hide Mutate;
    SecondReads();
    MapsFirst();
    var w := WriteRegistry(None, map[], MAPPING);
    SecondMoves(Claim(None), ReadRegistry(None), SECOND_LOCKS, Goto(w), SECOND_LOCKS);
    SecondMoves(Claim(None), w, SECOND_LOCKS, PutRegistry(FreeHost(None, true), MAPPING), SECOND_MAPS);
  }

  lemma FirstPoints()
    ensures Reachable(BothRegister(ReadRegistry(None), FreeHost(None, true), FIRST_LOCKS))
  {
    hide Mutate;
    SecondMaps();
    var two := FreeHost(None, true);
    FirstMoves(Claim(None), two, SECOND_MAPS, PutPointer(TakeHost(None), Pointer(1, HERDR)), FIRST_POINTS);
    FirstMoves(TakeHost(None), two, FIRST_POINTS, LockHost(ReadRegistry(None)), FIRST_LOCKS);
  }

  lemma FirstMaps()
    ensures Reachable(BothRegister(FreeHost(None, true), FreeHost(None, true), FIRST_MAPS))
  {
    hide Mutate;
    FirstPoints();
    MapsFirst();
    var two, w := FreeHost(None, true), WriteRegistry(None, map[], MAPPING);
    FirstMoves(ReadRegistry(None), two, FIRST_LOCKS, Goto(w), FIRST_LOCKS);
    FirstMoves(w, two, FIRST_LOCKS, PutRegistry(FreeHost(None, true), MAPPING), FIRST_MAPS);
  }

  /** After one seizure of the ownership lock, two hosts can both map the repository. */
  lemma TwoHostsMap()
    ensures exists s: State :: Reachable(s) && s.seizures == 1 && "r" in Mapped(s, 1) && "r" in Mapped(s, 2)
  {
    FirstMaps();
    var s := BothRegister(FreeHost(None, true), FreeHost(None, true), FIRST_MAPS);
    assert "r" in Mapped(s, 1) && "r" in Mapped(s, 2);
  }
}
