/** What one call of the registry comes to when nobody disturbs it: its outcome, and every file it leaves. */
module RegistryAlone {
  import opened Common
  import opened Registry
  import opened RegistryCalls

  ghost predicate ComesIn(p: Pid, s: State, t: State, n: nat)
    decreases n
  {
    if n == 0 then s == t else ComesIn(p, Next(s, Step(p)), t, n - 1)
  }

  /** By its own steps alone the process comes from the one state to the other. */
  ghost predicate ComesTo(p: Pid, s: State, t: State) { exists n: nat :: ComesIn(p, s, t, n) }

  lemma There(p: Pid, s: State)
    ensures ComesTo(p, s, s)
  {
    assert ComesIn(p, s, s, 0);
  }

  lemma OneStep(p: Pid, s: State, x: Effect, t: State)
    requires p in s.procs && StepPc(s, s.procs[p]) == x && ComesTo(p, Apply(s, p, x), t)
    ensures ComesTo(p, s, t)
  {
    hide StepPc, Apply;
    var n: nat :| ComesIn(p, Apply(s, p, x), t, n);
    assert Next(s, Step(p)) == Apply(s, p, x);
    assert ComesIn(p, s, t, n + 1);
  }

  /** Both locks are free, or left by the dead. */
  predicate Unlocked(s: State, h: HostId, r: Repo) {
    (r in s.repoLocks ==> s.repoLocks[r] in s.dead) && (h in s.hostLocks ==> s.hostLocks[h] in s.dead)
  }

  /** The files while the call has the ownership lock: its process at some place, the pointers and the mappings as they
      are by then, and the locks of the registries. */
  function Amid(s: State, p: Pid, pr: Proc, pc: Pc, f: Files): State {
    s.(procs := s.procs[p := pr.(pc := pc)], pointers := f.pointers, registries := f.registries, hostLocks := f.hostLocks,
       repoLocks := s.repoLocks[pr.repo := p])
  }

  datatype Files = Files(pointers: map<Repo, Pointer>, registries: map<HostId, Mappings>, hostLocks: map<HostId, Pid>)

  /** The end of the call; the ownership lock is free. */
  function Ended(s: State, p: Pid, pr: Proc, ok: bool, f: Files): State {
    s.(procs := s.procs[p := pr.(pc := Done(ok))], pointers := f.pointers, registries := f.registries, hostLocks := f.hostLocks,
       repoLocks := s.repoLocks - {pr.repo})
  }

  lemma Frees(s: State, p: Pid, pr: Proc, ok: bool, f: Files)
    ensures ComesTo(p, Amid(s, p, pr, FreeRepo(ok), f), Ended(s, p, pr, ok, f))
  {
    hide ComesTo;
    var a, end := Amid(s, p, pr, FreeRepo(ok), f), Ended(s, p, pr, ok, f);
    assert s.repoLocks[pr.repo := p] - {pr.repo} == s.repoLocks - {pr.repo};
    assert a.procs[p := pr.(pc := Done(ok))] == end.procs;
    There(p, end);
    OneStep(p, a, UnlockRepo(Done(ok)), end);
  }

  /** What the last part of the call makes of the pointers. */
  function Settled(pr: Proc, found: Option<Pointer>, ok: bool, f: Files): Files {
    var r := pr.repo;
    f.(pointers :=
      if pr.job.Register? && !ok && found.None? then f.pointers - {r}
      else if pr.job.Unregister? && ok && found.Some? then f.pointers - {r}
      else if pr.job.Refresh? && ok && found.Some? then f.pointers[r := found.value.(herdr := pr.job.herdr)]
      else f.pointers)
  }

  lemma Settles(s: State, p: Pid, pr: Proc, found: Option<Pointer>, ok: bool, f: Files)
    requires pr.job.Refresh? && found.Some? ==> pr.repo in f.pointers && f.pointers[pr.repo] == found.value
    ensures ComesTo(p, Amid(s, p, pr, Settle(found, ok), f), Ended(s, p, pr, ok, Settled(pr, found, ok, f)))
  {
    hide ComesTo;
    var t := Settled(pr, found, ok, f);
    var a, b := Amid(s, p, pr, Settle(found, ok), f), Amid(s, p, pr, FreeRepo(ok), t);
    Frees(s, p, pr, ok, t);
    assert a.procs[p := pr.(pc := FreeRepo(ok))] == b.procs;
    assert pr.job.Refresh? && found.Some? && found.value.herdr == pr.job.herdr ==> t.pointers == f.pointers;
    OneStep(p, a, StepPc(a, a.procs[p]), Ended(s, p, pr, ok, t));
  }

  // ----- the update of the registry

  function MappedIn(f: Files, h: HostId): Mappings { if h in f.registries then f.registries[h] else map[] }

  /** The files after the update, with the registry's lock free again. */
  function Updated(pr: Proc, f: Files): Files {
    var next := Mutate(pr.job, pr.repo, MappedIn(f, pr.host));
    f.(registries := if next.Some? then f.registries[pr.host := next.value] else f.registries, hostLocks := f.hostLocks - {pr.host})
  }

  lemma FreesHost(s: State, p: Pid, pr: Proc, found: Option<Pointer>, ok: bool, f: Files, end: State)
    requires pr.host in f.hostLocks && f.hostLocks[pr.host] == p
    requires ComesTo(p, Amid(s, p, pr, Settle(found, ok), f.(hostLocks := f.hostLocks - {pr.host})), end)
    ensures ComesTo(p, Amid(s, p, pr, FreeHost(found, ok), f), end)
  {
    hide ComesTo;
    var a, b := Amid(s, p, pr, FreeHost(found, ok), f), Amid(s, p, pr, Settle(found, ok), f.(hostLocks := f.hostLocks - {pr.host}));
    assert a.procs[p := pr.(pc := Settle(found, ok))] == b.procs;
    OneStep(p, a, UnlockHost(Settle(found, ok)), end);
  }

  lemma Reads(s: State, p: Pid, pr: Proc, found: Option<Pointer>, f: Files, end: State)
    requires pr.host in f.hostLocks && f.hostLocks[pr.host] == p
    requires ComesTo(p, Amid(s, p, pr, Settle(found, Mutate(pr.job, pr.repo, MappedIn(f, pr.host)).Some?), Updated(pr, f)), end)
    ensures ComesTo(p, Amid(s, p, pr, ReadRegistry(found), f), end)
  {
    hide ComesTo, Mutate;
    var a, base := Amid(s, p, pr, ReadRegistry(found), f), MappedIn(f, pr.host);
    var next := Mutate(pr.job, pr.repo, base);
    if next.Some? {
      var w, g := WriteRegistry(found, base, next.value), f.(registries := f.registries[pr.host := next.value]);
      FreesHost(s, p, pr, found, true, g, end);
      var b, c := Amid(s, p, pr, w, f), Amid(s, p, pr, FreeHost(found, true), g);
      assert b.procs[p := pr.(pc := FreeHost(found, true))] == c.procs;
      OneStep(p, b, PutRegistry(FreeHost(found, true), next.value), end);
      assert a.procs[p := pr.(pc := w)] == b.procs;
      OneStep(p, a, Goto(w), end);
    } else {
      FreesHost(s, p, pr, found, false, f, end);
      assert a.procs[p := pr.(pc := FreeHost(found, false))] == Amid(s, p, pr, FreeHost(found, false), f).procs;
      OneStep(p, a, Goto(FreeHost(found, false)), end);
    }
  }

  lemma TakesHost(s: State, p: Pid, pr: Proc, found: Option<Pointer>, f: Files, end: State)
    requires pr.host in f.hostLocks ==> f.hostLocks[pr.host] in s.dead
    requires ComesTo(p, Amid(s, p, pr, Settle(found, Mutate(pr.job, pr.repo, MappedIn(f, pr.host)).Some?), Updated(pr, f)), end)
    ensures ComesTo(p, Amid(s, p, pr, TakeHost(found), f), end)
  {
    hide ComesTo, Mutate;
    var a, g := Amid(s, p, pr, TakeHost(found), f), f.(hostLocks := f.hostLocks[pr.host := p]);
    assert g.hostLocks - {pr.host} == f.hostLocks - {pr.host};
    assert Updated(pr, g) == Updated(pr, f);
    Reads(s, p, pr, found, g, end);
    assert a.procs[p := pr.(pc := ReadRegistry(found))] == Amid(s, p, pr, ReadRegistry(found), g).procs;
    OneStep(p, a, LockHost(ReadRegistry(found)), end);
  }

  // ----- the four calls

  /** The call is free to begin: a new process, and both locks free or left by the dead. */
  predicate Free(s: State, p: Pid, h: HostId, r: Repo) { p !in s.procs && p !in s.dead && Unlocked(s, h, r) }

  function FilesOf(s: State): Files { Files(s.pointers, s.registries, s.hostLocks) }

  /** The call has begun. */
  function Begun(s: State, p: Pid, job: Job, h: HostId, r: Repo): State { Next(s, Begin(p, job, h, r)) }

  /** From where the call takes the ownership lock, it comes to what it comes to once it has the lock. */
  lemma TakesRepo(s: State, p: Pid, pr: Proc, mapping: Option<Herdr>, end: State)
    requires Free(s, p, pr.host, pr.repo) && ComesTo(p, Amid(s, p, pr, ReadPointer(mapping), FilesOf(s)), end)
    ensures ComesTo(p, s.(procs := s.procs[p := pr.(pc := TakeRepo(mapping))]), end)
  {
    hide ComesTo;
    var a := s.(procs := s.procs[p := pr.(pc := TakeRepo(mapping))]);
    var b := Amid(s, p, pr, ReadPointer(mapping), FilesOf(s));
    assert a.procs[p := pr.(pc := ReadPointer(mapping))] == b.procs;
    assert Apply(a, p, LockRepo(ReadPointer(mapping))) == b;
    OneStep(p, a, LockRepo(ReadPointer(mapping)), end);
  }

  lemma BeginsLocked(s: State, p: Pid, job: Job, h: HostId, r: Repo, end: State)
    requires Free(s, p, h, r) && (job.Register? || job.Unregister?)
    requires ComesTo(p, Amid(s, p, Proc(job, h, r, Start), ReadPointer(None), FilesOf(s)), end)
    ensures ComesTo(p, Begun(s, p, job, h, r), end)
  {
    hide ComesTo;
    var pr, a := Proc(job, h, r, Start), Begun(s, p, job, h, r);
    TakesRepo(s, p, pr, None, end);
    assert a.procs[p := pr.(pc := TakeRepo(None))] == s.procs[p := pr.(pc := TakeRepo(None))];
    OneStep(p, a, Goto(TakeRepo(None)), end);
  }

  /** A step that changes no file. */
  lemma GoesOn(s: State, p: Pid, pr: Proc, from: Pc, to: Pc, f: Files, end: State)
    requires StepPc(Amid(s, p, pr, from, f), pr.(pc := from)) == Goto(to) && ComesTo(p, Amid(s, p, pr, to, f), end)
    ensures ComesTo(p, Amid(s, p, pr, from, f), end)
  {
    hide ComesTo, StepPc;
    assert Amid(s, p, pr, from, f).procs[p := pr.(pc := to)] == Amid(s, p, pr, to, f).procs;
    OneStep(p, Amid(s, p, pr, from, f), Goto(to), end);
  }

  /** A step that writes the pointer. */
  lemma Points(s: State, p: Pid, pr: Proc, from: Pc, to: Pc, f: Files, pointer: Pointer, end: State)
    requires StepPc(Amid(s, p, pr, from, f), pr.(pc := from)) == PutPointer(to, pointer)
    requires ComesTo(p, Amid(s, p, pr, to, f.(pointers := f.pointers[pr.repo := pointer])), end)
    ensures ComesTo(p, Amid(s, p, pr, from, f), end)
  {
    hide ComesTo, StepPc;
    assert Amid(s, p, pr, from, f).procs[p := pr.(pc := to)] == Amid(s, p, pr, to, f).procs;
    OneStep(p, Amid(s, p, pr, from, f), PutPointer(to, pointer), end);
  }

  /** The files after an update that came to this. */
  function After(s: State, h: HostId, pointers: map<Repo, Pointer>, registries: map<HostId, Mappings>): Files {
    Files(pointers, registries, s.hostLocks - {h})
  }

  /** A registration alone is refused, without a trace, exactly when another host owns the repository; it succeeds, with
      pointer and mapping in place, exactly when besides no other repository has the workspace; otherwise it leaves
      the mappings as they are, and the pointer absent if it was absent. */
  lemma RegisterAlone(s: State, p: Pid, h: HostId, r: Repo, w: Herdr)
    requires Free(s, p, h, r) && Distinct(Mapped(s, h))
    ensures var first, pr, m := Begun(s, p, Register(w), h, r), Proc(Register(w), h, r, Start), Mapped(s, h);
            if r in s.pointers && s.pointers[r].host != h then
              ComesTo(p, first, Ended(s, p, pr, false, FilesOf(s)))
            else if WorkspaceFree(m, r, w) then
              ComesTo(p, first, Ended(s, p, pr, true, After(s, h, s.pointers[r := Pointer(h, w)], s.registries[h := m[r := w]])))
            else
              ComesTo(p, first, Ended(s, p, pr, false,
                After(s, h, if r in s.pointers then s.pointers[r := Pointer(h, w)] else s.pointers, s.registries)))
  {
    hide ComesTo, Next, Distinct, WorkspaceFree;
    var pr, found, f := Proc(Register(w), h, r, Start), PointerOf(s, r), FilesOf(s);
    var from := ReadPointer(None);
    if found.Some? && found.value.host != h {
      Frees(s, p, pr, false, f);
      GoesOn(s, p, pr, from, FreeRepo(false), f, Ended(s, p, pr, false, f));
      BeginsLocked(s, p, pr.job, h, r, Ended(s, p, pr, false, f));
    } else {
      var g := f.(pointers := f.pointers[r := Pointer(h, w)]);
      UpdatesExactly(pr.job, r, Mapped(s, h));
      assert Mapped(s, h) == MappedIn(g, h);
      var ok := Mutate(pr.job, r, MappedIn(g, h)).Some?;
      var end := Ended(s, p, pr, ok, Settled(pr, found, ok, Updated(pr, g)));
      Settles(s, p, pr, found, ok, Updated(pr, g));
      TakesHost(s, p, pr, found, g, end);
      Points(s, p, pr, Claim(found), TakeHost(found), f, Pointer(h, w), end);
      GoesOn(s, p, pr, from, Claim(found), f, end);
      BeginsLocked(s, p, pr.job, h, r, end);
      RegisterFiles(s, h, r, w);
    }
  }

  lemma RegisterFiles(s: State, h: HostId, r: Repo, w: Herdr)
    requires Distinct(Mapped(s, h))
    ensures var pr, found := Proc(Register(w), h, r, Start), PointerOf(s, r);
            var u := Updated(pr, FilesOf(s).(pointers := s.pointers[r := Pointer(h, w)]));
            var ok := Mutate(pr.job, r, Mapped(s, h)).Some?;
            && ok == WorkspaceFree(Mapped(s, h), r, w)
            && Settled(pr, found, ok, u) ==
                 if ok then After(s, h, s.pointers[r := Pointer(h, w)], s.registries[h := Mapped(s, h)[r := w]])
                 else After(s, h, if r in s.pointers then s.pointers[r := Pointer(h, w)] else s.pointers, s.registries)
  {
    UpdatesExactly(Register(w), r, Mapped(s, h));
    assert Mapped(s, h) == MappedIn(FilesOf(s).(pointers := s.pointers[r := Pointer(h, w)]), h);
    if r !in s.pointers { assert s.pointers[r := Pointer(h, w)] - {r} == s.pointers; }
    hide Distinct, WorkspaceFree;
  }

  /** An unregistration alone is refused exactly when another host owns the repository; otherwise it leaves neither
      pointer nor mapping, and nothing else changed. */
  lemma UnregisterAlone(s: State, p: Pid, h: HostId, r: Repo)
    requires Free(s, p, h, r) && Distinct(Mapped(s, h))
    ensures var first, pr := Begun(s, p, Unregister, h, r), Proc(Unregister, h, r, Start);
            if r in s.pointers && s.pointers[r].host != h then
              ComesTo(p, first, Ended(s, p, pr, false, FilesOf(s)))
            else
              ComesTo(p, first, Ended(s, p, pr, true, After(s, h, s.pointers - {r}, s.registries[h := Mapped(s, h) - {r}])))
  {
    hide ComesTo, Next, WorkspaceFree;
    var pr, found, f := Proc(Unregister, h, r, Start), PointerOf(s, r), FilesOf(s);
    var from := ReadPointer(None);
    if found.Some? && found.value.host != h {
      Frees(s, p, pr, false, f);
      GoesOn(s, p, pr, from, FreeRepo(false), f, Ended(s, p, pr, false, f));
      BeginsLocked(s, p, pr.job, h, r, Ended(s, p, pr, false, f));
    } else {
      UpdatesExactly(Unregister, r, Mapped(s, h));
      hide Distinct;
      assert Mapped(s, h) == MappedIn(f, h);
      if r !in s.pointers { assert s.pointers - {r} == s.pointers; }
      var end := Ended(s, p, pr, true, After(s, h, s.pointers - {r}, s.registries[h := Mapped(s, h) - {r}]));
      Settles(s, p, pr, found, true, Updated(pr, f));
      TakesHost(s, p, pr, found, f, end);
      GoesOn(s, p, pr, from, TakeHost(found), f, end);
      BeginsLocked(s, p, pr.job, h, r, end);
    }
  }

  /** A refresh or a repair begins from the mapping, if there is one. */
  lemma BeginsMapped(s: State, p: Pid, job: Job, h: HostId, r: Repo, end: State)
    requires Free(s, p, h, r) && (job.Refresh? || job.Repair?) && r in Mapped(s, h)
    requires ComesTo(p, Amid(s, p, Proc(job, h, r, Start), ReadPointer(Some(Mapped(s, h)[r])), FilesOf(s)), end)
    ensures ComesTo(p, Begun(s, p, job, h, r), end)
  {
    hide ComesTo;
    var pr, a, mapping := Proc(job, h, r, Start), Begun(s, p, job, h, r), Some(Mapped(s, h)[r]);
    TakesRepo(s, p, pr, mapping, end);
    assert a.procs[p := pr.(pc := TakeRepo(mapping))] == s.procs[p := pr.(pc := TakeRepo(mapping))];
    OneStep(p, a, Goto(TakeRepo(mapping)), end);
  }

  lemma BeginsUnmapped(s: State, p: Pid, job: Job, h: HostId, r: Repo)
    requires Free(s, p, h, r) && (job.Refresh? || job.Repair?) && r !in Mapped(s, h)
    ensures ComesTo(p, Begun(s, p, job, h, r), s.(procs := s.procs[p := Proc(job, h, r, Done(false))]))
  {
    hide ComesTo;
    var pr, a := Proc(job, h, r, Start), Begun(s, p, job, h, r);
    var end := s.(procs := s.procs[p := Proc(job, h, r, Done(false))]);
    There(p, end);
    assert a.procs[p := pr.(pc := Done(false))] == end.procs;
    OneStep(p, a, Goto(Done(false)), end);
  }

  /** A refresh alone fails without a trace exactly when the repository is not mapped, or its ownership pointer is absent
      or names another host. Otherwise it leaves the new binding in pointer and mapping if no other repository has its
      workspace, or if the mapping has it already; if another has, nothing changes. */
  lemma RefreshAlone(s: State, p: Pid, h: HostId, r: Repo, w: Herdr)
    requires Free(s, p, h, r) && Distinct(Mapped(s, h))
    ensures var first, pr, m := Begun(s, p, Refresh(w), h, r), Proc(Refresh(w), h, r, Start), Mapped(s, h);
            if r !in m then ComesTo(p, first, s.(procs := s.procs[p := Proc(Refresh(w), h, r, Done(false))]))
            else if r !in s.pointers || s.pointers[r].host != h then ComesTo(p, first, Ended(s, p, pr, false, FilesOf(s)))
            else if m[r] == w then ComesTo(p, first, Ended(s, p, pr, true, FilesOf(s).(pointers := s.pointers[r := Pointer(h, w)])))
            else if WorkspaceFree(m, r, w) then
              ComesTo(p, first, Ended(s, p, pr, true, After(s, h, s.pointers[r := Pointer(h, w)], s.registries[h := m[r := w]])))
            else ComesTo(p, first, Ended(s, p, pr, false, After(s, h, s.pointers, s.registries)))
  {
    hide ComesTo, Next, Distinct, WorkspaceFree;
    var pr, found, f, m := Proc(Refresh(w), h, r, Start), PointerOf(s, r), FilesOf(s), Mapped(s, h);
    if r !in m {
      BeginsUnmapped(s, p, Refresh(w), h, r);
    } else {
      var from := ReadPointer(Some(m[r]));
      if found.None? || found.value.host != h {
        Frees(s, p, pr, false, f);
        GoesOn(s, p, pr, from, FreeRepo(false), f, Ended(s, p, pr, false, f));
        BeginsMapped(s, p, Refresh(w), h, r, Ended(s, p, pr, false, f));
      } else if m[r] == w {
        var end := Ended(s, p, pr, true, Settled(pr, found, true, f));
        Settles(s, p, pr, found, true, f);
        GoesOn(s, p, pr, from, Settle(found, true), f, end);
        BeginsMapped(s, p, Refresh(w), h, r, end);
      } else {
        RefreshUpdates(s, p, h, r, w);
      }
    }
  }

  lemma RefreshUpdates(s: State, p: Pid, h: HostId, r: Repo, w: Herdr)
    requires Free(s, p, h, r) && Distinct(Mapped(s, h)) && r in Mapped(s, h) && Mapped(s, h)[r] != w
    requires r in s.pointers && s.pointers[r].host == h
    ensures var first, pr, m := Begun(s, p, Refresh(w), h, r), Proc(Refresh(w), h, r, Start), Mapped(s, h);
            if WorkspaceFree(m, r, w) then
              ComesTo(p, first, Ended(s, p, pr, true, After(s, h, s.pointers[r := Pointer(h, w)], s.registries[h := m[r := w]])))
            else ComesTo(p, first, Ended(s, p, pr, false, After(s, h, s.pointers, s.registries)))
  {
    hide ComesTo, Next, Distinct, WorkspaceFree;
    var pr, found, f, m := Proc(Refresh(w), h, r, Start), Some(s.pointers[r]), FilesOf(s), Mapped(s, h);
    UpdatesExactly(pr.job, r, m);
    assert m == MappedIn(f, h);
    var ok := Mutate(pr.job, r, m).Some?;
    var end := Ended(s, p, pr, ok, Settled(pr, found, ok, Updated(pr, f)));
    Settles(s, p, pr, found, ok, Updated(pr, f));
    TakesHost(s, p, pr, found, f, end);
    GoesOn(s, p, pr, ReadPointer(Some(m[r])), TakeHost(found), f, end);
    BeginsMapped(s, p, Refresh(w), h, r, end);
  }

  /** A repair alone restores the pointer of a mapped repository that has none; with a pointer it changes nothing, and
      succeeds exactly when that is the host's, with the binding of the mapping. */
  lemma RepairAlone(s: State, p: Pid, h: HostId, r: Repo)
    requires Free(s, p, h, r)
    ensures var first, pr, m := Begun(s, p, Repair, h, r), Proc(Repair, h, r, Start), Mapped(s, h);
            if r !in m then ComesTo(p, first, s.(procs := s.procs[p := Proc(Repair, h, r, Done(false))]))
            else if r in s.pointers then ComesTo(p, first, Ended(s, p, pr, s.pointers[r] == Pointer(h, m[r]), FilesOf(s)))
            else ComesTo(p, first, Ended(s, p, pr, true, FilesOf(s).(pointers := s.pointers[r := Pointer(h, m[r])])))
  {
    hide ComesTo, Next;
    var pr, f, m := Proc(Repair, h, r, Start), FilesOf(s), Mapped(s, h);
    if r !in m {
      BeginsUnmapped(s, p, Repair, h, r);
    } else {
      var from := ReadPointer(Some(m[r]));
      if r in s.pointers {
        var ok := s.pointers[r] == Pointer(h, m[r]);
        Frees(s, p, pr, ok, f);
        GoesOn(s, p, pr, from, FreeRepo(ok), f, Ended(s, p, pr, ok, f));
        BeginsMapped(s, p, Repair, h, r, Ended(s, p, pr, ok, f));
      } else {
        var own := Pointer(h, m[r]);
        var g := f.(pointers := s.pointers[r := own]);
        Frees(s, p, pr, true, g);
        Points(s, p, pr, Claim(Some(own)), FreeRepo(true), f, own, Ended(s, p, pr, true, g));
        GoesOn(s, p, pr, from, Claim(Some(own)), f, Ended(s, p, pr, true, g));
        BeginsMapped(s, p, Repair, h, r, Ended(s, p, pr, true, g));
      }
    }
  }
}
