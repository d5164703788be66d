/** Exactly when one attempt can be spawned twice: when two services have read it as queued, for two
    requests, and neither has spawned its worker yet. */
module RunnerRaces {
  import opened Common
  import opened Runner

  /** The service has read the attempt as queued for its request, and nothing but a failure keeps it from spawning. */
  predicate Bound(s: State, pc: Pc, a: Attempt) {
    && !pc.Idle? && pc.r in s.requests && s.requests[pc.r] == a
    && ((pc.Create? && pc.queued && pc.r !in s.results) || (pc.Prepare? && pc.queued) || pc.WorkerFile? || pc.Spawn?)
  }

  /** Two services are bound to spawn the attempt, for two requests. */
  ghost predicate Overlap(s: State, a: Attempt) {
    exists p, q :: p in s.procs && q in s.procs && Bound(s, s.procs[p], a) && Bound(s, s.procs[q], a) && s.procs[p].r != s.procs[q].r
  }

  ghost predicate Once(spawns: seq<Attempt>, a: Attempt) {
    forall i, j :: 0 <= i < j < |spawns| ==> spawns[i] != a || spawns[j] != a
  }

  // ----- without an overlap, the attempt is spawned once

  ghost predicate LocalOk(s: State, pc: Pc, a: Attempt) {
    && (!pc.Idle? ==> pc.r in s.requests)
    && (Starting(pc) ==> pc.r in s.results)
    && (Bound(s, pc, a) && (pc.Create? || pc.Prepare?) ==> a in s.queued)
    && (Bound(s, pc, a) && (pc.WorkerFile? || pc.Spawn?) ==> a !in s.queued && a !in s.spawns)
  }

  ghost predicate Locals(s: State, a: Attempt) { forall p :: p in s.procs ==> LocalOk(s, s.procs[p], a) }

  /** No request is being launched by two services. */
  ghost predicate Launchers(s: State) {
    forall p, q :: p in s.procs && q in s.procs && p != q && Starting(s.procs[p]) && Starting(s.procs[q]) ==>
      s.procs[p].r != s.procs[q].r
  }

  ghost predicate Files(s: State, a: Attempt) {
    && Once(s.spawns, a) && (a in s.spawns ==> a !in s.queued) && (a in s.spawns || a in s.queued ==> a in s.known)
    && forall r :: r in s.requests ==> s.requests[r] in s.known
  }

  ghost predicate Single(s: State, a: Attempt) { Locals(s, a) && Launchers(s) && Files(s, a) }

  lemma OnceMore(spawns: seq<Attempt>, x: Attempt, a: Attempt)
    requires Once(spawns, a) && (x == a ==> a !in spawns)
    ensures Once(spawns + [x], a)
  {
  }

  /** A step of another service leaves what this one relies on. */
  lemma OthersKeep(s: State, p: Pid, i: Input, q: Pid, a: Attempt)
    requires Single(s, a) && !Overlap(s, a) && Enabled(s, p) && q in s.procs && p != q
    ensures LocalOk(Next(s, Step(p, i)), s.procs[q], a)
  {
    hide Once;
    assert LocalOk(s, s.procs[p], a) && LocalOk(s, s.procs[q], a);
    assert Bound(s, s.procs[p], a) && Bound(s, s.procs[q], a) ==> s.procs[p].r == s.procs[q].r;
  }

  lemma OwnStarting(s: State, p: Pid, i: Input, a: Attempt)
    requires Single(s, a) && Enabled(s, p) && Starting(s.procs[p])
    ensures var t := Next(s, Step(p, i)); t.procs.Keys == s.procs.Keys && LocalOk(t, t.procs[p], a)
  {
    hide Once;
    assert LocalOk(s, s.procs[p], a);
  }

  lemma OwnOther(s: State, p: Pid, i: Input, a: Attempt)
    requires Single(s, a) && Enabled(s, p) && !Starting(s.procs[p])
    ensures var t := Next(s, Step(p, i)); t.procs.Keys == s.procs.Keys && LocalOk(t, t.procs[p], a)
  {
    hide Once;
    assert LocalOk(s, s.procs[p], a);
  }

  lemma MovesAlone(s: State, p: Pid, i: Input)
    requires Enabled(s, p)
    ensures var t := Next(s, Step(p, i)); p in t.procs && t.procs == s.procs[p := t.procs[p]]
  {
  }

  /** A service starts a launch by creating the result file. */
  lemma StartsFrom(s: State, p: Pid, i: Input)
    requires Enabled(s, p)
    ensures var pc, t := s.procs[p], Next(s, Step(p, i));
            p in t.procs && Starting(t.procs[p]) ==> !pc.Idle? && t.procs[p].r == pc.r && (Starting(pc) || pc.r !in s.results)
  {
    var pc := s.procs[p];
    if !pc.Idle? && !Starting(pc) {
      hide Starting;
      OnlyCreateStarts(s, p, i);
    }
  }

  lemma OnlyCreateStarts(s: State, p: Pid, i: Input)
    requires Enabled(s, p) && !s.procs[p].Idle? && !Starting(s.procs[p])
    ensures var pc, t := s.procs[p], Next(s, Step(p, i));
            p in t.procs && Starting(t.procs[p]) ==> t.procs[p].r == pc.r && pc.r !in s.results
  {
  }

  lemma LaunchersKeep(s: State, p: Pid, i: Input)
    requires Launchers(s) && Enabled(s, p) && forall q :: q in s.procs && Starting(s.procs[q]) ==> s.procs[q].r in s.results
    ensures Launchers(Next(s, Step(p, i)))
  {
    hide Next, Starting;
    MovesAlone(s, p, i);
    StartsFrom(s, p, i);
  }

  lemma FilesKeep(s: State, p: Pid, i: Input, a: Attempt)
    requires Single(s, a) && Enabled(s, p)
    ensures Files(Next(s, Step(p, i)), a)
  {
    hide Once;
    assert LocalOk(s, s.procs[p], a);
    if s.procs[p].Spawn? { OnceMore(s.spawns, s.requests[s.procs[p].r], a); }
  }

  lemma StepSingle(s: State, p: Pid, i: Input, a: Attempt)
    requires Single(s, a) && !Overlap(s, a) && Enabled(s, p)
    ensures Single(Next(s, Step(p, i)), a)
  {
    hide LocalOk, Launchers, Files, Overlap, StepPc;
    var t := Next(s, Step(p, i));
    if Starting(s.procs[p]) { OwnStarting(s, p, i, a); } else { OwnOther(s, p, i, a); }
    forall q | q in t.procs ensures LocalOk(t, t.procs[q], a) {
      if q != p {
        OthersKeep(s, p, i, q, a);
        MovesAlone(s, p, i);
      }
    }
    StartedInResults(s, a);
    LaunchersKeep(s, p, i);
    FilesKeep(s, p, i, a);
  }

  lemma StartedInResults(s: State, a: Attempt)
    requires Locals(s, a)
    ensures forall q :: q in s.procs && Starting(s.procs[q]) ==> s.procs[q].r in s.results
  {
    forall q | q in s.procs && Starting(s.procs[q]) ensures s.procs[q].r in s.results { assert LocalOk(s, s.procs[q], a); }
  }

  lemma NextSingle(s: State, x: Action, a: Attempt)
    requires Single(s, a) && !Overlap(s, a)
    ensures Single(Next(s, x), a)
  {
    if x.Step? {
      hide Single, Overlap, StepPc;
      if Enabled(s, x.p) { StepSingle(s, x.p, x.i, a); }
    } else {
      hide Once;
      var t := Next(s, x);
      forall q | q in t.procs ensures LocalOk(t, t.procs[q], a) {
        if q in s.procs { assert LocalOk(s, s.procs[q], a); }
      }
    }
  }

  /** As long as no two services were bound to spawn an attempt at one moment, for two requests, it has been spawned at
      most once, over any number of services and requests. */
  lemma {:induction false} SpawnedOnceUnlessOverlap(run: seq<State>, k: nat, a: Attempt)
    requires Run(run) && k < |run| && forall i :: 0 <= i < k ==> !Overlap(run[i], a)
    ensures Single(run[k], a) && Once(run[k].spawns, a)
  {
    hide Locals, Launchers, Overlap, Next;
    if k > 0 {
      SpawnedOnceUnlessOverlap(run, k - 1, a);
      assert Steps(run[k - 1], run[k - 1 + 1]);
      var x :| run[k] == Next(run[k - 1], x);
      NextSingle(run[k - 1], x, a);
    } else {
      NoneYet(run[0], a);
    }
  }

  lemma NoneYet(s: State, a: Attempt)
    requires Init(s)
    ensures Single(s, a)
  {
  }

  // ----- an overlap can always end in two spawns

  ghost predicate LeadsTo(s: State, t: State) { Reached((x: State) => x == s, Steps, t) }

  lemma Onward(s: State, t: State, x: Action)
    requires LeadsTo(s, t)
    ensures LeadsTo(s, Next(t, x))
  {
    hide Next;
    assert Steps(t, Next(t, x));
    ReachedNext((x: State) => x == s, Steps, t, Next(t, x));
  }

  function Left(pc: Pc): nat {
    if pc.Create? then 3 else if pc.Prepare? then 2 else if pc.WorkerFile? then 1 else 0
  }

  lemma GoesOn(t: State, p: Pid, a: Attempt)
    requires p in t.procs && Bound(t, t.procs[p], a)
    ensures var u, pc := Next(t, Step(p, OK)), t.procs[p];
            && p in u.procs && u.procs == t.procs[p := u.procs[p]] && u.requests == t.requests
            && u.results.Keys == t.results.Keys + (if pc.Create? then {pc.r} else {})
            && if pc.Spawn? then u.spawns == t.spawns + [a]
               else u.spawns == t.spawns && Bound(u, u.procs[p], a) && u.procs[p].r == pc.r && Left(u.procs[p]) < Left(pc)
  {
  }

  /** A bound service that nothing fails spawns the worker. */
  lemma {:induction false} SpawnsNow(s: State, t: State, p: Pid, a: Attempt) returns (u: State)
    requires LeadsTo(s, t) && p in t.procs && Bound(t, t.procs[p], a)
    ensures LeadsTo(s, u) && u.spawns == t.spawns + [a] && u.requests == t.requests
    ensures p in u.procs && u.procs == t.procs[p := u.procs[p]]
    ensures u.results.Keys <= t.results.Keys + {t.procs[p].r}
    decreases Left(t.procs[p])
  {
    hide Next, LeadsTo, Bound;
    var v := Next(t, Step(p, OK));
    Onward(s, t, Step(p, OK));
    GoesOn(t, p, a);
    u := v;
    if !t.procs[p].Spawn? { u := SpawnsNow(s, v, p, a); }
  }

  /** Wherever two services are so bound, the run can go on to two spawns of the one attempt. */
  lemma OverlapSpawnsTwice(s: State, a: Attempt)
    requires Overlap(s, a)
    ensures exists t :: LeadsTo(s, t) && !Once(t.spawns, a)
  {
    hide LeadsTo;
    var p, q :| p in s.procs && q in s.procs && Bound(s, s.procs[p], a) && Bound(s, s.procs[q], a) && s.procs[p].r != s.procs[q].r;
    Standing(s);
    var t := SpawnsNow(s, s, p, a);
    var u := SpawnsNow(s, t, q, a);
    assert u.spawns[|s.spawns|] == a && u.spawns[|s.spawns| + 1] == a;
    assert !Once(u.spawns, a);
  }

  lemma Standing(s: State)
    ensures LeadsTo(s, s)
  {
    ReachedAtOnce((x: State) => x == s, Steps, s);
  }
}
