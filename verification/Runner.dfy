/** Runner requests in src/opsled-runner.js with the launch preparation of src/runner.js: a service
    executes request files one after the other and records one result file for each. One step is one
    file operation; services may die anywhere, and more than one may run. The detached worker, the
    host's authority checks and every handshake are outside, and arrive as the `Input` of a step. */
module Runner {
  import opened Common

  type Pid = nat
  type RequestId = nat
  type Attempt = nat

  datatype Status = Launching | Running | Terminal | Failed | Unknown | TimedOut | Other(name: string)

  /** `queued`: what the attempt file said when the authority of the request was checked. */
  datatype Pc =
    | Idle
    | Look(r: RequestId)
    | Read(r: RequestId)
    | Adopt(r: RequestId)
    | Publish(r: RequestId)
    | Check(r: RequestId, status: Status)
    | Supervise(r: RequestId)
    | Write(r: RequestId, status: Status)
    | Authority(r: RequestId)
    | Create(r: RequestId, queued: bool)
    | Prepare(r: RequestId, queued: bool)
    | WorkerFile(r: RequestId)
    | Spawn(r: RequestId)
    | Await(r: RequestId)
    | PublishNew(r: RequestId)
    | Conclude(r: RequestId, status: Status)

  /** The request, result, attempt, worker and host record files, the services, and a history: the
      requests whose launch was begun and the attempts whose worker was spawned, in order. */
  datatype State = State(
    requests: map<RequestId, Attempt>,
    results: map<RequestId, Status>,
    queued: set<Attempt>,
    known: set<Attempt>,
    workers: set<Attempt>,
    records: set<Attempt>,
    procs: map<Pid, Pc>,
    dead: set<Pid>,
    launches: seq<RequestId>,
    spawns: seq<Attempt>)

  ghost predicate Init(s: State) {
    && s.requests == map[] && s.results == map[] && s.queued == {} && s.known == {} && s.workers == {} && s.records == {}
    && s.procs == map[] && s.dead == {} && s.launches == [] && s.spawns == []
  }

  datatype Input = Input(ok: bool, status: Status)

  datatype Action =
    | Begin(p: Pid)
    | Take(p: Pid, r: RequestId)
    | Step(p: Pid, i: Input)
    | Crash(p: Pid)
    | Request(r: RequestId, a: Attempt)

  function At(s: State, p: Pid, pc: Pc): State { s.(procs := s.procs[p := pc]) }

  predicate Open(st: Status) { st.Launching? || st.Running? }

  /** executeRunnerRequest, and from `Prepare` on the launch of a detached worker. */
  function StepPc(s: State, p: Pid, pc: Pc, i: Input): State
    requires !pc.Idle? ==> pc.r in s.requests
  {
    if pc.Idle? then s else
    var r, a := pc.r, s.requests[pc.r];
    match pc
    case Idle => s
    case Look(_) => At(s, p, if r in s.results then Read(r) else Authority(r))
    case Read(_) =>
      if r !in s.results || s.results[r].Other? then At(s, p, Idle)
      else At(s, p, if s.results[r].Launching? && a !in s.records then Adopt(r) else Check(r, s.results[r]))
    case Adopt(_) =>
      At(s, p, if a !in s.workers then Check(r, Launching) else if i.ok then Publish(r) else Write(r, Failed))
    case Publish(_) => if i.ok then At(s.(records := s.records + {a}), p, Check(r, Launching)) else At(s, p, Write(r, Failed))
    case Check(_, st) =>
      At(s, p, if Open(st) && a in s.records then Supervise(r) else if st.Launching? then Write(r, Failed) else Idle)
    case Supervise(_) => At(s, p, if i.ok && !i.status.Launching? then Write(r, i.status) else Idle)
    case Write(_, st) => At(s.(results := s.results[r := st]), p, Idle)
    case Authority(_) => At(s, p, if i.ok then Create(r, a in s.queued) else Idle)
    case Create(_, queued) =>
      if r in s.results then At(s, p, Idle)
      else At(s.(results := s.results[r := Launching], launches := s.launches + [r]), p, Prepare(r, queued))
    case Prepare(_, queued) =>
      if !queued || !i.ok then At(s, p, Conclude(r, Failed))
      else At(s.(queued := s.queued - {a}), p, WorkerFile(r))
    case WorkerFile(_) => At(s.(workers := s.workers + {a}), p, Spawn(r))
    case Spawn(_) => if i.ok then At(s.(spawns := s.spawns + [a]), p, Await(r)) else At(s, p, Conclude(r, Failed))
    case Await(_) => At(s, p, if i.ok then PublishNew(r) else Conclude(r, Failed))
    case PublishNew(_) =>
      if i.ok then At(s.(records := s.records + {a}), p, Conclude(r, Running)) else At(s, p, Conclude(r, Failed))
    case Conclude(_, st) => At(s.(results := s.results[r := st]), p, Idle)
  }

  predicate Enabled(s: State, p: Pid) { p in s.procs && (!s.procs[p].Idle? ==> s.procs[p].r in s.requests) }

  function Next(s: State, a: Action): State {
    match a
    case Begin(p) => if p in s.procs || p in s.dead then s else At(s, p, Idle)
    case Take(p, r) => if p in s.procs && s.procs[p].Idle? && r in s.requests then At(s, p, Look(r)) else s
    case Step(p, i) => if Enabled(s, p) then StepPc(s, p, s.procs[p], i) else s
    case Crash(p) => if p in s.procs then s.(procs := s.procs - {p}, dead := s.dead + {p}) else s
    case Request(r, x) => // a request names a new attempt, which is queued, or one that exists
      if r in s.requests then s
      else s.(requests := s.requests[r := x], known := s.known + {x},
              queued := if x in s.known then s.queued else s.queued + {x})
  }

  ghost predicate Steps(s: State, t: State) { exists a :: t == Next(s, a) }

  /** One service at a time: a new one begins only when no other is alive. */
  ghost predicate SoloSteps(s: State, t: State) { exists a :: t == Next(s, a) && (a.Begin? ==> s.procs == map[]) }

  ghost predicate Run(run: seq<State>) { IsRun(Steps, run) && Init(run[0]) }

  ghost predicate SoloRun(run: seq<State>) { IsRun(SoloSteps, run) && Init(run[0]) }

  // ----- any number of services: a request launches at most once

  ghost predicate LaunchedOnce(s: State) {
    && (forall i :: 0 <= i < |s.launches| ==> s.launches[i] in s.results)
    && (forall i, j :: 0 <= i < j < |s.launches| ==> s.launches[i] != s.launches[j])
  }

  lemma KeepsLaunched(s: State, a: Action)
    requires LaunchedOnce(s)
    ensures LaunchedOnce(Next(s, a))
  {
  }

  /** Over any services, overlapping, dying and restarting, a request id triggers launch at most once. */
  lemma LaunchAtMostOnce(run: seq<State>, k: nat)
    requires Run(run) && k < |run|
    ensures forall i, j :: 0 <= i < j < |run[k].launches| ==> run[k].launches[i] != run[k].launches[j]
  {
    hide Next;
    forall s, t | LaunchedOnce(s) && Steps(s, t) ensures LaunchedOnce(t) {
      var a :| t == Next(s, a);
      KeepsLaunched(s, a);
    }
    Invariance(LaunchedOnce, Steps, run, k);
  }

  // ----- one service at a time

  ghost predicate PcOk(s: State, pc: Pc) {
    && (!pc.Idle? ==> pc.r in s.requests)
    && (pc.Create? && pc.queued ==> s.requests[pc.r] in s.queued)
    && (pc.Prepare? && pc.queued ==> s.requests[pc.r] in s.queued)
    && (pc.WorkerFile? || pc.Spawn? ==> s.requests[pc.r] !in s.queued && s.requests[pc.r] !in s.spawns)
    && (pc.Adopt? || pc.Publish? || (pc.Check? && Open(pc.status)) || pc.Supervise? || pc.Write? ==>
          pc.r in s.results && Open(s.results[pc.r]))
    && (pc.Prepare? || pc.WorkerFile? || pc.Spawn? || pc.Await? || pc.PublishNew? || pc.Conclude? ==>
          pc.r in s.results && s.results[pc.r].Launching?)
  }

  ghost predicate Alone(s: State) {
    && (forall p, q :: p in s.procs && q in s.procs ==> p == q)
    && (forall p :: p in s.procs ==> PcOk(s, s.procs[p]))
  }

  ghost predicate SpawnedOnce(s: State) {
    && (forall i :: 0 <= i < |s.spawns| ==> s.spawns[i] !in s.queued && s.spawns[i] in s.known)
    && (forall i, j :: 0 <= i < j < |s.spawns| ==> s.spawns[i] != s.spawns[j])
    && (forall r :: r in s.requests ==> s.requests[r] in s.known)
  }

  ghost predicate Solo(s: State) { Alone(s) && SpawnedOnce(s) }

  /** A result that is neither LAUNCHING nor RUNNING is final. */
  ghost predicate Absorbs(s: State, t: State) {
    forall r :: r in s.results && !Open(s.results[r]) ==> r in t.results && t.results[r] == s.results[r]
  }

  predicate Starting(pc: Pc) {
    pc.Prepare? || pc.WorkerFile? || pc.Spawn? || pc.Await? || pc.PublishNew? || pc.Conclude?
  }

  lemma StartingStep(s: State, p: Pid, i: Input)
    requires Solo(s) && Enabled(s, p) && Starting(s.procs[p])
    ensures var t := Next(s, Step(p, i)); t.procs.Keys == s.procs.Keys && PcOk(t, t.procs[p])
  {
    assert PcOk(s, s.procs[p]);
  }

  lemma OtherStep(s: State, p: Pid, i: Input)
    requires Solo(s) && Enabled(s, p) && !Starting(s.procs[p])
    ensures var t := Next(s, Step(p, i)); t.procs.Keys == s.procs.Keys && PcOk(t, t.procs[p])
  {
    assert PcOk(s, s.procs[p]);
  }

  lemma AloneStep(s: State, p: Pid, i: Input)
    requires Solo(s) && Enabled(s, p)
    ensures Alone(Next(s, Step(p, i)))
  {
    hide PcOk, Next;
    if Starting(s.procs[p]) { StartingStep(s, p, i); } else { OtherStep(s, p, i); }
  }

  lemma SpawnStep(s: State, p: Pid, i: Input)
    requires Solo(s) && Enabled(s, p)
    ensures SpawnedOnce(Next(s, Step(p, i)))
  {
    assert PcOk(s, s.procs[p]);
  }

  lemma AbsorbStep(s: State, p: Pid, i: Input)
    requires Alone(s) && Enabled(s, p)
    ensures Absorbs(s, Next(s, Step(p, i)))
  {
    assert PcOk(s, s.procs[p]);
  }

  lemma SoloNext(s: State, a: Action)
    requires Solo(s) && (a.Begin? ==> s.procs == map[])
    ensures Solo(Next(s, a)) && Absorbs(s, Next(s, a))
  {
    if a.Step? {
      hide Alone, SpawnedOnce, Absorbs, StepPc;
      if Enabled(s, a.p) {
        AloneStep(s, a.p, a.i);
        SpawnStep(s, a.p, a.i);
        AbsorbStep(s, a.p, a.i);
      } else {
        AbsorbsItself(s);
      }
    }
  }

  lemma AbsorbsItself(s: State)
    ensures Absorbs(s, s)
  {
  }

  lemma SoloRunKeeps(run: seq<State>, i: nat, k: nat)
    requires SoloRun(run) && i <= k < |run|
    ensures Solo(run[k]) && Absorbs(run[i], run[k])
  {
    hide Next, Solo;
    SoloInit(run[0]);
    forall s, t | Solo(s) && SoloSteps(s, t) ensures Solo(t) && Absorbs(s, t) {
      var a :| t == Next(s, a) && (a.Begin? ==> s.procs == map[]);
      SoloNext(s, a);
    }
    Persistence(Solo, Absorbs, SoloSteps, run, i, k);
  }

  lemma SoloInit(s: State)
    requires Init(s)
    ensures Solo(s)
  {
  }

  /** With one service at a time, over any crashes and restarts and under any number of requests, an
      attempt's worker is spawned at most once. */
  lemma SpawnAtMostOnce(run: seq<State>, k: nat)
    requires SoloRun(run) && k < |run|
    ensures forall i, j :: 0 <= i < j < |run[k].spawns| ==> run[k].spawns[i] != run[k].spawns[j]
  {
    hide Alone;
    SoloRunKeeps(run, k, k);
  }

  /** With one service at a time, a result that is FAILED, TERMINAL, UNKNOWN or TIMED_OUT never changes. */
  lemma FinalResultsAbsorb(run: seq<State>, i: nat, k: nat, r: RequestId)
    requires SoloRun(run) && i <= k < |run| && r in run[i].results && !Open(run[i].results[r])
    ensures r in run[k].results && run[k].results[r] == run[i].results[r]
  {
    hide Solo;
    SoloRunKeeps(run, i, k);
  }

  // ----- two services at once

  ghost predicate Reachable(s: State) { Reached(Init, Steps, s) }

  lemma Reach(s: State, a: Action, t: State)
    requires Reachable(s) && t == Next(s, a)
    ensures Reachable(t)
  {
    hide Next;
    assert Steps(s, t);
    ReachedNext(Init, Steps, s, t);
  }

  const OK := Input(true, Running)

  /** Services 1 and 2 at work on the files of `rest`. */
  function Two(one: Pc, two: Pc, rest: State): State { rest.(procs := map[1 := one, 2 := two]) }

  lemma First(one: Pc, two: Pc, rest: State, x: Pc, after: State)
    requires Reachable(Two(one, two, rest)) && (!one.Idle? ==> one.r in rest.requests)
    requires StepPc(Two(one, two, rest), 1, one, OK) == At(Two(one, two, after), 1, x)
    ensures Reachable(Two(x, two, after))
  {
    hide StepPc;
    assert At(Two(one, two, after), 1, x).procs == Two(x, two, after).procs;
    Reach(Two(one, two, rest), Step(1, OK), Two(x, two, after));
  }

  lemma Second(one: Pc, two: Pc, rest: State, x: Pc, after: State)
    requires Reachable(Two(one, two, rest)) && (!two.Idle? ==> two.r in rest.requests)
    requires StepPc(Two(one, two, rest), 2, two, OK) == At(Two(one, two, after), 2, x)
    ensures Reachable(Two(one, x, after))
  {
    hide StepPc;
    assert At(Two(one, two, after), 2, x).procs == Two(one, x, after).procs;
    Reach(Two(one, two, rest), Step(2, OK), Two(one, x, after));
  }

  /** Requests 1 and 2 name attempt 5, which is queued. */
  const BASE := State(map[1 := 5, 2 := 5], map[], {5}, {5}, {}, {}, map[], {}, [], [])

  const CREATED := BASE.(results := map[][1 := Launching], launches := [1])

  lemma BothServe()
    ensures Reachable(Two(Idle, Idle, BASE))
  {
    var s0 := State(map[], map[], {}, {}, {}, {}, map[], {}, [], []);
    ReachedAtOnce(Init, Steps, s0);
    var s1 := s0.(requests := map[1 := 5], known := {5}, queued := {5});
    Reach(s0, Request(1, 5), s1);
    Reach(s1, Request(2, 5), BASE);
    var s3 := BASE.(procs := map[1 := Idle]);
    Reach(BASE, Begin(1), s3);
    Reach(s3, Begin(2), Two(Idle, Idle, BASE));
  }

  lemma OneCreates()
    ensures Reachable(Two(Prepare(1, true), Idle, CREATED))
  {
    BothServe();
    Reach(Two(Idle, Idle, BASE), Take(1, 1), Two(Look(1), Idle, BASE));
    First(Look(1), Idle, BASE, Authority(1), BASE);
    First(Authority(1), Idle, BASE, Create(1, true), BASE);
    assert [] + [1] == [1];
    First(Create(1, true), Idle, BASE, Prepare(1, true), CREATED);
  }

  lemma TwoAdopts()
    ensures Reachable(Two(Prepare(1, true), Adopt(1), CREATED))
  {
    OneCreates();
    var one := Prepare(1, true);
    Reach(Two(one, Idle, CREATED), Take(2, 1), Two(one, Look(1), CREATED));
    Second(one, Look(1), CREATED, Read(1), CREATED);
    Second(one, Read(1), CREATED, Adopt(1), CREATED);
  }

  const SPOILED := CREATED.(results := CREATED.results[1 := Failed])

  lemma TwoFails()
    ensures Reachable(Two(Prepare(1, true), Idle, SPOILED))
  {
    TwoAdopts();
    var one := Prepare(1, true);
    Second(one, Adopt(1), CREATED, Check(1, Launching), CREATED);
    Second(one, Check(1, Launching), CREATED, Write(1, Failed), CREATED);
    Second(one, Write(1, Failed), CREATED, Idle, SPOILED);
  }

  const SPAWNED := SPOILED.(queued := SPOILED.queued - {5}, workers := SPOILED.workers + {5}, spawns := SPOILED.spawns + [5])

  lemma OneSpawns()
    ensures Reachable(Two(Await(1), Idle, SPAWNED))
  {
    TwoFails();
    var b := SPOILED.(queued := SPOILED.queued - {5});
    First(Prepare(1, true), Idle, SPOILED, WorkerFile(1), b);
    var c := b.(workers := b.workers + {5});
    First(WorkerFile(1), Idle, b, Spawn(1), c);
    First(Spawn(1), Idle, c, Await(1), SPAWNED);
  }

  const PUBLISHED := SPAWNED.(records := SPAWNED.records + {5})

  lemma OnePublishes()
    ensures Reachable(Two(Conclude(1, Running), Idle, PUBLISHED))
  {
    OneSpawns();
    First(Await(1), Idle, SPAWNED, PublishNew(1), SPAWNED);
    First(PublishNew(1), Idle, SPAWNED, Conclude(1, Running), PUBLISHED);
  }

  predicate Overwrites(s: State, a: Action, r: RequestId) {
    var t := Next(s, a);
    r in s.results && s.results[r] == Failed && r in t.results && t.results[r] == Running
  }

  /** With two services, a launcher that is still at work overwrites the FAILED that the other recorded. */
  lemma FailedOverwritten()
    ensures exists s: State, a: Action, r: RequestId :: Reachable(s) && Overwrites(s, a, r)
  {
    OnePublishes();
    assert Overwrites(Two(Conclude(1, Running), Idle, PUBLISHED), Step(1, OK), 1);
    hide Reachable, Overwrites;
  }

  lemma TwoChecks()
    ensures Reachable(Two(Prepare(1, true), Authority(2), CREATED))
  {
    OneCreates();
    var one := Prepare(1, true);
    Reach(Two(one, Idle, CREATED), Take(2, 2), Two(one, Look(2), CREATED));
    Second(one, Look(2), CREATED, Authority(2), CREATED);
  }

  const BOTH := CREATED.(results := CREATED.results[2 := Launching], launches := CREATED.launches + [2])

  lemma TwoCreates()
    ensures Reachable(Two(Prepare(1, true), Prepare(2, true), BOTH))
  {
    TwoChecks();
    var one := Prepare(1, true);
    Second(one, Authority(2), CREATED, Create(2, true), CREATED);
    Second(one, Create(2, true), CREATED, Prepare(2, true), BOTH);
  }

  const UNQUEUED := BOTH.(queued := BOTH.queued - {5})

  lemma BothPrepare()
    ensures Reachable(Two(WorkerFile(1), WorkerFile(2), UNQUEUED))
  {
    TwoCreates();
    First(Prepare(1, true), Prepare(2, true), BOTH, WorkerFile(1), UNQUEUED);
    assert UNQUEUED.queued - {5} == UNQUEUED.queued;
    Second(WorkerFile(1), Prepare(2, true), UNQUEUED, WorkerFile(2), UNQUEUED);
  }

  const PUT := UNQUEUED.(workers := UNQUEUED.workers + {5})

  lemma BothPut()
    ensures Reachable(Two(Spawn(1), Spawn(2), PUT))
  {
    BothPrepare();
    First(WorkerFile(1), WorkerFile(2), UNQUEUED, Spawn(1), PUT);
    assert PUT.workers + {5} == PUT.workers;
    Second(Spawn(1), WorkerFile(2), PUT, Spawn(2), PUT);
  }

  /** With two services and two requests, one attempt can be spawned twice: both read it as queued. */
  lemma SpawnedTwice()
    ensures exists s: State :: Reachable(s) && s.spawns == [5, 5]
  {
    BothPut();
    var f := PUT.(spawns := PUT.spawns + [5]);
    First(Spawn(1), Spawn(2), PUT, Await(1), f);
    var g := f.(spawns := f.spawns + [5]);
    Second(Await(1), Spawn(2), f, Await(2), g);
    assert Two(Await(1), Await(2), g).spawns == [5, 5];
  }
}
