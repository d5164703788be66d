/** Runs of evaluators that go wrong: after a seizure of the projection lock, and after a death inside a swap. */
module EvaluationWitness {
  import opened Common
  import opened Evaluation
  import opened EvaluationRuns
  import opened EvaluationReruns

  const SETTING := Setting("t", "a", (life: Life, m: Matrix) => "")
  const VERDICT := Decision(0, "t", Accept, "", [], 0, 0)
  const INPUT := Input(true, [], 0, 0, false)
  const BASE := Files([], AttemptFile(true, None), TaskFile(AwaitingSupervisor, []), map[], [], map[],
                      Life("", None, None, None, None, None, "", 0))
  const ONCE := BASE.(decisions := [VERDICT])
  const TWICE := BASE.(decisions := [VERDICT, VERDICT])

  ghost predicate Reachable(s: State) { Reached(Init, (x, y) => Steps(SETTING, x, y), s) }

  lemma Reach(s: State, a: Action, t: State)
    requires Reachable(s) && t == Next(SETTING, s, a)
    ensures Reachable(t)
  {
    hide Next;
    assert Steps(SETTING, s, t);
    ReachedNext(Init, (x, y) => Steps(SETTING, x, y), s, t);
  }

  function Accepting(pc: Pc): Proc { Proc(Accept, "", pc) }

  /** Two evaluators, 1 and 2. */
  function Both(one: Pc, two: Pc, rest: State): State { rest.(procs := map[1 := Accepting(one), 2 := Accepting(two)]) }

  function Alone(one: Pc, rest: State): State { rest.(procs := map[1 := Accepting(one)]) }

  const START := State(BASE, None, BASE, None, map[], map[], {}, 0, 0, 0)
  const DRAWN := START.(nextId := 1)
  const COMMITTED := DRAWN.(commit := Some(VERDICT))
  const LOCKED := COMMITTED.(lock := Some(1))
  const SEIZED := COMMITTED.(seizures := 1)
  const RELOCKED := SEIZED.(lock := Some(2))
  const LOGGED := RELOCKED.(files := ONCE, made := 1)
  const DOUBLED := RELOCKED.(files := TWICE, made := 1)

  lemma AloneMoves(one: Pc, rest: State, x: Effect, next: Pc, after: State)
    requires Reachable(Alone(one, rest)) && x == StepPc(SETTING, Alone(one, rest), 1, Accepting(one), INPUT)
    requires Apply(Alone(one, rest), 1, x) == Apply(Alone(one, after), 1, Goto(next))
    ensures Reachable(Alone(next, after))
  {
    hide StepPc, Project;
    assert Alone(one, after).procs[1 := Accepting(next)] == Alone(next, after).procs;
    Reach(Alone(one, rest), Step(1, INPUT), Alone(next, after));
  }

  lemma OneMoves(one: Pc, two: Pc, rest: State, x: Effect, next: Pc, after: State)
    requires Reachable(Both(one, two, rest)) && x == StepPc(SETTING, Both(one, two, rest), 1, Accepting(one), INPUT)
    requires Apply(Both(one, two, rest), 1, x) == Apply(Both(one, two, after), 1, Goto(next))
    ensures Reachable(Both(next, two, after))
  {
    hide StepPc, Project;
    assert Both(one, two, after).procs[1 := Accepting(next)] == Both(next, two, after).procs;
    Reach(Both(one, two, rest), Step(1, INPUT), Both(next, two, after));
  }

  lemma TwoMoves(one: Pc, two: Pc, rest: State, x: Effect, next: Pc, after: State)
    requires Reachable(Both(one, two, rest)) && x == StepPc(SETTING, Both(one, two, rest), 2, Accepting(two), INPUT)
    requires Apply(Both(one, two, rest), 2, x) == Apply(Both(one, two, after), 2, Goto(next))
    ensures Reachable(Both(one, next, after))
  {
    hide StepPc, Project;
    assert Both(one, two, after).procs[2 := Accepting(next)] == Both(one, next, after).procs;
    Reach(Both(one, two, rest), Step(2, INPUT), Both(one, next, after));
  }

  lemma Draws()
    ensures Reachable(Alone(Relook(VERDICT), DRAWN))
  {
    hide Project, Land;
    assert Init(START);
    ReachedAtOnce(Init, (x, y) => Steps(SETTING, x, y), START);
    Reach(START, Begin(1, Accept, ""), Alone(Start, START));
    AloneMoves(Start, START, Goto(Look(false)), Look(false), START);
    AloneMoves(Look(false), START, Draw(VERDICT), Relook(VERDICT), DRAWN);
  }

  lemma Commits()
    ensures Reachable(Alone(TakeLock(VERDICT, true), COMMITTED))
  {
    hide Project, Land;
    Draws();
    AloneMoves(Relook(VERDICT), DRAWN, Goto(Create(VERDICT)), Create(VERDICT), DRAWN);
    AloneMoves(Create(VERDICT), DRAWN, Commit(VERDICT), Check(VERDICT, true), COMMITTED);
    AloneMoves(Check(VERDICT, true), COMMITTED, Goto(TakeLock(VERDICT, true)), TakeLock(VERDICT, true), COMMITTED);
  }

  // ----- what a seizure can do

  /** The first line of the log is computed from a log without the decision. */
  lemma FirstLine()
    ensures Project(SETTING, 0, BASE, VERDICT) == Some(ONCE) && ONCE != BASE
    ensures Land(0, BASE, BASE, ONCE) == Lands(ONCE) && Land(0, ONCE, BASE, ONCE) == Lands(TWICE)
  {
    assert ONCE.decisions == [VERDICT] && [VERDICT] + [VERDICT] == TWICE.decisions && [] + [VERDICT] == [VERDICT];
  }

  const WRITE := Write(VERDICT, true, 0, 0, BASE, ONCE)
  const WRITE_TOO := Write(VERDICT, false, 0, 0, BASE, ONCE)

  lemma Logs()
    ensures Reachable(Alone(WRITE, LOCKED))
  {
    hide Project, Land;
    Commits();
    FirstLine();
    AloneMoves(TakeLock(VERDICT, true), COMMITTED, Lock(Confirm(VERDICT, true)), Confirm(VERDICT, true), LOCKED);
    AloneMoves(Confirm(VERDICT, true), LOCKED, Goto(At(VERDICT, true, 0, 0)), At(VERDICT, true, 0, 0), LOCKED);
    AloneMoves(At(VERDICT, true, 0, 0), LOCKED, Goto(WRITE), WRITE, LOCKED);
  }

  /** Evaluator 1 is about to append to the decision log when the lock is seized. */
  lemma Seizes()
    ensures Reachable(Both(WRITE, Start, SEIZED))
  {
    hide Project, Land;
    Logs();
    Reach(Alone(WRITE, LOCKED), Seize, Alone(WRITE, SEIZED));
    Reach(Alone(WRITE, SEIZED), Begin(2, Accept, ""), Both(WRITE, Start, SEIZED));
  }

  lemma SecondLocks()
    ensures Reachable(Both(WRITE, Confirm(VERDICT, false), RELOCKED))
  {
    hide Project, Land;
    Seizes();
    TwoMoves(WRITE, Start, SEIZED, Goto(Look(false)), Look(false), SEIZED);
    TwoMoves(WRITE, Look(false), SEIZED, Goto(Check(VERDICT, false)), Check(VERDICT, false), SEIZED);
    TwoMoves(WRITE, Check(VERDICT, false), SEIZED, Goto(TakeLock(VERDICT, false)), TakeLock(VERDICT, false), SEIZED);
    TwoMoves(WRITE, TakeLock(VERDICT, false), SEIZED, Lock(Confirm(VERDICT, false)), Confirm(VERDICT, false), RELOCKED);
  }

  lemma SecondLogs()
    ensures Reachable(Both(WRITE, At(VERDICT, false, 1, 0), LOGGED))
  {
    hide Project, Land;
    SecondLocks();
    FirstLine();
    TwoMoves(WRITE, Confirm(VERDICT, false), RELOCKED, Goto(At(VERDICT, false, 0, 0)), At(VERDICT, false, 0, 0), RELOCKED);
    TwoMoves(WRITE, At(VERDICT, false, 0, 0), RELOCKED, Goto(WRITE_TOO), WRITE_TOO, RELOCKED);
    TwoMoves(WRITE, WRITE_TOO, RELOCKED, Put(At(VERDICT, false, 1, 0), 0, ONCE), At(VERDICT, false, 1, 0), LOGGED);
  }

  /** After one seizure, the decision log can hold the decision twice; no projection of it passes from then on. */
  lemma LoggedTwice()
    ensures exists s: State :: Reachable(s) && s.seizures == 1 && s.commit == Some(VERDICT)
                               && s.files.decisions == [VERDICT, VERDICT] && Project(SETTING, 0, s.files, VERDICT) == None
  {
    hide Land;
    SecondLogs();
    FirstLine();
    OneMoves(WRITE, At(VERDICT, false, 1, 0), LOGGED, Put(At(VERDICT, true, 1, 0), 0, TWICE), At(VERDICT, true, 1, 0), DOUBLED);
    assert LoggedAs(TWICE.decisions[..1], 0) == [VERDICT];
    assert Reachable(Both(At(VERDICT, true, 1, 0), At(VERDICT, false, 1, 0), DOUBLED));
  }

  // ----- what a death inside a swap can do

  const FILED := LOCKED.(files := ONCE, made := 1)
  const JUDGED := ONCE.(attempt := AttemptFile(true, Some(Judgement(0, Accept, "", 0))))
  const REPLACE := Write(VERDICT, true, 1, 0, ONCE, JUDGED)
  const SWAPPING := FILED.(swaps := map[1 := 1])

  /** The evaluator died before its rename, with the decision logged and the lock of the attempt file taken. */
  const ORPHANED := SWAPPING.(dead := {1})

  lemma Replaces()
    ensures Project(SETTING, 1, ONCE, VERDICT) == Some(JUDGED) && JUDGED != ONCE
  {
  }

  lemma DiesSwapping()
    ensures Reachable(ORPHANED)
  {
    hide Project, Land;
    Logs();
    FirstLine();
    Replaces();
    AloneMoves(WRITE, LOCKED, Put(At(VERDICT, true, 1, 0), 0, ONCE), At(VERDICT, true, 1, 0), FILED);
    SwapsAttempt();
  }

  lemma SwapsAttempt()
    requires Reachable(Alone(At(VERDICT, true, 1, 0), FILED))
    ensures Reachable(ORPHANED)
  {
    hide Project, Land;
    Replaces();
    var swap := Swap(VERDICT, true, 1, 0, ONCE, JUDGED);
    AloneMoves(At(VERDICT, true, 1, 0), FILED, Goto(REPLACE), REPLACE, FILED);
    AloneMoves(REPLACE, FILED, TakeSwap(swap, 1), swap, SWAPPING);
    Reach(Alone(swap, SWAPPING), Crash(1), ORPHANED);
  }

  /** One death inside a swap can stop the evaluation for good: the decision is committed and admissible, nobody alive
      holds the projection lock and nothing was seized, and yet no evaluator ever completes, whatever happens. */
  lemma OrphanForEver()
    ensures exists s: State :: Reachable(s) && s.seizures == 0 && s.commit == Some(VERDICT) && Completes(s.base, VERDICT)
                               && s.lock.Some? && s.lock.value in s.dead
                               && forall t, p :: Reaches(SETTING, s, t) && p in t.procs ==> !t.procs[p].pc.Done?
  {
    DiesSwapping();
    Replaces();
    assert Blocked(SETTING, ORPHANED, 1);
    hide Blocked, Reaches, Next;
    var run :| IsRun((x, y) => Steps(SETTING, x, y), run) && Init(run[0]) && run[|run| - 1] == ORPHANED;
    forall t, p | Reaches(SETTING, ORPHANED, t) && p in t.procs ensures !t.procs[p].pc.Done? {
      NeverDone(SETTING, run, |run| - 1, 1, t, p);
    }
  }
}
