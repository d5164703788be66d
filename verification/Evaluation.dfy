/** Supervisor evaluation of src/cli.js: one immutable decision, and its nine projections onto the
    decision log, the attempt, the task, the requirements, the event log, the event files and the
    lifecycle state. Each projection reads its file and rewrites it only if that changes something. */
module Evaluation {
  import opened Common

  datatype Verdict = Accept | Reject

  datatype Decision = Decision(id: nat, task: string, verdict: Verdict, rationale: string, evidence: seq<string>,
                               time: int, generation: nat)

  datatype Judgement = Judgement(decision: nat, verdict: Verdict, rationale: string, evaluatedAt: int)

  datatype AttemptFile = AttemptFile(satisfied: bool, judgement: Option<Judgement>)

  datatype TaskState = AwaitingSupervisor | Completed | Accepted | Rejected | Unfinished(name: string)

  datatype TaskFile = TaskFile(state: TaskState, requirements: seq<string>)

  datatype RequirementState = Open(name: string) | Implemented | Verified | Deferred | NotApplicable

  datatype Requirement = Requirement(state: RequirementState, justification: Option<string>, evidence: seq<string>, updatedAt: int)

  type Matrix = map<string, Requirement>

  datatype Kind = SupervisorDecision | PauseApplied | OtherKind(name: string)

  /** The identifier of an evaluation event is a digest of decision and type; all others are random. */
  datatype EventId = Derived(decision: nat, kind: Kind) | Random(n: nat)

  datatype Detail = Judged(verdict: Verdict) | Paused(terminal: TaskState, reason: string) | OtherDetail(text: string)

  datatype Event = Event(id: EventId, kind: Kind, time: int, generation: nat,
                         task: string, attempt: string, decision: Option<nat>, detail: Detail)

  datatype Pause = Pause(active: bool, afterCurrent: bool, appliedAt: Option<int>, appliedBy: Option<nat>, reason: string)

  datatype Life = Life(supervisor: string, pause: Option<Pause>, activeTask: Option<string>, activeAttempt: Option<string>,
                       latestAccepted: Option<string>, issue: Option<string>, nextAction: string, updatedAt: int)

  /** The files that an evaluation projects onto. */
  datatype Files = Files(decisions: seq<Decision>, attempt: AttemptFile, task: TaskFile, matrix: Matrix,
                         events: seq<Event>, eventFiles: map<EventId, Event>, life: Life)

  /** The task and the attempt under evaluation, and how the next action is derived after an acceptance. */
  datatype Setting = Setting(task: string, attempt: string, derive: (Life, Matrix) -> string)

  // ----- the decision log

  function LoggedAs(log: seq<Decision>, id: nat): seq<Decision> {
    if log == [] then []
    else LoggedAs(log[..|log| - 1], id) + if log[|log| - 1].id == id then [log[|log| - 1]] else []
  }

  function ProjectLog(f: Files, d: Decision): Option<Files> {
    var matches := LoggedAs(f.decisions, d.id);
    if matches == [] then Some(f.(decisions := f.decisions + [d]))
    else if matches == [d] then Some(f)
    else None
  }

  // ----- attempt and task

  function ProjectAttempt(f: Files, d: Decision): Option<Files> {
    var expected := Judgement(d.id, d.verdict, d.rationale, d.time);
    if f.attempt.judgement.Some? && f.attempt.judgement.value != expected then None
    else Some(f.(attempt := f.attempt.(judgement := Some(expected))))
  }

  function Terminal(d: Decision): TaskState { if d.verdict.Accept? then Accepted else Rejected }

  function ProjectTask(f: Files, d: Decision): Option<Files> {
    if f.task.state != Terminal(d) && f.task.state != AwaitingSupervisor && f.task.state != Completed then None
    else Some(f.(task := f.task.(state := Terminal(d))))
  }

  // ----- requirements of an accepted task

  predicate Later(s: RequirementState) { s.Verified? || s.Deferred? || s.NotApplicable? }

  function Implement(r: Requirement, d: Decision): Requirement {
    var evidence := Dedup(r.evidence + d.evidence);
    var moved := if Later(r.state) then r else r.(state := Implemented, justification := None);
    moved.(evidence := evidence,
           updatedAt := if !Later(r.state) && (!r.state.Implemented? || evidence != r.evidence) then d.time else r.updatedAt)
  }

  function ImplementAll(m: Matrix, ids: seq<string>, d: Decision): Option<Matrix> {
    if ids == [] then Some(m)
    else if ids[0] !in m then None
    else ImplementAll(m[ids[0] := Implement(m[ids[0]], d)], ids[1..], d)
  }

  function ProjectRequirements(f: Files, d: Decision): Option<Files> {
    if d.verdict.Reject? || f.task.requirements == [] then Some(f)
    else
      var m := ImplementAll(f.matrix, f.task.requirements, d);
      if m.None? then None else Some(f.(matrix := m.value))
  }

  // ----- events

  predicate Matches(e: Event, expected: Event) {
    e.kind == expected.kind && e.decision == expected.decision && e.task == expected.task && e.attempt == expected.attempt
  }

  function Matching(events: seq<Event>, expected: Event): seq<Event> {
    if events == [] then []
    else
      var last := events[|events| - 1];
      Matching(events[..|events| - 1], expected) + if Matches(last, expected) then [last] else []
  }

  predicate IdentityConflict(events: seq<Event>, expected: Event) {
    exists i :: 0 <= i < |events| && events[i].id == expected.id && !Matches(events[i], expected)
  }

  function ProjectEvent(f: Files, expected: Event): Option<Files> {
    var found := Matching(f.events, expected);
    if |found| > 1 || IdentityConflict(f.events, expected) then None
    else if |found| == 1 then
      if found[0] == expected.(id := found[0].id, time := found[0].time) then Some(f) else None
    else if expected.id in f.eventFiles && f.eventFiles[expected.id] != expected then None
    else Some(f.(events := f.events + [expected]))
  }

  /** The file of the event that the log holds. */
  function ProjectEventFile(f: Files, expected: Event): Option<Files> {
    var found := Matching(f.events, expected);
    if |found| != 1 then None
    else if found[0].id in f.eventFiles then if f.eventFiles[found[0].id] == found[0] then Some(f) else None
    else Some(f.(eventFiles := f.eventFiles[found[0].id := found[0]]))
  }

  function DecisionEvent(g: Setting, d: Decision): Event {
    Event(Derived(d.id, SupervisorDecision), SupervisorDecision, d.time, d.generation, g.task, g.attempt, Some(d.id), Judged(d.verdict))
  }

  function PauseEvent(g: Setting, d: Decision, reason: string): Event {
    Event(Derived(d.id, PauseApplied), PauseApplied, d.time, d.generation, g.task, g.attempt, Some(d.id), Paused(Terminal(d), reason))
  }

  // ----- the lifecycle state

  predicate Applies(life: Life, d: Decision) {
    life.pause.Some? && life.pause.value.active && (life.pause.value.afterCurrent || life.pause.value.appliedBy == Some(d.id))
  }

  function Advance(g: Setting, life: Life, m: Matrix, d: Decision): Life {
    if life.activeTask != Some(g.task) || life.activeAttempt != Some(g.attempt) then life
    else
      var pause := life.pause;
      var next := life.(
        supervisor := if Applies(life, d) then "PAUSED" else life.supervisor,
        pause := if Applies(life, d)
                 then Some(pause.value.(afterCurrent := false, appliedBy := Some(d.id),
                                        appliedAt := if pause.value.appliedAt.Some? then pause.value.appliedAt else Some(d.time)))
                 else pause,
        activeTask := None, activeAttempt := None,
        latestAccepted := if d.verdict.Accept? then Some(g.task) else life.latestAccepted,
        issue := if d.verdict.Accept? then None else Some("Supervisor rejected " + g.task + ": " + d.rationale));
      next.(nextAction := if d.verdict.Accept? then g.derive(next, m) else "Create corrective work for " + g.task + ".",
            updatedAt := d.time)
  }

  predicate PausedBy(life: Life, d: Decision) { life.pause.Some? && life.pause.value.appliedBy == Some(d.id) }

  // ----- the projections in order

  const STEPS := 9

  /** One projection; `None` is an error that stops the evaluation. */
  function Project(g: Setting, step: nat, f: Files, d: Decision): Option<Files> {
    if step == 0 then ProjectLog(f, d)
    else if step == 1 then ProjectAttempt(f, d)
    else if step == 2 then ProjectTask(f, d)
    else if step == 3 then ProjectRequirements(f, d)
    else if step == 4 then ProjectEvent(f, DecisionEvent(g, d))
    else if step == 5 then ProjectEventFile(f, DecisionEvent(g, d))
    else if step == 6 then Some(f.(life := Advance(g, f.life, f.matrix, d)))
    else if !PausedBy(f.life, d) then Some(f)
    else if step == 7 then ProjectEvent(f, PauseEvent(g, d, f.life.pause.value.reason))
    else ProjectEventFile(f, PauseEvent(g, d, f.life.pause.value.reason))
  }

  /** The files after the first `n` projections of one uninterrupted run. */
  function Prefix(g: Setting, n: nat, f: Files, d: Decision): Option<Files> {
    if n == 0 then Some(f)
    else
      var before := Prefix(g, n - 1, f, d);
      if before.None? then None else Project(g, n - 1, before.value, d)
  }

  /** One uninterrupted evaluation. */
  function CleanRun(g: Setting, f: Files, d: Decision): Option<Files> { Prefix(g, STEPS, f, d) }

  // ----- a projection that has been made is not made again

  ghost predicate EventDone(f: Files, e: Event) {
    var found := Matching(f.events, e);
    |found| == 1 && found[0] == e.(id := found[0].id, time := found[0].time) && !IdentityConflict(f.events, e)
  }

  ghost predicate EventFiled(f: Files, e: Event) {
    EventDone(f, e) && var found := Matching(f.events, e)[0]; found.id in f.eventFiles && f.eventFiles[found.id] == found
  }

  ghost predicate Settled(g: Setting, step: nat, f: Files, d: Decision) {
    && (step == 0 ==> LoggedAs(f.decisions, d.id) == [d])
    && (step == 1 ==> f.attempt.judgement == Some(Judgement(d.id, d.verdict, d.rationale, d.time)))
    && (step == 2 ==> f.task.state == Terminal(d))
    && (step == 3 && d.verdict.Accept? ==> ImplementAll(f.matrix, f.task.requirements, d) == Some(f.matrix))
    && (step == 4 ==> EventDone(f, DecisionEvent(g, d)))
    && (step == 5 ==> EventFiled(f, DecisionEvent(g, d)))
    && (step == 6 ==> f.life.activeTask != Some(g.task) || f.life.activeAttempt != Some(g.attempt))
    && (step == 7 && PausedBy(f.life, d) ==> EventDone(f, PauseEvent(g, d, f.life.pause.value.reason)))
    && (step == 8 && PausedBy(f.life, d) ==> EventFiled(f, PauseEvent(g, d, f.life.pause.value.reason)))
  }

  lemma SettledStays(g: Setting, step: nat, f: Files, d: Decision)
    requires step < STEPS && Settled(g, step, f, d)
    ensures Project(g, step, f, d) == Some(f)
  {
  }

  lemma ImplementTwice(r: Requirement, d: Decision)
    ensures Implement(Implement(r, d), d) == Implement(r, d)
  {
    var all := Dedup(r.evidence + d.evidence);
    DedupMembers(r.evidence + d.evidence);
    DedupAbsorbs(all, d.evidence);
    DedupIdempotent(r.evidence + d.evidence);
  }

  ghost predicate Fixed(m: Matrix, ids: seq<string>, d: Decision) {
    forall i :: 0 <= i < |ids| ==> ids[i] in m && Implement(m[ids[i]], d) == m[ids[i]]
  }

  lemma {:induction false} FixedStays(m: Matrix, ids: seq<string>, d: Decision)
    requires Fixed(m, ids, d)
    ensures ImplementAll(m, ids, d) == Some(m)
  {
    hide Implement;
    if ids != [] {
      assert ids[0] in m && m[ids[0] := Implement(m[ids[0]], d)] == m;
      FixedStays(m, ids[1..], d);
    }
  }

  lemma {:induction false} ImplementFixes(m: Matrix, ids: seq<string>, d: Decision)
    requires ImplementAll(m, ids, d).Some?
    ensures var t := ImplementAll(m, ids, d).value;
            && t.Keys == m.Keys && Fixed(t, ids, d)
            && forall k :: k in m ==> t[k] == if k in ids then Implement(m[k], d) else m[k]
  {
    hide Implement;
    if ids != [] {
      var next := m[ids[0] := Implement(m[ids[0]], d)];
      ImplementFixes(next, ids[1..], d);
      ImplementTwice(m[ids[0]], d);
      var t := ImplementAll(m, ids, d).value;
      assert t == ImplementAll(next, ids[1..], d).value;
      forall i | 0 <= i < |ids| ensures ids[i] in t && Implement(t[ids[i]], d) == t[ids[i]] {
        if i > 0 { assert ids[i] == ids[1..][i - 1]; }
      }
    }
  }

  lemma MatchingAppend(events: seq<Event>, e: Event, expected: Event)
    ensures Matching(events + [e], expected) == Matching(events, expected) + if Matches(e, expected) then [e] else []
    ensures IdentityConflict(events + [e], expected) <==>
              IdentityConflict(events, expected) || (e.id == expected.id && !Matches(e, expected))
  {
    assert (events + [e])[..|events|] == events;
    if IdentityConflict(events, expected) {
      var i :| 0 <= i < |events| && events[i].id == expected.id && !Matches(events[i], expected);
      assert (events + [e])[i] == events[i];
    }
    assert (events + [e])[|events|] == e;
  }

  lemma EventSettles(f: Files, e: Event)
    requires ProjectEvent(f, e).Some?
    ensures EventDone(ProjectEvent(f, e).value, e)
  {
    MatchingAppend(f.events, e, e);
  }

  lemma LogSettles(f: Files, d: Decision)
    requires ProjectLog(f, d).Some?
    ensures LoggedAs(ProjectLog(f, d).value.decisions, d.id) == [d]
  {
    assert (f.decisions + [d])[..|f.decisions|] == f.decisions;
  }

  lemma FileSettles(f: Files, e: Event)
    requires EventDone(f, e) && ProjectEventFile(f, e).Some?
    ensures EventFiled(ProjectEventFile(f, e).value, e)
  {
  }

  lemma RequirementsSettle(f: Files, d: Decision)
    requires d.verdict.Accept? && ProjectRequirements(f, d).Some?
    ensures var t := ProjectRequirements(f, d).value; ImplementAll(t.matrix, t.task.requirements, d) == Some(t.matrix)
  {
    hide Implement, ImplementAll;
    if f.task.requirements == [] {
      FixedStays(f.matrix, [], d);
    } else {
      ImplementFixes(f.matrix, f.task.requirements, d);
      FixedStays(ImplementAll(f.matrix, f.task.requirements, d).value, f.task.requirements, d);
    }
  }

  /** Making a projection settles it. */
  lemma ProjectSettles(g: Setting, step: nat, f: Files, d: Decision)
    requires step < STEPS && Project(g, step, f, d).Some?
    requires (step == 5 ==> Settled(g, 4, f, d)) && (step == 8 ==> Settled(g, 7, f, d))
    ensures Settled(g, step, Project(g, step, f, d).value, d)
  {
    hide Matching, IdentityConflict, LoggedAs, ImplementAll;
    if step == 0 { LogSettles(f, d); }
    else if step == 3 && d.verdict.Accept? { RequirementsSettle(f, d); }
    else if step == 4 { EventSettles(f, DecisionEvent(g, d)); }
    else if step == 5 { FileSettles(f, DecisionEvent(g, d)); }
    else if step >= 7 && PausedBy(f.life, d) {
      var e := PauseEvent(g, d, f.life.pause.value.reason);
      if step == 7 { EventSettles(f, e); } else { FileSettles(f, e); }
    }
  }

  /** A later projection leaves a settled one settled. */
  lemma ProjectKeeps(g: Setting, k: nat, f: Files, d: Decision, step: nat)
    requires step < k < STEPS && Project(g, k, f, d).Some? && Settled(g, step, f, d)
    ensures Settled(g, step, Project(g, k, f, d).value, d)
  {
    hide Matching, IdentityConflict, LoggedAs, ImplementAll;
    var e := DecisionEvent(g, d);
    if k == 4 {
      MatchingAppend(f.events, e, e);
    } else if k == 7 && PausedBy(f.life, d) {
      MatchingAppend(f.events, PauseEvent(g, d, f.life.pause.value.reason), e);
    }
  }

  lemma {:induction false} PrefixSettled(g: Setting, n: nat, f: Files, d: Decision)
    requires n <= STEPS && Prefix(g, n, f, d).Some?
    ensures forall step: nat :: step < n ==> Settled(g, step, Prefix(g, n, f, d).value, d)
  {
    hide Settled, Project;
    if n > 0 {
      var before := Prefix(g, n - 1, f, d).value;
      PrefixSettled(g, n - 1, f, d);
      ProjectSettles(g, n - 1, before, d);
      forall step: nat | step < n - 1 ensures Settled(g, step, Prefix(g, n, f, d).value, d) {
        ProjectKeeps(g, n - 1, before, d, step);
      }
    }
  }

  /** Redoing any projection of a prefix of the run changes nothing. */
  lemma Redo(g: Setting, n: nat, f: Files, d: Decision, step: nat)
    requires step < n <= STEPS && Prefix(g, n, f, d).Some?
    ensures Project(g, step, Prefix(g, n, f, d).value, d) == Prefix(g, n, f, d)
  {
    hide Settled, Project, Prefix;
    PrefixSettled(g, n, f, d);
    SettledStays(g, step, Prefix(g, n, f, d).value, d);
  }

  // ----- what an uninterrupted run leaves

  predicate Mentions(id: EventId, d: Decision) { id == Derived(d.id, SupervisorDecision) || id == Derived(d.id, PauseApplied) }

  /** Nothing durable mentions the decision yet. */
  ghost predicate Fresh(f: Files, d: Decision) {
    && (forall i :: 0 <= i < |f.decisions| ==> f.decisions[i].id != d.id)
    && (forall i :: 0 <= i < |f.events| ==> f.events[i].decision != Some(d.id) && !Mentions(f.events[i].id, d))
    && (forall id :: id in f.eventFiles ==> !Mentions(id, d))
    && f.attempt.judgement == None && (f.life.pause.Some? ==> f.life.pause.value.appliedBy != Some(d.id))
  }

  lemma {:induction false} NoneMatching(events: seq<Event>, e: Event)
    requires forall i :: 0 <= i < |events| ==> !Matches(events[i], e) && events[i].id != e.id
    ensures Matching(events, e) == [] && !IdentityConflict(events, e)
  {
    if events != [] { NoneMatching(events[..|events| - 1], e); }
  }

  lemma {:induction false} NoneLogged(log: seq<Decision>, id: nat)
    requires forall i :: 0 <= i < |log| ==> log[i].id != id
    ensures LoggedAs(log, id) == []
  {
    if log != [] { NoneLogged(log[..|log| - 1], id); }
  }

  lemma {:induction false} ImplementsKnown(m: Matrix, ids: seq<string>, d: Decision)
    ensures ImplementAll(m, ids, d).Some? <==> forall k :: k in ids ==> k in m
  {
    hide Implement;
    if ids != [] && ids[0] in m {
      ImplementsKnown(m[ids[0] := Implement(m[ids[0]], d)], ids[1..], d);
    }
  }

  /** An evaluation completes on files that do not mention its decision unless the task is in no state
      to be judged, or an accepted task names an unknown requirement. */
  predicate Completes(f: Files, d: Decision) {
    && (f.task.state == Terminal(d) || f.task.state == AwaitingSupervisor || f.task.state == Completed)
    && (d.verdict.Accept? ==> forall k :: k in f.task.requirements ==> k in f.matrix)
  }

  /** What it leaves, file by file. */
  ghost predicate Left(g: Setting, f: Files, d: Decision, t: Files) {
    && t.decisions == f.decisions + [d]
    && t.attempt == f.attempt.(judgement := Some(Judgement(d.id, d.verdict, d.rationale, d.time)))
    && t.task == f.task.(state := Terminal(d))
    && t.matrix.Keys == f.matrix.Keys
    && (forall k :: k in f.matrix ==>
          t.matrix[k] == if d.verdict.Accept? && k in f.task.requirements then Implement(f.matrix[k], d) else f.matrix[k])
    && t.life == Advance(g, f.life, t.matrix, d)
    && t.events == f.events + NewEvents(g, t.life, d)
    && t.eventFiles == f.eventFiles + EventFiles(g, t.life, d)
  }

  /** The lines that the evaluation adds to the event log. */
  function NewEvents(g: Setting, life: Life, d: Decision): seq<Event> {
    [DecisionEvent(g, d)] + if PausedBy(life, d) then [PauseEvent(g, d, life.pause.value.reason)] else []
  }

  function EventFiles(g: Setting, life: Life, d: Decision): map<EventId, Event> {
    var e := DecisionEvent(g, d);
    if PausedBy(life, d) then
      var p := PauseEvent(g, d, life.pause.value.reason);
      map[e.id := e, p.id := p]
    else map[e.id := e]
  }

  lemma LogOnce(g: Setting, f: Files, d: Decision)
    requires Fresh(f, d)
    ensures Prefix(g, 1, f, d) == Some(f.(decisions := f.decisions + [d]))
  {
    NoneLogged(f.decisions, d.id);
  }

  lemma Judged3(g: Setting, f: Files, d: Decision)
    requires Fresh(f, d)
    ensures var t := Prefix(g, 3, f, d);
            var judged := f.(decisions := f.decisions + [d],
                             attempt := f.attempt.(judgement := Some(Judgement(d.id, d.verdict, d.rationale, d.time))),
                             task := f.task.(state := Terminal(d)));
            if f.task.state == Terminal(d) || f.task.state == AwaitingSupervisor || f.task.state == Completed
            then t == Some(judged) else t == None
  {
    LogOnce(g, f, d);
    assert Prefix(g, 2, f, d) == Project(g, 1, Prefix(g, 1, f, d).value, d);
  }

  lemma Judged4(g: Setting, f: Files, d: Decision)
    requires Fresh(f, d)
    ensures Prefix(g, 4, f, d).Some? <==> Completes(f, d)
    ensures Completes(f, d) ==>
              var t := Prefix(g, 4, f, d).value;
              && t == Prefix(g, 3, f, d).value.(matrix := t.matrix) && t.matrix.Keys == f.matrix.Keys
              && forall k :: k in f.matrix ==>
                   t.matrix[k] == if d.verdict.Accept? && k in f.task.requirements then Implement(f.matrix[k], d) else f.matrix[k]
  {
    hide Implement, ImplementAll;
    Judged3(g, f, d);
    hide Prefix;
    PrefixStep(g, 3, f, d);
    if d.verdict.Accept? && Prefix(g, 3, f, d).Some? {
      ImplementsKnown(f.matrix, f.task.requirements, d);
      if Completes(f, d) { ImplementFixes(f.matrix, f.task.requirements, d); }
    }
  }

  lemma PrefixStep(g: Setting, n: nat, f: Files, d: Decision)
    ensures Prefix(g, n + 1, f, d) == if Prefix(g, n, f, d).Some? then Project(g, n, Prefix(g, n, f, d).value, d) else None
  {
    hide Project;
  }

  /** One event, appended and filed. */
  lemma EventMade(f: Files, e: Event)
    requires forall i :: 0 <= i < |f.events| ==> !Matches(f.events[i], e) && f.events[i].id != e.id
    requires e.id !in f.eventFiles
    ensures ProjectEvent(f, e) == Some(f.(events := f.events + [e]))
    ensures ProjectEventFile(f.(events := f.events + [e]), e) ==
              Some(f.(events := f.events + [e], eventFiles := f.eventFiles[e.id := e]))
  {
    NoneMatching(f.events, e);
    MatchingAppend(f.events, e, e);
  }

  lemma Judged7(g: Setting, f: Files, d: Decision)
    requires Fresh(f, d) && Completes(f, d)
    ensures var a := Prefix(g, 4, f, d); var e := DecisionEvent(g, d);
            && a.Some? && a.value.events == f.events && a.value.eventFiles == f.eventFiles && a.value.life == f.life
            && Prefix(g, 7, f, d) == Some(a.value.(events := f.events + [e], eventFiles := f.eventFiles[e.id := e],
                                                   life := Advance(g, f.life, a.value.matrix, d)))
  {
    hide Advance;
    Judged3(g, f, d);
    Judged4(g, f, d);
    hide Prefix, Completes;
    PrefixStep(g, 4, f, d);
    PrefixStep(g, 5, f, d);
    PrefixStep(g, 6, f, d);
    EventMade(Prefix(g, 4, f, d).value, DecisionEvent(g, d));
  }

  lemma Judged9(g: Setting, f: Files, d: Decision)
    requires Fresh(f, d) && Completes(f, d)
    ensures var c := Prefix(g, 7, f, d);
            && c.Some? && Prefix(g, 9, f, d).Some?
            && Prefix(g, 9, f, d).value == c.value.(
                 events := f.events + NewEvents(g, c.value.life, d), eventFiles := f.eventFiles + EventFiles(g, c.value.life, d))
  {
    Judged7(g, f, d);
    hide Prefix, Completes, Advance, Project;
    PrefixStep(g, 7, f, d);
    PrefixStep(g, 8, f, d);
    Announced(g, f, d, Prefix(g, 7, f, d).value);
  }

  /** The last two projections, once the decision event is in place. */
  lemma Announced(g: Setting, f: Files, d: Decision, c: Files)
    requires Fresh(f, d) && c.events == f.events + [DecisionEvent(g, d)]
    requires c.eventFiles == f.eventFiles[DecisionEvent(g, d).id := DecisionEvent(g, d)]
    ensures var t := Project(g, 7, c, d);
            t.Some? && Project(g, 8, t.value, d) == Some(c.(
              events := f.events + NewEvents(g, c.life, d), eventFiles := f.eventFiles + EventFiles(g, c.life, d)))
  {
    hide ProjectLog, ProjectAttempt, ProjectTask, ProjectRequirements, Advance, Fresh, ProjectEvent, ProjectEventFile;
    if PausedBy(c.life, d) {
      var e := PauseEvent(g, d, c.life.pause.value.reason);
      PauseNews(g, f, d, c);
      EventMade(c, e);
      assert c.events + [e] == f.events + NewEvents(g, c.life, d);
      assert c.eventFiles[e.id := e] == f.eventFiles + EventFiles(g, c.life, d);
    } else {
      assert c.events == f.events + NewEvents(g, c.life, d);
      assert c.eventFiles == f.eventFiles + EventFiles(g, c.life, d);
    }
  }

  /** The pause event is news beside the decision event. */
  lemma PauseNews(g: Setting, f: Files, d: Decision, c: Files)
    requires Fresh(f, d) && c.events == f.events + [DecisionEvent(g, d)] && PausedBy(c.life, d)
    requires c.eventFiles == f.eventFiles[DecisionEvent(g, d).id := DecisionEvent(g, d)]
    ensures var e := PauseEvent(g, d, c.life.pause.value.reason);
            && e.id !in c.eventFiles
            && forall i :: 0 <= i < |c.events| ==> !Matches(c.events[i], e) && c.events[i].id != e.id
  {
  }

  /** One uninterrupted run completes exactly when it can, and leaves exactly these files: one line more
      in the decision log, one or two in the event log, each with its file. */
  lemma CleanContents(g: Setting, f: Files, d: Decision)
    requires Fresh(f, d)
    ensures CleanRun(g, f, d).Some? <==> Completes(f, d)
    ensures Completes(f, d) ==> Left(g, f, d, CleanRun(g, f, d).value)
  {
    Judged3(g, f, d);
    Judged4(g, f, d);
    if Completes(f, d) {
      Judged7(g, f, d);
      Judged9(g, f, d);
    }
    hide Prefix, Advance, Implement, Completes, NewEvents, EventFiles;
    if CleanRun(g, f, d).Some? { CompletesOnlyThen(g, f, d); }
  }

  lemma CompletesOnlyThen(g: Setting, f: Files, d: Decision)
    requires Fresh(f, d) && CleanRun(g, f, d).Some?
    ensures Prefix(g, 4, f, d).Some?
  {
    hide Project;
    assert Prefix(g, 8, f, d).Some? && Prefix(g, 7, f, d).Some? && Prefix(g, 6, f, d).Some? && Prefix(g, 5, f, d).Some?;
  }
}
