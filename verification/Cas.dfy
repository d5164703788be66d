/** The compare-and-swap and create-once primitives of src/io.js, one file operation at a time:
    mkdir of the lock directory, stat, read, a temporary file written in pieces, rename, rmdir,
    and link. Any number of calls run at once on one path, and any of them may die anywhere.

    The log records each call at the one step where it takes effect, so that "refines an atomic
    operation" is a statement about the log. Content hashes are injective, so contents are compared. */
module Cas {
  import opened Common

  type Text = seq<nat>
  type Id = nat

  datatype Call = Swap(expected: Option<Text>, value: Text) | Create(value: Text)

  datatype Result =
    | Busy
    | Changed(current: Option<Text>)
    | Swapped(prior: Option<Text>, now: Text)
    | Created(made: bool)

  /** `since` is the length of the log when the file was found absent. */
  datatype Pc =
    | Start
    | Stat
    | Read
    | Write(since: nat)
    | Commit(since: nat)
    | Reread(prior: Option<Text>)
    | Finish(result: Result)
    | Done(result: Result)

  datatype Proc = Proc(call: Call, pc: Pc)

  datatype Entry = Entry(id: Id, call: Call, since: nat, before: Option<Text>, after: Option<Text>, result: Result)

  datatype State = State(
    first: Option<Text>,
    file: Option<Text>,
    lock: Option<Id>,
    temps: map<Id, Text>,
    procs: map<Id, Proc>,
    dead: set<Id>,
    log: seq<Entry>)

  ghost predicate Init(s: State) {
    s.file == s.first && s.lock == None && s.temps == map[] && s.procs == map[] && s.dead == {} && s.log == []
  }

  datatype Action = Begin(p: Id, call: Call) | Step(p: Id, piece: nat) | Crash(p: Id)

  /** The one durable effect of a step, with the program counter the call moves to. */
  datatype Effect =
    | Stay
    | Goto(next: Pc)
    | TakeLock
    | FreeLock(next: Pc)
    | PutTemp(next: Pc, temp: Text)
    | DropTemp(next: Pc)
    | Land(next: Pc, since: nat, after: Option<Text>, result: Result)

  function At(s: State, p: Id, pc: Pc): State {
    if p in s.procs then s.(procs := s.procs[p := s.procs[p].(pc := pc)]) else s
  }

  function Apply(s: State, p: Id, call: Call, x: Effect): State {
    match x
    case Stay => s
    case Goto(next) => At(s, p, next)
    case TakeLock => At(s.(lock := Some(p)), p, Stat)
    case FreeLock(next) => At(s.(lock := None), p, next)
    case PutTemp(next, temp) => At(s.(temps := s.temps[p := temp]), p, next)
    case DropTemp(next) => At(s.(temps := s.temps - {p}), p, next)
    case Land(next, since, after, result) => // a swap renames its temporary file, a create-once links it
      At(s.(file := after, log := s.log + [Entry(p, call, since, s.file, after, result)],
            temps := if result.Swapped? then s.temps - {p} else s.temps), p, next)
  }

  function StepSwap(s: State, p: Id, call: Call, pc: Pc, piece: nat): Effect
    requires call.Swap?
  {
    match pc
    case Start => if s.lock.Some? then Goto(Done(Busy)) else TakeLock
    case Stat =>
      if s.file.Some? then Goto(Read)
      else if call.expected.None? then PutTemp(Write(|s.log|), [])
      else Land(Finish(Changed(None)), |s.log|, s.file, Changed(None))
    case Read =>
      if s.file == call.expected then PutTemp(Write(|s.log|), [])
      else Land(Finish(Changed(s.file)), |s.log|, s.file, Changed(s.file))
    case Write(since) => StepWrite(s, p, call.value, since, piece)
    case Commit(since) =>
      if p !in s.temps then Stay
      else Land(Reread(call.expected), since, Some(s.temps[p]), Swapped(call.expected, s.temps[p]))
    case Reread(prior) => if s.file.None? then Stay else Goto(Finish(Swapped(prior, s.file.value)))
    case Finish(r) => FreeLock(Done(r))
    case Done(r) => Stay
  }

  function StepCreate(s: State, p: Id, call: Call, pc: Pc, piece: nat): Effect
    requires call.Create?
  {
    match pc
    case Start => PutTemp(Write(|s.log|), [])
    case Write(since) => StepWrite(s, p, call.value, since, piece)
    case Commit(since) =>
      if p !in s.temps then Stay
      else if s.file.None? then Land(Finish(Created(true)), since, Some(s.temps[p]), Created(true))
      else Land(Finish(Created(false)), since, s.file, Created(false))
    case Finish(r) => DropTemp(Done(r))
    case _ => Stay
  }

  /** The temporary file grows piece by piece; only a complete one is put in place. */
  function StepWrite(s: State, p: Id, value: Text, since: nat, piece: nat): Effect {
    if p !in s.temps then Stay
    else if |s.temps[p]| >= |value| then Goto(Commit(since))
    else
      var upTo := |s.temps[p]| + 1 + piece;
      PutTemp(Write(since), value[..if upTo < |value| then upTo else |value|])
  }

  function CallStep(s: State, p: Id, pr: Proc, piece: nat): Effect {
    if pr.call.Swap? then StepSwap(s, p, pr.call, pr.pc, piece) else StepCreate(s, p, pr.call, pr.pc, piece)
  }

  function Next(s: State, a: Action): State {
    match a
    case Begin(p, call) => if p in s.procs || p in s.dead then s else s.(procs := s.procs[p := Proc(call, Start)])
    case Step(p, piece) => if p in s.procs then Apply(s, p, s.procs[p].call, CallStep(s, p, s.procs[p], piece)) else s
    case Crash(p) => if p in s.procs then s.(procs := s.procs - {p}, dead := s.dead + {p}) else s
  }

  ghost predicate Steps(s: State, t: State) { exists a :: t == Next(s, a) }

  ghost predicate Run(run: seq<State>) { IsRun(Steps, run) && Init(run[0]) }

  // ----- the atomic operations

  /** What an indivisible compare-and-swap or create-once does. */
  function Atomic(call: Call, file: Option<Text>): (Option<Text>, Result) {
    match call
    case Swap(expected, value) =>
      if file == expected then (Some(value), Swapped(expected, value)) else (file, Changed(file))
    case Create(value) =>
      if file.None? then (Some(value), Created(true)) else (file, Created(false))
  }

  predicate IsAtomic(e: Entry) { (e.after, e.result) == Atomic(e.call, e.before) }

  /** A swap that expected no file replaced one. */
  predicate Overwrote(e: Entry) { e.call.Swap? && e.result.Swapped? && e.call.expected.None? && e.before.Some? }

  /** A create-once took effect in the log between two positions. */
  predicate LinkBetween(log: seq<Entry>, from: nat, to: nat) {
    exists j :: from <= j < to <= |log| && log[j].result == Created(true)
  }

  // ----- the invariant

  predicate Holds(pr: Proc) { pr.call.Swap? && !pr.pc.Start? && !pr.pc.Done? }

  predicate Committed(pc: Pc) { pc.Reread? || pc.Finish? || (pc.Done? && pc.result != Busy) }

  ghost predicate Locked(s: State) {
    forall p :: p in s.procs && Holds(s.procs[p]) ==> s.lock == Some(p)
  }

  ghost predicate ProcOk(s: State, p: Id, pr: Proc) {
    && (pr.pc.Write? || pr.pc.Commit? ==> p in s.temps && s.temps[p] <= pr.call.value && pr.pc.since <= |s.log|)
    && (pr.pc.Commit? ==> s.temps[p] == pr.call.value)
    && pr.pc != Finish(Busy) && (pr.pc == Done(Busy) ==> pr.call.Swap?)
    && (pr.call.Swap? && pr.pc.Read? ==> s.file.Some?)
    && (pr.call.Swap? && (pr.pc.Write? || pr.pc.Commit?) ==>
          (s.file == pr.call.expected <==> !LinkBetween(s.log, pr.pc.since, |s.log|)))
    && (pr.call.Swap? && (pr.pc.Write? || pr.pc.Commit?) && pr.call.expected.Some? ==> s.file == pr.call.expected)
    && (pr.call.Swap? && pr.pc.Reread? ==> s.file == Some(pr.call.value))
  }

  ghost predicate Locals(s: State) { forall p :: p in s.procs ==> ProcOk(s, p, s.procs[p]) }

  predicate Answer(e: Entry, p: Id, pr: Proc)
    requires Committed(pr.pc)
  {
    e.id == p && e.call == pr.call && e.result == if pr.pc.Reread? then Swapped(pr.pc.prior, pr.call.value) else pr.pc.result
  }

  /** The entry of a call: none before it takes effect, exactly one afterwards. */
  ghost predicate Answered(s: State, p: Id, pr: Proc) {
    && (Committed(pr.pc) ==> exists i :: 0 <= i < |s.log| && Answer(s.log[i], p, pr))
    && (!Committed(pr.pc) ==> forall i :: 0 <= i < |s.log| ==> s.log[i].id != p)
  }

  ghost predicate Answers(s: State) {
    && (forall p :: p in s.procs ==> Answered(s, p, s.procs[p]))
    && (forall i, j :: 0 <= i < j < |s.log| ==> s.log[i].id != s.log[j].id)
    && (forall i :: 0 <= i < |s.log| ==> s.log[i].id in s.procs || s.log[i].id in s.dead)
    && (forall p :: p in s.procs ==> p !in s.dead)
  }

  ghost predicate EntryOk(log: seq<Entry>, i: nat)
    requires i < |log|
  {
    var e := log[i];
    && (e.result.Swapped? ==> e.call.Swap? && e.since <= i && e.after == Some(e.call.value))
    && (e.result.Swapped? ==> e.result == Swapped(e.call.expected, e.call.value))
    && (e.result.Swapped? ==> (e.before == e.call.expected <==> !LinkBetween(log, e.since, i)))
    && (e.result.Swapped? && e.call.expected.Some? ==> e.before == e.call.expected)
    && (!e.result.Swapped? ==> IsAtomic(e))
  }

  /** The content of the file just before entry `i`. */
  function Content(s: State, i: nat): Option<Text>
    requires i <= |s.log|
  {
    if i == 0 then s.first else s.log[i - 1].after
  }

  ghost predicate Chained(s: State) {
    (forall i: nat :: i < |s.log| ==> s.log[i].before == Content(s, i)) && s.file == Content(s, |s.log|)
  }

  ghost predicate Recorded(s: State) { forall i :: 0 <= i < |s.log| ==> EntryOk(s.log, i) }

  ghost predicate Inv(s: State) { Locked(s) && Locals(s) && Answers(s) && Chained(s) && Recorded(s) }

  lemma LinkGrows(log: seq<Entry>, e: Entry, from: nat)
    ensures LinkBetween(log + [e], from, |log| + 1) <==>
              LinkBetween(log, from, |log|) || (from <= |log| && e.result == Created(true))
    ensures forall to: nat :: to <= |log| ==> (LinkBetween(log + [e], from, to) <==> LinkBetween(log, from, to))
  {
    forall to: nat | to <= |log| ensures LinkBetween(log + [e], from, to) <==> LinkBetween(log, from, to) {
      forall j | from <= j < to ensures (log + [e])[j] == log[j] {}
    }
    if LinkBetween(log + [e], from, |log| + 1) {
      var j :| from <= j < |log| + 1 && (log + [e])[j].result == Created(true);
      assert j < |log| ==> log[j].result == Created(true);
    }
    if LinkBetween(log, from, |log|) {
      var j :| from <= j < |log| && log[j].result == Created(true);
      assert (log + [e])[j].result == Created(true);
    }
    if from <= |log| && e.result == Created(true) { assert (log + [e])[|log|].result == Created(true); }
  }

  // ----- what an effect may do

  ghost predicate EffectOk(s: State, p: Id, x: Effect)
    requires p in s.procs
  {
    var pr := s.procs[p];
    match x
    case Stay => true
    case Goto(next) =>
      && ProcOk(s, p, pr.(pc := next)) && Holds(pr.(pc := next)) == Holds(pr)
      && (Committed(next) <==> Committed(pr.pc))
      && (Committed(next) ==> forall e :: Answer(e, p, pr) ==> Answer(e, p, pr.(pc := next)))
    case TakeLock => s.lock == None && pr.pc.Start? && pr.call.Swap?
    case FreeLock(next) => pr.call.Swap? && pr.pc.Finish? && next == Done(pr.pc.result) && pr.pc.result != Busy
    case PutTemp(next, temp) =>
      && (next.Write? && !Committed(pr.pc)) && ProcOk(s.(temps := s.temps[p := temp]), p, pr.(pc := next))
      && Holds(pr.(pc := next)) == Holds(pr)
    case DropTemp(next) => pr.call.Create? && pr.pc.Finish? && next == Done(pr.pc.result) && pr.pc.result != Busy
    case Land(next, since, after, result) =>
      && !Committed(pr.pc) && Holds(pr.(pc := next)) == Holds(pr) && since <= |s.log|
      && (pr.call.Swap? ==> !pr.pc.Start?)
      && (if next.Reread? then pr.call.Swap? && result == Swapped(next.prior, pr.call.value)
          else next == Finish(result) && result != Busy)
      && (next.Reread? ==> after == Some(pr.call.value))
      && (s.file.Some? ==> after.Some?)
      && (result.Swapped? ==> pr.call.Swap? && after == Some(pr.call.value))
      && (result.Swapped? ==> result == Swapped(pr.call.expected, pr.call.value))
      && (result.Swapped? ==> (s.file == pr.call.expected <==> !LinkBetween(s.log, since, |s.log|)))
      && (result.Swapped? && pr.call.expected.Some? ==> s.file == pr.call.expected)
      && (!result.Swapped? ==> (after, result) == Atomic(pr.call, s.file))
  }

  lemma SwapOk(s: State, p: Id, piece: nat)
    requires Locals(s) && p in s.procs && s.procs[p].call.Swap?
    ensures EffectOk(s, p, StepSwap(s, p, s.procs[p].call, s.procs[p].pc, piece))
  {
    assert ProcOk(s, p, s.procs[p]);
  }

  lemma CreateOk(s: State, p: Id, piece: nat)
    requires Locals(s) && p in s.procs && s.procs[p].call.Create?
    ensures EffectOk(s, p, StepCreate(s, p, s.procs[p].call, s.procs[p].pc, piece))
  {
    assert ProcOk(s, p, s.procs[p]);
  }

  lemma KeepsLocked(s: State, p: Id, x: Effect)
    requires Locked(s) && p in s.procs && EffectOk(s, p, x)
    ensures Locked(Apply(s, p, s.procs[p].call, x))
  {
    hide ProcOk;
  }

  lemma KeepsChained(s: State, p: Id, x: Effect)
    requires Chained(s) && p in s.procs
    ensures Chained(Apply(s, p, s.procs[p].call, x))
  {
    var t := Apply(s, p, s.procs[p].call, x);
    forall i: nat | i <= |s.log| ensures Content(t, i) == Content(s, i) {}
  }

  lemma KeepsRecorded(s: State, p: Id, x: Effect)
    requires Recorded(s) && p in s.procs && EffectOk(s, p, x)
    ensures Recorded(Apply(s, p, s.procs[p].call, x))
  {
    hide ProcOk;
    var t := Apply(s, p, s.procs[p].call, x);
    if x.Land? {
      forall i: nat | i < |t.log| ensures EntryOk(t.log, i) {
        LinkGrows(s.log, t.log[|s.log|], t.log[i].since);
        if i < |s.log| { assert EntryOk(s.log, i); }
      }
    }
  }

  /** What one call knows survives the effect of another. */
  lemma OthersKeep(s: State, p: Id, x: Effect, q: Id)
    requires Locked(s) && p in s.procs && q in s.procs && p != q && EffectOk(s, p, x) && ProcOk(s, q, s.procs[q])
    ensures ProcOk(Apply(s, p, s.procs[p].call, x), q, s.procs[q])
  {
    var t := Apply(s, p, s.procs[p].call, x);
    if x.Land? && (s.procs[q].pc.Write? || s.procs[q].pc.Commit?) {
      LinkGrows(s.log, t.log[|s.log|], s.procs[q].pc.since);
    }
    assert Holds(s.procs[q]) ==> s.lock == Some(q);
  }

  lemma KeepsLocals(s: State, p: Id, x: Effect)
    requires Locked(s) && Locals(s) && p in s.procs && EffectOk(s, p, x)
    ensures Locals(Apply(s, p, s.procs[p].call, x))
  {
    var t := Apply(s, p, s.procs[p].call, x);
    forall q | q in t.procs ensures ProcOk(t, q, t.procs[q]) {
      if q != p { OthersKeep(s, p, x, q); } else { assert ProcOk(s, p, s.procs[p]); }
    }
  }

  lemma KeepsAnswers(s: State, p: Id, x: Effect)
    requires Answers(s) && p in s.procs && EffectOk(s, p, x)
    ensures Answers(Apply(s, p, s.procs[p].call, x))
  {
    hide ProcOk;
    var t := Apply(s, p, s.procs[p].call, x);
    assert Answered(s, p, s.procs[p]);
    assert s.log <= t.log;
    forall q | q in t.procs ensures Answered(t, q, t.procs[q]) {
      assert Answered(s, q, s.procs[q]);
      if Committed(s.procs[q].pc) {
        var i :| 0 <= i < |s.log| && Answer(s.log[i], q, s.procs[q]);
        assert Answer(t.log[i], q, t.procs[q]);
      } else if q == p && x.Land? {
        assert Answer(t.log[|s.log|], q, t.procs[q]);
      }
    }
  }

  lemma NextKeeps(s: State, a: Action)
    requires Inv(s)
    ensures Inv(Next(s, a))
  {
    if a.Step? { StepKeeps(s, a.p, a.piece); } else { ComeOrGo(s, a); }
  }

  lemma StepKeeps(s: State, p: Id, piece: nat)
    requires Inv(s)
    ensures Inv(Next(s, Step(p, piece)))
  {
    hide Locked, Locals, Answers, Chained, Recorded, EffectOk, Apply, StepSwap, StepCreate;
    if p in s.procs {
      var x := CallStep(s, p, s.procs[p], piece);
      if s.procs[p].call.Swap? { SwapOk(s, p, piece); } else { CreateOk(s, p, piece); }
      KeepsLocked(s, p, x);
      KeepsLocals(s, p, x);
      KeepsAnswers(s, p, x);
      KeepsChained(s, p, x);
      KeepsRecorded(s, p, x);
    }
  }

  lemma ComeOrGo(s: State, a: Action)
    requires Inv(s) && !a.Step?
    ensures Inv(Next(s, a))
  {
    hide Locked, Locals, Answers, Chained, Recorded;
    SameFile(s, a);
    OtherCalls(s, a);
  }

  lemma SameFile(s: State, a: Action)
    requires Chained(s) && Recorded(s) && !a.Step?
    ensures Chained(Next(s, a)) && Recorded(Next(s, a))
  {
    hide EntryOk;
    var t := Next(s, a);
    forall i: nat | i <= |s.log| ensures Content(t, i) == Content(s, i) {}
  }

  lemma OtherCalls(s: State, a: Action)
    requires Locked(s) && Locals(s) && Answers(s) && !a.Step?
    ensures Locked(Next(s, a)) && Locals(Next(s, a)) && Answers(Next(s, a))
  {
    var t := Next(s, a);
    forall q | q in t.procs ensures ProcOk(t, q, t.procs[q]) { assert q in s.procs ==> ProcOk(s, q, s.procs[q]); }
    forall q | q in t.procs ensures Answered(t, q, t.procs[q]) { assert q in s.procs ==> Answered(s, q, s.procs[q]); }
  }

  lemma RunInv(run: seq<State>, k: nat)
    requires Run(run) && k < |run|
    ensures Inv(run[k])
  {
    hide Inv, Next;
    InitInv(run[0]);
    forall s, t | Inv(s) && Steps(s, t) ensures Inv(t) {
      var a :| t == Next(s, a);
      NextKeeps(s, a);
    }
    Invariance(Inv, Steps, run, k);
  }

  lemma InitInv(s: State)
    requires Init(s)
    ensures Inv(s)
  {
  }

  // ----- theorems

  /** The calls take effect one after the other, each on the content the previous one left, and the
      file is what the last one left. Every effect is that of the atomic operation, except a swap
      that expected no file and overwrote one. */
  lemma Linearizable(run: seq<State>, k: nat)
    requires Run(run) && k < |run|
    ensures forall i: nat :: i < |run[k].log| ==> run[k].log[i].before == Content(run[k], i)
    ensures run[k].file == Content(run[k], |run[k].log|)
    ensures forall e :: e in run[k].log && !Overwrote(e) ==> IsAtomic(e)
  {
    hide Locked, Locals, Answers;
    RunInv(run, k);
    var log := run[k].log;
    forall e | e in log && !Overwrote(e) ensures IsAtomic(e) {
      var i: nat :| i < |log| && log[i] == e;
      assert EntryOk(log, i);
    }
  }

  /** A successful swap found exactly the content it expected if and only if no create-once took effect
      between its look at the file and its rename; one that expected a content always did. */
  lemma SwapExactly(run: seq<State>, k: nat, i: nat)
    requires Run(run) && k < |run| && i < |run[k].log| && run[k].log[i].result.Swapped?
    ensures var e := run[k].log[i];
            && e.call.Swap?
            && (e.before == e.call.expected <==> !LinkBetween(run[k].log, e.since, i))
            && (e.call.expected.Some? ==> e.before == e.call.expected)
            && e.after == Some(e.call.value)
  {
    hide Locked, Locals, Answers, Chained;
    RunInv(run, k);
    assert EntryOk(run[k].log, i);
  }

  /** A finished call reports its one effect; a call that found the lock directory has none. */
  lemma EveryCallOnce(run: seq<State>, k: nat, p: Id)
    requires Run(run) && k < |run| && p in run[k].procs && run[k].procs[p].pc.Done?
    ensures var r := run[k].procs[p].pc.result;
            if r.Busy? then forall e :: e in run[k].log ==> e.id != p
            else exists i :: 0 <= i < |run[k].log| && run[k].log[i].id == p && run[k].log[i].result == r
                             && run[k].log[i].call == run[k].procs[p].call
                             && forall j :: 0 <= j < |run[k].log| && j != i ==> run[k].log[j].id != p
  {
    hide Locked, Locals, Chained, Recorded;
    RunInv(run, k);
    var s := run[k];
    assert Answered(s, p, s.procs[p]);
    if !s.procs[p].pc.result.Busy? {
      var i :| 0 <= i < |s.log| && Answer(s.log[i], p, s.procs[p]);
    }
  }

  /** The value of some call, complete. */
  ghost predicate Whole(s: State, text: Option<Text>) {
    exists j :: 0 <= j < |s.log| && text == Some(s.log[j].call.value)
  }

  lemma {:induction false} ContentWhole(s: State, i: nat)
    requires Chained(s) && Recorded(s) && i <= |s.log|
    ensures Content(s, i) == s.first || Whole(s, Content(s, i))
  {
    hide Chained, Recorded, Whole;
    if i > 0 {
      ContentWhole(s, i - 1);
      EffectWhole(s, i - 1);
      BeforeIs(s, i - 1);
      LoggedWhole(s, i - 1);
    }
  }

  lemma LoggedWhole(s: State, i: nat)
    requires i < |s.log|
    ensures Whole(s, Some(s.log[i].call.value))
  {
  }

  lemma BeforeIs(s: State, i: nat)
    requires Chained(s) && i < |s.log|
    ensures s.log[i].before == Content(s, i)
  {
  }

  lemma EffectWhole(s: State, i: nat)
    requires Recorded(s) && i < |s.log|
    ensures s.log[i].after == s.log[i].before || s.log[i].after == Some(s.log[i].call.value)
  {
    assert EntryOk(s.log, i);
  }

  /** Whatever died and wherever: the file holds its first content or one whole value, never a mix. */
  lemma NeverMixed(run: seq<State>, k: nat)
    requires Run(run) && k < |run|
    ensures run[k].file == run[k].first || Whole(run[k], run[k].file)
  {
    hide Locked, Locals, Answers;
    RunInv(run, k);
    ContentWhole(run[k], |run[k].log|);
  }

  /** A call that dies holding the lock directory stops every later swap, and no other call. */
  ghost predicate Orphaned(s: State, p: Id) { s.lock == Some(p) && p in s.dead }

  ghost predicate OnlyCreates(s: State, t: State) {
    s.log <= t.log && forall i :: |s.log| <= i < |t.log| ==> t.log[i].call.Create?
  }

  lemma OrphanStep(s: State, a: Action, p: Id)
    requires Inv(s) && Orphaned(s, p)
    ensures Orphaned(Next(s, a), p) && OnlyCreates(s, Next(s, a))
  {
    hide Locals, Chained, Recorded;
    assert a.Step? && a.p in s.procs ==> !Holds(s.procs[a.p]);
  }

  lemma {:induction false} OrphanForever(run: seq<State>, i: nat, k: nat, p: Id)
    requires Run(run) && i <= k < |run| && Orphaned(run[i], p)
    ensures Orphaned(run[k], p) && OnlyCreates(run[i], run[k])
  {
    hide Inv, Next;
    if i < k {
      OrphanForever(run, i, k - 1, p);
      RunInv(run, k - 1);
      assert Steps(run[k - 1], run[k - 1 + 1]);
      var a :| run[k] == Next(run[k - 1], a);
      OrphanStep(run[k - 1], a, p);
    }
  }

  // ----- what a finished call leaves behind

  /** The call still needs its temporary file. */
  predicate UsesTemp(pr: Proc) { pr.pc.Write? || pr.pc.Commit? || (pr.call.Create? && pr.pc.Finish?) }

  /** The lock directory and the temporary files belong to calls that still use them, or to the dead. */
  ghost predicate Tidy(s: State) {
    && (s.lock.Some? ==> s.lock.value in s.dead || (s.lock.value in s.procs && Holds(s.procs[s.lock.value])))
    && (forall p :: p in s.temps ==> p in s.dead || (p in s.procs && UsesTemp(s.procs[p])))
    && (forall p :: p in s.procs ==> p !in s.dead)
  }

  /** An effect hands on the lock directory and the temporary file exactly as the next program counter needs them. */
  ghost predicate EffectTidy(pr: Proc, x: Effect) {
    && (x.Goto? ==> Holds(pr.(pc := x.next)) == Holds(pr) && UsesTemp(pr.(pc := x.next)) == UsesTemp(pr))
    && (x.TakeLock? ==> pr.call.Swap? && !UsesTemp(pr))
    && (x.FreeLock? ==> !UsesTemp(pr) && !Holds(pr.(pc := x.next)))
    && (x.PutTemp? ==> UsesTemp(pr.(pc := x.next)) && Holds(pr.(pc := x.next)) == Holds(pr))
    && (x.DropTemp? ==> !Holds(pr))
    && (x.Land? ==> Holds(pr.(pc := x.next)) == Holds(pr) && (UsesTemp(pr) ==> UsesTemp(pr.(pc := x.next)) || x.result.Swapped?))
  }

  lemma SwapTidy(s: State, p: Id, pr: Proc, piece: nat)
    requires pr.call.Swap?
    ensures EffectTidy(pr, StepSwap(s, p, pr.call, pr.pc, piece))
  {
  }

  lemma CreateTidy(s: State, p: Id, pr: Proc, piece: nat)
    requires pr.call.Create?
    ensures EffectTidy(pr, StepCreate(s, p, pr.call, pr.pc, piece))
  {
  }

  lemma ApplyTidy(s: State, p: Id, x: Effect)
    requires Tidy(s) && (forall q :: q in s.procs && Holds(s.procs[q]) ==> s.lock == Some(q))
    requires p in s.procs && EffectTidy(s.procs[p], x)
    ensures Tidy(Apply(s, p, s.procs[p].call, x))
  {
  }

  lemma TidyStep(s: State, a: Action)
    requires Tidy(s) && (forall p :: p in s.procs && Holds(s.procs[p]) ==> s.lock == Some(p))
    ensures Tidy(Next(s, a))
  {
    hide StepSwap, StepCreate, Apply, EffectTidy;
    if a.Step? && a.p in s.procs {
      var pr := s.procs[a.p];
      if pr.call.Swap? { SwapTidy(s, a.p, pr, a.piece); } else { CreateTidy(s, a.p, pr, a.piece); }
      ApplyTidy(s, a.p, CallStep(s, a.p, pr, a.piece));
    }
  }

  ghost predicate Kempt(s: State) { Inv(s) && Tidy(s) }

  /** A finished call has released the lock directory and removed its temporary file: what lies about is the dead's. */
  lemma FinishedCleanly(run: seq<State>, k: nat, p: Id)
    requires Run(run) && k < |run| && p in run[k].procs && run[k].procs[p].pc.Done?
    ensures run[k].lock != Some(p) && p !in run[k].temps
  {
    hide Inv, Next;
    InitInv(run[0]);
    forall s, t | Kempt(s) && Steps(s, t) ensures Kempt(t) {
      var a :| t == Next(s, a);
      NextKeeps(s, a);
      LocksHeld(s);
      TidyStep(s, a);
    }
    Invariance(Kempt, Steps, run, k);
  }

  lemma LocksHeld(s: State)
    requires Inv(s)
    ensures forall p :: p in s.procs && Holds(s.procs[p]) ==> s.lock == Some(p)
  {
    hide Locals, Answers, Chained, Recorded;
  }

  ghost predicate Reachable(s: State) { Reached(Init, Steps, s) }

  lemma Reach(s: State, a: Action, t: State)
    requires Reachable(s) && t == Next(s, a)
    ensures Reachable(t)
  {
    hide Next;
    assert Steps(s, t);
    ReachedNext(Init, Steps, s, t);
  }

  const SWAP := Swap(None, [])
  const CREATE := Create([])

  /** One swap has found no file and is about to rename, one create-once is at `pc`. */
  function Between(pc: Pc): State {
    State(None, None, Some(1), map[1 := [], 2 := []], map[1 := Proc(SWAP, Commit(0)), 2 := Proc(CREATE, pc)], {}, [])
  }

  /** The swap alone, holding the lock directory at `pc`. */
  function Swapping(pc: Pc, temps: map<Id, Text>): State {
    State(None, None, Some(1), temps, map[1 := Proc(SWAP, pc)], {}, [])
  }

  lemma SwapReady()
    ensures Reachable(Swapping(Commit(0), map[1 := []]))
  {
    var s0 := State(None, None, None, map[], map[], {}, []);
    ReachedAtOnce(Init, Steps, s0);
    var s1 := s0.(procs := map[1 := Proc(SWAP, Start)]);
    Reach(s0, Begin(1, SWAP), s1);
    Reach(s1, Step(1, 0), Swapping(Stat, map[]));
    Reach(Swapping(Stat, map[]), Step(1, 0), Swapping(Write(0), map[1 := []]));
    Reach(Swapping(Write(0), map[1 := []]), Step(1, 0), Swapping(Commit(0), map[1 := []]));
  }

  lemma BothReady()
    ensures Reachable(Between(Commit(0)))
  {
    SwapReady();
    var s4 := Swapping(Commit(0), map[1 := []]);
    var s5 := s4.(procs := s4.procs[2 := Proc(CREATE, Start)]);
    Reach(s4, Begin(2, CREATE), s5);
    Reach(s5, Step(2, 0), Between(Write(0)));
    Reach(Between(Write(0)), Step(2, 0), Between(Commit(0)));
  }

  /** A swap that expects no file can replace one: a create-once lands between its look and its rename. */
  lemma OverwriteHappens()
    ensures exists s: State, e :: Reachable(s) && e in s.log && Overwrote(e)
  {
    BothReady();
    var s := Between(Commit(0));
    var t := Next(s, Step(2, 0));
    Reach(s, Step(2, 0), t);
    assert t.file == Some([]) && t.procs[1] == Proc(SWAP, Commit(0)) && t.temps[1] == [];
    Reach(t, Step(1, 0), Next(t, Step(1, 0)));
    assert Overwrote(Next(t, Step(1, 0)).log[1]);
  }
}
