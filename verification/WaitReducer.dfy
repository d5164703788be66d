/** The wait reducer of src/wakeup.js: a registered wait, and the events applied to it one by one. */
module WaitReducer {
  import opened Common

  datatype WaitState = Waiting | Ready

  datatype Interaction = Interaction(event: string, class_: string, automatic: bool)

  datatype Wake = Wake(event: string, kind: string, class_: string, automatic: bool)

  datatype Wait = Wait(id: string, task: string, attempt: string, registeredAt: string, deadlineAt: string,
                       state: WaitState, seen: seq<string>, interactions: seq<Interaction>, wake: Option<Wake>)

  datatype Event = Event(id: string, kind: string, wait: string)

  datatype Result<+T> = Ok(value: T) | Err(message: string)

  const TERMINAL: set<string> :=
    {"child-completed", "child-failed", "child-timeout", "child-stall", "intervention-required"}

  const INELIGIBLE: set<string> :=
    {"heartbeat", "host-wrapper-yield", "host-wrapper-timeout", "nonterminal-return"}

  const HUMAN := "human-interaction"

  function RegisterWait(id: string, task: string, attempt: string, registeredAt: string, deadlineAt: string): Result<Wait> {
    if id == "" || task == "" || attempt == "" || registeredAt == "" || deadlineAt == ""
    then Err("wait registration requires identity, registration time, and deadline")
    else Ok(Wait(id, task, attempt, registeredAt, deadlineAt, Waiting, [], [], None))
  }

  predicate WellFormed(e: Event) { e.id != "" && e.kind != "" && e.wait != "" }

  function ApplyWakeEvent(w: Wait, e: Event): Result<Wait> {
    if !WellFormed(e) then Err("wake event requires event_id, type, and wait_id")
    else if e.id in w.seen then Ok(w)
    else
      var next := w.(seen := w.seen + [e.id]);
      if e.wait != w.id || w.state != Waiting then Ok(next)
      else if e.kind in INELIGIBLE then Ok(next)
      else if e.kind == HUMAN then Ok(next.(interactions := w.interactions + [Interaction(e.id, "human", false)]))
      else if e.kind !in TERMINAL then Ok(next)
      else Ok(next.(state := Ready, wake := Some(Wake(e.id, e.kind, "terminal-event", true))))
  }

  function Applied(w: Wait, e: Event): Wait {
    var r := ApplyWakeEvent(w, e);
    if r.Ok? then r.value else w
  }

  predicate News(w: Wait, e: Event) { WellFormed(e) && e.id !in w.seen }

  predicate Concerns(w: Wait, e: Event) { News(w, e) && w.state == Waiting && e.wait == w.id }

  lemma ApplyFacts(w: Wait, e: Event)
    ensures var t := Applied(w, e);
            && t == w.(state := t.state, seen := t.seen, interactions := t.interactions, wake := t.wake)
            && t.seen == (if News(w, e) then w.seen + [e.id] else w.seen)
            && t.state == (if Concerns(w, e) && e.kind in TERMINAL then Ready else w.state)
            && t.wake == (if Concerns(w, e) && e.kind in TERMINAL then Some(Wake(e.id, e.kind, "terminal-event", true)) else w.wake)
            && t.interactions == w.interactions
                 + (if Concerns(w, e) && e.kind == HUMAN then [Interaction(e.id, "human", false)] else [])
  {
    assert TERMINAL !! INELIGIBLE && HUMAN !in TERMINAL && HUMAN !in INELIGIBLE;
  }

  /** The wait after a sequence of events; an event that is refused leaves it unchanged. */
  function Fold(w: Wait, events: seq<Event>): Wait {
    if events == [] then w
    else Applied(Fold(w, events[..|events| - 1]), events[|events| - 1])
  }

  // ----- what the reducer means, stated on the event sequence alone

  /** The event at `i` is the first well-formed one with its identifier. */
  predicate FirstSeen(events: seq<Event>, i: nat)
    requires i < |events|
  {
    WellFormed(events[i]) && forall j :: 0 <= j < i && WellFormed(events[j]) ==> events[j].id != events[i].id
  }

  predicate Decides(id: string, events: seq<Event>, i: nat)
    requires i < |events|
  {
    FirstSeen(events, i) && events[i].wait == id && events[i].kind in TERMINAL
  }

  predicate Decided(id: string, events: seq<Event>) {
    exists i :: 0 <= i < |events| && Decides(id, events, i)
  }

  function Ids(events: seq<Event>): seq<string> {
    if events == [] then []
    else if WellFormed(events[0]) then [events[0].id] + Ids(events[1..])
    else Ids(events[1..])
  }

  /** The human interactions for one wait among the first `n` events: first seen, and before any event that decides. */
  function Interactions(id: string, events: seq<Event>, n: nat): seq<Interaction>
    requires n <= |events|
  {
    if n == 0 then []
    else
      Interactions(id, events, n - 1) +
      if FirstSeen(events, n - 1) && events[n - 1].wait == id && events[n - 1].kind == HUMAN && !Decided(id, events[..n - 1])
      then [Interaction(events[n - 1].id, "human", false)] else []
  }

  // ----- identifiers

  lemma {:induction false} IdsAppend(events: seq<Event>, e: Event)
    ensures Ids(events + [e]) == Ids(events) + if WellFormed(e) then [e.id] else []
  {
    if events != [] {
      assert (events + [e])[1..] == events[1..] + [e];
      IdsAppend(events[1..], e);
    } else {
      assert events + [e] == [e];
    }
  }

  lemma {:induction false} IdsMembers(events: seq<Event>)
    ensures forall x :: x in Ids(events) <==> exists i :: 0 <= i < |events| && WellFormed(events[i]) && events[i].id == x
  {
    if events != [] {
      var rest := events[1..];
      IdsMembers(rest);
      forall x
        ensures x in Ids(events) <==> exists i :: 0 <= i < |events| && WellFormed(events[i]) && events[i].id == x
      {
        if i :| 0 <= i < |rest| && WellFormed(rest[i]) && rest[i].id == x { assert events[i + 1].id == x; }
        if i :| 0 <= i < |events| && WellFormed(events[i]) && events[i].id == x { assert i > 0 ==> rest[i - 1].id == x; }
      }
    }
  }

  // ----- the reducer against its meaning

  /** The seen identifiers are the identifiers of the events with later duplicates removed. */
  lemma {:induction false} SeenIsDedup(w: Wait, events: seq<Event>)
    requires w.seen == []
    ensures Fold(w, events).seen == Dedup(Ids(events))
  {
    hide Applied;
    if events != [] {
      var n := |events| - 1;
      assert events == events[..n] + [events[n]];
      SeenIsDedup(w, events[..n]);
      IdsAppend(events[..n], events[n]);
      DedupMembers(Ids(events[..n]));
      ApplyFacts(Fold(w, events[..n]), events[n]);
      if WellFormed(events[n]) {
        DedupAppend(Ids(events[..n]), events[n].id);
      } else {
        assert Ids(events) == Ids(events[..n]);
      }
    }
  }

  /** An event is new to the reducer exactly when it is the first with its identifier. */
  lemma NewIsFirstSeen(w: Wait, events: seq<Event>, n: nat)
    requires w.seen == [] && n < |events| && WellFormed(events[n])
    ensures events[n].id !in Fold(w, events[..n]).seen <==> FirstSeen(events, n)
  {
    SeenIsDedup(w, events[..n]);
    DedupMembers(Ids(events[..n]));
    IdsMembers(events[..n]);
    forall j | 0 <= j < n ensures events[..n][j] == events[j] {}
  }

  predicate Earliest(id: string, events: seq<Event>, i: nat)
    requires i < |events|
  {
    Decides(id, events, i) && forall j :: 0 <= j < i ==> !Decides(id, events, j)
  }

  lemma DecidesPrefix(id: string, events: seq<Event>, n: nat, i: nat)
    requires i < n <= |events|
    ensures Decides(id, events[..n], i) <==> Decides(id, events, i)
  {
    assert forall j :: 0 <= j <= i ==> events[..n][j] == events[j];
  }

  lemma DecidedStep(id: string, events: seq<Event>)
    requires events != []
    ensures Decided(id, events) <==> Decided(id, events[..|events| - 1]) || Decides(id, events, |events| - 1)
  {
    var n := |events| - 1;
    forall i | 0 <= i < n ensures Decides(id, events[..n], i) <==> Decides(id, events, i) {
      DecidesPrefix(id, events, n, i);
    }
  }

  /** READY exactly when some first-seen event for this wait is terminal; the stored wake is then
      the earliest such event, and before that there is none. */
  lemma {:induction false} ReadyMeansTerminal(w: Wait, events: seq<Event>)
    requires w.seen == [] && w.state == Waiting && w.wake == None
    ensures var f := Fold(w, events);
            && (f.state == Ready <==> Decided(w.id, events))
            && (f.state == Waiting ==> f.wake == None)
            && f == w.(state := f.state, seen := f.seen, interactions := f.interactions, wake := f.wake)
    ensures forall i :: 0 <= i < |events| && Earliest(w.id, events, i) ==>
              Fold(w, events).wake == Some(Wake(events[i].id, events[i].kind, "terminal-event", true))
  {
    hide Applied, TERMINAL;
    if events != [] {
      var n := |events| - 1;
      ReadyMeansTerminal(w, events[..n]);
      DecidedStep(w.id, events);
      ApplyFacts(Fold(w, events[..n]), events[n]);
      if WellFormed(events[n]) { NewIsFirstSeen(w, events, n); }
      forall i | 0 <= i < |events| && Earliest(w.id, events, i)
        ensures Fold(w, events).wake == Some(Wake(events[i].id, events[i].kind, "terminal-event", true))
      {
        if i < n {
          forall j | 0 <= j <= i ensures Decides(w.id, events[..n], j) <==> Decides(w.id, events, j) {
            DecidesPrefix(w.id, events, n, j);
          }
          assert Earliest(w.id, events[..n], i) && Decided(w.id, events[..n]);
        } else if Decided(w.id, events[..n]) {
          var j :| 0 <= j < n && Decides(w.id, events[..n], j);
          DecidesPrefix(w.id, events, n, j);
        }
      }
    }
  }

  lemma EarliestExists(id: string, events: seq<Event>, i: nat)
    requires i < |events| && Decides(id, events, i)
    ensures exists k :: 0 <= k <= i && Earliest(id, events, k)
  {
    if !Earliest(id, events, i) {
      var j :| 0 <= j < i && Decides(id, events, j);
      EarliestExists(id, events, j);
    }
  }

  /** A READY wait holds the wake of its earliest terminal event. */
  lemma ReadyHoldsEarliest(w: Wait, events: seq<Event>)
    requires w.seen == [] && w.state == Waiting && w.wake == None && Fold(w, events).state == Ready
    ensures exists i :: 0 <= i < |events| && Earliest(w.id, events, i) &&
              Fold(w, events).wake == Some(Wake(events[i].id, events[i].kind, "terminal-event", true))
  {
    ReadyMeansTerminal(w, events);
    var i :| 0 <= i < |events| && Decides(w.id, events, i);
    EarliestExists(w.id, events, i);
  }

  /** The interactions on record are those of the specification, in order. */
  lemma {:induction false} InteractionsRecorded(w: Wait, events: seq<Event>)
    requires w.seen == [] && w.state == Waiting && w.wake == None && w.interactions == []
    ensures Fold(w, events).interactions == Interactions(w.id, events, |events|)
  {
    hide Applied;
    if events != [] {
      var n := |events| - 1;
      InteractionsRecorded(w, events[..n]);
      ReadyMeansTerminal(w, events[..n]);
      ApplyFacts(Fold(w, events[..n]), events[n]);
      if WellFormed(events[n]) { NewIsFirstSeen(w, events, n); }
      InteractionsPrefix(w.id, events, n, n);
    }
  }

  lemma {:induction false} InteractionsPrefix(id: string, events: seq<Event>, n: nat, k: nat)
    requires k <= n <= |events|
    ensures Interactions(id, events[..n], k) == Interactions(id, events, k)
  {
    if k > 0 {
      InteractionsPrefix(id, events, n, k - 1);
      assert events[..n][..k - 1] == events[..k - 1];
      assert forall j :: 0 <= j < k ==> events[..n][j] == events[j];
    }
  }

  lemma {:induction false} FoldAppend(w: Wait, a: seq<Event>, b: seq<Event>)
    ensures Fold(w, a + b) == Fold(Fold(w, a), b)
  {
    if b == [] {
      assert a + b == a;
    } else {
      var n := |b| - 1;
      assert (a + b)[..|a| + n] == a + b[..n];
      FoldAppend(w, a, b[..n]);
    }
  }

  /** Once READY the wait stays READY with the same wake and interactions, whatever follows. */
  lemma {:induction false} ReadyForever(w: Wait, a: seq<Event>, b: seq<Event>)
    requires Fold(w, a).state == Ready
    ensures var f := Fold(w, a);
            Fold(w, a + b) == f.(seen := Fold(w, a + b).seen) && f.seen <= Fold(w, a + b).seen
  {
    hide Applied;
    if b == [] {
      assert a + b == a;
    } else {
      var n := |b| - 1;
      assert (a + b)[..|a| + n] == a + b[..n];
      ReadyForever(w, a, b[..n]);
      ApplyFacts(Fold(w, a + b[..n]), b[n]);
    }
  }

  lemma {:induction false} SeenGrows(w: Wait, b: seq<Event>)
    ensures w.seen <= Fold(w, b).seen
  {
    hide Applied;
    if b != [] {
      SeenGrows(w, b[..|b| - 1]);
      ApplyFacts(Fold(w, b[..|b| - 1]), b[|b| - 1]);
    }
  }

  /** A repeated event changes nothing, wherever the repetition arrives. */
  lemma RedeliveryHarmless(w: Wait, a: seq<Event>, e: Event, b: seq<Event>, c: seq<Event>)
    ensures Fold(w, a + [e] + b + [e] + c) == Fold(w, a + [e] + b + c)
  {
    var x, y := Fold(w, a + [e]), Fold(w, a + [e] + b);
    assert (a + [e])[..|a|] == a;
    FoldAppend(w, a + [e], b);
    SeenGrows(x, b);
    if WellFormed(e) {
      assert e.id in x.seen;
      assert x.seen == y.seen[..|x.seen|];
    }
    assert [e][..0] == [] && Fold(y, [e]) == y;
    FoldAppend(w, a + [e] + b, [e]);
    FoldAppend(w, a + [e] + b + [e], c);
    FoldAppend(w, a + [e] + b, c);
  }

  /** Every wait that can be registered is one to which the results above apply: a registration is accepted exactly when
      nothing is left blank, and whatever events follow, the wait is READY exactly when one of them decides it. */
  lemma RegisteredWait(id: string, task: string, attempt: string, registeredAt: string, deadlineAt: string, events: seq<Event>)
    ensures var r := RegisterWait(id, task, attempt, registeredAt, deadlineAt);
            && (r.Ok? <==> "" !in {id, task, attempt, registeredAt, deadlineAt})
            && (r.Ok? ==>
                  var f := Fold(r.value, events);
                  && f.id == id && f.task == task && f.attempt == attempt
                  && f.registeredAt == registeredAt && f.deadlineAt == deadlineAt
                  && f.seen == Dedup(Ids(events)) && f.interactions == Interactions(id, events, |events|)
                  && (f.state == Ready <==> Decided(id, events)) && (f.state == Waiting ==> f.wake == None))
  {
    var r := RegisterWait(id, task, attempt, registeredAt, deadlineAt);
    if r.Ok? {
      hide Fold, Decided, Ids, Interactions;
      SeenIsDedup(r.value, events);
      InteractionsRecorded(r.value, events);
      ReadyMeansTerminal(r.value, events);
    }
  }
}
