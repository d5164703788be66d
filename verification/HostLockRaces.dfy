/** The two ways in which a takeover of the host lock goes wrong: it can move the record of a live holder,
    and it can leave behind a directory that nobody can ever install over or take over. */
module HostLockRaces {
  import opened Common
  import opened HostLock

  // ----- a directory that nobody can use

  /** The lock directory has no owner but is not empty, and nobody is about to move it. */
  ghost predicate Wedged(s: State) {
    && s.lock.Some? && s.lock.value.owner.None? && s.lock.value.takeovers.Some?
    && forall p :: p in s.procs ==> !(s.procs[p].Takeover? && s.procs[p].at.Move?) && !s.procs[p].Retiring?
  }

  /** Whoever holds the lock or is releasing it did so before. */
  ghost predicate NoNewOwner(s: State, t: State) {
    forall p :: p in t.procs && Owns(t.procs[p]) ==> p in s.procs && Owns(s.procs[p]) && s.procs[p].own == t.procs[p].own
  }

  lemma ProcWedged(s: State, p: Pid, now: int, name: Pid)
    requires Wedged(s) && p in s.procs
    ensures var x := ProcStep(s, p, now, name);
            && !x.Retire? && (x.PutLock? ==> x.dir.owner.None? && x.dir.takeovers.Some?)
            && (!x.Stay? ==> !(x.next.Takeover? && x.next.at.Move?) && !x.next.Retiring?)
            && (!x.Stay? && Owns(x.next) ==> Owns(s.procs[p]) && s.procs[p].own == x.next.own)
  {
  }

  lemma NextWedged(s: State, a: Action)
    requires Wedged(s)
    ensures Wedged(Next(s, a)) && NoNewOwner(s, Next(s, a))
  {
    hide ProcStep;
    if a.Step? && a.p in s.procs { ProcWedged(s, a.p, a.now, a.name); }
  }

  /** Nobody ever acquires such a lock again. */
  lemma {:induction false} WedgedForever(run: seq<State>, i: nat, k: nat)
    requires Run(run) && i <= k < |run| && Wedged(run[i])
    ensures Wedged(run[k]) && NoNewOwner(run[i], run[k])
  {
    hide Next, Wedged;
    if i < k {
      WedgedForever(run, i, k - 1);
      assert Steps(run[k - 1], run[k - 1 + 1]);
      var a :| run[k] == Next(run[k - 1], a);
      NextWedged(run[k - 1], a);
    }
  }

  /** Process 2 has moved the stale lock while process 1 was about to write its candidate record. */
  function Late(at: TakeoverPc, lock: Option<Dir>): State {
    State(lock, map[2 := Install(Record(2, 0)), 1 := Takeover(Record(1, 0), OLD, at)], {9}, [Retirement(2, true, OLD, Some(OLD))])
  }

  lemma Overtaken()
    ensures Reachable(Late(EnsureLock, None))
  {
    TwoElected();
    var s, others: map<Pid, Option<Record>> := Alone(Move), map[2 := Some(Record(2, 0))];
    Meets(s, 1, OLD, others);
    var c := Contending(s, 1, OLD, MakeCandidate, others);
    Reach(c, Step(1, 0, 0), Contending(s, 1, OLD, EnsureLock, others[1 := None]));
    var d := Contending(s, 1, OLD, EnsureLock, others[1 := None]);
    Reach(d, Step(2, 0, 0), Late(EnsureLock, None));
  }

  lemma Recreates()
    ensures Reachable(Late(WriteCandidate, Some(Dir(None, Some(map[1 := None])))))
  {
    Overtaken();
    Reach(Late(EnsureLock, None), Step(1, 0, 0), Late(EnsureTakeovers, Some(Dir(None, None))));
    Reach(Late(EnsureTakeovers, Some(Dir(None, None))), Step(1, 0, 0), Late(EnsureCandidate, Some(Dir(None, Some(map[])))));
    var none: map<Pid, Option<Record>> := map[];
    assert none[1 := None] == map[1 := None];
    Reach(Late(EnsureCandidate, Some(Dir(None, Some(map[])))), Step(1, 0, 0), Late(WriteCandidate, Some(Dir(None, Some(map[1 := None])))));
  }

  const RECREATED := Some(Dir(None, Some(map[1 := Some(Record(1, 0))])))

  lemma Withdraws()
    ensures Reachable(Late(Withdraw, RECREATED))
  {
    Recreates();
    assert map[1 := None][1 := Some(Record(1, 0))] == map[1 := Some(Record(1, 0))];
    Reach(Late(WriteCandidate, Some(Dir(None, Some(map[1 := None])))), Step(1, 0, 0), Late(ReadCurrent, RECREATED));
    Reach(Late(ReadCurrent, RECREATED), Step(1, 0, 0), Late(Withdraw, RECREATED));
  }

  /** It does happen, with nobody dead but the process that left the stale lock: a contender whose candidate record is
      written after a rival has moved the stale lock recreates the directory, and then withdraws. */
  lemma WedgeHappens()
    ensures exists s: State :: Reachable(s) && Wedged(s) && s.dead == {9} && forall p :: p in s.procs ==> !Owns(s.procs[p])
  {
    Withdraws();
    var s := Next(Late(Withdraw, RECREATED), Step(1, 0, 0));
    Reach(Late(Withdraw, RECREATED), Step(1, 0, 0), s);
    assert Wedged(s) && s.dead == {9};
  }

  // ----- exactly when a takeover moves the wrong record

  /** State `c` is the one in which the takeover has just confirmed the stale record. */
  ghost predicate Confirmed(run: seq<State>, c: nat, p: Pid, seen: Record) {
    && 0 < c < |run| && AtMove(run[c], p, seen)
    && p in run[c - 1].procs && run[c - 1].procs[p].Takeover? && run[c - 1].procs[p].at.Confirm?
  }

  /** Between the two states, another process retired the record. */
  ghost predicate RetiredSince(s: State, t: State, p: Pid, seen: Record) {
    exists j :: |s.retirements| <= j < |t.retirements| && t.retirements[j].by_ != p && t.retirements[j].moved == Some(seen)
  }

  lemma ConfirmedInPlace(run: seq<State>, c: nat, p: Pid, seen: Record)
    requires Run(run) && Confirmed(run, c, p, seen)
    ensures Owner(run[c]) == Some(seen)
  {
    hide ProcStep;
    assert Steps(run[c - 1], run[c - 1 + 1]);
    var a :| run[c] == Next(run[c - 1], a);
    if a.Step? && a.p == p { MoveFacts(run[c - 1], p, a.now, a.name); }
  }

  /** What another process does to the record that a takeover is about to move. */
  lemma OthersRetire(s: State, a: Action, p: Pid, seen: Record)
    requires Inv(s) && AtMove(s, p, seen) && AtMove(Next(s, a), p, seen)
    ensures var t := Next(s, a);
            && s.retirements <= t.retirements
            && (Owner(t) == Some(seen) ==> Owner(s) == Some(seen) && t.retirements == s.retirements)
            && (Owner(s) == Some(seen) && Owner(t) != Some(seen) ==> RetiredSince(s, t, p, seen))
            && (Owner(s) != Some(seen) ==> !RetiredSince(s, t, p, seen))
            && (Owner(t) == Some(seen) ==> !RetiredSince(s, t, p, seen))
  {
    hide ProcStep, EffectOk, Held, TakeoverFirst, Reported;
    if a.Step? && a.p in s.procs {
      assert LocalOk(s, p, s.procs[p]) && LocalOk(s, a.p, s.procs[a.p]);
      ProcOk(s, a.p, a.now, a.name);
      if a.p == p { OwnMove(s, p, a.now, a.name); } else { RetireEffect(s, a.p, ProcStep(s, a.p, a.now, a.name), p, seen); }
    }
  }

  lemma OwnMove(s: State, p: Pid, now: int, name: Pid)
    requires p in s.procs && s.procs[p].Takeover? && s.procs[p].at.Move?
    ensures var t := Next(s, Step(p, now, name)); p in t.procs && !t.procs[p].Takeover?
    ensures var t := Next(s, Step(p, now, name));
            t.procs[p].Corrupt? <==> s.lock.Some? && Owner(s) != Some(s.procs[p].seen)
  {
  }

  lemma RetireEffect(s: State, q: Pid, x: Effect, p: Pid, seen: Record)
    requires p != q && q in s.procs && EffectOk(s, q, x) && LocalOk(s, q, s.procs[q]) && q !in s.dead && seen.process in s.dead
    ensures var t := Apply(s, q, x);
            && s.retirements <= t.retirements
            && (Owner(t) == Some(seen) ==> Owner(s) == Some(seen) && t.retirements == s.retirements)
            && (Owner(s) == Some(seen) && Owner(t) != Some(seen) ==> RetiredSince(s, t, p, seen))
            && (Owner(s) != Some(seen) ==> !RetiredSince(s, t, p, seen))
  {
    var t := Apply(s, q, x);
    if x.Retire? && s.lock.Some? { assert t.retirements[|s.retirements|] == Retirement(q, x.takeover, x.meant, Owner(s)); }
  }

  /** From its confirmation on, the stale record is in place until another process retires it, and never after. */
  lemma {:induction false} InPlaceUntilRetired(run: seq<State>, c: nat, k: nat, p: Pid, seen: Record)
    requires Run(run) && c <= k < |run| && Confirmed(run, c, p, seen) && forall i :: c <= i <= k ==> AtMove(run[i], p, seen)
    ensures run[c].retirements <= run[k].retirements
    ensures Owner(run[k]) != Some(seen) <==> RetiredSince(run[c], run[k], p, seen)
    decreases k - c
  {
    hide Next, Inv, AtMove;
    if c == k {
      ConfirmedInPlace(run, c, p, seen);
    } else {
      InPlaceUntilRetired(run, c, k - 1, p, seen);
      RunInv(run, k - 1);
      assert Steps(run[k - 1], run[k - 1 + 1]);
      var a :| run[k] == Next(run[k - 1], a);
      OthersRetire(run[k - 1], a, p, seen);
      SinceThen(run[c], run[k - 1], run[k], p, seen);
    }
  }

  lemma SinceThen(r: State, s: State, t: State, p: Pid, seen: Record)
    requires r.retirements <= s.retirements <= t.retirements
    ensures RetiredSince(r, t, p, seen) <==> RetiredSince(r, s, p, seen) || RetiredSince(s, t, p, seen)
  {
    if j :| |r.retirements| <= j < |s.retirements| && s.retirements[j].by_ != p && s.retirements[j].moved == Some(seen) {
      assert t.retirements[j] == s.retirements[j];
    }
    if j :| |r.retirements| <= j < |t.retirements| && t.retirements[j].by_ != p && t.retirements[j].moved == Some(seen) {
      if j < |s.retirements| { assert s.retirements[j] == t.retirements[j]; }
    }
  }

  /** A takeover moves the wrong record, and reports CORRUPT, exactly if since its confirmation another process has
      retired the stale record and by now a directory stands there again. */
  lemma WrongMoveExactly(run: seq<State>, c: nat, k: nat, p: Pid, seen: Record, now: int, name: Pid)
    requires Run(run) && c <= k < |run| && Confirmed(run, c, p, seen) && forall i :: c <= i <= k ==> AtMove(run[i], p, seen)
    ensures var t := Next(run[k], Step(p, now, name));
            p in t.procs && (t.procs[p].Corrupt? <==> run[k].lock.Some? && RetiredSince(run[c], run[k], p, seen))
  {
    InPlaceUntilRetired(run, c, k, p, seen);
    assert AtMove(run[k], p, seen);
    hide Confirmed, RetiredSince;
    OwnMove(run[k], p, now, name);
  }

  // ----- rivals can always collide

  ghost predicate LeadsTo(s: State, t: State) { Reached((x: State) => x == s, Steps, t) }

  lemma Onward(s: State, t: State, a: Action)
    requires LeadsTo(s, t)
    ensures LeadsTo(s, Next(t, a))
  {
    hide Next;
    assert Steps(t, Next(t, a));
    ReachedNext((x: State) => x == s, Steps, t, Next(t, a));
  }

  lemma FreshPid(used: set<Pid>) returns (p: Pid)
    ensures p !in used
  {
    p := Above(used);
  }

  lemma {:induction false} Above(used: set<Pid>) returns (p: Pid)
    ensures forall q :: q in used ==> q < p
  {
    if used == {} {
      p := 0;
    } else {
      var q :| q in used;
      var r := Above(used - {q});
      p := if q < r then r else q + 1;
      forall x | x in used ensures x < p { if x != q { assert x in used - {q}; } }
    }
  }

  /** A new process finds no directory and installs its own. */
  lemma Installs(s: State, t: State) returns (r: Pid, u: State)
    requires LeadsTo(s, t) && t.lock.None?
    ensures LeadsTo(s, u) && r !in t.procs && r !in t.dead && u.dead == t.dead
    ensures u.procs == t.procs[r := Holding(Record(r, 0))] && u.lock == Some(Dir(Some(Record(r, 0)), None))
  {
    r := FreshPid(t.procs.Keys + t.dead);
    Onward(s, t, Acquire(r, 0));
    var v := Next(t, Acquire(r, 0));
    Onward(s, v, Step(r, 0, 0));
    u := Next(v, Step(r, 0, 0));
  }

  /** A takeover that is about to move leaves no directory, whatever stood there. */
  lemma MovesAway(s: State, t: State, p: Pid, seen: Record) returns (u: State)
    requires LeadsTo(s, t) && AtMove(t, p, seen)
    ensures LeadsTo(s, u) && u.lock.None? && u.dead == t.dead && p in u.procs && u.procs == t.procs[p := u.procs[p]]
  {
    Onward(s, t, Step(p, 0, 0));
    u := Next(t, Step(p, 0, 0));
  }

  /** Wherever two takeovers stand between confirming the same stale record and moving it, the run can go on to two live
      holders: a third process installs between their moves, and a fourth after them. */
  lemma RivalsCollide(s: State)
    requires Rivals(s)
    ensures exists t, x, y :: LeadsTo(s, t) && x != y && x in t.procs && y in t.procs && t.procs[x].Holding? && t.procs[y].Holding?
  {
    hide LeadsTo, Next;
    var p, q, seen :| p != q && AtMove(s, p, seen) && AtMove(s, q, seen);
    Standing(s);
    var a := MovesAway(s, s, p, seen);
    var x, b := Installs(s, a);
    var c := MovesAway(s, b, q, seen);
    var y, d := Installs(s, c);
    assert d.procs[x].Holding? && d.procs[y].Holding?;
  }

  lemma Standing(s: State)
    ensures LeadsTo(s, s)
  {
    ReachedAtOnce((x: State) => x == s, Steps, s);
  }
}
