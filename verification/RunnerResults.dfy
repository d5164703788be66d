/** What the recorded result of a runner request says: in a run with its actions, every status recorded is traced
    back to what the recording service had been told. */
module RunnerResults {
  import opened Common
  import opened Runner

  /** A run with the action of each step. */
  ghost predicate Acted(run: seq<State>, acts: seq<Action>) {
    |run| == |acts| + 1 && Init(run[0]) && forall k :: 0 <= k < |acts| ==> run[k + 1] == Next(run[k], acts[k])
  }

  /** Why a service is about to record this status: supervision of the published worker has returned it, or, for
      FAILED, the adoption of the worker has failed, or the request is LAUNCHING and no worker was published. */
  ghost predicate Told(s: State, a: Action, p: Pid, r: RequestId, st: Status) {
    && a.Step? && a.p == p && p in s.procs && r in s.requests
    && (|| (s.procs[p] == Supervise(r) && a.i.ok && st == a.i.status && !st.Launching?)
        || ((s.procs[p] == Adopt(r) || s.procs[p] == Publish(r)) && !a.i.ok && st == Failed)
        || (s.procs[p] == Check(r, Launching) && s.requests[r] !in s.records && st == Failed))
  }

  lemma ArrivesAtWrite(s: State, a: Action, p: Pid)
    requires p in Next(s, a).procs && Next(s, a).procs[p].Write?
    ensures var pc := Next(s, a).procs[p]; (p in s.procs && s.procs[p] == pc) || Told(s, a, p, pc.r, pc.status)
  {
  }

  lemma {:induction false} WriterWasTold(run: seq<State>, acts: seq<Action>, k: nat, p: Pid)
    requires Acted(run, acts) && k < |run| && p in run[k].procs && run[k].procs[p].Write?
    ensures var pc := run[k].procs[p]; exists j :: 0 <= j < k && Told(run[j], acts[j], p, pc.r, pc.status)
  {
    hide Next, Told;
    assert k > 0;
    assert run[k - 1 + 1] == Next(run[k - 1], acts[k - 1]);
    ArrivesAtWrite(run[k - 1], acts[k - 1], p);
    if p in run[k - 1].procs && run[k - 1].procs[p] == run[k].procs[p] { WriterWasTold(run, acts, k - 1, p); }
  }

  // ----- the service that launches

  /** A launcher concludes RUNNING only when the worker's record is published. */
  ghost predicate Published(s: State) {
    forall p :: p in s.procs && s.procs[p].Conclude? && s.procs[p].status != Failed ==>
      s.procs[p].status == Running && s.procs[p].r in s.requests && s.requests[s.procs[p].r] in s.records
  }

  lemma NextPublished(s: State, a: Action)
    requires Published(s)
    ensures Published(Next(s, a))
  {
  }

  lemma RunPublished(run: seq<State>, acts: seq<Action>, k: nat)
    requires Acted(run, acts) && k < |run|
    ensures Published(run[k])
  {
    hide Next, Published;
    InitPublished(run[0]);
    forall i | 0 <= i < |run| - 1 ensures Steps(run[i], run[i + 1]) { assert run[i + 1] == Next(run[i], acts[i]); }
    forall s, t | Published(s) && Steps(s, t) ensures Published(t) {
      var a :| t == Next(s, a);
      NextPublished(s, a);
    }
    Invariance(Published, Steps, run, k);
  }

  lemma InitPublished(s: State)
    requires Init(s)
    ensures Published(s)
  {
  }

  lemma ResultWritten(s: State, a: Action, r: RequestId)
    requires Published(s) && r in Next(s, a).results && (r in s.results ==> Next(s, a).results[r] != s.results[r])
    ensures a.Step? && a.p in s.procs
    ensures var pc, st := s.procs[a.p], Next(s, a).results[r];
            || (pc == Write(r, st))
            || (pc == Conclude(r, st) && (st == Failed || (st == Running && r in s.requests && s.requests[r] in s.records)))
            || (r !in s.results && st == Launching && Next(s, a).launches == s.launches + [r])
  {
  }

  /** In every run the result of a request changes only so: it appears as LAUNCHING, when its launch begins; its
      launcher concludes RUNNING, with the worker's record published, or FAILED; or a service records what it was told
      at an earlier step of its own: the status that supervision returned, or FAILED for an adoption that failed
      or a launch that never published a worker. */
  lemma ResultsExplained(run: seq<State>, acts: seq<Action>, k: nat, r: RequestId)
    requires Acted(run, acts) && k < |acts| && r in run[k + 1].results
    requires r in run[k].results ==> run[k + 1].results[r] != run[k].results[r]
    ensures acts[k].Step?
    ensures var st := run[k + 1].results[r];
            || (r !in run[k].results && st == Launching && run[k + 1].launches == run[k].launches + [r])
            || (acts[k].p in run[k].procs && run[k].procs[acts[k].p].Conclude?
                && (st == Failed || (st == Running && r in run[k].requests && run[k].requests[r] in run[k].records)))
            || exists j :: 0 <= j < k && Told(run[j], acts[j], acts[k].p, r, st)
  {
    hide Next, Told;
    assert run[k + 1] == Next(run[k], acts[k]);
    RunPublished(run, acts, k);
    ResultWritten(run[k], acts[k], r);
    if run[k].procs[acts[k].p].Write? { WriterWasTold(run, acts, k, acts[k].p); }
  }

  /** What supervision returns is recorded, when the supervising service lives on. */
  lemma SupervisedIsRecorded(s: State, p: Pid, r: RequestId, i: Input, t: State, j: Input)
    requires p in s.procs && s.procs[p] == Supervise(r) && r in s.requests && i.ok && !i.status.Launching?
    requires p in Next(s, Step(p, i)).procs && p in t.procs && t.procs[p] == Next(s, Step(p, i)).procs[p] && r in t.requests
    ensures r in Next(t, Step(p, j)).results && Next(t, Step(p, j)).results[r] == i.status
  {
  }

  // ----- one service alone

  ghost predicate ComesIn(p: Pid, i: Input, s: State, t: State, n: nat)
    decreases n
  {
    if n == 0 then s == t else ComesIn(p, i, Next(s, Step(p, i)), t, n - 1)
  }

  /** By its own steps alone, each with this input, the service comes from the one state to the other. */
  ghost predicate ComesTo(p: Pid, i: Input, s: State, t: State) { exists n: nat :: ComesIn(p, i, s, t, n) }

  lemma There(p: Pid, i: Input, s: State)
    ensures ComesTo(p, i, s, s)
  {
    assert ComesIn(p, i, s, s, 0);
  }

  /** The service at some place, on these files. */
  function Serving(s: State, p: Pid, pc: Pc): State { s.(procs := s.procs[p := pc]) }

  /** One step, which leaves these files and goes on from this place. */
  lemma GoesOn(s: State, p: Pid, i: Input, from: Pc, after: State, to: Pc, end: State)
    requires (!from.Idle? ==> from.r in s.requests) && after.procs == s.procs
    requires StepPc(Serving(s, p, from), p, from, i) == At(after.(procs := Serving(s, p, from).procs), p, to)
    requires ComesTo(p, i, Serving(after, p, to), end)
    ensures ComesTo(p, i, Serving(s, p, from), end)
  {
    hide StepPc;
    var a := Serving(s, p, from);
    assert a.procs[p := to] == Serving(after, p, to).procs;
    assert Next(a, Step(p, i)) == Serving(after, p, to);
    var n: nat :| ComesIn(p, i, Serving(after, p, to), end, n);
    assert ComesIn(p, i, a, end, n + 1);
  }

  /** The files when the request has this result. */
  function Resulting(s: State, r: RequestId, st: Status): State { s.(results := s.results[r := st]) }

  lemma SupervisesAlone(s: State, p: Pid, i: Input, r: RequestId)
    requires r in s.requests && i.ok && !i.status.Launching?
    ensures ComesTo(p, i, Serving(s, p, Supervise(r)), Serving(Resulting(s, r, i.status), p, Idle))
  {
    hide ComesTo;
    var t := Resulting(s, r, i.status);
    There(p, i, Serving(t, p, Idle));
    GoesOn(s, p, i, Write(r, i.status), t, Idle, Serving(t, p, Idle));
    GoesOn(s, p, i, Supervise(r), s, Write(r, i.status), Serving(t, p, Idle));
  }

  lemma FailsAlone(s: State, p: Pid, i: Input, r: RequestId, from: Pc)
    requires r in s.requests && from == Check(r, Launching) && s.requests[r] !in s.records
    ensures ComesTo(p, i, Serving(s, p, from), Serving(Resulting(s, r, Failed), p, Idle))
  {
    hide ComesTo;
    var t := Resulting(s, r, Failed);
    There(p, i, Serving(t, p, Idle));
    GoesOn(s, p, i, Write(r, Failed), t, Idle, Serving(t, p, Idle));
    GoesOn(s, p, i, from, s, Write(r, Failed), Serving(t, p, Idle));
  }

  lemma ChecksAlone(s: State, p: Pid, i: Input, r: RequestId, st: Status)
    requires r in s.requests && i.ok && !i.status.Launching? && (st.Launching? || st.Running?)
    ensures ComesTo(p, i, Serving(s, p, Check(r, st)),
              Serving(if s.requests[r] in s.records then Resulting(s, r, i.status)
                      else if st.Launching? then Resulting(s, r, Failed) else s, p, Idle))
  {
    hide ComesTo;
    if s.requests[r] in s.records {
      SupervisesAlone(s, p, i, r);
      GoesOn(s, p, i, Check(r, st), s, Supervise(r), Serving(Resulting(s, r, i.status), p, Idle));
    } else if st.Launching? {
      FailsAlone(s, p, i, r, Check(r, st));
    } else {
      There(p, i, Serving(s, p, Idle));
      GoesOn(s, p, i, Check(r, st), s, Idle, Serving(s, p, Idle));
    }
  }

  lemma AdoptsAlone(s: State, p: Pid, i: Input, r: RequestId)
    requires r in s.requests && i.ok && !i.status.Launching? && s.requests[r] in s.workers
    ensures ComesTo(p, i, Serving(s, p, Adopt(r)),
              Serving(Resulting(s.(records := s.records + {s.requests[r]}), r, i.status), p, Idle))
  {
    hide ComesTo;
    var t := s.(records := s.records + {s.requests[r]});
    var end := Serving(Resulting(t, r, i.status), p, Idle);
    ChecksAlone(t, p, i, r, Launching);
    GoesOn(s, p, i, Publish(r), t, Check(r, Launching), end);
    GoesOn(s, p, i, Adopt(r), s, Publish(r), end);
  }

  /** What one undisturbed execution makes of a request that has a result, when nothing fails and supervision returns
      this status. A LAUNCHING request whose worker exists without a record gets the record; a LAUNCHING or RUNNING one
      with a record gets the status that supervision returns; a LAUNCHING one with neither is FAILED; any other
      stays as it is. */
  function Outcome(s: State, r: RequestId, st: Status): State
    requires r in s.requests && r in s.results
  {
    var a, was := s.requests[r], s.results[r];
    if was == Launching && a !in s.records && a in s.workers then Resulting(s.(records := s.records + {a}), r, st)
    else if (was == Launching || was == Running) && a in s.records then Resulting(s, r, st)
    else if was == Launching then Resulting(s, r, Failed)
    else s
  }

  lemma ExecuteAlone(s: State, p: Pid, r: RequestId, st: Status)
    requires p in s.procs && s.procs[p].Idle? && r in s.requests && r in s.results && st != Launching
    ensures ComesTo(p, Input(true, st), Next(s, Take(p, r)), Serving(Outcome(s, r, st), p, Idle))
  {
    hide ComesTo;
    var i, end, was := Input(true, st), Serving(Outcome(s, r, st), p, Idle), s.results[r];
    if was == Launching && s.requests[r] !in s.records {
      if s.requests[r] in s.workers {
        AdoptsAlone(s, p, i, r);
      } else {
        FailsAlone(s, p, i, r, Check(r, Launching));
        GoesOn(s, p, i, Adopt(r), s, Check(r, Launching), end);
      }
      GoesOn(s, p, i, Read(r), s, Adopt(r), end);
    } else if was == Launching || was == Running {
      ChecksAlone(s, p, i, r, was);
      GoesOn(s, p, i, Read(r), s, Check(r, was), end);
    } else {
      There(p, i, end);
      if !was.Other? {
        GoesOn(s, p, i, Check(r, was), s, Idle, end);
        GoesOn(s, p, i, Read(r), s, Check(r, was), end);
      } else {
        GoesOn(s, p, i, Read(r), s, Idle, end);
      }
    }
    GoesOn(s, p, i, Look(r), s, Read(r), end);
    assert Next(s, Take(p, r)) == Serving(s, p, Look(r));
  }

  /** An undisturbed execution of a request without a result, when nothing fails, launches its attempt once if that was
      queued: the worker is spawned, its record published, and the result is RUNNING. Otherwise the result is FAILED
      and nothing is spawned. */
  lemma LaunchAlone(s: State, p: Pid, r: RequestId, st: Status)
    requires p in s.procs && s.procs[p].Idle? && r in s.requests && r !in s.results
    ensures var a, f := s.requests[r], s.(launches := s.launches + [r]);
            ComesTo(p, Input(true, st), Next(s, Take(p, r)),
              Serving(if a in s.queued
                      then Resulting(f.(queued := s.queued - {a}, workers := s.workers + {a}, records := s.records + {a}, spawns := s.spawns + [a]), r, Running)
                      else Resulting(f, r, Failed), p, Idle))
  {
    hide ComesTo;
    var i, a, queued := Input(true, st), s.requests[r], s.requests[r] in s.queued;
    var created := Resulting(s.(launches := s.launches + [r]), r, Launching);
    if queued {
      SpawnsAlone(created, p, i, r);
    } else {
      ConcludesAlone(created, p, i, r, Failed);
      GoesOn(created, p, i, Prepare(r, false), created, Conclude(r, Failed), Serving(Resulting(created, r, Failed), p, Idle));
    }
    var end := Serving(if queued then Resulting(Spawned(created, a), r, Running) else Resulting(created, r, Failed), p, Idle);
    GoesOn(s, p, i, Create(r, queued), created, Prepare(r, queued), end);
    GoesOn(s, p, i, Authority(r), s, Create(r, queued), end);
    GoesOn(s, p, i, Look(r), s, Authority(r), end);
    assert Next(s, Take(p, r)) == Serving(s, p, Look(r));
    assert created.results[r := Failed] == s.results[r := Failed] && created.results[r := Running] == s.results[r := Running];
  }

  function Spawned(s: State, a: Attempt): State {
    s.(queued := s.queued - {a}, workers := s.workers + {a}, records := s.records + {a}, spawns := s.spawns + [a])
  }

  lemma ConcludesAlone(s: State, p: Pid, i: Input, r: RequestId, st: Status)
    requires r in s.requests
    ensures ComesTo(p, i, Serving(s, p, Conclude(r, st)), Serving(Resulting(s, r, st), p, Idle))
  {
    hide ComesTo;
    There(p, i, Serving(Resulting(s, r, st), p, Idle));
    GoesOn(s, p, i, Conclude(r, st), Resulting(s, r, st), Idle, Serving(Resulting(s, r, st), p, Idle));
  }

  lemma PublishesAlone(s: State, p: Pid, i: Input, r: RequestId)
    requires r in s.requests && i.ok
    ensures ComesTo(p, i, Serving(s, p, Await(r)), Serving(Resulting(s.(records := s.records + {s.requests[r]}), r, Running), p, Idle))
  {
    hide ComesTo;
    var t := s.(records := s.records + {s.requests[r]});
    ConcludesAlone(t, p, i, r, Running);
    GoesOn(s, p, i, PublishNew(r), t, Conclude(r, Running), Serving(Resulting(t, r, Running), p, Idle));
    GoesOn(s, p, i, Await(r), s, PublishNew(r), Serving(Resulting(t, r, Running), p, Idle));
  }

  lemma SpawnsAlone(s: State, p: Pid, i: Input, r: RequestId)
    requires r in s.requests && i.ok
    ensures ComesTo(p, i, Serving(s, p, Prepare(r, true)), Serving(Resulting(Spawned(s, s.requests[r]), r, Running), p, Idle))
  {
    hide ComesTo;
    var a := s.requests[r];
    var b := s.(queued := s.queued - {a});
    var c := b.(workers := s.workers + {a});
    var d := c.(spawns := s.spawns + [a]);
    var end := Serving(Resulting(Spawned(s, a), r, Running), p, Idle);
    PublishesAlone(d, p, i, r);
    GoesOn(c, p, i, Spawn(r), d, Await(r), end);
    GoesOn(b, p, i, WorkerFile(r), c, Spawn(r), end);
    GoesOn(s, p, i, Prepare(r, true), b, WorkerFile(r), end);
  }
}
