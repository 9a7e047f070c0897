/** How often a running host executes a job: over whole runs, a job is not popped again
    before its present cadence has passed since it ended. */
module HostCadence {
  import opened Common
  import opened JobModel
  import opened Registry
  import opened HostModel
  import opened HostSteps
  import opened ChangeFilter
  import opened JobHistories
  import opened BootSafety
  import opened BootProgress
  import opened BootExact
  import opened QueueRuns

  /** Pop finds the job with these names. */
  ghost predicate PopsKey(q: seq<Job>, now: int, key: string)
    requires CadencesOk(q)
  {
    var i := FirstReady(q, now);
    i < |q| && q[i].pollaris + q[i].name == key
  }

  /** Over every run from the start of a host: a job that is popped after k results since its
      last failure ended at least its cadence number min(k, last) ago. */
  lemma PoppedAtItsCadence(cfg: Config, order: (nat, nat) -> seq<string>, ts: seq<Tick>, r: Host, now: int, key: string,
                           os: seq<Outcome>, since: nat)
    returns (first: Job)
    requires ConfigOk(cfg) && StageOrders(cfg, 0, order) && TicksOk(cfg, ts) && Filtered(cfg, key)
    requires r == Run(cfg, Launch(cfg, order), ts) && os == OutcomesOf(cfg, Launch(cfg, order), ts, key)
    requires r.running && HostOk(r) && PopsKey(r.queue, now, key) && SinceFailure(os, since)
    ensures Registered(cfg, first) && Key(first) == key
    ensures var level := LevelAfter(first, os, since);
            0 <= level < |first.cadences| && now >= JobAt(r.queue, key).ended + first.cadences[level]
  {
    PopsDueJob(r.queue, now, key);
    first := RunKeepsLevel(cfg, order, ts, r, key, os, since);
  }

  /** Nothing makes jobs due out of turn: no admission event, no new stage, no new profile. */
  ghost predicate Undisturbed(cfg: Config, h: Host, t: Tick)
    requires ConfigOk(cfg) && TickOk(cfg, t) && HostOk(h)
  {
    !t.admission && (h.profile != "" || t.identified.None?) && Step(cfg, h, t).current == h.current
  }

  ghost predicate Quiet(cfg: Config, h: Host, ts: seq<Tick>)
    requires ConfigOk(cfg) && TicksOk(cfg, ts) && HostOk(h)
    decreases |ts|
  {
    if ts == [] || !h.running then true
    else
      StepOk(cfg, h, ts[0]);
      Undisturbed(cfg, h, ts[0]) && Quiet(cfg, Step(cfg, h, ts[0]), ts[1..])
  }

  /** An undisturbed turn treats the popped job and leaves the others as they are. */
  lemma UndisturbedQueue(cfg: Config, h: Host, t: Tick, i: nat)
    requires ConfigOk(cfg) && TickOk(cfg, t) && HostOk(h) && Undisturbed(cfg, h, t) && Step(cfg, h, t).running
    requires i == FirstReady(h.queue, t.popAt) < |h.queue|
    ensures h.running ==> Step(cfg, h, t).queue == Moved(h.queue, i, Treated(cfg, h.queue[i], t))
  {
    if Ran(cfg, h.queue[i], t).Some? {
      JudgedShape(cfg, h, i, t);
      JudgedQueue(cfg, h, i, t);
      NotAdvanced(cfg, Judged(cfg, h, i, t), h.queue[i].name, t);
    } else {
      NotRun(cfg, h, i, t);
    }
  }

  lemma NotAdvanced(cfg: Config, h: Host, name: string, t: Tick)
    requires ConfigOk(cfg) && TickOk(cfg, t) && HostOk(h) && CompleteBoot(cfg, h, name, t).current == h.current
    ensures CompleteBoot(cfg, h, name, t).queue == h.queue
  {
    if h.current < STAGES && Complete(Marked(h, name).stages[h.current].value) {
      AdvanceMoves(cfg, Marked(h, name), t.order);
      assert false;
    }
  }

  /** The job with the key is in the list and can be run. */
  predicate InPlace(cfg: Config, h: Host, key: string) {
    FindKey(h.queue, key) < |h.queue| && Runnable(cfg, JobAt(h.queue, key))
  }

  lemma PlaceMoved(q: seq<Job>, i: nat, x: Job, p: nat)
    requires Keyed(q) && i < |q| && p < |q| && Key(x) == Key(q[i]) && Keyed(Moved(q, i, x))
    ensures var r, f := Moved(q, i, x), FindKey(Moved(q, i, x), Key(q[p]));
            f < |r| && r[f] == if i == p then x else q[p]
  {
    MoveToLastAt(q, i, PlaceAfter(p, i, |q|));
    KeyPlace(Moved(q, i, x), PlaceAfter(p, i, |q|));
  }

  /** What an undisturbed turn leaves of the job with the key. */
  lemma TurnLeaves(cfg: Config, h: Host, t: Tick, key: string)
    requires ConfigOk(cfg) && TickOk(cfg, t) && HostOk(h) && h.running && Undisturbed(cfg, h, t) && Step(cfg, h, t).running
    requires FindKey(h.queue, key) < |h.queue|
    ensures var p, i, q := FindKey(h.queue, key), FirstReady(h.queue, t.popAt), Step(cfg, h, t).queue;
            FindKey(q, key) < |q| && JobAt(q, key) == if i == p then Treated(cfg, h.queue[p], t) else h.queue[p]
  {
    var p, i := FindKey(h.queue, key), FirstReady(h.queue, t.popAt);
    StepOk(cfg, h, t);
    if i < |h.queue| {
      UndisturbedQueue(cfg, h, t, i);
      TreatedKey(cfg, h.queue[i], t);
      PlaceMoved(h.queue, i, Treated(cfg, h.queue[i], t), p);
    }
  }

  lemma TurnKeepsJob(cfg: Config, h: Host, t: Tick, key: string)
    requires ConfigOk(cfg) && TickOk(cfg, t) && HostOk(h) && h.running && Undisturbed(cfg, h, t) && Step(cfg, h, t).running
    requires InPlace(cfg, h, key) && TurnOf(cfg, h, t, key) == []
    ensures InPlace(cfg, Step(cfg, h, t), key) && JobAt(Step(cfg, h, t).queue, key) == JobAt(h.queue, key)
  {
    TurnLeaves(cfg, h, t, key);
  }

  lemma {:induction false} RunKeepsJob(cfg: Config, h: Host, ts: seq<Tick>, key: string)
    requires ConfigOk(cfg) && TicksOk(cfg, ts) && HostOk(h) && Quiet(cfg, h, ts) && Run(cfg, h, ts).running
    requires InPlace(cfg, h, key) && OutcomesOf(cfg, h, ts, key) == []
    ensures InPlace(cfg, Run(cfg, h, ts), key) && JobAt(Run(cfg, h, ts).queue, key) == JobAt(h.queue, key)
    decreases |ts|
  {
    if ts != [] && h.running {
      StepOk(cfg, h, ts[0]);
      if Step(cfg, h, ts[0]).running {
        TurnKeepsJob(cfg, h, ts[0], key);
        RunKeepsJob(cfg, Step(cfg, h, ts[0]), ts[1..], key);
      }
    }
  }

  /** The run of one turn more. */
  lemma {:induction false} RunOneMore(cfg: Config, h: Host, ts: seq<Tick>, t: Tick, key: string)
    requires ConfigOk(cfg) && TicksOk(cfg, ts) && TickOk(cfg, t) && HostOk(h) && TicksOk(cfg, ts + [t])
    requires Run(cfg, h, ts).running
    ensures var a := Run(cfg, h, ts);
            && HostOk(a) && Run(cfg, h, ts + [t]) == Step(cfg, a, t)
            && OutcomesOf(cfg, h, ts + [t], key) == OutcomesOf(cfg, h, ts, key) + TurnOf(cfg, a, t, key)
    decreases |ts|
  {
    var all := ts + [t];
    assert all[0] == if ts == [] then t else ts[0];
    if ts == [] {
      StepOk(cfg, h, t);
      assert all[1..] == [];
      assert OutcomesOf(cfg, h, all, key) == TurnOf(cfg, h, t, key) + [];
    } else {
      var b := Step(cfg, h, ts[0]);
      StepOk(cfg, h, ts[0]);
      assert all[1..] == ts[1..] + [t];
      if b.running {
        RunOneMore(cfg, b, ts[1..], t, key);
        Regroup(TurnOf(cfg, h, ts[0], key), OutcomesOf(cfg, b, ts[1..], key), TurnOf(cfg, Run(cfg, h, ts), t, key));
      }
    }
  }

  /** The job that runs in a turn which disturbs nothing stands in the list with the end of
      that turn's execution. */
  lemma EndsWithTurn(cfg: Config, h: Host, t: Tick, key: string)
    requires ConfigOk(cfg) && TickOk(cfg, t) && HostOk(h) && h.running && Undisturbed(cfg, h, t) && Step(cfg, h, t).running
    requires TurnOf(cfg, h, t, key) != []
    ensures InPlace(cfg, Step(cfg, h, t), key) && JobAt(Step(cfg, h, t).queue, key).ended == t.endAt
  {
    var i := FirstReady(h.queue, t.popAt);
    KeyPlace(h.queue, i);
    TurnLeaves(cfg, h, t, key);
    TreatedEnds(cfg, h.queue[i], t);
  }

  lemma TreatedEnds(cfg: Config, j: Job, t: Tick)
    requires Ran(cfg, j, t).Some?
    ensures var x := Treated(cfg, j, t); x.ended == t.endAt && Runnable(cfg, x)
  {
  }

  /** The same in terms of the job that the turn leaves. */
  lemma NotBefore(cfg: Config, a: Host, t: Tick, after: seq<Tick>, now: int, key: string)
    requires ConfigOk(cfg) && TickOk(cfg, t) && TicksOk(cfg, after) && HostOk(a) && a.running && HostOk(Step(cfg, a, t))
    requires Undisturbed(cfg, a, t) && Quiet(cfg, Step(cfg, a, t), after)
    requires TurnOf(cfg, a, t, key) != [] && OutcomesOf(cfg, Step(cfg, a, t), after, key) == []
    requires var c := Run(cfg, Step(cfg, a, t), after); c.running && HostOk(c) && PopsKey(c.queue, now, key)
    ensures var x := JobAt(Step(cfg, a, t).queue, key); CadenceOk(x) && now >= t.endAt + x.cadences[x.current]
    ensures Step(cfg, a, t).running && FindKey(Step(cfg, a, t).queue, key) < |Step(cfg, a, t).queue|
  {
    var b := Step(cfg, a, t);
    StillRunning(cfg, b, after);
    EndsWithTurn(cfg, a, t, key);
    RunKeepsJob(cfg, b, after, key);
    PopsDueJob(Run(cfg, b, after).queue, now, key);
  }

  lemma StillRunning(cfg: Config, h: Host, ts: seq<Tick>)
    requires ConfigOk(cfg) && TicksOk(cfg, ts) && HostOk(h) && Run(cfg, h, ts).running
    ensures h.running
  {
  }

  lemma PopsDueJob(q: seq<Job>, now: int, key: string)
    requires ValidQueue(q) && PopsKey(q, now, key)
    ensures var j := JobAt(q, key); CadenceOk(j) && now >= j.ended + j.cadences[j.current]
  {
    KeyPlace(q, FirstReady(q, now));
    PopsFirstDue(q, now);
  }

  /** The level the job has after one turn more. */
  lemma LevelAfterTurn(cfg: Config, order: (nat, nat) -> seq<string>, before: seq<Tick>, t: Tick, key: string,
                       a: Host, os: seq<Outcome>, since: nat)
    returns (first: Job)
    requires ConfigOk(cfg) && StageOrders(cfg, 0, order) && Filtered(cfg, key)
    requires TicksOk(cfg, before) && TickOk(cfg, t) && TicksOk(cfg, before + [t])
    requires a == Run(cfg, Launch(cfg, order), before) && a.running && HostOk(a)
    requires os == OutcomesOf(cfg, Launch(cfg, order), before + [t], key) && SinceFailure(os, since)
    requires Step(cfg, a, t).running && FindKey(Step(cfg, a, t).queue, key) < |Step(cfg, a, t).queue|
    ensures Registered(cfg, first) && Key(first) == key
    ensures var x := JobAt(Step(cfg, a, t).queue, key);
            x.cadences == first.cadences && x.current == LevelAfter(first, os, since)
  {
    RunOneMore(cfg, Launch(cfg, order), before, t, key);
    first := RunKeepsLevel(cfg, order, before + [t], Step(cfg, a, t), key, os, since);
  }

  /** In one run: a job executed in turn `t` and not since, with nothing that makes jobs due
      out of turn, is not popped before its cadence number min(k, last) has passed since the
      execution ended, after k results since its last failure, that turn's included. */
  lemma KeepsItsCadence(cfg: Config, order: (nat, nat) -> seq<string>, before: seq<Tick>, t: Tick, after: seq<Tick>, now: int,
                        key: string, a: Host, b: Host, c: Host, os: seq<Outcome>, since: nat)
    returns (first: Job)
    requires ConfigOk(cfg) && StageOrders(cfg, 0, order) && Filtered(cfg, key)
    requires TicksOk(cfg, before) && TickOk(cfg, t) && TicksOk(cfg, before + [t]) && TicksOk(cfg, after)
    requires a == Run(cfg, Launch(cfg, order), before) && a.running && HostOk(a)
    requires b == Step(cfg, a, t) && HostOk(b) && c == Run(cfg, b, after) && c.running && HostOk(c)
    requires TurnOf(cfg, a, t, key) != [] && OutcomesOf(cfg, b, after, key) == []
    requires Undisturbed(cfg, a, t) && Quiet(cfg, b, after)
    requires os == OutcomesOf(cfg, Launch(cfg, order), before + [t], key)
    requires SinceFailure(os, since) && PopsKey(c.queue, now, key)
    ensures Registered(cfg, first) && Key(first) == key
    ensures var level := LevelAfter(first, os, since);
            0 <= level < |first.cadences| && now >= t.endAt + first.cadences[level]
  {
    NotBefore(cfg, a, t, after, now, key);
    first := LevelAfterTurn(cfg, order, before, t, key, a, os, since);
  }
}
