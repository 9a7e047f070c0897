/** The exact condition under which the boot sequence of a host ends: every name a stage
    counts must be the name of a job that is in the queue by then and can be run. */
module BootExact {
  import opened Common
  import opened JobModel
  import opened Registry
  import opened HostModel
  import opened HostSteps
  import opened BootSafety
  import opened BootProgress

  // ----- which jobs there are

  /** Entering the stage inserts the jobs that the registry files under `m`. */
  ghost predicate StageInserts(cfg: Config, stage: nat, m: string)
    requires ConfigOk(cfg)
  {
    && stage < STAGES && cfg.groups[stage].Some? && m in cfg.models
    && InsertsBefore(cfg, cfg.groups[stage].value, |cfg.groups[stage].value|, m)
  }

  /** One of the first `n` profiles does so. */
  ghost predicate InsertsBefore(cfg: Config, ms: seq<Model>, n: nat, m: string)
    requires n <= |ms|
  {
    exists i :: 0 <= i < n && ms[i].name == m && Runs(cfg, ms, ms[i]) && CountedNames(cfg, ms[i]) != {}
  }

  /** The profile is inserted by a stage up to `s`, or is one of `ids`, which the device is
      identified as. */
  ghost predicate Brought(cfg: Config, ids: iset<string>, s: int, m: string)
    requires ConfigOk(cfg)
  {
    m in cfg.models && (m in ids || exists k: nat :: k <= s && StageInserts(cfg, k, m))
  }

  /** The profile files an enabled poll under `n`. */
  predicate Files(cfg: Config, m: string, n: string) {
    m in cfg.models && n in cfg.models[m].polling && cfg.models[m].polling[n].enabled
  }

  ghost predicate IsJob(cfg: Config, m: string, n: string, j: Job) {
    Files(cfg, m, n) && j.pollaris == cfg.models[m].name && j.name == n
  }

  /** The job is one of those brought in, switched off only if it could not run. */
  ghost predicate Sourced(cfg: Config, ids: iset<string>, s: int, j: Job)
    requires ConfigOk(cfg)
  {
    && CadenceOk(j)
    && (j.enabled || !HasCollector(cfg, j))
    && exists m, n :: Brought(cfg, ids, s, m) && IsJob(cfg, m, n, j)
  }

  ghost predicate AllSourced(cfg: Config, ids: iset<string>, s: int, q: seq<Job>)
    requires ConfigOk(cfg)
  {
    forall p :: 0 <= p < |q| ==> Sourced(cfg, ids, s, q[p])
  }

  /** The profile that the host adopts in this turn, if it does: its device was not identified
      before, and a job that ran and is handed over identifies it now. */
  function Adopts(cfg: Config, h: Host, t: Tick): Option<string>
    requires ConfigOk(cfg) && TickOk(cfg, t) && HostOk(h)
  {
    var i := FirstReady(h.queue, t.popAt);
    if i < |h.queue| && Ran(cfg, h.queue[i], t).Some? then AdoptsAt(cfg, h, i, t) else None
  }

  function AdoptsAt(cfg: Config, h: Host, i: nat, t: Tick): Option<string>
    requires i < |h.queue| && Ran(cfg, h.queue[i], t).Some?
  {
    var (judged, hand) := Judge(cfg.hash, Executed(cfg.hash, h.queue[i], Ran(cfg, h.queue[i], t).value, t));
    if hand && Recognizes(h.profile, judged, t) then t.identified else None
  }

  /** Of the profiles of the registry the host adopts one of `ids` at most. */
  ghost predicate AdoptsWithin(cfg: Config, h: Host, t: Tick, ids: iset<string>)
    requires ConfigOk(cfg) && TickOk(cfg, t) && HostOk(h)
  {
    match Adopts(cfg, h, t)
    case None => true
    case Some(m) => m in cfg.models ==> m in ids
  }

  /** The turn offers one of `ids` at most, whether or not it is adopted. */
  ghost predicate Identifies(cfg: Config, t: Tick, ids: iset<string>) {
    t.identified.Some? && t.identified.value in cfg.models ==> t.identified.value in ids
  }

  lemma OffersWithin(cfg: Config, h: Host, t: Tick, ids: iset<string>)
    requires ConfigOk(cfg) && TickOk(cfg, t) && HostOk(h) && Identifies(cfg, t, ids)
    ensures AdoptsWithin(cfg, h, t, ids)
  {
  }

  /** Only the times, the level and the outcome of the job differ, and it was switched off
      only if it could not run. */
  ghost predicate SameJob(cfg: Config, j: Job, x: Job) {
    && x.pollaris == j.pollaris && x.name == j.name
    && (CadenceOk(j) ==> CadenceOk(x))
    && (j.enabled && !x.enabled ==> !HasCollector(cfg, x))
  }

  lemma SameSourced(cfg: Config, ids: iset<string>, s: int, j: Job, x: Job)
    requires ConfigOk(cfg) && Sourced(cfg, ids, s, j) && SameJob(cfg, j, x)
    ensures Sourced(cfg, ids, s, x)
  {
    var m, n :| Brought(cfg, ids, s, m) && IsJob(cfg, m, n, j);
    assert IsJob(cfg, m, n, x);
    assert HasCollector(cfg, j) == HasCollector(cfg, x);
  }

  lemma BroughtLater(cfg: Config, ids: iset<string>, s: int, t: int, m: string)
    requires ConfigOk(cfg) && Brought(cfg, ids, s, m) && s <= t
    ensures Brought(cfg, ids, t, m)
  {
    if m !in ids {
      var k: nat :| k <= s && StageInserts(cfg, k, m);
      assert k <= t;
    }
  }

  lemma SourcedLater(cfg: Config, ids: iset<string>, s: int, t: int, q: seq<Job>)
    requires ConfigOk(cfg) && AllSourced(cfg, ids, s, q) && s <= t
    ensures AllSourced(cfg, ids, t, q)
  {
    forall p | 0 <= p < |q| ensures Sourced(cfg, ids, t, q[p]) {
      assert Sourced(cfg, ids, s, q[p]);
      var m, n :| Brought(cfg, ids, s, m) && IsJob(cfg, m, n, q[p]);
      BroughtLater(cfg, ids, s, t, m);
    }
  }

  lemma {:induction false} InsertSourced(cfg: Config, ids: iset<string>, s: int, q: seq<Job>, jobs: seq<Job>, n: nat)
    requires ConfigOk(cfg) && AllSourced(cfg, ids, s, q) && n <= |jobs|
    requires forall i :: 0 <= i < |jobs| && jobs[i].enabled ==> Sourced(cfg, ids, s, jobs[i])
    ensures AllSourced(cfg, ids, s, InsertFirst(q, jobs, n))
  {
    if n > 0 {
      var before := InsertFirst(q, jobs, n - 1);
      InsertSourced(cfg, ids, s, q, jobs, n - 1);
      var f := FindKey(before, Key(jobs[n - 1]));
      if f < |before| {
        SameSourced(cfg, ids, s, before[f], ResetTimes(before[f]));
      }
    }
  }

  lemma InsertModelSourced(cfg: Config, ids: iset<string>, s: int, q: seq<Job>, m: string, order: seq<string>)
    requires ConfigOk(cfg) && AllSourced(cfg, ids, s, q) && Orders(cfg, m, order)
    requires m in cfg.models ==> Brought(cfg, ids, s, m)
    ensures AllSourced(cfg, ids, s, InsertModel(cfg.models, q, m, order))
  {
    if m in cfg.models {
      var jobs := JobsOf(cfg.models[m], order);
      forall i | 0 <= i < |jobs| && jobs[i].enabled ensures Sourced(cfg, ids, s, jobs[i]) {
        assert IsJob(cfg, m, order[i], jobs[i]);
      }
      InsertSourced(cfg, ids, s, q, jobs, |jobs|);
    }
  }

  lemma {:induction false} StageQueueSourced(cfg: Config, ids: iset<string>, q: seq<Job>, stage: nat, ms: seq<Model>, n: nat,
                                             order: (nat, nat) -> seq<string>)
    requires ConfigOk(cfg) && stage < STAGES && cfg.groups[stage] == Some(ms) && n <= |ms| && StageOrders(cfg, stage, order)
    requires AllSourced(cfg, ids, stage, q)
    ensures AllSourced(cfg, ids, stage, StageQueue(cfg, q, stage, ms, n, order))
  {
    if n > 0 {
      var m := ms[n - 1];
      StageQueueSourced(cfg, ids, q, stage, ms, n - 1, order);
      if Runs(cfg, ms, m) && CountedNames(cfg, m) != {} {
        assert Orders(cfg, m.name, order(stage, n - 1));
        assert m.name in cfg.models ==> StageInserts(cfg, stage, m.name);
        InsertModelSourced(cfg, ids, stage, StageQueue(cfg, q, stage, ms, n - 1, order), m.name, order(stage, n - 1));
      }
    }
  }

  lemma EnterSourced(cfg: Config, ids: iset<string>, h: Host, stage: nat, order: (nat, nat) -> seq<string>)
    requires ConfigOk(cfg) && |h.stages| == STAGES && stage < STAGES && StageOrders(cfg, stage, order)
    requires AllSourced(cfg, ids, stage, h.queue)
    ensures AllSourced(cfg, ids, stage, EnterStage(cfg, h, stage, order).queue)
  {
    if cfg.groups[stage].Some? {
      StageQueueSourced(cfg, ids, h.queue, stage, cfg.groups[stage].value, |cfg.groups[stage].value|, order);
    }
  }

  lemma {:induction false} AdvanceSourced(cfg: Config, ids: iset<string>, h: Host, order: (nat, nat) -> seq<string>)
    requires ConfigOk(cfg) && HostOk(h) && h.current < STAGES && AllSourced(cfg, ids, h.current, h.queue)
    requires forall s :: 0 <= s < STAGES ==> StageOrders(cfg, s, order)
    ensures AllSourced(cfg, ids, Advance(cfg, h, order).current, Advance(cfg, h, order).queue)
    decreases STAGES - h.current
  {
    if Complete(h.stages[h.current].value) {
      SourcedLater(cfg, ids, h.current, h.current + 1, h.queue);
      if h.current + 1 < STAGES {
        EnterStageOk(cfg, h, h.current + 1, order);
        EnterSourced(cfg, ids, h, h.current + 1, order);
        AdvanceSourced(cfg, ids, EnterStage(cfg, h, h.current + 1, order), order);
      }
    }
  }

  lemma TreatedSame(cfg: Config, j: Job, t: Tick)
    ensures SameJob(cfg, j, Treated(cfg, j, t))
  {
  }

  lemma MovedSourced(cfg: Config, ids: iset<string>, s: int, q: seq<Job>, i: nat, x: Job)
    requires ConfigOk(cfg) && AllSourced(cfg, ids, s, q) && i < |q| && SameJob(cfg, q[i], x)
    ensures AllSourced(cfg, ids, s, Moved(q, i, x))
  {
    SameSourced(cfg, ids, s, q[i], x);
    forall p | 0 <= p < |q| ensures Sourced(cfg, ids, s, Moved(q, i, x)[p]) {
      MoveToLastAt(q, i, p);
    }
  }

  /** The queue after a job ran, before the boot sequence is told. */
  lemma JudgedQueue(cfg: Config, h: Host, i: nat, t: Tick)
    requires ConfigOk(cfg) && TickOk(cfg, t) && HostOk(h)
    requires i == FirstReady(h.queue, t.popAt) < |h.queue| && Ran(cfg, h.queue[i], t).Some?
    ensures var q, m := Moved(h.queue, i, Treated(cfg, h.queue[i], t)), Adopts(cfg, h, t);
            && (m.Some? ==> m == t.identified && Orders(cfg, m.value, t.order(STAGES, 0)))
            && Judged(cfg, h, i, t).queue == if m.None? then q else InsertModel(cfg.models, q, m.value, t.order(STAGES, 0))
  {
  }

  lemma JudgedSourced(cfg: Config, ids: iset<string>, h: Host, i: nat, t: Tick)
    requires ConfigOk(cfg) && TickOk(cfg, t) && HostOk(h) && AdoptsWithin(cfg, h, t, ids)
    requires i == FirstReady(h.queue, t.popAt) < |h.queue| && Ran(cfg, h.queue[i], t).Some?
    requires AllSourced(cfg, ids, h.current, h.queue)
    ensures AllSourced(cfg, ids, h.current, Judged(cfg, h, i, t).queue)
  {
    var q, m := Moved(h.queue, i, Treated(cfg, h.queue[i], t)), Adopts(cfg, h, t);
    TreatedSame(cfg, h.queue[i], t);
    MovedSourced(cfg, ids, h.current, h.queue, i, Treated(cfg, h.queue[i], t));
    JudgedQueue(cfg, h, i, t);
    if m.Some? {
      InsertModelSourced(cfg, ids, h.current, q, m.value, t.order(STAGES, 0));
    }
  }

  /** A turn that pops a job without running it, or stops the host. */
  lemma NotRun(cfg: Config, h: Host, i: nat, t: Tick)
    requires ConfigOk(cfg) && TickOk(cfg, t) && HostOk(h)
    requires i == FirstReady(h.queue, t.popAt) < |h.queue| && Ran(cfg, h.queue[i], t).None?
    ensures var r := Step(cfg, h, t);
            && r.current == h.current && r.stages == h.stages
            && (r.queue == [] || r.queue == Moved(h.queue, i, Treated(cfg, h.queue[i], t)))
  {
    var last := |h.queue| - 1;
    assert MoveToLast(h.queue, i)[last] == h.queue[i];
    assert MoveToLast(h.queue, i)[last := h.queue[i]] == MoveToLast(h.queue, i);
  }

  lemma ExpeditedSourced(cfg: Config, ids: iset<string>, s: int, q: seq<Job>)
    requires ConfigOk(cfg) && AllSourced(cfg, ids, s, q)
    ensures AllSourced(cfg, ids, s, Expedited(q))
  {
    forall p | 0 <= p < |q| ensures Sourced(cfg, ids, s, Expedited(q)[p]) {
      SameSourced(cfg, ids, s, q[p], Expedited(q)[p]);
    }
  }

  /** Every job in the queue keeps being one that was brought in by then. */
  lemma StepSourced(cfg: Config, ids: iset<string>, h: Host, t: Tick)
    requires ConfigOk(cfg) && TickOk(cfg, t) && HostOk(h) && AdoptsWithin(cfg, h, t, ids)
    requires AllSourced(cfg, ids, h.current, h.queue)
    ensures AllSourced(cfg, ids, Step(cfg, h, t).current, Step(cfg, h, t).queue)
  {
    var i := FirstReady(h.queue, t.popAt);
    if i == |h.queue| {
      ExpeditedSourced(cfg, ids, h.current, h.queue);
    } else if Ran(cfg, h.queue[i], t).Some? {
      var h2 := Judged(cfg, h, i, t);
      JudgedShape(cfg, h, i, t);
      JudgedSourced(cfg, ids, h, i, t);
      if h2.current < STAGES {
        AdvanceSourced(cfg, ids, Marked(h2, h.queue[i].name), t.order);
      }
    } else {
      NotRun(cfg, h, i, t);
      TreatedSame(cfg, h.queue[i], t);
      MovedSourced(cfg, ids, h.current, h.queue, i, Treated(cfg, h.queue[i], t));
    }
  }

  // ----- a stage that cannot be passed

  /** The stage waits for the name. */
  ghost predicate Counts(cfg: Config, stage: nat, name: string)
    requires ConfigOk(cfg)
  {
    stage < STAGES && cfg.groups[stage].Some? && name in StageNames(cfg, cfg.groups[stage].value, |cfg.groups[stage].value|)
  }

  /** By stage `s` there is a job with the name that can be run: its poll is filed under the
      name in a profile that is inserted by then, is enabled, can be looked up, and is built
      in or has a collector. */
  ghost predicate Available(cfg: Config, ids: iset<string>, s: nat, name: string)
    requires ConfigOk(cfg)
  {
    exists m :: Brought(cfg, ids, s, m) && Files(cfg, m, name) && Runnable(cfg, JobFor(cfg.models[m], name))
  }

  ghost predicate AllAvailable(cfg: Config, ids: iset<string>)
    requires ConfigOk(cfg)
  {
    forall s: nat, name :: Counts(cfg, s, name) ==> Available(cfg, ids, s, name)
  }

  /** The stage is not passed, and once entered it waits for the name. */
  ghost predicate Stuck(h: Host, s: nat, name: string)
    requires |h.stages| == STAGES && s < STAGES
  {
    h.current <= s && (h.current == s ==> h.stages[s].Some? && name in h.stages[s].value && !h.stages[s].value[name])
  }

  lemma EnterStuck(cfg: Config, h: Host, at: nat, order: (nat, nat) -> seq<string>, s: nat, name: string)
    requires ConfigOk(cfg) && |h.stages| == STAGES && Counts(cfg, s, name) && at <= s && StageOrders(cfg, at, order)
    ensures Stuck(EnterStage(cfg, h, at, order), s, name)
  {
  }

  lemma {:induction false} AdvanceStuck(cfg: Config, h: Host, order: (nat, nat) -> seq<string>, s: nat, name: string)
    requires ConfigOk(cfg) && HostOk(h) && h.current < STAGES && Counts(cfg, s, name) && Stuck(h, s, name)
    requires forall k :: 0 <= k < STAGES ==> StageOrders(cfg, k, order)
    ensures HostOk(Advance(cfg, h, order)) && Stuck(Advance(cfg, h, order), s, name)
    decreases STAGES - h.current
  {
    AdvanceOk(cfg, h, order);
    if Complete(h.stages[h.current].value) {
      assert h.current < s;
      EnterStageOk(cfg, h, h.current + 1, order);
      EnterStuck(cfg, h, h.current + 1, order, s, name);
      AdvanceStuck(cfg, EnterStage(cfg, h, h.current + 1, order), order, s, name);
    }
  }

  /** A job that runs by stage `s` makes its name available. */
  lemma RunsIfAvailable(cfg: Config, ids: iset<string>, h: Host, i: nat, t: Tick, s: nat)
    requires ConfigOk(cfg) && i < |h.queue| && Ran(cfg, h.queue[i], t).Some?
    requires AllSourced(cfg, ids, h.current, h.queue) && h.current <= s
    ensures Available(cfg, ids, s, h.queue[i].name)
  {
    var j := h.queue[i];
    assert Sourced(cfg, ids, h.current, j);
    var m, n :| Brought(cfg, ids, h.current, m) && IsJob(cfg, m, n, j);
    BroughtLater(cfg, ids, h.current, s, m);
    assert Runnable(cfg, JobFor(cfg.models[m], n));
  }

  lemma StepStuck(cfg: Config, ids: iset<string>, h: Host, t: Tick, s: nat, name: string)
    requires ConfigOk(cfg) && TickOk(cfg, t) && HostOk(h) && AllSourced(cfg, ids, h.current, h.queue)
    requires Counts(cfg, s, name) && !Available(cfg, ids, s, name) && Stuck(h, s, name)
    ensures HostOk(Step(cfg, h, t)) && Stuck(Step(cfg, h, t), s, name)
  {
    StepOk(cfg, h, t);
    var i := FirstReady(h.queue, t.popAt);
    if i < |h.queue| {
      if Ran(cfg, h.queue[i], t).Some? {
        JudgedShape(cfg, h, i, t);
        RunsIfAvailable(cfg, ids, h, i, t, s);
        AdvanceStuck(cfg, Marked(Judged(cfg, h, i, t), h.queue[i].name), t.order, s, name);
      } else {
        NotRun(cfg, h, i, t);
      }
    }
  }

  lemma LaunchSourced(cfg: Config, ids: iset<string>, order: (nat, nat) -> seq<string>)
    requires ConfigOk(cfg) && StageOrders(cfg, 0, order)
    ensures var h := Launch(cfg, order); AllSourced(cfg, ids, h.current, h.queue)
  {
    EnterSourced(cfg, ids, IdleHost(), 0, order);
  }

  lemma {:induction false} RunStuck(cfg: Config, ids: iset<string>, h: Host, ts: seq<Tick>, s: nat, name: string)
    requires ConfigOk(cfg) && TicksOk(cfg, ts) && HostOk(h) && AllSourced(cfg, ids, h.current, h.queue)
    requires forall i :: 0 <= i < |ts| ==> Identifies(cfg, ts[i], ids)
    requires Counts(cfg, s, name) && !Available(cfg, ids, s, name) && Stuck(h, s, name)
    ensures Run(cfg, h, ts).current <= s
    decreases |ts|
  {
    if ts != [] && h.running {
      StepStuck(cfg, ids, h, ts[0], s, name);
      OffersWithin(cfg, h, ts[0], ids);
      StepSourced(cfg, ids, h, ts[0]);
      RunStuck(cfg, ids, Step(cfg, h, ts[0]), ts[1..], s, name);
    }
  }

  /** No run passes a stage that counts a name of which no job is available by then. */
  lemma {:induction false} NeverPasses(cfg: Config, ids: iset<string>, order: (nat, nat) -> seq<string>, ts: seq<Tick>,
                                       s: nat, name: string)
    requires ConfigOk(cfg) && StageOrders(cfg, 0, order) && TicksOk(cfg, ts)
    requires forall i :: 0 <= i < |ts| ==> Identifies(cfg, ts[i], ids)
    requires Counts(cfg, s, name) && !Available(cfg, ids, s, name)
    ensures Run(cfg, Launch(cfg, order), ts).current <= s
  {
    EnterStuck(cfg, IdleHost(), 0, order, s, name);
    LaunchSourced(cfg, ids, order);
    RunStuck(cfg, ids, Launch(cfg, order), ts, s, name);
  }

  /** No enabled poll of the registry is filed under this job name. */
  ghost predicate NoJobNamed(cfg: Config, name: string) {
    forall m, n :: m in cfg.models && n in cfg.models[m].polling && n == name ==> !cfg.models[m].polling[n].enabled
  }

  /** In particular, whatever is identified: a stage that counts a poll which is switched off
      everywhere, or which carries a name that nothing is filed under. */
  lemma {:induction false} CountedButNeverInserted(cfg: Config, order: (nat, nat) -> seq<string>, ts: seq<Tick>,
                                                   stage: nat, name: string)
    requires ConfigOk(cfg) && StageOrders(cfg, 0, order) && TicksOk(cfg, ts)
    requires Counts(cfg, stage, name) && NoJobNamed(cfg, name)
    ensures Run(cfg, Launch(cfg, order), ts).current <= stage
  {
    NeverPasses(cfg, (iset m | m in cfg.models), order, ts, stage, name);
  }
}
