/** Liveness of the boot sequence: when every counted poll can be served, every stage is
    passed after finitely many turns, failing jobs included. */
module BootProgress {
  import opened Common
  import opened JobModel
  import opened Registry
  import opened HostModel
  import opened HostSteps
  import opened BootSafety

  // ----- what a configuration must offer

  /** A popped job like this is executed, by a built-in or by a collector. */
  predicate Runnable(cfg: Config, j: Job) {
    (j.pollaris, j.name) in cfg.lookup && HasCollector(cfg, j)
  }

  /** Every poll a stage counts for this target is named by its job name, switched on, and filed in the
      registry under its profile, where it can be looked up and run. */
  ghost predicate CountedServed(cfg: Config)
    requires ConfigOk(cfg)
  {
    forall s, i, n :: 0 <= s < STAGES && cfg.groups[s].Some? && 0 <= i < |cfg.groups[s].value| ==>
      var m := cfg.groups[s].value[i];
      Runs(cfg, cfg.groups[s].value, m) && n in m.polling && m.polling[n].protocol in cfg.collectors ==>
        && m.polling[n].name == n
        && m.name in cfg.models && cfg.models[m.name].name == m.name && n in cfg.models[m.name].polling
        && cfg.models[m.name].polling[n].enabled
        && Runnable(cfg, JobFor(cfg.models[m.name], n))
  }

  /** Jobs of the registry with the same key are the same job. */
  ghost predicate KeysClear(cfg: Config) {
    forall m1, n1, m2, n2 ::
      m1 in cfg.models && n1 in cfg.models[m1].polling && m2 in cfg.models && n2 in cfg.models[m2].polling &&
      Key(JobFor(cfg.models[m1], n1)) == Key(JobFor(cfg.models[m2], n2)) ==>
        cfg.models[m1].name == cfg.models[m2].name && n1 == n2
  }

  /** The clock stands above every cadence, as wall-clock seconds do: a job that never
      ended is due. */
  ghost predicate ClockAbove(cfg: Config, t: Tick) {
    forall m, n, c :: m in cfg.models && n in cfg.models[m].polling && c in cfg.models[m].polling[n].cadences ==>
      t.popAt >= c
  }

  /** Nobody stops the host in this turn. */
  ghost predicate Lively(cfg: Config, t: Tick)
    requires ConfigOk(cfg)
  {
    TickOk(cfg, t) && !t.stopped
  }

  ghost predicate GoodTick(cfg: Config, t: Tick)
    requires ConfigOk(cfg)
  {
    Lively(cfg, t) && ClockAbove(cfg, t)
  }

  // ----- where the queued jobs come from

  /** The job is one of the registry, off only if it could not run. */
  ghost predicate Filed(cfg: Config, j: Job) {
    && CadenceOk(j)
    && (j.enabled || !HasCollector(cfg, j))
    && exists m, n :: m in cfg.models && n in cfg.models[m].polling &&
         j.pollaris == cfg.models[m].name && j.name == n && j.cadences == cfg.models[m].polling[n].cadences
  }

  ghost predicate AllFiled(cfg: Config, q: seq<Job>) {
    forall p :: 0 <= p < |q| ==> Filed(cfg, q[p])
  }

  lemma CarriedFiled(cfg: Config, a: seq<Job>, b: seq<Job>)
    requires ConfigOk(cfg) && AllFiled(cfg, a) && Carried(cfg, a, b)
    ensures AllFiled(cfg, b)
  {
    forall p | 0 <= p < |b| ensures Filed(cfg, b[p]) {
      if p >= |a| {
        assert Registered(cfg, b[p]);
        var m, n :| m in cfg.models && n in cfg.models[m].polling && b[p] == JobFor(cfg.models[m], n);
      } else {
        assert Filed(cfg, a[p]);
      }
    }
  }

  lemma TreatedFiled(cfg: Config, j: Job, t: Tick)
    requires Filed(cfg, j)
    ensures Filed(cfg, Treated(cfg, j, t))
  {
    var r := Treated(cfg, j, t);
    assert r.pollaris == j.pollaris && r.name == j.name && r.cadences == j.cadences;
    assert HasCollector(cfg, r) == HasCollector(cfg, j);
  }

  // ----- jobs a stage is waiting for

  /** The job will finish for the stage when it is popped, and is due whenever looked at. */
  predicate Serves(cfg: Config, j: Job, name: string) {
    j.name == name && j.enabled && j.ended == 0 && Runnable(cfg, j)
  }

  ghost predicate Served(cfg: Config, q: seq<Job>, name: string) {
    exists p :: 0 <= p < |q| && Serves(cfg, q[p], name)
  }

  lemma CarriedServed(cfg: Config, a: seq<Job>, b: seq<Job>, name: string)
    requires Carried(cfg, a, b) && Served(cfg, a, name)
    ensures Served(cfg, b, name)
  {
    var p :| 0 <= p < |a| && Serves(cfg, a[p], name);
    assert Serves(cfg, b[p], name);
  }

  /** Inserting an enabled job leaves a job with its key in the queue, ready to start. */
  lemma {:induction false} InsertMakesDue(q: seq<Job>, jobs: seq<Job>, n: nat, k: nat) returns (p: nat)
    requires k < n <= |jobs| && jobs[k].enabled && jobs[k].ended == 0
    ensures var r := InsertFirst(q, jobs, n);
            p < |r| && Key(r[p]) == Key(jobs[k]) && r[p].ended == 0
  {
    if k == n - 1 {
      p := FindKey(InsertFirst(q, jobs, n - 1), Key(jobs[k]));
    } else {
      p := InsertMakesDue(q, jobs, n - 1, k);
    }
  }

  lemma InsertModelServes(cfg: Config, q: seq<Job>, m: string, order: seq<string>, name: string)
    requires ConfigOk(cfg) && KeysClear(cfg) && AllFiled(cfg, q)
    requires m in cfg.models && Orders(cfg, m, order) && name in cfg.models[m].polling
    requires cfg.models[m].polling[name].enabled && Runnable(cfg, JobFor(cfg.models[m], name))
    ensures Served(cfg, InsertModel(cfg.models, q, m, order), name)
  {
    var r := InsertModel(cfg.models, q, m, order);
    var k :| 0 <= k < |order| && order[k] == name;
    var p := InsertMakesDue(q, JobsOf(cfg.models[m], order), |order|, k);
    InsertModelCarries(cfg, q, m, order);
    CarriedFiled(cfg, q, r);
    assert Filed(cfg, r[p]);
    var m2, n2 :| m2 in cfg.models && n2 in cfg.models[m2].polling &&
                  r[p].pollaris == cfg.models[m2].name && r[p].name == n2 && r[p].cadences == cfg.models[m2].polling[n2].cadences;
    assert Key(JobFor(cfg.models[m2], n2)) == Key(JobFor(cfg.models[m], name));
    assert Serves(cfg, r[p], name);
  }

  /** Every name a stage counts is served once the stage is set up. */
  lemma StageServed(cfg: Config, q: seq<Job>, stage: nat, ms: seq<Model>, order: (nat, nat) -> seq<string>, name: string)
    requires ConfigOk(cfg) && KeysClear(cfg) && CountedServed(cfg) && AllFiled(cfg, q)
    requires stage < STAGES && cfg.groups[stage] == Some(ms) && StageOrders(cfg, stage, order)
    requires name in StageNames(cfg, ms, |ms|)
    ensures Served(cfg, StageQueue(cfg, q, stage, ms, |ms|, order), name)
  {
    var i := CountedAt(cfg, ms, |ms|, name);
    OrdersHold(cfg, stage, ms, order);
    StageFiled(cfg, q, stage, ms, i, order);
    CountedServes(cfg, StageQueue(cfg, q, stage, ms, i, order), stage, ms, i, order(stage, i), name);
    StaysServedFrom(cfg, q, stage, ms, i, order, name);
  }

  lemma StaysServedFrom(cfg: Config, q: seq<Job>, stage: nat, ms: seq<Model>, i: nat, order: (nat, nat) -> seq<string>, name: string)
    requires i < |ms| && forall k :: 0 <= k < |ms| ==> Orders(cfg, ms[k].name, order(stage, k))
    requires Served(cfg, VisitedQueue(cfg, StageQueue(cfg, q, stage, ms, i, order), ms, ms[i], order(stage, i)), name)
    ensures Served(cfg, StageQueue(cfg, q, stage, ms, |ms|, order), name)
  {
    StaysServed(cfg, q, stage, ms, i + 1, |ms|, order, name);
  }

  lemma OrdersHold(cfg: Config, stage: nat, ms: seq<Model>, order: (nat, nat) -> seq<string>)
    requires stage < |cfg.groups| && cfg.groups[stage] == Some(ms) && StageOrders(cfg, stage, order)
    ensures forall k :: 0 <= k < |ms| ==> Orders(cfg, ms[k].name, order(stage, k))
  {
  }

  lemma StageFiled(cfg: Config, q: seq<Job>, stage: nat, ms: seq<Model>, n: nat, order: (nat, nat) -> seq<string>)
    requires ConfigOk(cfg) && AllFiled(cfg, q) && n <= |ms|
    requires forall k :: 0 <= k < |ms| ==> Orders(cfg, ms[k].name, order(stage, k))
    ensures AllFiled(cfg, StageQueue(cfg, q, stage, ms, n, order))
  {
    StageQueueCarries(cfg, q, stage, ms, n, order);
    CarriedFiled(cfg, q, StageQueue(cfg, q, stage, ms, n, order));
  }

  /** The profile that counts the name. */
  lemma {:induction false} CountedAt(cfg: Config, ms: seq<Model>, n: nat, name: string) returns (i: nat)
    requires n <= |ms| && name in StageNames(cfg, ms, n)
    ensures i < n && Runs(cfg, ms, ms[i]) && name in CountedNames(cfg, ms[i])
  {
    i := n - 1;
    if !(Runs(cfg, ms, ms[i]) && name in CountedNames(cfg, ms[i])) {
      i := CountedAt(cfg, ms, n - 1, name);
    }
  }

  lemma {:induction false} StaysServed(cfg: Config, q: seq<Job>, stage: nat, ms: seq<Model>, i: nat, n: nat,
                                       order: (nat, nat) -> seq<string>, name: string)
    requires i <= n <= |ms| && forall k :: 0 <= k < n ==> Orders(cfg, ms[k].name, order(stage, k))
    requires Served(cfg, StageQueue(cfg, q, stage, ms, i, order), name)
    ensures Served(cfg, StageQueue(cfg, q, stage, ms, n, order), name)
  {
    if i < n {
      StaysServed(cfg, q, stage, ms, i, n - 1, order, name);
      VisitServes(cfg, StageQueue(cfg, q, stage, ms, n - 1, order), ms, ms[n - 1], order(stage, n - 1), name);
    }
  }

  /** A counted name is served when its profile is looked at. */
  lemma CountedServes(cfg: Config, q: seq<Job>, stage: nat, ms: seq<Model>, i: nat, order: seq<string>, name: string)
    requires ConfigOk(cfg) && KeysClear(cfg) && CountedServed(cfg) && AllFiled(cfg, q)
    requires stage < STAGES && cfg.groups[stage] == Some(ms) && i < |ms| && Orders(cfg, ms[i].name, order)
    requires Runs(cfg, ms, ms[i]) && name in CountedNames(cfg, ms[i])
    ensures Served(cfg, VisitedQueue(cfg, q, ms, ms[i], order), name)
  {
    InsertModelServes(cfg, q, ms[i].name, order, name);
  }

  /** A name stays served when a profile is looked at. */
  lemma VisitServes(cfg: Config, q: seq<Job>, ms: seq<Model>, m: Model, order: seq<string>, name: string)
    requires Orders(cfg, m.name, order) && Served(cfg, q, name)
    ensures Served(cfg, VisitedQueue(cfg, q, ms, m, order), name)
  {
    InsertModelCarries(cfg, q, m.name, order);
    if VisitedQueue(cfg, q, ms, m, order) != q {
      CarriedServed(cfg, q, InsertModel(cfg.models, q, m.name, order), name);
    }
  }

  // ----- the invariant

  /** The names the current stage still waits for. */
  function Open(h: Host): set<string>
    requires |h.stages| == STAGES && (h.current < STAGES ==> h.stages[h.current].Some?)
  {
    if h.current < STAGES then set n | n in h.stages[h.current].value && !h.stages[h.current].value[n] else {}
  }

  /** Every name the current stage waits for is served by a job in the queue. */
  ghost predicate Awaited(cfg: Config, h: Host)
    requires HostOk(h)
  {
    && AllFiled(cfg, h.queue)
    && forall name :: name in Open(h) ==> Served(cfg, h.queue, name)
  }

  lemma EnterStageAwaited(cfg: Config, h: Host, stage: nat, order: (nat, nat) -> seq<string>)
    requires ConfigOk(cfg) && KeysClear(cfg) && CountedServed(cfg) && AllFiled(cfg, h.queue) && ValidQueue(h.queue)
    requires |h.stages| == STAGES && stage < STAGES && StageOrders(cfg, stage, order)
    ensures HostOk(EnterStage(cfg, h, stage, order)) && Awaited(cfg, EnterStage(cfg, h, stage, order))
  {
    var r := EnterStage(cfg, h, stage, order);
    EnterStageOk(cfg, h, stage, order);
    EnterStageCarries(cfg, h, stage, order);
    CarriedFiled(cfg, h.queue, r.queue);
    forall name | name in Open(r) ensures Served(cfg, r.queue, name) {
      StageServed(cfg, h.queue, stage, cfg.groups[stage].value, order, name);
    }
  }

  lemma {:induction false} AdvanceAwaited(cfg: Config, h: Host, order: (nat, nat) -> seq<string>)
    requires ConfigOk(cfg) && KeysClear(cfg) && CountedServed(cfg)
    requires HostOk(h) && h.current < STAGES && Awaited(cfg, h)
    requires forall s :: 0 <= s < STAGES ==> StageOrders(cfg, s, order)
    ensures HostOk(Advance(cfg, h, order)) && Awaited(cfg, Advance(cfg, h, order))
    decreases STAGES - h.current
  {
    AdvanceOk(cfg, h, order);
    if Complete(h.stages[h.current].value) && h.current + 1 < STAGES {
      EnterStageAwaited(cfg, h, h.current + 1, order);
      AdvanceAwaited(cfg, EnterStage(cfg, h, h.current + 1, order), order);
    }
  }

  // ----- one turn

  /** The list after position `i` was served and the job there became `x`. */
  function Moved(q: seq<Job>, i: nat, x: Job): (r: seq<Job>)
    requires i < |q|
    ensures |r| == |q|
  {
    MoveToLast(q, i)[|q| - 1 := x]
  }

  lemma MovedFiled(cfg: Config, q: seq<Job>, i: nat, x: Job)
    requires i < |q| && AllFiled(cfg, q) && Filed(cfg, x)
    ensures AllFiled(cfg, Moved(q, i, x))
  {
    forall k | 0 <= k < |q| ensures Filed(cfg, Moved(q, i, x)[k]) {
      MoveToLastAt(q, i, k);
    }
  }

  lemma MovedServed(cfg: Config, q: seq<Job>, i: nat, x: Job, name: string)
    requires i < |q| && Served(cfg, q, name) && !Serves(cfg, q[i], name)
    ensures Served(cfg, Moved(q, i, x), name)
  {
    var p :| 0 <= p < |q| && Serves(cfg, q[p], name);
    var k := if p < i then p else p - 1;
    MoveToLastAt(q, i, k);
    assert Serves(cfg, Moved(q, i, x)[k], name);
  }

  /** A serving job is due under a clock above every cadence. */
  lemma ServingIsReady(cfg: Config, j: Job, name: string, t: Tick)
    requires Filed(cfg, j) && Serves(cfg, j, name) && ClockAbove(cfg, t)
    ensures Ready(j, t.popAt)
  {
    assert Cadence(j) in j.cadences;
  }

  /** The stage after one more of its jobs finished, before any advance. */
  function Marked(h: Host, name: string): Host
    requires |h.stages| == STAGES && h.current < STAGES && h.stages[h.current].Some?
  {
    h.(stages := h.stages[h.current := Some(MarkComplete(h.stages[h.current].value, name))])
  }

  lemma MarkedOpen(h: Host, name: string)
    requires HostOk(h) && h.current < STAGES
    ensures Open(Marked(h, name)) == Open(h) - {name}
    ensures Complete(Marked(h, name).stages[h.current].value) <==> Open(h) - {name} == {}
  {
    var s := Marked(h, name).stages[h.current].value;
    forall n | n in s && !s[n] ensures n in Open(h) - {name} {
    }
    forall n | n in Open(h) - {name} ensures n in s && !s[n] {
    }
  }

  /** The host of a turn that runs the job at position `i`, before its boot state is told. */
  function Judged(cfg: Config, h: Host, i: nat, t: Tick): Host
    requires ConfigOk(cfg) && TickOk(cfg, t) && i < |h.queue| && Ran(cfg, h.queue[i], t).Some?
  {
    var j := h.queue[i];
    JudgeAt(cfg, h.(queue := MoveToLast(h.queue, i)), |h.queue| - 1, Executed(cfg.hash, j, Ran(cfg, j, t).value, t), t)
  }

  lemma JudgedOk(cfg: Config, h: Host, i: nat, t: Tick)
    requires ConfigOk(cfg) && TickOk(cfg, t) && HostOk(h)
    requires i == FirstReady(h.queue, t.popAt) < |h.queue| && Ran(cfg, h.queue[i], t).Some?
    ensures var h2 := Judged(cfg, h, i, t);
            HostOk(h2) && h2.current == h.current && h2.stages == h.stages
  {
    var h1, p, j, o := h.(queue := MoveToLast(h.queue, i)), |h.queue| - 1, h.queue[i], Ran(cfg, h.queue[i], t).value;
    PoppedOk(h, i, t.popAt);
    JudgedIs(cfg, h, i, t, h1, p, Executed(cfg.hash, j, o, t));
    JudgedFrom(cfg, h1, p, j, o, t);
  }

  lemma JudgedIs(cfg: Config, h: Host, i: nat, t: Tick, h1: Host, p: nat, x: Job)
    requires ConfigOk(cfg) && TickOk(cfg, t) && i < |h.queue| && Ran(cfg, h.queue[i], t).Some?
    requires h1 == h.(queue := MoveToLast(h.queue, i)) && p == |h.queue| - 1
    requires x == Executed(cfg.hash, h.queue[i], Ran(cfg, h.queue[i], t).value, t)
    ensures p < |h1.queue| && Judged(cfg, h, i, t) == JudgeAt(cfg, h1, p, x, t)
  {
  }

  lemma JudgedFrom(cfg: Config, h: Host, p: nat, j: Job, o: Outcome, t: Tick)
    requires ConfigOk(cfg) && TickOk(cfg, t) && HostOk(h) && p < |h.queue| && h.queue[p] == j
    ensures var r := JudgeAt(cfg, h, p, Executed(cfg.hash, j, o, t), t);
            HostOk(r) && r.current == h.current && r.stages == h.stages
  {
    ExecutedSame(cfg, j, o, t);
    JudgeAtOk(cfg, h, p, Executed(cfg.hash, j, o, t), t);
  }

  /** The host after the job at position `i` was popped. */
  lemma PoppedOk(h: Host, i: nat, now: int)
    requires HostOk(h) && i == FirstReady(h.queue, now) < |h.queue|
    ensures HostOk(h.(queue := MoveToLast(h.queue, i)))
    ensures MoveToLast(h.queue, i)[|h.queue| - 1] == h.queue[i] && CadenceOk(h.queue[i])
  {
    AfterPopValid(h.queue, now);
    MoveToLastAt(h.queue, i, |h.queue| - 1);
  }

  lemma JudgedCarries(cfg: Config, h: Host, i: nat, t: Tick)
    requires ConfigOk(cfg) && TickOk(cfg, t) && i < |h.queue| && Ran(cfg, h.queue[i], t).Some?
    ensures Carried(cfg, Moved(h.queue, i, Treated(cfg, h.queue[i], t)), Judged(cfg, h, i, t).queue)
  {
    var x := Executed(cfg.hash, h.queue[i], Ran(cfg, h.queue[i], t).value, t);
    JudgeAtCarries(cfg, h.(queue := MoveToLast(h.queue, i)), |h.queue| - 1, x, t);
  }

  lemma JudgeAtCarries(cfg: Config, h: Host, p: nat, j: Job, t: Tick)
    requires ConfigOk(cfg) && TickOk(cfg, t) && p < |h.queue|
    ensures Carried(cfg, h.queue[p := Judge(cfg.hash, j).0], JudgeAt(cfg, h, p, j, t).queue)
  {
    if t.identified.Some? {
      InsertModelCarries(cfg, h.queue[p := Judge(cfg.hash, j).0], t.identified.value, t.order(STAGES, 0));
    }
  }

  lemma StepOfJudged(cfg: Config, h: Host, i: nat, t: Tick)
    requires ConfigOk(cfg) && TickOk(cfg, t) && HostOk(h)
    requires i == FirstReady(h.queue, t.popAt) < |h.queue| && Ran(cfg, h.queue[i], t).Some?
    requires HostOk(Judged(cfg, h, i, t))
    ensures Step(cfg, h, t) == CompleteBoot(cfg, Judged(cfg, h, i, t), h.queue[i].name, t)
  {
  }

  lemma JudgedShape(cfg: Config, h: Host, i: nat, t: Tick)
    requires ConfigOk(cfg) && TickOk(cfg, t) && HostOk(h)
    requires i == FirstReady(h.queue, t.popAt) < |h.queue| && Ran(cfg, h.queue[i], t).Some?
    ensures var h2 := Judged(cfg, h, i, t);
            && HostOk(h2) && h2.current == h.current && h2.stages == h.stages
            && Step(cfg, h, t) == CompleteBoot(cfg, h2, h.queue[i].name, t)
            && Carried(cfg, Moved(h.queue, i, Treated(cfg, h.queue[i], t)), h2.queue)
  {
    JudgedOk(cfg, h, i, t);
    StepOfJudged(cfg, h, i, t);
    JudgedCarries(cfg, h, i, t);
  }

  /** Whatever the turn did not finish is still served. */
  lemma ServedAfterMove(cfg: Config, q: seq<Job>, i: nat, t: Tick, r: seq<Job>, names: set<string>)
    requires ConfigOk(cfg) && i < |q| && AllFiled(cfg, q) && forall name :: name in names ==> Served(cfg, q, name)
    requires Carried(cfg, Moved(q, i, Treated(cfg, q[i], t)), r)
    ensures AllFiled(cfg, r) && forall name :: name in names - {q[i].name} ==> Served(cfg, r, name)
  {
    var x := Treated(cfg, q[i], t);
    TreatedFiled(cfg, q[i], t);
    MovedFiled(cfg, q, i, x);
    CarriedFiled(cfg, Moved(q, i, x), r);
    forall name | name in names - {q[i].name} ensures Served(cfg, r, name) {
      MovedServed(cfg, q, i, x, name);
      CarriedServed(cfg, Moved(q, i, x), r, name);
    }
  }

  /** A turn that runs a job finishes its name for the stage; when that was the last one the
      boot sequence moves on. */
  lemma RunOpens(cfg: Config, h: Host, i: nat, t: Tick)
    requires ConfigOk(cfg) && Lively(cfg, t) && HostOk(h)
    requires i == FirstReady(h.queue, t.popAt) < |h.queue| && Ran(cfg, h.queue[i], t).Some?
    ensures var r := Step(cfg, h, t);
            && HostOk(r)
            && (Open(h) - {h.queue[i].name} != {} ==>
                  && r.current == h.current && Open(r) == Open(h) - {h.queue[i].name}
                  && Carried(cfg, Moved(h.queue, i, Treated(cfg, h.queue[i], t)), r.queue))
            && (h.current < STAGES && Open(h) - {h.queue[i].name} == {} ==> r.current > h.current)
  {
    var h2, name := Judged(cfg, h, i, t), h.queue[i].name;
    JudgedShape(cfg, h, i, t);
    StepOk(cfg, h, t);
    if h2.current < STAGES {
      MarkedOpen(h2, name);
      if Open(h) - {name} == {} {
        AdvanceMoves(cfg, Marked(h2, name), t.order);
      }
    }
  }

  /** It keeps the invariant. */
  lemma RunAwaited(cfg: Config, h: Host, i: nat, t: Tick)
    requires ConfigOk(cfg) && KeysClear(cfg) && CountedServed(cfg)
    requires Lively(cfg, t) && HostOk(h) && Awaited(cfg, h)
    requires i == FirstReady(h.queue, t.popAt) < |h.queue| && Ran(cfg, h.queue[i], t).Some?
    ensures HostOk(Step(cfg, h, t)) && Awaited(cfg, Step(cfg, h, t))
  {
    var h2, name := Judged(cfg, h, i, t), h.queue[i].name;
    JudgedShape(cfg, h, i, t);
    ServedAfterMove(cfg, h.queue, i, t, h2.queue, Open(h));
    if h2.current < STAGES {
      MarkedOpen(h2, name);
      assert Awaited(cfg, Marked(h2, name));
      AdvanceAwaited(cfg, Marked(h2, name), t.order);
    }
  }

  lemma AdvanceMoves(cfg: Config, h: Host, order: (nat, nat) -> seq<string>)
    requires ConfigOk(cfg) && HostOk(h) && h.current < STAGES && Complete(h.stages[h.current].value)
    requires forall s :: 0 <= s < STAGES ==> StageOrders(cfg, s, order)
    ensures Advance(cfg, h, order).current > h.current
  {
    if h.current + 1 < STAGES {
      var next := EnterStage(cfg, h, h.current + 1, order);
      EnterStageOk(cfg, h, h.current + 1, order);
      AdvanceNeverFalls(cfg, next, order);
    }
  }

  lemma {:induction false} AdvanceNeverFalls(cfg: Config, h: Host, order: (nat, nat) -> seq<string>)
    requires ConfigOk(cfg) && HostOk(h) && h.current < STAGES
    requires forall s :: 0 <= s < STAGES ==> StageOrders(cfg, s, order)
    ensures Advance(cfg, h, order).current >= h.current
    decreases STAGES - h.current
  {
    if Complete(h.stages[h.current].value) && h.current + 1 < STAGES {
      EnterStageOk(cfg, h, h.current + 1, order);
      AdvanceNeverFalls(cfg, EnterStage(cfg, h, h.current + 1, order), order);
    }
  }

  /** A turn that pops a job without running it moves that job to the back, nothing else. */
  lemma PassedOver(cfg: Config, h: Host, i: nat, t: Tick)
    requires ConfigOk(cfg) && Lively(cfg, t) && HostOk(h)
    requires i == FirstReady(h.queue, t.popAt) < |h.queue| && Ran(cfg, h.queue[i], t).None?
    ensures Step(cfg, h, t) == h.(queue := Moved(h.queue, i, Treated(cfg, h.queue[i], t)))
    ensures !Runnable(cfg, h.queue[i])
  {
    var last := |h.queue| - 1;
    assert MoveToLast(h.queue, i)[last] == h.queue[i];
    assert MoveToLast(h.queue, i)[last := h.queue[i]] == MoveToLast(h.queue, i);
  }

  /** The boot sequence of the second host is ahead: at a later stage, or waiting for fewer
      names there, or with the serving job one place nearer to the front. */
  ghost predicate Ahead(cfg: Config, h: Host, p: nat, name: string, r: Host)
    requires HostOk(h) && HostOk(r)
  {
    || r.current > h.current
    || (r.current == h.current && Open(r) < Open(h))
    || (r.current == h.current && Open(r) == Open(h) && 0 < p <= |r.queue| && Serves(cfg, r.queue[p - 1], name))
  }

  /** Serving another position brings a serving job one place nearer. */
  lemma Nearer(cfg: Config, q: seq<Job>, i: nat, x: Job, p: nat, name: string)
    requires i < p < |q| && Serves(cfg, q[p], name)
    ensures Serves(cfg, Moved(q, i, x)[p - 1], name)
  {
    MoveToLastAt(q, i, p - 1);
  }

  /** Passing a job over leaves every open name served. */
  lemma PassedAwaited(cfg: Config, h: Host, i: nat, t: Tick)
    requires ConfigOk(cfg) && KeysClear(cfg) && CountedServed(cfg)
    requires GoodTick(cfg, t) && HostOk(h) && Awaited(cfg, h)
    requires i == FirstReady(h.queue, t.popAt) < |h.queue| && Ran(cfg, h.queue[i], t).None?
    ensures var r := Step(cfg, h, t);
            && HostOk(r) && Awaited(cfg, r) && r.current == h.current && Open(r) == Open(h)
            && r.queue == Moved(h.queue, i, Treated(cfg, h.queue[i], t))
  {
    var x := Treated(cfg, h.queue[i], t);
    PassedOver(cfg, h, i, t);
    StepOk(cfg, h, t);
    TreatedFiled(cfg, h.queue[i], t);
    MovedFiled(cfg, h.queue, i, x);
    forall name | name in Open(h) ensures Served(cfg, Moved(h.queue, i, x), name) {
      MovedServed(cfg, h.queue, i, x, name);
    }
  }

  lemma RunAhead(cfg: Config, h: Host, i: nat, t: Tick, p: nat, name: string)
    requires ConfigOk(cfg) && KeysClear(cfg) && CountedServed(cfg)
    requires GoodTick(cfg, t) && HostOk(h) && Awaited(cfg, h)
    requires name in Open(h) && p < |h.queue| && Serves(cfg, h.queue[p], name)
    requires i == FirstReady(h.queue, t.popAt) <= p && Ran(cfg, h.queue[i], t).Some?
    ensures var r := Step(cfg, h, t); HostOk(r) && Awaited(cfg, r) && Ahead(cfg, h, p, name, r)
  {
    RunOpens(cfg, h, i, t);
    RunAwaited(cfg, h, i, t);
    AheadOf(cfg, h, i, Treated(cfg, h.queue[i], t), p, name, Step(cfg, h, t));
  }

  lemma AheadOf(cfg: Config, h: Host, i: nat, x: Job, p: nat, name: string, r: Host)
    requires HostOk(h) && HostOk(r) && name in Open(h) && i <= p < |h.queue| && Serves(cfg, h.queue[p], name)
    requires Open(h) - {h.queue[i].name} == {} ==> r.current > h.current
    requires Open(h) - {h.queue[i].name} != {} ==>
               && r.current == h.current && Open(r) == Open(h) - {h.queue[i].name}
               && Carried(cfg, Moved(h.queue, i, x), r.queue)
    ensures Ahead(cfg, h, p, name, r)
  {
    var left := Open(h) - {h.queue[i].name};
    if left == {} {
    } else if h.queue[i].name in Open(h) {
      assert left < Open(h);
    } else {
      assert left == Open(h) && i < p;
      Nearer(cfg, h.queue, i, x, p, name);
      CarriedServes(cfg, Moved(h.queue, i, x), r.queue, p - 1, name);
    }
  }

  lemma CarriedServes(cfg: Config, a: seq<Job>, b: seq<Job>, p: nat, name: string)
    requires Carried(cfg, a, b) && p < |a| && Serves(cfg, a[p], name)
    ensures p < |b| && Serves(cfg, b[p], name)
  {
  }

  /** While a serving job waits at position `p`, every turn brings the boot sequence ahead. */
  lemma TurnAhead(cfg: Config, h: Host, t: Tick, p: nat, name: string)
    requires ConfigOk(cfg) && KeysClear(cfg) && CountedServed(cfg)
    requires GoodTick(cfg, t) && HostOk(h) && Awaited(cfg, h)
    requires name in Open(h) && p < |h.queue| && Serves(cfg, h.queue[p], name)
    ensures var r := Step(cfg, h, t); HostOk(r) && Awaited(cfg, r) && Ahead(cfg, h, p, name, r)
  {
    var i := FirstReady(h.queue, t.popAt);
    ServingIsReady(cfg, h.queue[p], name, t);
    assert i <= p;
    if Ran(cfg, h.queue[i], t).Some? {
      RunAhead(cfg, h, i, t, p, name);
    } else {
      PassedAwaited(cfg, h, i, t);
      if i < p {
        Nearer(cfg, h.queue, i, Treated(cfg, h.queue[i], t), p, name);
      }
    }
  }

  // ----- endless runs

  ghost predicate Endless(cfg: Config, env: nat -> Tick)
    requires ConfigOk(cfg)
  {
    forall i: nat :: TickOk(cfg, env(i))
  }

  ghost predicate Unstopped(env: nat -> Tick) {
    forall i: nat :: !env(i).stopped
  }

  ghost predicate ClockAboveAll(cfg: Config, env: nat -> Tick) {
    forall i: nat :: ClockAbove(cfg, env(i))
  }

  /** The host after `n` turns of an endless run. */
  function After(cfg: Config, h: Host, env: nat -> Tick, n: nat): (r: Host)
    requires ConfigOk(cfg) && HostOk(h) && Endless(cfg, env)
    ensures HostOk(r)
  {
    if n == 0 then h
    else
      var before := After(cfg, h, env, n - 1);
      StepOk(cfg, before, env(n - 1));
      Step(cfg, before, env(n - 1))
  }

  /** The stage waits, among others, for the name that the job at position `p` serves. */
  ghost predicate Waits(cfg: Config, h: Host, p: nat, name: string)
    requires HostOk(h)
  {
    && Awaited(cfg, h) && Settled(h)
    && (h.current < STAGES ==> name in Open(h) && p < |h.queue| && Serves(cfg, h.queue[p], name))
  }

  /** One turn on, in terms of stages left, names open, and the place of a serving job. */
  lemma TurnAdvances(cfg: Config, a: Host, t: Tick, p: nat, name: string) returns (p': nat, name': string)
    requires ConfigOk(cfg) && KeysClear(cfg) && CountedServed(cfg) && GoodTick(cfg, t)
    requires HostOk(a) && Waits(cfg, a, p, name) && a.current < STAGES
    ensures var b := Step(cfg, a, t);
            && HostOk(b) && Waits(cfg, b, p', name')
            && (b.current > a.current
                || (b.current == a.current && |Open(b)| < |Open(a)|)
                || (b.current == a.current && |Open(b)| == |Open(a)| && p' < p))
  {
    var b := Step(cfg, a, t);
    TurnAhead(cfg, a, t, p, name);
    StepSettled(cfg, a, t);
    if b.current == a.current && Open(b) == Open(a) {
      p', name' := p - 1, name;
    } else {
      if b.current == a.current {
        SmallerSet(Open(b), Open(a));
      }
      name', p' := Witness(cfg, b);
    }
  }

  /** From a host whose open names are all served, the boot sequence ends. */
  lemma {:induction false} ReachesEnd(cfg: Config, h: Host, env: nat -> Tick, n: nat, p: nat, name: string) returns (m: nat)
    requires ConfigOk(cfg) && KeysClear(cfg) && CountedServed(cfg)
    requires HostOk(h) && Endless(cfg, env) && Unstopped(env) && ClockAboveAll(cfg, env)
    requires Waits(cfg, After(cfg, h, env, n), p, name)
    ensures m >= n && After(cfg, h, env, m).current == STAGES
    decreases STAGES - After(cfg, h, env, n).current, |Open(After(cfg, h, env, n))|, p
  {
    var a := After(cfg, h, env, n);
    if a.current == STAGES {
      return n;
    }
    var p', name' := TurnAdvances(cfg, a, env(n), p, name);
    assert After(cfg, h, env, n + 1) == Step(cfg, a, env(n));
    m := ReachesEnd(cfg, h, env, n + 1, p', name');
  }

  lemma SmallerSet<T>(a: set<T>, b: set<T>)
    requires a < b
    ensures |a| < |b|
  {
    assert |b - a| + |a| == |b|;
    assert b - a != {};
  }

  /** A name the stage waits for, and the place of a job that serves it. */
  lemma Witness(cfg: Config, h: Host) returns (name: string, p: nat)
    requires HostOk(h) && Awaited(cfg, h) && Settled(h)
    ensures h.current < STAGES ==> name in Open(h) && p < |h.queue| && Serves(cfg, h.queue[p], name)
  {
    name, p := "", 0;
    if h.current < STAGES {
      name :| name in h.stages[h.current].value && !h.stages[h.current].value[name];
      assert name in Open(h);
      p :| 0 <= p < |h.queue| && Serves(cfg, h.queue[p], name);
    }
  }

  lemma StepSettled(cfg: Config, h: Host, t: Tick)
    requires ConfigOk(cfg) && Lively(cfg, t) && HostOk(h) && Settled(h)
    ensures HostOk(Step(cfg, h, t)) && Settled(Step(cfg, h, t))
  {
    StepOk(cfg, h, t);
    var i := FirstReady(h.queue, t.popAt);
    if i < |h.queue| && Ran(cfg, h.queue[i], t).Some? {
      JudgedShape(cfg, h, i, t);
      var h2 := Judged(cfg, h, i, t);
      if h2.current < STAGES {
        AdvanceSettled(cfg, Marked(h2, h.queue[i].name), t.order);
      }
    } else if i < |h.queue| {
      PassedOver(cfg, h, i, t);
    }
  }

  lemma {:induction false} AdvanceSettled(cfg: Config, h: Host, order: (nat, nat) -> seq<string>)
    requires ConfigOk(cfg) && HostOk(h) && h.current < STAGES
    requires forall s :: 0 <= s < STAGES ==> StageOrders(cfg, s, order)
    ensures HostOk(Advance(cfg, h, order)) && Settled(Advance(cfg, h, order))
    decreases STAGES - h.current
  {
    AdvanceOk(cfg, h, order);
    if Complete(h.stages[h.current].value) && h.current + 1 < STAGES {
      EnterStageOk(cfg, h, h.current + 1, order);
      AdvanceSettled(cfg, EnterStage(cfg, h, h.current + 1, order), order);
    }
  }

  /** Stage 0 counts at least one poll. */
  predicate StageZeroCounts(cfg: Config)
    requires |cfg.groups| == STAGES
  {
    cfg.groups[0].Some? && StageNames(cfg, cfg.groups[0].value, |cfg.groups[0].value|) != {}
  }

  /** When stage 0 counts nothing the queue stays empty and the boot sequence never moves. */
  lemma {:induction false} StuckAtZero(cfg: Config, order: (nat, nat) -> seq<string>, env: nat -> Tick, n: nat)
    requires ConfigOk(cfg) && StageOrders(cfg, 0, order) && Endless(cfg, env)
    requires !StageZeroCounts(cfg)
    ensures var r := After(cfg, Launch(cfg, order), env, n); r.queue == [] && r.current == 0
  {
    if n > 0 {
      StuckAtZero(cfg, order, env, n - 1);
    } else if cfg.groups[0].Some? {
      NothingInserted(cfg, 0, cfg.groups[0].value, |cfg.groups[0].value|, order);
    }
  }

  lemma {:induction false} NothingInserted(cfg: Config, stage: nat, ms: seq<Model>, n: nat, order: (nat, nat) -> seq<string>)
    requires n <= |ms| && forall i :: 0 <= i < n ==> Orders(cfg, ms[i].name, order(stage, i))
    requires StageNames(cfg, ms, n) == {}
    ensures StageQueue(cfg, [], stage, ms, n, order) == []
  {
    if n > 0 {
      NothingInserted(cfg, stage, ms, n - 1, order);
      if Runs(cfg, ms, ms[n - 1]) {
        assert CountedNames(cfg, ms[n - 1]) == {};
      }
    }
  }

  /** Boot progress: in every endless run, whatever the jobs' outcomes, the boot sequence
      reaches its end after finitely many turns if and only if stage 0 counts a poll. */
  lemma BootEnds(cfg: Config, order: (nat, nat) -> seq<string>, env: nat -> Tick)
    requires ConfigOk(cfg) && KeysClear(cfg) && CountedServed(cfg) && StageOrders(cfg, 0, order)
    requires Endless(cfg, env) && Unstopped(env) && ClockAboveAll(cfg, env)
    ensures (exists m: nat :: After(cfg, Launch(cfg, order), env, m).current == STAGES) <==> StageZeroCounts(cfg)
  {
    var h := Launch(cfg, order);
    if StageZeroCounts(cfg) {
      EnterStageAwaited(cfg, IdleHost(), 0, order);
      var names := StageNames(cfg, cfg.groups[0].value, |cfg.groups[0].value|);
      var any :| any in names;
      assert any in h.stages[0].value && !h.stages[0].value[any];
      var name, p := Witness(cfg, h);
      assert After(cfg, h, env, 0) == h;
      var m := ReachesEnd(cfg, h, env, 0, p, name);
    } else {
      forall m: nat ensures After(cfg, h, env, m).current != STAGES {
        StuckAtZero(cfg, order, env, m);
      }
    }
  }
}
