/** What one turn of the loop does to the queue and to the hand-over log, seen from
    outside: the popped job changes, every other job at most has its times reset. */
module HostSteps {
  import opened Common
  import opened JobModel
  import opened Registry
  import opened HostModel

  /** The job is one of the registry, as it is when inserted. */
  ghost predicate Registered(cfg: Config, j: Job) {
    exists m, n :: m in cfg.models && n in cfg.models[m].polling && j == JobFor(cfg.models[m], n)
  }

  /** Every job of `a` is still at its place in `b`, with its times reset at most; behind
      them there are only newly inserted jobs. */
  ghost predicate Carried(cfg: Config, a: seq<Job>, b: seq<Job>) {
    && |a| <= |b|
    && (forall p :: 0 <= p < |a| ==> b[p] == a[p] || b[p] == ResetTimes(a[p]))
    && (forall p :: |a| <= p < |b| ==> Registered(cfg, b[p]) && b[p].enabled)
  }

  lemma {:induction false} InsertCarries(cfg: Config, q: seq<Job>, jobs: seq<Job>, n: nat)
    requires n <= |jobs| && forall i :: 0 <= i < |jobs| ==> Registered(cfg, jobs[i])
    ensures Carried(cfg, q, InsertFirst(q, jobs, n))
  {
    if n > 0 {
      InsertCarries(cfg, q, jobs, n - 1);
      ResetRegistered(cfg, InsertFirst(q, jobs, n - 1));
    }
  }

  lemma ResetRegistered(cfg: Config, q: seq<Job>)
    ensures forall p :: 0 <= p < |q| && Registered(cfg, q[p]) ==> ResetTimes(q[p]) == q[p]
  {
  }

  lemma InsertModelCarries(cfg: Config, q: seq<Job>, name: string, order: seq<string>)
    requires Orders(cfg, name, order)
    ensures Carried(cfg, q, InsertModel(cfg.models, q, name, order))
  {
    if name in cfg.models {
      forall i | 0 <= i < |order| ensures Registered(cfg, JobFor(cfg.models[name], order[i])) {
      }
      InsertCarries(cfg, q, JobsOf(cfg.models[name], order), |order|);
    }
  }

  lemma {:induction false} StageQueueCarries(cfg: Config, q: seq<Job>, stage: nat, ms: seq<Model>, n: nat,
                                             order: (nat, nat) -> seq<string>)
    requires n <= |ms|
    requires forall i :: 0 <= i < n ==> Orders(cfg, ms[i].name, order(stage, i))
    ensures Carried(cfg, q, StageQueue(cfg, q, stage, ms, n, order))
  {
    if n > 0 {
      var r := StageQueue(cfg, q, stage, ms, n - 1, order);
      StageQueueCarries(cfg, q, stage, ms, n - 1, order);
      InsertModelCarries(cfg, r, ms[n - 1].name, order(stage, n - 1));
      CarriedTransitive(cfg, q, r, StageQueue(cfg, q, stage, ms, n, order));
    }
  }

  lemma CarriedItself(cfg: Config, q: seq<Job>)
    ensures Carried(cfg, q, q)
  {
  }

  lemma CarriedTransitive(cfg: Config, a: seq<Job>, b: seq<Job>, c: seq<Job>)
    requires Carried(cfg, a, b) && Carried(cfg, b, c)
    ensures Carried(cfg, a, c)
  {
    ResetRegistered(cfg, b);
  }

  lemma EnterStageCarries(cfg: Config, h: Host, stage: nat, order: (nat, nat) -> seq<string>)
    requires ConfigOk(cfg) && |h.stages| == STAGES && stage < STAGES
    requires StageOrders(cfg, stage, order)
    ensures Carried(cfg, h.queue, EnterStage(cfg, h, stage, order).queue)
  {
    match cfg.groups[stage]
    case None =>
    case Some(ms) => StageQueueCarries(cfg, h.queue, stage, ms, |ms|, order);
  }

  lemma {:induction false} AdvanceCarries(cfg: Config, h: Host, order: (nat, nat) -> seq<string>)
    requires ConfigOk(cfg) && |h.stages| == STAGES
    requires h.current < STAGES && h.stages[h.current].Some?
    requires forall stage :: 0 <= stage < STAGES ==> StageOrders(cfg, stage, order)
    ensures Carried(cfg, h.queue, Advance(cfg, h, order).queue)
    ensures Advance(cfg, h, order).handed == h.handed
    ensures Advance(cfg, h, order).running == h.running
    decreases STAGES - h.current
  {
    CarriedItself(cfg, h.queue);
    if Complete(h.stages[h.current].value) && h.current + 1 < STAGES {
      var next := EnterStage(cfg, h, h.current + 1, order);
      EnterStageCarries(cfg, h, h.current + 1, order);
      AdvanceCarries(cfg, next, order);
      CarriedTransitive(cfg, h.queue, next.queue, Advance(cfg, h, order).queue);
    }
  }

  lemma FinishCarries(cfg: Config, h: Host, p: nat, j: Job, t: Tick)
    requires ConfigOk(cfg) && TickOk(cfg, t) && p < |h.queue| && |h.stages| == STAGES
    requires h.current < STAGES ==> h.stages[h.current].Some?
    ensures var (judged, hand) := Judge(cfg.hash, j);
            var r := Finish(cfg, h, p, j, t);
            && Carried(cfg, h.queue[p := judged], r.queue)
            && r.handed == h.handed + (if hand then [Handover(Key(judged), judged.result)] else [])
            && r.running == h.running
  {
    var (judged, hand) := Judge(cfg.hash, j);
    var q1 := h.queue[p := judged];
    if t.identified.Some? {
      InsertModelCarries(cfg, q1, t.identified.value, t.order(STAGES, 0));
    }
    var h2 := JudgeAt(cfg, h, p, j, t);
    assert Carried(cfg, q1, h2.queue);
    if h2.current < STAGES {
      var s := MarkComplete(h2.stages[h2.current].value, j.name);
      AdvanceCarries(cfg, h2.(stages := h2.stages[h2.current := Some(s)]), t.order);
      CarriedTransitive(cfg, q1, h2.queue, Finish(cfg, h, p, j, t).queue);
    }
  }

  /** The outcome with which a popped job is executed and judged in this turn, if it is. */
  function Ran(cfg: Config, j: Job, t: Tick): Option<Outcome> {
    if (j.pollaris, j.name) !in cfg.lookup then None
    else if IsStatic(j.name) then Some(Untracked(t.local))
    else if cfg.lookup[(j.pollaris, j.name)].protocol !in cfg.collectors || t.stopped then None
    else Some(t.outcome)
  }

  /** The job is not stopped short for want of a collector. */
  predicate HasCollector(cfg: Config, j: Job) {
    (j.pollaris, j.name) in cfg.lookup && !IsStatic(j.name) ==>
      cfg.lookup[(j.pollaris, j.name)].protocol in cfg.collectors
  }

  /** What becomes of the popped job itself. */
  function Treated(cfg: Config, j: Job, t: Tick): Job {
    match Ran(cfg, j, t)
    case Some(o) => Judge(cfg.hash, Executed(cfg.hash, j, o, t)).0
    case None =>
      if HasCollector(cfg, j) then j
      else MarkStarted(cfg.hash, j, t.startAt).(ended := t.endAt, enabled := false)
  }

  function NewlyHanded(cfg: Config, j: Job, t: Tick): seq<Handover> {
    match Ran(cfg, j, t)
    case Some(o) =>
      var (judged, hand) := Judge(cfg.hash, Executed(cfg.hash, j, o, t));
      if hand then [Handover(Key(judged), judged.result)] else []
    case None => []
  }

  /** One turn that serves a job, unless the host is stopped in it. */
  lemma StepServes(cfg: Config, h: Host, t: Tick)
    requires ConfigOk(cfg) && TickOk(cfg, t) && HostOk(h) && h.running
    requires FirstReady(h.queue, t.popAt) < |h.queue|
    ensures var i := FirstReady(h.queue, t.popAt);
            var r := Step(cfg, h, t);
            && r.handed == h.handed + NewlyHanded(cfg, h.queue[i], t)
            && (r.running ==> Carried(cfg, MoveToLast(h.queue, i)[|h.queue| - 1 := Treated(cfg, h.queue[i], t)], r.queue))
            && (!t.stopped ==> r.running)
  {
    var i := FirstReady(h.queue, t.popAt);
    var j, h1 := h.queue[i], h.(queue := MoveToLast(h.queue, i));
    if Ran(cfg, j, t).Some? {
      RunCarries(cfg, h1, j, t);
    } else {
      NotRunCarries(cfg, h1, j, t);
    }
  }

  lemma RunCarries(cfg: Config, h: Host, j: Job, t: Tick)
    requires ConfigOk(cfg) && TickOk(cfg, t) && HostOk(h) && h.queue != [] && h.queue[|h.queue| - 1] == j
    requires Ran(cfg, j, t).Some?
    ensures var r := RunJob(cfg, h, j, t);
            && r.handed == h.handed + NewlyHanded(cfg, j, t)
            && Carried(cfg, h.queue[|h.queue| - 1 := Treated(cfg, j, t)], r.queue)
            && r.running == h.running
  {
    FinishCarries(cfg, h, |h.queue| - 1, Executed(cfg.hash, j, Ran(cfg, j, t).value, t), t);
  }

  lemma NotRunCarries(cfg: Config, h: Host, j: Job, t: Tick)
    requires ConfigOk(cfg) && TickOk(cfg, t) && HostOk(h) && h.queue != [] && h.queue[|h.queue| - 1] == j
    requires Ran(cfg, j, t).None?
    ensures var r := RunJob(cfg, h, j, t);
            && r.handed == h.handed
            && (r.running ==> Carried(cfg, h.queue[|h.queue| - 1 := Treated(cfg, j, t)], r.queue))
            && (!t.stopped ==> r.running == h.running)
  {
    assert h.queue[|h.queue| - 1 := j] == h.queue;
  }
}
