/** One host's collection loop on values: a turn of the loop is a function of the host
    and of what the environment does during that turn. */
module HostModel {
  import opened Common
  import opened JobModel
  import opened Registry

  const STAGES: nat := 5

  /** What executing a job leaves in it. Done resets the error count; Failure raises it
      and may leave output behind; Untracked writes a result and nothing else, as the
      built-in jobs do (and, with None, a protocol that cannot look its poll up). */
  datatype Outcome =
    | Done(result: Option<Bytes>)
    | Failure(error: string, partial: Option<Bytes>)
    | Untracked(result: Option<Bytes>)

  /** The fixed surroundings of a host. `groups` holds the profiles of each boot stage, None
      where the stage is unknown; `lookup` resolves (profile, job) to its poll. */
  datatype Config = Config(
    linksId: string,
    groups: seq<Option<seq<Model>>>,
    models: map<string, Model>,
    lookup: map<(string, string), Poll>,
    collectors: set<int>,
    hash: Bytes -> int)

  /** What the environment contributes to one turn: clock readings, the outcome of the
      execution, the result of a built-in job, the profile a system MIB identifies, the
      iteration order of every profile inserted (by stage and position, STAGES for the
      identified one), whether an admission event ends a wait, and whether the host is
      stopped during the execution. */
  datatype Tick = Tick(
    popAt: int,
    startAt: int,
    endAt: int,
    outcome: Outcome,
    local: Option<Bytes>,
    identified: Option<string>,
    order: (nat, nat) -> seq<string>,
    admission: bool,
    stopped: bool)

  /** What is handed to the parser. */
  datatype Handover = Handover(key: string, result: Option<Bytes>)

  type Stage = map<string, bool>

  datatype Host = Host(
    queue: seq<Job>,
    stages: seq<Option<Stage>>,
    current: nat,
    handed: seq<Handover>,
    profile: string,
    running: bool)

  predicate IsStatic(name: string) {
    name == "ipAddress" || name == "deviceStatus"
  }

  ghost predicate ConfigOk(cfg: Config) {
    && |cfg.groups| == STAGES
    && forall n :: n in cfg.models ==> ModelOk(cfg.models[n])
  }

  /** The order lists the jobs of the profile, if the profile is known. */
  ghost predicate Orders(cfg: Config, name: string, order: seq<string>) {
    name in cfg.models ==> Enumerates(order, cfg.models[name].polling.Keys)
  }

  ghost predicate StageOrders(cfg: Config, stage: nat, order: (nat, nat) -> seq<string>)
    requires stage < |cfg.groups|
  {
    cfg.groups[stage].Some? ==>
      forall i :: 0 <= i < |cfg.groups[stage].value| ==>
        Orders(cfg, cfg.groups[stage].value[i].name, order(stage, i))
  }

  ghost predicate TickOk(cfg: Config, t: Tick)
    requires ConfigOk(cfg)
  {
    && (forall stage :: 0 <= stage < STAGES ==> StageOrders(cfg, stage, t.order))
    && (t.identified.Some? ==> Orders(cfg, t.identified.value, t.order(STAGES, 0)))
    && (t.outcome.Failure? ==> t.outcome.error != "")
  }

  ghost predicate HostOk(h: Host) {
    && ValidQueue(h.queue)
    && |h.stages| == STAGES
    && h.current <= STAGES
    && (h.current < STAGES ==> h.stages[h.current].Some?)
  }

  // ----- executing and judging a job

  function ApplyOutcome(j: Job, o: Outcome): Job {
    match o
    case Done(r) => j.(result := r, errorCount := 0)
    case Failure(e, r) => j.(result := r, error := e, errorCount := j.errorCount + 1)
    case Untracked(r) => j.(result := r)
  }

  function Slower(j: Job): Job {
    if j.result.Some? && j.current < |j.cadences| - 1 then j.(current := j.current + 1) else j
  }

  predicate DiffersFromHash(hash: Bytes -> int, lastHash: int, result: Option<Bytes>) {
    if lastHash == 0 && result.None? then false
    else if lastHash == 0 || result.None? then true
    else HashBytes(hash, result) != lastHash
  }

  /** The finished job with its cadence level moved, and whether it is handed over. */
  function Judge(hash: Bytes -> int, j: Job): (Job, bool) {
    if j.error != "" then (j.(current := 0), false)
    else if j.always then (j, true)
    else (Slower(j), DiffersFromHash(hash, j.lastHash, j.result))
  }

  function Executed(hash: Bytes -> int, j: Job, o: Outcome, t: Tick): Job {
    ApplyOutcome(MarkStarted(hash, j, t.startAt), o).(ended := t.endAt)
  }

  // ----- boot stages

  /** The names a profile contributes to a stage: its polls that have a collector. */
  function CountedNames(cfg: Config, m: Model): set<string> {
    set n | n in m.polling && m.polling[n].protocol in cfg.collectors :: m.polling[n].name
  }

  predicate HasLinksMatch(cfg: Config, ms: seq<Model>) {
    cfg.linksId != "" && exists i :: 0 <= i < |ms| && ms[i].name == cfg.linksId
  }

  predicate Runs(cfg: Config, ms: seq<Model>, m: Model) {
    HasLinksMatch(cfg, ms) ==> m.name == cfg.linksId
  }

  /** The names a stage waits for when it looks at one profile more. */
  function VisitedNames(cfg: Config, names: set<string>, ms: seq<Model>, m: Model): set<string> {
    names + if Runs(cfg, ms, m) then CountedNames(cfg, m) else {}
  }

  /** The queue after one profile more was looked at. */
  function VisitedQueue(cfg: Config, q: seq<Job>, ms: seq<Model>, m: Model, order: seq<string>): seq<Job>
    requires Orders(cfg, m.name, order)
  {
    if Runs(cfg, ms, m) && CountedNames(cfg, m) != {} then InsertModel(cfg.models, q, m.name, order) else q
  }

  function StageNames(cfg: Config, ms: seq<Model>, n: nat): set<string>
    requires n <= |ms|
  {
    if n == 0 then {} else VisitedNames(cfg, StageNames(cfg, ms, n - 1), ms, ms[n - 1])
  }

  /** The queue after the first `n` profiles of the stage were looked at. */
  function StageQueue(cfg: Config, q: seq<Job>, stage: nat, ms: seq<Model>, n: nat,
                      order: (nat, nat) -> seq<string>): seq<Job>
    requires n <= |ms|
    requires forall i :: 0 <= i < n ==> Orders(cfg, ms[i].name, order(stage, i))
  {
    if n == 0 then q
    else
      var r := StageQueue(cfg, q, stage, ms, n - 1, order);
      assert Orders(cfg, ms[n - 1].name, order(stage, n - 1));
      VisitedQueue(cfg, r, ms, ms[n - 1], order(stage, n - 1))
  }

  /** A stage none of whose jobs has finished yet. */
  function Pending(names: set<string>): Stage {
    map n | n in names :: false
  }

  predicate Complete(s: Stage) {
    forall n :: n in s ==> s[n]
  }

  function MarkComplete(s: Stage, name: string): Stage {
    if name in s then s[name := true] else s
  }

  /** The host with the given stage set up and its jobs inserted. */
  function EnterStage(cfg: Config, h: Host, stage: nat, order: (nat, nat) -> seq<string>): Host
    requires ConfigOk(cfg) && |h.stages| == STAGES && stage < STAGES
    requires StageOrders(cfg, stage, order)
  {
    match cfg.groups[stage]
    case None => h.(current := stage, stages := h.stages[stage := Some(map[])])
    case Some(ms) =>
      var names := StageNames(cfg, ms, |ms|);
      h.(current := stage,
         stages := h.stages[stage := Some(Pending(names))],
         queue := StageQueue(cfg, h.queue, stage, ms, |ms|, order))
  }

  /** Moves on over every complete stage. */
  function Advance(cfg: Config, h: Host, order: (nat, nat) -> seq<string>): Host
    requires ConfigOk(cfg) && |h.stages| == STAGES
    requires h.current < STAGES && h.stages[h.current].Some?
    requires forall stage :: 0 <= stage < STAGES ==> StageOrders(cfg, stage, order)
    decreases STAGES - h.current
  {
    if !Complete(h.stages[h.current].value) then h
    else if h.current + 1 >= STAGES then h.(current := h.current + 1)
    else Advance(cfg, EnterStage(cfg, h, h.current + 1, order), order)
  }

  // ----- one turn of the loop

  /** The job holds a system MIB that identifies a device which has no profile yet. */
  predicate Recognizes(profile: string, j: Job, t: Tick) {
    && j.name == "systemMib" && profile == ""
    && j.result.Some? && |j.result.value| >= 3
    && t.identified.Some? && t.identified.value != "boot03"
  }

  /** The first system MIB that identifies the device brings in the jobs of its profile. */
  function Identify(cfg: Config, h: Host, j: Job, t: Tick): Host
    requires ConfigOk(cfg) && TickOk(cfg, t)
  {
    if Recognizes(h.profile, j, t)
    then h.(profile := t.identified.value,
            queue := InsertModel(cfg.models, h.queue, t.identified.value, t.order(STAGES, 0)))
    else h
  }

  /** Judging the job at position `p` of the queue, which has just finished as `j`. */
  function JudgeAt(cfg: Config, h: Host, p: nat, j: Job, t: Tick): Host
    requires ConfigOk(cfg) && TickOk(cfg, t) && p < |h.queue|
  {
    var (judged, hand) := Judge(cfg.hash, j);
    var h1 := h.(queue := h.queue[p := judged]);
    if hand then Identify(cfg, h1.(handed := h.handed + [Handover(Key(judged), judged.result)]), judged, t) else h1
  }

  function CompleteBoot(cfg: Config, h: Host, name: string, t: Tick): Host
    requires ConfigOk(cfg) && TickOk(cfg, t)
    requires |h.stages| == STAGES
    requires h.current < STAGES ==> h.stages[h.current].Some?
  {
    if h.current < STAGES then
      var s := MarkComplete(h.stages[h.current].value, name);
      Advance(cfg, h.(stages := h.stages[h.current := Some(s)]), t.order)
    else h
  }

  function Finish(cfg: Config, h: Host, p: nat, j: Job, t: Tick): Host
    requires ConfigOk(cfg) && TickOk(cfg, t) && p < |h.queue|
    requires |h.stages| == STAGES
    requires h.current < STAGES ==> h.stages[h.current].Some?
  {
    CompleteBoot(cfg, JudgeAt(cfg, h, p, j, t), j.name, t)
  }

  function Step(cfg: Config, h: Host, t: Tick): Host
    requires ConfigOk(cfg) && TickOk(cfg, t) && HostOk(h)
  {
    var i := FirstReady(h.queue, t.popAt);
    if i == |h.queue| then
      if t.admission then h.(queue := Expedited(h.queue)) else h
    else
      RunJob(cfg, h.(queue := MoveToLast(h.queue, i)), h.queue[i], t)
  }

  /** What happens to the popped job `j`, by now the last of the queue. */
  function RunJob(cfg: Config, h: Host, j: Job, t: Tick): Host
    requires ConfigOk(cfg) && TickOk(cfg, t)
    requires |h.queue| > 0
    requires |h.stages| == STAGES
    requires h.current < STAGES ==> h.stages[h.current].Some?
  {
    var last := |h.queue| - 1;
    if (j.pollaris, j.name) !in cfg.lookup then h
    else if IsStatic(j.name) then
      Finish(cfg, h, last, Executed(cfg.hash, j, Untracked(t.local), t), t)
    else if cfg.lookup[(j.pollaris, j.name)].protocol !in cfg.collectors then
      h.(queue := h.queue[last := MarkStarted(cfg.hash, j, t.startAt).(ended := t.endAt, enabled := false)])
    else if t.stopped then h.(queue := [], running := false)
    else
      Finish(cfg, h, last, Executed(cfg.hash, j, t.outcome, t), t)
  }

  /** A host that was created and not started. */
  function IdleHost(): Host {
    Host([], [None, None, None, None, None], 0, [], "", true)
  }

  /** The host when its collection loop begins. */
  function Launch(cfg: Config, order: (nat, nat) -> seq<string>): (h: Host)
    requires ConfigOk(cfg) && StageOrders(cfg, 0, order)
    ensures HostOk(h)
  {
    EnterStageOk(cfg, IdleHost(), 0, order);
    EnterStage(cfg, IdleHost(), 0, order)
  }

  // ----- whole runs

  ghost predicate TicksOk(cfg: Config, ts: seq<Tick>)
    requires ConfigOk(cfg)
  {
    forall i :: 0 <= i < |ts| ==> TickOk(cfg, ts[i])
  }

  /** The loop: turn after turn until the host is stopped. */
  function Run(cfg: Config, h: Host, ts: seq<Tick>): Host
    requires ConfigOk(cfg) && TicksOk(cfg, ts) && HostOk(h)
    decreases |ts|
  {
    if ts == [] || !h.running then h
    else
      StepOk(cfg, h, ts[0]);
      Run(cfg, Step(cfg, h, ts[0]), ts[1..])
  }

  lemma {:induction false} StageQueueOk(cfg: Config, q: seq<Job>, stage: nat, ms: seq<Model>, n: nat,
                                        order: (nat, nat) -> seq<string>)
    requires ConfigOk(cfg) && ValidQueue(q) && n <= |ms|
    requires forall i :: 0 <= i < n ==> Orders(cfg, ms[i].name, order(stage, i))
    ensures ValidQueue(StageQueue(cfg, q, stage, ms, n, order))
    ensures |q| <= |StageQueue(cfg, q, stage, ms, n, order)|
  {
    if n > 0 {
      StageQueueOk(cfg, q, stage, ms, n - 1, order);
      InsertModelOk(cfg, StageQueue(cfg, q, stage, ms, n - 1, order), ms[n - 1].name, order(stage, n - 1));
    }
  }

  lemma InsertModelOk(cfg: Config, q: seq<Job>, name: string, order: seq<string>)
    requires ConfigOk(cfg) && ValidQueue(q) && Orders(cfg, name, order)
    ensures ValidQueue(InsertModel(cfg.models, q, name, order))
    ensures |q| <= |InsertModel(cfg.models, q, name, order)|
  {
    if name in cfg.models {
      InsertFirstValid(q, JobsOf(cfg.models[name], order), |order|);
    }
  }

  lemma EnterStageOk(cfg: Config, h: Host, stage: nat, order: (nat, nat) -> seq<string>)
    requires ConfigOk(cfg) && ValidQueue(h.queue) && |h.stages| == STAGES && stage < STAGES
    requires StageOrders(cfg, stage, order)
    ensures HostOk(EnterStage(cfg, h, stage, order))
  {
    match cfg.groups[stage]
    case None =>
    case Some(ms) => StageQueueOk(cfg, h.queue, stage, ms, |ms|, order);
  }

  lemma {:induction false} AdvanceOk(cfg: Config, h: Host, order: (nat, nat) -> seq<string>)
    requires ConfigOk(cfg) && HostOk(h) && h.current < STAGES
    requires forall stage :: 0 <= stage < STAGES ==> StageOrders(cfg, stage, order)
    ensures HostOk(Advance(cfg, h, order))
    decreases STAGES - h.current
  {
    if Complete(h.stages[h.current].value) && h.current + 1 < STAGES {
      EnterStageOk(cfg, h, h.current + 1, order);
      AdvanceOk(cfg, EnterStage(cfg, h, h.current + 1, order), order);
    }
  }

  lemma FinishOk(cfg: Config, h: Host, p: nat, j: Job, t: Tick)
    requires ConfigOk(cfg) && TickOk(cfg, t) && HostOk(h) && p < |h.queue|
    requires Key(j) == Key(h.queue[p]) && CadenceOk(j)
    ensures HostOk(Finish(cfg, h, p, j, t))
  {
    var (judged, hand) := Judge(cfg.hash, j);
    var h1 := h.(queue := h.queue[p := judged]);
    assert ValidQueue(h1.queue);
    if t.identified.Some? {
      InsertModelOk(cfg, h1.queue, t.identified.value, t.order(STAGES, 0));
    }
    var h2 := JudgeAt(cfg, h, p, j, t);
    assert HostOk(h2);
    if h2.current < STAGES {
      var s := MarkComplete(h2.stages[h2.current].value, j.name);
      AdvanceOk(cfg, h2.(stages := h2.stages[h2.current := Some(s)]), t.order);
    }
  }

  lemma RunJobOk(cfg: Config, h: Host, j: Job, t: Tick)
    requires ConfigOk(cfg) && TickOk(cfg, t) && HostOk(h)
    requires |h.queue| > 0 && h.queue[|h.queue| - 1] == j
    ensures HostOk(RunJob(cfg, h, j, t))
  {
    if IsStatic(j.name) {
      ExecutedOk(cfg, h, j, Untracked(t.local), t);
    } else {
      ExecutedOk(cfg, h, j, t.outcome, t);
      SkippedOk(cfg, h, j, t);
    }
  }

  lemma ExecutedOk(cfg: Config, h: Host, j: Job, o: Outcome, t: Tick)
    requires ConfigOk(cfg) && TickOk(cfg, t) && HostOk(h)
    requires |h.queue| > 0 && h.queue[|h.queue| - 1] == j
    ensures HostOk(Finish(cfg, h, |h.queue| - 1, Executed(cfg.hash, j, o, t), t))
  {
    FinishOk(cfg, h, |h.queue| - 1, Executed(cfg.hash, j, o, t), t);
  }

  lemma SkippedOk(cfg: Config, h: Host, j: Job, t: Tick)
    requires HostOk(h) && |h.queue| > 0 && h.queue[|h.queue| - 1] == j
    ensures var x := MarkStarted(cfg.hash, j, t.startAt).(ended := t.endAt, enabled := false);
            HostOk(h.(queue := h.queue[|h.queue| - 1 := x]))
  {
  }

  /** Every turn keeps the host well formed. */
  lemma StepOk(cfg: Config, h: Host, t: Tick)
    requires ConfigOk(cfg) && TickOk(cfg, t) && HostOk(h)
    ensures HostOk(Step(cfg, h, t))
  {
    var i := FirstReady(h.queue, t.popAt);
    if i == |h.queue| {
      ExpeditedValid(h.queue);
    } else {
      AfterPopValid(h.queue, t.popAt);
      MoveToLastAt(h.queue, i, |h.queue| - 1);
      RunJobOk(cfg, h.(queue := MoveToLast(h.queue, i)), h.queue[i], t);
    }
  }

  lemma RunFrom(cfg: Config, h: Host, ts: seq<Tick>, i: nat)
    requires ConfigOk(cfg) && TicksOk(cfg, ts) && HostOk(h) && h.running && i < |ts|
    ensures HostOk(Step(cfg, h, ts[i]))
    ensures Run(cfg, h, ts[i..]) == Run(cfg, Step(cfg, h, ts[i]), ts[i + 1..])
  {
    StepOk(cfg, h, ts[i]);
    assert ts[i..][1..] == ts[i + 1..];
  }
}
