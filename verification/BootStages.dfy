/** What a boot stage waits for and what it puts into the queue, in terms of the profiles of
    the stage and of the registry; when a stage is left; and what identifying the device adds. */
module BootStages {
  import opened Common
  import opened JobModel
  import opened Registry
  import opened HostModel
  import opened HostSteps
  import opened JobHistories
  import opened BootSafety
  import opened BootProgress
  import opened BootExact

  /** The profile at position `i` concerns this target: it carries the target's links id, or
      the target has none, or no profile of the stage carries it. */
  ghost predicate Concerns(linksId: string, ms: seq<Model>, i: int) {
    0 <= i < |ms| && (ms[i].name == linksId || linksId == "" || forall k :: 0 <= k < |ms| ==> ms[k].name != linksId)
  }

  /** The profile has a poll of this own name that some collector can serve. */
  ghost predicate Polls(cfg: Config, m: Model, name: string) {
    exists n :: n in m.polling && m.polling[n].protocol in cfg.collectors && m.polling[n].name == name
  }

  lemma ConcernsIsRuns(cfg: Config, ms: seq<Model>, i: nat)
    requires i < |ms|
    ensures Runs(cfg, ms, ms[i]) <==> Concerns(cfg.linksId, ms, i)
  {
  }

  lemma PollsIsCounted(cfg: Config, m: Model, name: string)
    ensures name in CountedNames(cfg, m) <==> Polls(cfg, m, name)
  {
  }

  lemma {:induction false} NamesOfStage(cfg: Config, ms: seq<Model>, n: nat, name: string)
    requires n <= |ms|
    ensures name in StageNames(cfg, ms, n) <==> exists i :: 0 <= i < n && Concerns(cfg.linksId, ms, i) && Polls(cfg, ms[i], name)
  {
    if n > 0 {
      NamesOfStage(cfg, ms, n - 1, name);
      ConcernsIsRuns(cfg, ms, n - 1);
      PollsIsCounted(cfg, ms[n - 1], name);
    }
  }

  /** A stage waits for a name if and only if it is the own name of a poll with a collector,
      in a profile of the stage that concerns this target. */
  lemma WaitedFor(cfg: Config, h: Host, stage: nat, order: (nat, nat) -> seq<string>, name: string)
    requires ConfigOk(cfg) && |h.stages| == STAGES && stage < STAGES && StageOrders(cfg, stage, order)
    ensures var r := EnterStage(cfg, h, stage, order);
            && r == h.(current := stage, stages := r.stages, queue := r.queue)
            && |r.stages| == 5 && r.stages[stage].Some?
            && (forall s :: 0 <= s < 5 && s != stage ==> r.stages[s] == h.stages[s])
            && (name in r.stages[stage].value ==> r.stages[stage].value[name] == false)
            && (name in r.stages[stage].value <==>
                  && cfg.groups[stage].Some?
                  && exists i :: Concerns(cfg.linksId, cfg.groups[stage].value, i) && Polls(cfg, cfg.groups[stage].value[i], name))
  {
    match cfg.groups[stage]
    case None =>
    case Some(ms) => NamesOfStage(cfg, ms, |ms|, name);
  }

  /** The stage inserts this profile of the registry: one that concerns the target, with a
      poll that some collector can serve. */
  ghost predicate Fills(cfg: Config, ms: seq<Model>, i: int) {
    && Concerns(cfg.linksId, ms, i) && ms[i].name in cfg.models
    && exists n :: n in ms[i].polling && ms[i].polling[n].protocol in cfg.collectors
  }

  lemma FillsIsInserts(cfg: Config, ms: seq<Model>, i: nat)
    requires i < |ms|
    ensures Runs(cfg, ms, ms[i]) && CountedNames(cfg, ms[i]) != {} && ms[i].name in cfg.models <==> Fills(cfg, ms, i)
  {
    ConcernsIsRuns(cfg, ms, i);
    if n :| n in ms[i].polling && ms[i].polling[n].protocol in cfg.collectors {
      assert ms[i].polling[n].name in CountedNames(cfg, ms[i]);
    }
  }

  /** The job of an enabled poll of the profile, as new. */
  ghost predicate NewJob(m: Model, j: Job) {
    && j.name in m.polling && j.pollaris == m.name
    && var p := m.polling[j.name];
       p.enabled && j == Job(m.name, j.name, p.always, true, p.current, p.cadences, 0, 0, None, "", 0, 0)
  }

  /** The new job of an enabled poll of one of the profiles inserted. */
  ghost predicate Added(cfg: Config, ms: seq<Model>, j: Job) {
    exists i :: Fills(cfg, ms, i) && NewJob(cfg.models[ms[i].name], j)
  }

  /** One of the profiles inserted has an enabled poll whose job reads like this. */
  ghost predicate Meant(cfg: Config, ms: seq<Model>, key: string) {
    exists i, n ::
      && Fills(cfg, ms, i) && n in cfg.models[ms[i].name].polling && cfg.models[ms[i].name].polling[n].enabled
      && cfg.models[ms[i].name].name + n == key
  }

  /** The second list is the first one with jobs of the profiles inserted: the old jobs keep
      their places, those of the profiles with their times at zero; behind them come new ones. */
  ghost predicate Filled(cfg: Config, ms: seq<Model>, a: seq<Job>, b: seq<Job>) {
    && |a| <= |b|
    && (forall p :: 0 <= p < |a| ==>
          b[p] == a[p] || (b[p] == a[p].(started := 0, ended := 0) && Meant(cfg, ms, a[p].pollaris + a[p].name)))
    && (forall p :: |a| <= p < |b| ==> Added(cfg, ms, b[p]))
  }

  /** A job that reads like this and has not ended. */
  ghost predicate Waiting(q: seq<Job>, key: string) {
    exists p :: 0 <= p < |q| && q[p].pollaris + q[p].name == key && q[p].ended == 0
  }

  lemma FilledItself(cfg: Config, ms: seq<Model>, q: seq<Job>)
    ensures Filled(cfg, ms, q, q)
  {
  }

  lemma FilledTransitive(cfg: Config, ms: seq<Model>, a: seq<Job>, b: seq<Job>, c: seq<Job>)
    requires Filled(cfg, ms, a, b) && Filled(cfg, ms, b, c)
    ensures Filled(cfg, ms, a, c)
  {
    forall p | |a| <= p < |c| ensures Added(cfg, ms, c[p]) {
      if p < |b| {
        assert Added(cfg, ms, b[p]);
        AddedIsNew(cfg, ms, b[p]);
      }
    }
  }

  lemma AddedIsNew(cfg: Config, ms: seq<Model>, j: Job)
    requires Added(cfg, ms, j)
    ensures j.(started := 0, ended := 0) == j
  {
  }

  lemma FilledKeepsWaiting(cfg: Config, ms: seq<Model>, a: seq<Job>, b: seq<Job>, key: string)
    requires Filled(cfg, ms, a, b) && Waiting(a, key)
    ensures Waiting(b, key)
  {
    var p :| 0 <= p < |a| && a[p].pollaris + a[p].name == key && a[p].ended == 0;
    assert b[p].pollaris + b[p].name == key && b[p].ended == 0;
  }

  lemma InsertOneFills(cfg: Config, ms: seq<Model>, i: int, q: seq<Job>, name: string)
    requires Fills(cfg, ms, i) && name in cfg.models[ms[i].name].polling
    ensures Filled(cfg, ms, q, InsertOne(q, JobFor(cfg.models[ms[i].name], name)))
  {
    var j := JobFor(cfg.models[ms[i].name], name);
    if j.enabled {
      assert NewJob(cfg.models[ms[i].name], j);
      assert Meant(cfg, ms, j.pollaris + j.name);
    }
  }

  lemma {:induction false} InsertFills(cfg: Config, ms: seq<Model>, i: int, q: seq<Job>, order: seq<string>, n: nat)
    requires Fills(cfg, ms, i) && n <= |order| && forall x :: x in order ==> x in cfg.models[ms[i].name].polling
    ensures Filled(cfg, ms, q, InsertFirst(q, JobsOf(cfg.models[ms[i].name], order), n))
  {
    if n > 0 {
      var before := InsertFirst(q, JobsOf(cfg.models[ms[i].name], order), n - 1);
      InsertFills(cfg, ms, i, q, order, n - 1);
      InsertOneFills(cfg, ms, i, before, order[n - 1]);
      FilledTransitive(cfg, ms, q, before, InsertFirst(q, JobsOf(cfg.models[ms[i].name], order), n));
    } else {
      FilledItself(cfg, ms, q);
    }
  }

  /** Looking at one profile of the stage. */
  lemma VisitFills(cfg: Config, ms: seq<Model>, i: nat, q: seq<Job>, order: seq<string>)
    requires i < |ms| && Orders(cfg, ms[i].name, order)
    ensures Filled(cfg, ms, q, VisitedQueue(cfg, q, ms, ms[i], order))
  {
    FillsIsInserts(cfg, ms, i);
    if Fills(cfg, ms, i) {
      InsertFills(cfg, ms, i, q, order, |order|);
    } else {
      FilledItself(cfg, ms, q);
    }
  }

  /** A profile that is inserted has a job for each of its enabled polls. */
  lemma VisitMeets(cfg: Config, ms: seq<Model>, i: nat, q: seq<Job>, order: seq<string>, n: string)
    requires Fills(cfg, ms, i) && Orders(cfg, ms[i].name, order)
    requires n in cfg.models[ms[i].name].polling && cfg.models[ms[i].name].polling[n].enabled
    ensures Waiting(VisitedQueue(cfg, q, ms, ms[i], order), cfg.models[ms[i].name].name + n)
  {
    FillsIsInserts(cfg, ms, i);
    var k :| 0 <= k < |order| && order[k] == n;
    var r := InsertModel(cfg.models, q, ms[i].name, order);
    var p := InsertMakesDue(q, JobsOf(cfg.models[ms[i].name], order), |order|, k);
    assert r[p].pollaris + r[p].name == cfg.models[ms[i].name].name + n;
  }

  lemma {:induction false} StageQueueFills(cfg: Config, q: seq<Job>, stage: nat, ms: seq<Model>, n: nat,
                                           order: (nat, nat) -> seq<string>)
    requires n <= |ms| && forall i :: 0 <= i < n ==> Orders(cfg, ms[i].name, order(stage, i))
    ensures Filled(cfg, ms, q, StageQueue(cfg, q, stage, ms, n, order))
  {
    if n > 0 {
      var before := StageQueue(cfg, q, stage, ms, n - 1, order);
      StageQueueFills(cfg, q, stage, ms, n - 1, order);
      VisitFills(cfg, ms, n - 1, before, order(stage, n - 1));
      FilledTransitive(cfg, ms, q, before, StageQueue(cfg, q, stage, ms, n, order));
    } else {
      FilledItself(cfg, ms, q);
    }
  }

  lemma {:induction false} StageQueueMeets(cfg: Config, q: seq<Job>, stage: nat, ms: seq<Model>, n: nat,
                                           order: (nat, nat) -> seq<string>, i: nat, name: string)
    requires i < n <= |ms| && forall k :: 0 <= k < n ==> Orders(cfg, ms[k].name, order(stage, k))
    requires Fills(cfg, ms, i) && name in cfg.models[ms[i].name].polling && cfg.models[ms[i].name].polling[name].enabled
    ensures Waiting(StageQueue(cfg, q, stage, ms, n, order), cfg.models[ms[i].name].name + name)
  {
    var before := StageQueue(cfg, q, stage, ms, n - 1, order);
    if i == n - 1 {
      VisitMeets(cfg, ms, i, before, order(stage, i), name);
    } else {
      StageQueueMeets(cfg, q, stage, ms, n - 1, order, i, name);
      VisitFills(cfg, ms, n - 1, before, order(stage, n - 1));
      FilledKeepsWaiting(cfg, ms, before, StageQueue(cfg, q, stage, ms, n, order), cfg.models[ms[i].name].name + name);
    }
  }

  /** Entering a stage inserts the jobs of those profiles of the registry that it names, that
      concern the target and that have a poll with a collector: all enabled ones wait there
      from then on, nothing else joins the queue, and no other job changes. */
  lemma StageAdds(cfg: Config, h: Host, stage: nat, ms: seq<Model>, order: (nat, nat) -> seq<string>, key: string)
    requires ConfigOk(cfg) && |h.stages| == STAGES && stage < STAGES && StageOrders(cfg, stage, order)
    requires cfg.groups[stage] == Some(ms)
    ensures var r := EnterStage(cfg, h, stage, order);
            Filled(cfg, ms, h.queue, r.queue) && (Meant(cfg, ms, key) ==> Waiting(r.queue, key))
  {
    StageQueueFills(cfg, h.queue, stage, ms, |ms|, order);
    if Meant(cfg, ms, key) {
      var i, n :| Fills(cfg, ms, i) && n in cfg.models[ms[i].name].polling && cfg.models[ms[i].name].polling[n].enabled
                  && cfg.models[ms[i].name].name + n == key;
      StageQueueMeets(cfg, h.queue, stage, ms, |ms|, order, i, n);
    }
  }

  /** An unknown stage adds nothing. */
  lemma UnknownStageAdds(cfg: Config, h: Host, stage: nat, order: (nat, nat) -> seq<string>)
    requires ConfigOk(cfg) && |h.stages| == STAGES && stage < STAGES && cfg.groups[stage].None?
    ensures EnterStage(cfg, h, stage, order) == h.(current := stage, stages := h.stages[stage := Some(map[])])
  {
  }

  /** A profile that carries another name than the links id, while one of the stage carries it,
      contributes neither names nor jobs. */
  lemma ForeignProfile(cfg: Config, h: Host, stage: nat, order: (nat, nat) -> seq<string>,
                       own: Model, foreign: Model, n: string, p: nat)
    requires ConfigOk(cfg) && |h.stages| == STAGES && stage < STAGES && StageOrders(cfg, stage, order)
    requires cfg.groups[stage] == Some([own, foreign]) && cfg.linksId == own.name != "" && foreign.name != own.name
    requires own.name in cfg.models && cfg.models[own.name].name == own.name
    ensures var r := EnterStage(cfg, h, stage, order);
            && (n in r.stages[stage].value ==> Polls(cfg, own, n))
            && (|h.queue| <= p < |r.queue| ==> r.queue[p].pollaris == own.name)
  {
    var ms := [own, foreign];
    WaitedFor(cfg, h, stage, order, n);
    StageAdds(cfg, h, stage, ms, order, "");
    assert ms[0].name == cfg.linksId && ms[1].name != cfg.linksId;
    assert !Concerns(cfg.linksId, ms, 1);
  }

  /** A host starts in the first stage, with nothing queued but that stage's jobs. */
  lemma StartsInStageZero(cfg: Config, order: (nat, nat) -> seq<string>)
    requires ConfigOk(cfg) && StageOrders(cfg, 0, order)
    ensures Launch(cfg, order) == EnterStage(cfg, Host([], [None, None, None, None, None], 0, [], "", true), 0, order)
    ensures Launch(cfg, order).current == 0
  {
  }

  // ----- the same for the conditions of the boot theorems

  /** What the boot theorems call counted and inserted, in these terms. */
  lemma CountsExactly(cfg: Config, stage: nat, name: string)
    requires ConfigOk(cfg)
    ensures Counts(cfg, stage, name) <==>
              stage < 5 && cfg.groups[stage].Some?
              && exists i :: Concerns(cfg.linksId, cfg.groups[stage].value, i) && Polls(cfg, cfg.groups[stage].value[i], name)
  {
    if stage < STAGES && cfg.groups[stage].Some? {
      NamesOfStage(cfg, cfg.groups[stage].value, |cfg.groups[stage].value|, name);
    }
  }

  lemma InsertsExactly(cfg: Config, stage: nat, m: string)
    requires ConfigOk(cfg)
    ensures StageInserts(cfg, stage, m) <==>
              stage < 5 && cfg.groups[stage].Some?
              && exists i :: Fills(cfg, cfg.groups[stage].value, i) && cfg.groups[stage].value[i].name == m
  {
    if stage < STAGES && cfg.groups[stage].Some? {
      var ms := cfg.groups[stage].value;
      forall i | 0 <= i < |ms|
        ensures Runs(cfg, ms, ms[i]) && CountedNames(cfg, ms[i]) != {} && ms[i].name in cfg.models <==> Fills(cfg, ms, i)
      {
        FillsIsInserts(cfg, ms, i);
      }
    }
  }

  // ----- finishing jobs

  lemma {:induction false} AdvanceKeeps(cfg: Config, h: Host, order: (nat, nat) -> seq<string>)
    requires ConfigOk(cfg) && HostOk(h) && h.current < STAGES
    requires forall s :: 0 <= s < STAGES ==> StageOrders(cfg, s, order)
    ensures var r := Advance(cfg, h, order);
            && HostOk(r) && r.profile == h.profile && r.handed == h.handed
            && forall s :: 0 <= s <= h.current ==> r.stages[s] == h.stages[s]
    decreases STAGES - h.current
  {
    AdvanceOk(cfg, h, order);
    if Complete(h.stages[h.current].value) && h.current + 1 < STAGES {
      EnterStageOk(cfg, h, h.current + 1, order);
      AdvanceKeeps(cfg, EnterStage(cfg, h, h.current + 1, order), order);
    }
  }

  lemma BootKeeps(cfg: Config, h: Host, name: string, t: Tick)
    requires ConfigOk(cfg) && TickOk(cfg, t) && HostOk(h)
    ensures var r := CompleteBoot(cfg, h, name, t);
            && HostOk(r) && r.profile == h.profile && r.handed == h.handed
            && (h.current < STAGES ==> r.stages[h.current] == Marked(h, name).stages[h.current])
            && (h.current == STAGES ==> r == h)
  {
    if h.current < STAGES {
      AdvanceKeeps(cfg, Marked(h, name), t.order);
    }
  }

  lemma RunKeeps(cfg: Config, h: Host, i: nat, t: Tick)
    requires ConfigOk(cfg) && TickOk(cfg, t) && HostOk(h)
    requires i == FirstReady(h.queue, t.popAt) < |h.queue| && Ran(cfg, h.queue[i], t).Some?
    ensures var r, h2 := Step(cfg, h, t), Judged(cfg, h, i, t);
            && HostOk(r) && r.profile == h2.profile && r.handed == h2.handed
            && (h.current < STAGES ==> r.stages[h.current] == Some(MarkComplete(h.stages[h.current].value, h.queue[i].name)))
            && (h.current == STAGES ==> r.current == STAGES && r.stages == h.stages)
  {
    JudgedShape(cfg, h, i, t);
    BootKeeps(cfg, Judged(cfg, h, i, t), h.queue[i].name, t);
  }

  lemma MarkedIs(s: Stage, name: string)
    ensures var m := MarkComplete(s, name);
            m.Keys == s.Keys && forall n :: n in s ==> m[n] == (s[n] || n == name)
  {
  }

  lemma LeftWhenComplete(r: Host, c: nat)
    requires HostOk(r) && PassedComplete(r) && Settled(r) && c < STAGES && c <= r.current && r.stages[c].Some?
    ensures r.current > c <==> forall n :: n in r.stages[c].value ==> r.stages[c].value[n]
  {
  }

  /** A turn ticks off the name of the job it runs in the current stage, and no other; a turn
      that runs none leaves every stage alone. When a job has run, the stage is left if and
      only if all its names are ticked off. */
  lemma TicksOff(cfg: Config, h: Host, t: Tick)
    requires ConfigOk(cfg) && TickOk(cfg, t) && HostOk(h) && PassedComplete(h)
    ensures var r, i, c := Step(cfg, h, t), FirstReady(h.queue, t.popAt), h.current;
            if i < |h.queue| && Ran(cfg, h.queue[i], t).Some? then
              && HostOk(r)
              && (c < 5 ==>
                    && r.stages[c].Some? && r.stages[c].value.Keys == h.stages[c].value.Keys
                    && (forall n :: n in h.stages[c].value ==> r.stages[c].value[n] == (h.stages[c].value[n] || n == h.queue[i].name))
                    && (r.current > c <==> forall n :: n in r.stages[c].value ==> r.stages[c].value[n]))
              && (c == 5 ==> r.current == 5 && r.stages == h.stages)
            else r.current == c && r.stages == h.stages
  {
    var i := FirstReady(h.queue, t.popAt);
    StepSafe(cfg, h, t);
    if i < |h.queue| && Ran(cfg, h.queue[i], t).Some? {
      RunKeeps(cfg, h, i, t);
      if h.current < STAGES {
        MarkedIs(h.stages[h.current].value, h.queue[i].name);
        LeftWhenComplete(Step(cfg, h, t), h.current);
      }
    }
  }

  // ----- identifying the device

  lemma JudgedProfile(cfg: Config, h: Host, i: nat, t: Tick)
    requires ConfigOk(cfg) && TickOk(cfg, t) && HostOk(h)
    requires i == FirstReady(h.queue, t.popAt) < |h.queue| && Ran(cfg, h.queue[i], t).Some?
    ensures var h2, m := Judged(cfg, h, i, t), Adopts(cfg, h, t);
            && h2.profile == (if m.Some? then m.value else h.profile)
            && h2.handed == h.handed + NewlyHanded(cfg, h.queue[i], t)
  {
  }

  /** What the turn hands over is a system MIB that identifies a device. */
  ghost predicate Identifying(a: Host, r: Host, name: string, t: Tick) {
    && |r.handed| > |a.handed| && name == "systemMib"
    && r.handed[|a.handed|].result.Some? && |r.handed[|a.handed|].result.value| >= 3
    && t.identified.Some? && t.identified.value != "boot03"
  }

  lemma NotRunKeepsProfile(cfg: Config, h: Host, i: nat, t: Tick)
    requires ConfigOk(cfg) && TickOk(cfg, t) && HostOk(h)
    requires i == FirstReady(h.queue, t.popAt) < |h.queue| && Ran(cfg, h.queue[i], t).None?
    ensures Step(cfg, h, t).profile == h.profile && Step(cfg, h, t).handed == h.handed
  {
  }

  lemma AdoptsIdentified(cfg: Config, h: Host, r: Host, i: nat, t: Tick)
    requires i < |h.queue| && Ran(cfg, h.queue[i], t).Some? && r.handed == h.handed + NewlyHanded(cfg, h.queue[i], t)
    ensures AdoptsAt(cfg, h, i, t) == if h.profile == "" && Identifying(h, r, h.queue[i].name, t) then t.identified else None
  {
  }

  /** A turn gives the host the identified profile if and only if it hands over a system MIB,
      of three bytes or more, that identifies something else than the generic "boot03", and
      the host has no profile yet. */
  lemma AdoptsExactly(cfg: Config, h: Host, t: Tick)
    requires ConfigOk(cfg) && TickOk(cfg, t) && HostOk(h)
    ensures var i, r := FirstReady(h.queue, t.popAt), Step(cfg, h, t);
            r.profile == if i < |h.queue| && h.profile == "" && Identifying(h, r, h.queue[i].name, t)
                         then t.identified.value else h.profile
  {
    var i := FirstReady(h.queue, t.popAt);
    if i < |h.queue| && Ran(cfg, h.queue[i], t).Some? {
      RunKeeps(cfg, h, i, t);
      JudgedProfile(cfg, h, i, t);
      AdoptsIdentified(cfg, h, Step(cfg, h, t), i, t);
    } else if i < |h.queue| {
      NotRunKeepsProfile(cfg, h, i, t);
    }
  }

  lemma {:induction false} WaitingCarried(cfg: Config, a: seq<Job>, b: seq<Job>, key: string)
    requires Carried(cfg, a, b) && Waiting(a, key)
    ensures Waiting(b, key)
  {
    var p :| 0 <= p < |a| && a[p].pollaris + a[p].name == key && a[p].ended == 0;
    assert b[p].pollaris + b[p].name == key && b[p].ended == 0;
  }

  lemma BootCarriesQueue(cfg: Config, h: Host, name: string, t: Tick)
    requires ConfigOk(cfg) && TickOk(cfg, t) && HostOk(h)
    ensures Carried(cfg, h.queue, CompleteBoot(cfg, h, name, t).queue)
  {
    CarriedItself(cfg, h.queue);
    if h.current < STAGES {
      AdvanceCarries(cfg, Marked(h, name), t.order);
    }
  }

  /** From that turn on the enabled jobs of the profile wait in the queue. */
  lemma AdoptedJobsWait(cfg: Config, h: Host, t: Tick, n: string)
    requires ConfigOk(cfg) && TickOk(cfg, t) && HostOk(h)
    requires var i := FirstReady(h.queue, t.popAt);
             i < |h.queue| && h.profile == "" && Identifying(h, Step(cfg, h, t), h.queue[i].name, t)
    requires t.identified.value in cfg.models && n in cfg.models[t.identified.value].polling
    requires cfg.models[t.identified.value].polling[n].enabled
    ensures Waiting(Step(cfg, h, t).queue, cfg.models[t.identified.value].name + n)
  {
    var i, m := FirstReady(h.queue, t.popAt), t.identified.value;
    if Ran(cfg, h.queue[i], t).None? {
      NotRunKeepsProfile(cfg, h, i, t);
    } else {
      RunKeeps(cfg, h, i, t);
      JudgedProfile(cfg, h, i, t);
      AdoptsIdentified(cfg, h, Step(cfg, h, t), i, t);
      JudgedShape(cfg, h, i, t);
      JudgedQueue(cfg, h, i, t);
      ModelWaits(cfg, Moved(h.queue, i, Treated(cfg, h.queue[i], t)), m, t.order(STAGES, 0), n);
      BootCarriesQueue(cfg, Judged(cfg, h, i, t), h.queue[i].name, t);
      WaitingCarried(cfg, Judged(cfg, h, i, t).queue, Step(cfg, h, t).queue, cfg.models[m].name + n);
    }
  }

  lemma ModelWaits(cfg: Config, q: seq<Job>, m: string, order: seq<string>, n: string)
    requires m in cfg.models && Orders(cfg, m, order) && n in cfg.models[m].polling && cfg.models[m].polling[n].enabled
    ensures Waiting(InsertModel(cfg.models, q, m, order), cfg.models[m].name + n)
  {
    var k :| 0 <= k < |order| && order[k] == n;
    var p := InsertMakesDue(q, JobsOf(cfg.models[m], order), |order|, k);
    var r := InsertModel(cfg.models, q, m, order);
    assert r[p].pollaris + r[p].name == cfg.models[m].name + n;
  }
}
