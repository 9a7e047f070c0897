/** The boot sequence ends if and only if every counted name is available: the liveness half,
    under a clock that passes every time. */
module BootCompletion {
  import opened Common
  import opened JobModel
  import opened Registry
  import opened HostModel
  import opened HostSteps
  import opened BootSafety
  import opened BootProgress
  import opened BootExact
  import QueueRuns

  // ----- jobs that were brought in are there

  /** No other job that is brought in has the key of this one. */
  ghost predicate Unrivalled(cfg: Config, ids: iset<string>, m: string, n: string)
    requires ConfigOk(cfg) && m in cfg.models
  {
    forall m2, n2 ::
      Brought(cfg, ids, STAGES, m2) && Files(cfg, m2, n2) && JobKey(cfg.models[m2].name, n2) == JobKey(cfg.models[m].name, n) ==>
        cfg.models[m2].name == cfg.models[m].name && n2 == n
  }

  ghost predicate Holds(cfg: Config, q: seq<Job>, m: string, n: string)
    requires m in cfg.models
  {
    QueueRuns.Present(q, cfg.models[m].name, n)
  }

  /** The queue holds the jobs of the profile that have no rival. */
  ghost predicate HoldsAll(cfg: Config, ids: iset<string>, q: seq<Job>, m: string)
    requires ConfigOk(cfg) && m in cfg.models
  {
    forall n :: Files(cfg, m, n) && Unrivalled(cfg, ids, m, n) ==> Holds(cfg, q, m, n)
  }

  /** It holds those of the profiles that the stages up to `s` insert, and of the profiles
      `had` that were adopted. */
  ghost predicate AllHeld(cfg: Config, ids: iset<string>, had: iset<string>, s: int, q: seq<Job>)
    requires ConfigOk(cfg)
  {
    forall m :: Brought(cfg, had, s, m) ==> HoldsAll(cfg, ids, q, m)
  }

  /** Every job of `a` is in `b`, by its names. */
  ghost predicate KeepsJobs(a: seq<Job>, b: seq<Job>) {
    forall pollaris, n :: QueueRuns.Present(a, pollaris, n) ==> QueueRuns.Present(b, pollaris, n)
  }

  lemma CarriedKeeps(cfg: Config, a: seq<Job>, b: seq<Job>)
    requires Carried(cfg, a, b)
    ensures KeepsJobs(a, b)
  {
    forall pollaris, n | QueueRuns.Present(a, pollaris, n) ensures QueueRuns.Present(b, pollaris, n) {
      var i :| 0 <= i < |a| && a[i].pollaris == pollaris && a[i].name == n;
      assert b[i].pollaris == pollaris && b[i].name == n;
    }
  }

  lemma MovedKeeps(q: seq<Job>, i: nat, x: Job)
    requires i < |q| && x.pollaris == q[i].pollaris && x.name == q[i].name
    ensures KeepsJobs(q, Moved(q, i, x))
  {
    forall pollaris, n | QueueRuns.Present(q, pollaris, n) ensures QueueRuns.Present(Moved(q, i, x), pollaris, n) {
      var k :| 0 <= k < |q| && q[k].pollaris == pollaris && q[k].name == n;
      var p := if k < i then k else if k == i then |q| - 1 else k - 1;
      MoveToLastAt(q, i, p);
      assert Moved(q, i, x)[p].pollaris == pollaris && Moved(q, i, x)[p].name == n;
    }
  }

  lemma ExpeditedKeeps(q: seq<Job>)
    ensures KeepsJobs(q, Expedited(q))
  {
    forall pollaris, n | QueueRuns.Present(q, pollaris, n) ensures QueueRuns.Present(Expedited(q), pollaris, n) {
      var k :| 0 <= k < |q| && q[k].pollaris == pollaris && q[k].name == n;
      assert Expedited(q)[k].pollaris == pollaris && Expedited(q)[k].name == n;
    }
  }

  lemma KeptHeld(cfg: Config, ids: iset<string>, had: iset<string>, s: int, a: seq<Job>, b: seq<Job>)
    requires ConfigOk(cfg) && AllHeld(cfg, ids, had, s, a) && KeepsJobs(a, b)
    ensures AllHeld(cfg, ids, had, s, b)
  {
    forall m | Brought(cfg, had, s, m) ensures HoldsAll(cfg, ids, b, m) {
      KeptHoldsAll(cfg, ids, a, b, m);
    }
  }

  lemma KeptHoldsAll(cfg: Config, ids: iset<string>, a: seq<Job>, b: seq<Job>, m: string)
    requires ConfigOk(cfg) && m in cfg.models && HoldsAll(cfg, ids, a, m) && KeepsJobs(a, b)
    ensures HoldsAll(cfg, ids, b, m)
  {
    forall n | Files(cfg, m, n) && Unrivalled(cfg, ids, m, n) ensures Holds(cfg, b, m, n) {
      assert Holds(cfg, a, m, n);
    }
  }

  /** Inserting a profile makes each of its enabled jobs without a rival present. */
  lemma InsertModelHolds(cfg: Config, ids: iset<string>, s: int, q: seq<Job>, m: string, order: seq<string>)
    requires ConfigOk(cfg) && s <= STAGES && AllSourced(cfg, ids, s, q)
    requires Brought(cfg, ids, s, m) && Orders(cfg, m, order)
    ensures HoldsAll(cfg, ids, InsertModel(cfg.models, q, m, order), m)
  {
    var r := InsertModel(cfg.models, q, m, order);
    InsertModelSourced(cfg, ids, s, q, m, order);
    forall n | Files(cfg, m, n) && Unrivalled(cfg, ids, m, n) ensures Holds(cfg, r, m, n) {
      var k :| 0 <= k < |order| && order[k] == n;
      var p := InsertMakesDue(q, JobsOf(cfg.models[m], order), |order|, k);
      SameNames(cfg, ids, s, r[p], m, n);
    }
  }

  /** A job in the queue without a rival is known by its key. */
  lemma SameNames(cfg: Config, ids: iset<string>, s: int, j: Job, m: string, n: string)
    requires ConfigOk(cfg) && s <= STAGES && Sourced(cfg, ids, s, j)
    requires m in cfg.models && Unrivalled(cfg, ids, m, n) && Key(j) == JobKey(cfg.models[m].name, n)
    ensures j.pollaris == cfg.models[m].name && j.name == n
  {
    var m2, n2 :| Brought(cfg, ids, s, m2) && IsJob(cfg, m2, n2, j);
    BroughtLater(cfg, ids, s, STAGES, m2);
  }

  lemma {:induction false} StageQueueHolds(cfg: Config, ids: iset<string>, q: seq<Job>, stage: nat, ms: seq<Model>, n: nat,
                                           order: (nat, nat) -> seq<string>, m: string)
    requires ConfigOk(cfg) && stage < STAGES && cfg.groups[stage] == Some(ms) && n <= |ms|
    requires StageOrders(cfg, stage, order) && AllSourced(cfg, ids, stage, q)
    requires m in cfg.models && InsertsBefore(cfg, ms, n, m)
    ensures HoldsAll(cfg, ids, StageQueue(cfg, q, stage, ms, n, order), m)
  {
    var last := ms[n - 1];
    if Inserts(cfg, ms, last) && last.name == m {
      LastHolds(cfg, ids, q, stage, ms, n, order);
    } else {
      assert InsertsBefore(cfg, ms, n - 1, m);
      StageQueueHolds(cfg, ids, q, stage, ms, n - 1, order, m);
      StageQueueKeeps(cfg, q, stage, ms, n, order);
      KeptHoldsAll(cfg, ids, StageQueue(cfg, q, stage, ms, n - 1, order), StageQueue(cfg, q, stage, ms, n, order), m);
    }
  }

  predicate Inserts(cfg: Config, ms: seq<Model>, m: Model) {
    Runs(cfg, ms, m) && CountedNames(cfg, m) != {}
  }

  lemma LastHolds(cfg: Config, ids: iset<string>, q: seq<Job>, stage: nat, ms: seq<Model>, n: nat,
                  order: (nat, nat) -> seq<string>)
    requires ConfigOk(cfg) && stage < STAGES && cfg.groups[stage] == Some(ms) && 0 < n <= |ms|
    requires StageOrders(cfg, stage, order) && AllSourced(cfg, ids, stage, q)
    requires ms[n - 1].name in cfg.models && Inserts(cfg, ms, ms[n - 1])
    ensures HoldsAll(cfg, ids, StageQueue(cfg, q, stage, ms, n, order), ms[n - 1].name)
  {
    var m := ms[n - 1].name;
    StageQueueSourced(cfg, ids, q, stage, ms, n - 1, order);
    assert Orders(cfg, m, order(stage, n - 1));
    assert InsertsBefore(cfg, ms, |ms|, m);
    assert StageInserts(cfg, stage, m);
    InsertModelHolds(cfg, ids, stage, StageQueue(cfg, q, stage, ms, n - 1, order), m, order(stage, n - 1));
  }

  lemma StageQueueKeeps(cfg: Config, q: seq<Job>, stage: nat, ms: seq<Model>, n: nat, order: (nat, nat) -> seq<string>)
    requires ConfigOk(cfg) && stage < STAGES && cfg.groups[stage] == Some(ms) && 0 < n <= |ms| && StageOrders(cfg, stage, order)
    ensures KeepsJobs(StageQueue(cfg, q, stage, ms, n - 1, order), StageQueue(cfg, q, stage, ms, n, order))
  {
    var r := StageQueue(cfg, q, stage, ms, n - 1, order);
    assert Orders(cfg, ms[n - 1].name, order(stage, n - 1));
    InsertModelCarries(cfg, r, ms[n - 1].name, order(stage, n - 1));
    CarriedKeeps(cfg, r, InsertModel(cfg.models, r, ms[n - 1].name, order(stage, n - 1)));
  }

  lemma EnterHolds(cfg: Config, ids: iset<string>, had: iset<string>, h: Host, stage: nat, order: (nat, nat) -> seq<string>)
    requires ConfigOk(cfg) && |h.stages| == STAGES && stage < STAGES && StageOrders(cfg, stage, order)
    requires AllSourced(cfg, ids, stage, h.queue) && AllHeld(cfg, ids, had, stage - 1, h.queue)
    ensures AllHeld(cfg, ids, had, stage, EnterStage(cfg, h, stage, order).queue)
  {
    var r := EnterStage(cfg, h, stage, order);
    EnterStageCarries(cfg, h, stage, order);
    CarriedKeeps(cfg, h.queue, r.queue);
    KeptHeld(cfg, ids, had, stage - 1, h.queue, r.queue);
    forall m | Brought(cfg, had, stage, m) ensures HoldsAll(cfg, ids, r.queue, m) {
      if !Brought(cfg, had, stage - 1, m) {
        StageQueueHolds(cfg, ids, h.queue, stage, cfg.groups[stage].value, |cfg.groups[stage].value|, order, m);
      }
    }
  }

  // ----- the invariant of a run

  /** The current stage waits for nothing but what it counts. */
  ghost predicate WaitsForCounted(cfg: Config, h: Host)
    requires ConfigOk(cfg) && HostOk(h)
  {
    forall name :: name in Open(h) ==> Counts(cfg, h.current, name)
  }

  ghost predicate Stocked(cfg: Config, ids: iset<string>, had: iset<string>, h: Host)
    requires ConfigOk(cfg)
  {
    && HostOk(h)
    && AllSourced(cfg, ids, h.current, h.queue)
    && AllHeld(cfg, ids, had, h.current, h.queue)
    && WaitsForCounted(cfg, h)
  }

  lemma EnterStocked(cfg: Config, ids: iset<string>, had: iset<string>, h: Host, stage: nat, order: (nat, nat) -> seq<string>)
    requires ConfigOk(cfg) && ValidQueue(h.queue) && |h.stages| == STAGES
    requires stage < STAGES && StageOrders(cfg, stage, order)
    requires AllSourced(cfg, ids, stage, h.queue) && AllHeld(cfg, ids, had, stage - 1, h.queue)
    ensures Stocked(cfg, ids, had, EnterStage(cfg, h, stage, order))
  {
    EnterStageOk(cfg, h, stage, order);
    EnterSourced(cfg, ids, h, stage, order);
    EnterHolds(cfg, ids, had, h, stage, order);
  }

  lemma {:induction false} AdvanceStocked(cfg: Config, ids: iset<string>, had: iset<string>, h: Host, order: (nat, nat) -> seq<string>)
    requires ConfigOk(cfg) && h.current < STAGES && Stocked(cfg, ids, had, h)
    requires forall s :: 0 <= s < STAGES ==> StageOrders(cfg, s, order)
    ensures Stocked(cfg, ids, had, Advance(cfg, h, order))
    decreases STAGES - h.current
  {
    if Complete(h.stages[h.current].value) {
      SourcedLater(cfg, ids, h.current, h.current + 1, h.queue);
      if h.current + 1 < STAGES {
        EnterStocked(cfg, ids, had, h, h.current + 1, order);
        AdvanceStocked(cfg, ids, had, EnterStage(cfg, h, h.current + 1, order), order);
      } else {
        LastStageHeld(cfg, ids, had, h.queue);
      }
    }
  }

  /** There is no stage behind the last one. */
  lemma LastStageHeld(cfg: Config, ids: iset<string>, had: iset<string>, q: seq<Job>)
    requires ConfigOk(cfg) && AllHeld(cfg, ids, had, STAGES - 1, q)
    ensures AllHeld(cfg, ids, had, STAGES, q)
  {
    forall m | Brought(cfg, had, STAGES, m) ensures HoldsAll(cfg, ids, q, m) {
      assert Brought(cfg, had, STAGES - 1, m);
    }
  }

  /** The profile adopted in a turn, as a set. */
  ghost function Adopted(cfg: Config, h: Host, t: Tick): iset<string>
    requires ConfigOk(cfg) && TickOk(cfg, t) && HostOk(h)
  {
    AsSet(Adopts(cfg, h, t))
  }

  ghost function AsSet(m: Option<string>): iset<string> {
    if m.Some? then iset{m.value} else iset{}
  }

  lemma NothingAdopted(cfg: Config, ids: iset<string>, had: iset<string>, s: int, q: seq<Job>)
    requires ConfigOk(cfg) && AllHeld(cfg, ids, had, s, q)
    ensures AllHeld(cfg, ids, had + iset{}, s, q)
  {
    assert had + iset{} == had;
  }

  /** Adopting a profile adds its jobs to those that are held. */
  lemma AdoptedHeld(cfg: Config, ids: iset<string>, had: iset<string>, s: int, q: seq<Job>, m: string, order: seq<string>)
    requires ConfigOk(cfg) && s <= STAGES && AllSourced(cfg, ids, s, q) && AllHeld(cfg, ids, had, s, q)
    requires Orders(cfg, m, order) && (m in cfg.models ==> m in ids)
    ensures AllHeld(cfg, ids, had + iset{m}, s, InsertModel(cfg.models, q, m, order))
  {
    var r := InsertModel(cfg.models, q, m, order);
    InsertModelCarries(cfg, q, m, order);
    CarriedKeeps(cfg, q, r);
    KeptHeld(cfg, ids, had, s, q, r);
    forall m2 | Brought(cfg, had + iset{m}, s, m2) ensures HoldsAll(cfg, ids, r, m2) {
      if !Brought(cfg, had, s, m2) {
        InsertModelHolds(cfg, ids, s, q, m, order);
      }
    }
  }

  /** What a job that ran leaves, before the boot sequence is told. */
  lemma JudgedHeld(cfg: Config, ids: iset<string>, had: iset<string>, h: Host, i: nat, t: Tick)
    requires ConfigOk(cfg) && Lively(cfg, t) && Stocked(cfg, ids, had, h) && AdoptsWithin(cfg, h, t, ids)
    requires i == FirstReady(h.queue, t.popAt) < |h.queue| && Ran(cfg, h.queue[i], t).Some?
    ensures AllHeld(cfg, ids, had + Adopted(cfg, h, t), h.current, Judged(cfg, h, i, t).queue)
  {
    var x, m := Treated(cfg, h.queue[i], t), Adopts(cfg, h, t);
    var q := Moved(h.queue, i, x);
    TreatedSame(cfg, h.queue[i], t);
    MovedKeeps(h.queue, i, x);
    MovedSourced(cfg, ids, h.current, h.queue, i, x);
    KeptHeld(cfg, ids, had, h.current, h.queue, q);
    JudgedQueue(cfg, h, i, t);
    if m.None? {
      NothingAdopted(cfg, ids, had, h.current, q);
    } else {
      AdoptedHeld(cfg, ids, had, h.current, q, m.value, t.order(STAGES, 0));
    }
  }

  lemma JudgedStocked(cfg: Config, ids: iset<string>, had: iset<string>, h: Host, i: nat, t: Tick)
    requires ConfigOk(cfg) && Lively(cfg, t) && Stocked(cfg, ids, had, h) && AdoptsWithin(cfg, h, t, ids)
    requires i == FirstReady(h.queue, t.popAt) < |h.queue| && Ran(cfg, h.queue[i], t).Some?
    ensures Stocked(cfg, ids, had + Adopted(cfg, h, t), Judged(cfg, h, i, t))
  {
    JudgedShape(cfg, h, i, t);
    JudgedSourced(cfg, ids, h, i, t);
    JudgedHeld(cfg, ids, had, h, i, t);
  }

  lemma MarkedStocked(cfg: Config, ids: iset<string>, had: iset<string>, h: Host, name: string)
    requires ConfigOk(cfg) && Stocked(cfg, ids, had, h) && h.current < STAGES
    ensures Stocked(cfg, ids, had, Marked(h, name))
  {
    MarkedOpen(h, name);
  }

  lemma StepStocked(cfg: Config, ids: iset<string>, had: iset<string>, h: Host, t: Tick)
    requires ConfigOk(cfg) && Lively(cfg, t) && Stocked(cfg, ids, had, h) && AdoptsWithin(cfg, h, t, ids)
    ensures Stocked(cfg, ids, had + Adopted(cfg, h, t), Step(cfg, h, t))
  {
    var i := FirstReady(h.queue, t.popAt);
    if i < |h.queue| && Ran(cfg, h.queue[i], t).Some? {
      RanStocked(cfg, ids, had, h, i, t);
    } else {
      NotRanStocked(cfg, ids, had, h, t);
      assert had + Adopted(cfg, h, t) == had;
    }
  }

  lemma NotRanStocked(cfg: Config, ids: iset<string>, had: iset<string>, h: Host, t: Tick)
    requires ConfigOk(cfg) && Lively(cfg, t) && Stocked(cfg, ids, had, h)
    requires var i := FirstReady(h.queue, t.popAt); i < |h.queue| ==> Ran(cfg, h.queue[i], t).None?
    ensures Stocked(cfg, ids, had, Step(cfg, h, t))
  {
    var i := FirstReady(h.queue, t.popAt);
    StepOk(cfg, h, t);
    if i == |h.queue| {
      ExpeditedSourced(cfg, ids, h.current, h.queue);
      ExpeditedKeeps(h.queue);
      KeptHeld(cfg, ids, had, h.current, h.queue, Expedited(h.queue));
    } else {
      var x := Treated(cfg, h.queue[i], t);
      PassedOver(cfg, h, i, t);
      TreatedSame(cfg, h.queue[i], t);
      MovedSourced(cfg, ids, h.current, h.queue, i, x);
      MovedKeeps(h.queue, i, x);
      KeptHeld(cfg, ids, had, h.current, h.queue, Moved(h.queue, i, x));
    }
  }

  lemma RanStocked(cfg: Config, ids: iset<string>, had: iset<string>, h: Host, i: nat, t: Tick)
    requires ConfigOk(cfg) && Lively(cfg, t) && Stocked(cfg, ids, had, h) && AdoptsWithin(cfg, h, t, ids)
    requires i == FirstReady(h.queue, t.popAt) < |h.queue| && Ran(cfg, h.queue[i], t).Some?
    ensures Stocked(cfg, ids, had + Adopted(cfg, h, t), Step(cfg, h, t))
  {
    var h2, now := Judged(cfg, h, i, t), had + Adopted(cfg, h, t);
    JudgedShape(cfg, h, i, t);
    JudgedStocked(cfg, ids, had, h, i, t);
    if h2.current < STAGES {
      MarkedStocked(cfg, ids, now, h2, h.queue[i].name);
      AdvanceStocked(cfg, ids, now, Marked(h2, h.queue[i].name), t.order);
    }
  }

  // ----- a waiting job is popped

  /** Only the times of the job differ, and it has not got to wait longer. */
  ghost predicate Kept(j: Job, x: Job) {
    x == j.(started := x.started, ended := x.ended) && (x.ended == j.ended || x.ended == 0)
  }

  /** One turn that does not pop a job leaves it as it was, at its place or one nearer. */
  lemma StepKeeps(cfg: Config, h: Host, t: Tick, p: nat) returns (p': nat)
    requires ConfigOk(cfg) && Lively(cfg, t) && HostOk(h) && p < |h.queue| && p != FirstReady(h.queue, t.popAt)
    ensures var r := Step(cfg, h, t);
            && p' == (if FirstReady(h.queue, t.popAt) < p then p - 1 else p)
            && p' < |r.queue| && Kept(h.queue[p], r.queue[p'])
  {
    var i, r := FirstReady(h.queue, t.popAt), Step(cfg, h, t);
    p' := if i < p then p - 1 else p;
    if i < |h.queue| {
      StepCarries(cfg, h, i, t);
      MoveToLastAt(h.queue, i, p');
      assert Moved(h.queue, i, Treated(cfg, h.queue[i], t))[p'] == h.queue[p];
    }
  }

  lemma StepCarries(cfg: Config, h: Host, i: nat, t: Tick)
    requires ConfigOk(cfg) && Lively(cfg, t) && HostOk(h) && i == FirstReady(h.queue, t.popAt) < |h.queue|
    ensures Carried(cfg, Moved(h.queue, i, Treated(cfg, h.queue[i], t)), Step(cfg, h, t).queue)
  {
    var q := Moved(h.queue, i, Treated(cfg, h.queue[i], t));
    if Ran(cfg, h.queue[i], t).Some? {
      JudgedShape(cfg, h, i, t);
      BootCarries(cfg, Judged(cfg, h, i, t), h.queue[i].name, t);
      CarriedTransitive(cfg, q, Judged(cfg, h, i, t).queue, Step(cfg, h, t).queue);
    } else {
      PassedOver(cfg, h, i, t);
      CarriedItself(cfg, q);
    }
  }

  lemma BootCarries(cfg: Config, h: Host, name: string, t: Tick)
    requires ConfigOk(cfg) && TickOk(cfg, t) && HostOk(h)
    ensures Carried(cfg, h.queue, CompleteBoot(cfg, h, name, t).queue)
  {
    CarriedItself(cfg, h.queue);
    if h.current < STAGES {
      AdvanceCarries(cfg, Marked(h, name), t.order);
    }
  }

  /** The job at the position is enabled, and due whenever the clock has reached `due`. */
  ghost predicate DueBy(h: Host, p: nat, due: int) {
    && p < |h.queue| && h.queue[p].enabled && CadenceOk(h.queue[p])
    && Cadence(h.queue[p]) <= due && h.queue[p].ended + Cadence(h.queue[p]) <= due
  }

  lemma DueIsReady(h: Host, p: nat, due: int, now: int)
    requires HostOk(h) && DueBy(h, p, due) && due <= now
    ensures FirstReady(h.queue, now) <= p
  {
    assert Ready(h.queue[p], now);
  }

  ghost predicate From(env: nat -> Tick, i: nat, time: int) {
    forall k: nat :: k >= i ==> env(k).popAt >= time
  }

  /** A turn that pops another job brings a due one a place nearer. */
  lemma ComesNearer(cfg: Config, h: Host, t: Tick, p: nat, due: int) returns (p': nat)
    requires ConfigOk(cfg) && Lively(cfg, t) && HostOk(h) && DueBy(h, p, due)
    requires due <= t.popAt && FirstReady(h.queue, t.popAt) != p
    ensures var r := Step(cfg, h, t);
            p' == p - 1 && DueBy(r, p', due) && Key(r.queue[p']) == Key(h.queue[p])
  {
    DueIsReady(h, p, due, t.popAt);
    p' := StepKeeps(cfg, h, t, p);
  }

  /** Bounded waiting in the host: under a clock that has reached its due time, the job at
      position `p` is popped in one of the next p + 1 turns, whatever else happens. */
  lemma {:induction false} PoppedWithin(cfg: Config, h: Host, env: nat -> Tick, n: nat, p: nat, due: int) returns (k: nat)
    requires ConfigOk(cfg) && HostOk(h) && Endless(cfg, env) && Unstopped(env) && From(env, n, due)
    requires DueBy(After(cfg, h, env, n), p, due)
    ensures n <= k <= n + p
    ensures var q := After(cfg, h, env, k).queue; var i := FirstReady(q, env(k).popAt);
            i < |q| && Key(q[i]) == Key(After(cfg, h, env, n).queue[p])
    decreases p
  {
    var a := After(cfg, h, env, n);
    if FirstReady(a.queue, env(n).popAt) == p {
      k := n;
    } else {
      var p' := ComesNearer(cfg, a, env(n), p, due);
      assert After(cfg, h, env, n + 1) == Step(cfg, a, env(n));
      k := PoppedWithin(cfg, h, env, n + 1, p', due);
    }
  }

  // ----- the boot sequence goes on

  /** The job at the position will finish the name, at `due` at the latest when it is looked at. */
  ghost predicate WillFinish(cfg: Config, h: Host, p: nat, name: string, due: int) {
    DueBy(h, p, due) && h.queue[p].name == name && Runnable(cfg, h.queue[p])
  }

  /** The boot sequence has come further. */
  ghost predicate Further(a: Host, b: Host)
    requires HostOk(a) && HostOk(b)
  {
    b.current > a.current || (b.current == a.current && Open(b) < Open(a))
  }

  ghost predicate Level(a: Host, b: Host)
    requires HostOk(a) && HostOk(b)
  {
    b.current == a.current && Open(b) == Open(a)
  }

  /** A turn brings the boot sequence further, or at least not back. */
  lemma StepLevel(cfg: Config, h: Host, t: Tick)
    requires ConfigOk(cfg) && Lively(cfg, t) && HostOk(h) && h.current < STAGES
    ensures var i, r := FirstReady(h.queue, t.popAt), Step(cfg, h, t);
            && HostOk(r)
            && (Further(h, r) || Level(h, r))
            && (i < |h.queue| && Runnable(cfg, h.queue[i]) && h.queue[i].name in Open(h) ==> Further(h, r))
  {
    var i := FirstReady(h.queue, t.popAt);
    StepOk(cfg, h, t);
    if i < |h.queue| {
      if Ran(cfg, h.queue[i], t).Some? {
        RunOpens(cfg, h, i, t);
      } else {
        PassedOver(cfg, h, i, t);
      }
    }
  }

  lemma StepFinishes(cfg: Config, h: Host, t: Tick, p: nat, name: string, due: int) returns (p': nat)
    requires ConfigOk(cfg) && Lively(cfg, t) && HostOk(h) && h.current < STAGES
    requires name in Open(h) && WillFinish(cfg, h, p, name, due)
    ensures var r := Step(cfg, h, t);
            && HostOk(r)
            && (Further(h, r) || (Level(h, r) && WillFinish(cfg, r, p', name, due) && p' <= p && (t.popAt >= due ==> p' < p)))
  {
    StepLevel(cfg, h, t);
    if t.popAt >= due {
      DueIsReady(h, p, due, t.popAt);
    }
    if p == FirstReady(h.queue, t.popAt) {
      p' := p;
    } else {
      p' := StepKeeps(cfg, h, t, p);
    }
  }

  /** Once its time has come, a waiting job brings the boot sequence further, if nothing else
      did before. */
  lemma {:induction false} Finishes(cfg: Config, h: Host, env: nat -> Tick, n: nat, p: nat, name: string, due: int, from: nat)
    returns (m: nat)
    requires ConfigOk(cfg) && HostOk(h) && Endless(cfg, env) && Unstopped(env) && From(env, from, due)
    requires var a := After(cfg, h, env, n);
             a.current < STAGES && name in Open(a) && WillFinish(cfg, a, p, name, due)
    ensures m > n && Further(After(cfg, h, env, n), After(cfg, h, env, m))
    decreases if n < from then from - n else 0, p
  {
    var a := After(cfg, h, env, n);
    var p' := StepFinishes(cfg, a, env(n), p, name, due);
    assert After(cfg, h, env, n + 1) == Step(cfg, a, env(n));
    m := n + 1;
    if !Further(a, After(cfg, h, env, m)) {
      m := Finishes(cfg, h, env, n + 1, p', name, due, from);
    }
  }

  ghost predicate Passes(env: nat -> Tick, time: int) {
    exists i: nat :: From(env, i, time)
  }

  /** The clock passes every time. */
  ghost predicate ClockUnbounded(env: nat -> Tick) {
    forall time: int :: Passes(env, time)
  }

  // ----- what is adopted over a run

  /** What is adopted in each turn of the run. */
  function Adoptions(cfg: Config, h: Host, env: nat -> Tick): nat -> Option<string>
    requires ConfigOk(cfg) && HostOk(h) && Endless(cfg, env)
  {
    (k: nat) => Adopts(cfg, After(cfg, h, env, k), env(k))
  }

  /** What a trace of adoptions holds before turn `n`. */
  ghost function Before(trace: nat -> Option<string>, n: nat): iset<string> {
    iset k: nat, m | k < n && trace(k) == Some(m) :: m
  }

  ghost function Ever(trace: nat -> Option<string>): iset<string> {
    iset k: nat, m | trace(k) == Some(m) :: m
  }

  lemma BeforeNext(trace: nat -> Option<string>, n: nat)
    ensures Before(trace, n + 1) == Before(trace, n) + AsSet(trace(n))
    ensures trace(n).Some? ==> trace(n).value in Ever(trace)
  {
  }

  /** The profiles adopted in the first `n` turns. */
  ghost function AdoptedBy(cfg: Config, h: Host, env: nat -> Tick, n: nat): iset<string>
    requires ConfigOk(cfg) && HostOk(h) && Endless(cfg, env)
  {
    Before(Adoptions(cfg, h, env), n)
  }

  /** The profiles adopted in the whole run. */
  ghost function AdoptedEver(cfg: Config, h: Host, env: nat -> Tick): iset<string>
    requires ConfigOk(cfg) && HostOk(h) && Endless(cfg, env)
  {
    Ever(Adoptions(cfg, h, env))
  }

  lemma NextTurn(cfg: Config, h: Host, env: nat -> Tick, n: nat)
    requires ConfigOk(cfg) && HostOk(h) && Endless(cfg, env)
    ensures After(cfg, h, env, n + 1) == Step(cfg, After(cfg, h, env, n), env(n))
  {
  }

  lemma NextAdopted(cfg: Config, h: Host, env: nat -> Tick, n: nat)
    requires ConfigOk(cfg) && HostOk(h) && Endless(cfg, env)
    ensures AdoptedBy(cfg, h, env, n + 1) == AdoptedBy(cfg, h, env, n) + Adopted(cfg, After(cfg, h, env, n), env(n))
  {
    BeforeNext(Adoptions(cfg, h, env), n);
  }

  lemma TurnAdoptsWithin(cfg: Config, h: Host, env: nat -> Tick, n: nat)
    requires ConfigOk(cfg) && HostOk(h) && Endless(cfg, env)
    ensures AdoptsWithin(cfg, After(cfg, h, env, n), env(n), AdoptedEver(cfg, h, env))
  {
    BeforeNext(Adoptions(cfg, h, env), n);
  }

  /** Where nothing is identified nothing is adopted. */
  lemma NoneAdopted(cfg: Config, h: Host, env: nat -> Tick)
    requires ConfigOk(cfg) && HostOk(h) && Endless(cfg, env) && forall i: nat :: env(i).identified.None?
    ensures AdoptedEver(cfg, h, env) == iset{}
  {
    forall k: nat ensures Adoptions(cfg, h, env)(k).None? {
      NoneOffered(cfg, After(cfg, h, env, k), env(k));
    }
  }

  lemma NoneOffered(cfg: Config, h: Host, t: Tick)
    requires ConfigOk(cfg) && TickOk(cfg, t) && HostOk(h) && t.identified.None?
    ensures Adopts(cfg, h, t).None?
  {
  }

  lemma {:induction false} Forever(p: nat -> bool, n: nat)
    requires p(0) && forall k: nat :: p(k) ==> p(k + 1)
    ensures p(n)
  {
    if n > 0 {
      Forever(p, n - 1);
    }
  }

  ghost predicate StockedAt(cfg: Config, h: Host, env: nat -> Tick, n: nat)
    requires ConfigOk(cfg) && HostOk(h) && Endless(cfg, env)
  {
    && Stocked(cfg, AdoptedEver(cfg, h, env), AdoptedBy(cfg, h, env, n), After(cfg, h, env, n))
    && Settled(After(cfg, h, env, n))
  }

  lemma StockedStep(cfg: Config, ids: iset<string>, had: iset<string>, a: Host, t: Tick, b: Host, now: iset<string>)
    requires ConfigOk(cfg) && Lively(cfg, t) && Stocked(cfg, ids, had, a) && AdoptsWithin(cfg, a, t, ids) && Settled(a)
    requires b == Step(cfg, a, t) && now == had + Adopted(cfg, a, t)
    ensures Stocked(cfg, ids, now, b) && Settled(b)
  {
    StepStocked(cfg, ids, had, a, t);
    StepSettled(cfg, a, t);
  }

  lemma StockedNext(cfg: Config, h: Host, env: nat -> Tick, n: nat)
    requires ConfigOk(cfg) && HostOk(h) && Endless(cfg, env) && Unstopped(env)
    requires StockedAt(cfg, h, env, n)
    ensures StockedAt(cfg, h, env, n + 1)
  {
    TurnAdoptsWithin(cfg, h, env, n);
    NextTurn(cfg, h, env, n);
    NextAdopted(cfg, h, env, n);
    StockedStep(cfg, AdoptedEver(cfg, h, env), AdoptedBy(cfg, h, env, n), After(cfg, h, env, n), env(n),
                After(cfg, h, env, n + 1), AdoptedBy(cfg, h, env, n + 1));
  }

  lemma AfterStocked(cfg: Config, h: Host, env: nat -> Tick, n: nat)
    requires ConfigOk(cfg) && HostOk(h) && Endless(cfg, env) && Unstopped(env) && StockedAt(cfg, h, env, 0)
    ensures StockedAt(cfg, h, env, n)
  {
    var p := (k: nat) => StockedAt(cfg, h, env, k);
    forall k: nat | p(k) ensures p(k + 1) {
      StockedNext(cfg, h, env, k);
    }
    Forever(p, n);
  }

  // ----- the boot sequence ends

  /** By stage `s` there is a job with the name that can be run, and none that could take its place. */
  ghost predicate Assured(cfg: Config, ids: iset<string>, s: nat, name: string)
    requires ConfigOk(cfg)
  {
    exists m ::
      Brought(cfg, ids, s, m) && Files(cfg, m, name) && Runnable(cfg, JobFor(cfg.models[m], name)) && Unrivalled(cfg, ids, m, name)
  }

  ghost predicate AllAssured(cfg: Config, ids: iset<string>)
    requires ConfigOk(cfg)
  {
    forall s: nat, name :: Counts(cfg, s, name) ==> Assured(cfg, ids, s, name)
  }

  /** The queue holds a job that will finish the name. */
  lemma WillFinishHeld(cfg: Config, ids: iset<string>, had: iset<string>, h: Host, m: string, name: string) returns (p: nat, due: int)
    requires ConfigOk(cfg) && Stocked(cfg, ids, had, h) && Brought(cfg, had, h.current, m)
    requires Files(cfg, m, name) && Runnable(cfg, JobFor(cfg.models[m], name)) && Unrivalled(cfg, ids, m, name)
    ensures WillFinish(cfg, h, p, name, due)
  {
    assert HoldsAll(cfg, ids, h.queue, m) && Holds(cfg, h.queue, m, name);
    var q, pollaris := h.queue, cfg.models[m].name;
    p :| 0 <= p < |q| && q[p].pollaris == pollaris && q[p].name == name;
    assert Sourced(cfg, ids, h.current, q[p]);
    due := Cadence(q[p]) + if q[p].ended > 0 then q[p].ended else 0;
  }

  lemma SomeOpen(h: Host) returns (name: string)
    requires HostOk(h) && Settled(h) && h.current < STAGES
    ensures name in Open(h)
  {
    var s := h.stages[h.current].value;
    name :| name in s && !s[name];
  }

  ghost predicate NotBack(a: Host, b: Host)
    requires HostOk(a) && HostOk(b)
  {
    Further(a, b) || Level(a, b)
  }

  ghost predicate NotBackAt(cfg: Config, h: Host, env: nat -> Tick, k: nat, n: nat)
    requires ConfigOk(cfg) && HostOk(h) && Endless(cfg, env)
  {
    k <= n ==> NotBack(After(cfg, h, env, k), After(cfg, h, env, n))
  }

  lemma NotBackNext(cfg: Config, h: Host, env: nat -> Tick, k: nat, n: nat)
    requires ConfigOk(cfg) && HostOk(h) && Endless(cfg, env) && Unstopped(env) && NotBackAt(cfg, h, env, k, n)
    ensures NotBackAt(cfg, h, env, k, n + 1)
  {
    if k <= n {
      NextNotBack(cfg, h, env, n);
      NotBackTwice(After(cfg, h, env, k), After(cfg, h, env, n), After(cfg, h, env, n + 1));
    }
  }

  /** Between two turns the boot sequence has come further, or stands where it stood. */
  lemma NeverBack(cfg: Config, h: Host, env: nat -> Tick, k: nat, n: nat)
    requires ConfigOk(cfg) && HostOk(h) && Endless(cfg, env) && Unstopped(env) && k <= n
    ensures NotBack(After(cfg, h, env, k), After(cfg, h, env, n))
  {
    var p := (i: nat) => NotBackAt(cfg, h, env, k, i);
    assert p(0);
    forall i: nat | p(i) ensures p(i + 1) {
      NotBackNext(cfg, h, env, k, i);
    }
    Forever(p, n);
  }

  lemma NextNotBack(cfg: Config, h: Host, env: nat -> Tick, n: nat)
    requires ConfigOk(cfg) && HostOk(h) && Endless(cfg, env) && Unstopped(env)
    ensures NotBack(After(cfg, h, env, n), After(cfg, h, env, n + 1))
  {
    NextTurn(cfg, h, env, n);
    StepNotBack(cfg, After(cfg, h, env, n), env(n));
  }

  lemma NotBackTwice(a: Host, b: Host, c: Host)
    requires HostOk(a) && HostOk(b) && HostOk(c)
    requires NotBack(a, b) && NotBack(b, c)
    ensures NotBack(a, c)
  {
  }

  lemma StepNotBack(cfg: Config, h: Host, t: Tick)
    requires ConfigOk(cfg) && Lively(cfg, t) && HostOk(h)
    ensures HostOk(Step(cfg, h, t)) && NotBack(h, Step(cfg, h, t))
  {
    if h.current < STAGES {
      StepLevel(cfg, h, t);
    } else {
      StepOk(cfg, h, t);
      var i := FirstReady(h.queue, t.popAt);
      if i < |h.queue| && Ran(cfg, h.queue[i], t).Some? {
        JudgedShape(cfg, h, i, t);
      } else if i < |h.queue| {
        PassedOver(cfg, h, i, t);
      }
    }
  }

  /** The profile that assures the name was brought in by turn `n`, if not by a stage then by
      adopting it. */
  lemma BroughtBy(cfg: Config, h: Host, env: nat -> Tick, s: nat, m: string, from: nat) returns (n: nat)
    requires ConfigOk(cfg) && HostOk(h) && Endless(cfg, env) && Brought(cfg, AdoptedEver(cfg, h, env), s, m)
    ensures n >= from && Brought(cfg, AdoptedBy(cfg, h, env, n), s, m)
  {
    n := from;
    if m in AdoptedEver(cfg, h, env) {
      var k: nat :| Adoptions(cfg, h, env)(k) == Some(m);
      n := if k < from then from else k + 1;
    }
  }

  /** What the stage waits for, and the profile that assures it. */
  lemma SomeAssured(cfg: Config, ids: iset<string>, had: iset<string>, h: Host) returns (name: string, model: string)
    requires ConfigOk(cfg) && Stocked(cfg, ids, had, h) && Settled(h) && h.current < STAGES && AllAssured(cfg, ids)
    ensures name in Open(h) && Brought(cfg, ids, h.current, model) && Files(cfg, model, name)
    ensures Runnable(cfg, JobFor(cfg.models[model], name)) && Unrivalled(cfg, ids, model, name)
  {
    name := SomeOpen(h);
    assert Counts(cfg, h.current, name) && Assured(cfg, ids, h.current, name);
    model :| Brought(cfg, ids, h.current, model) && Files(cfg, model, name)
             && Runnable(cfg, JobFor(cfg.models[model], name)) && Unrivalled(cfg, ids, model, name);
  }

  /** Once the profile is brought in the boot sequence comes further. */
  lemma FurtherFrom(cfg: Config, h: Host, env: nat -> Tick, k: nat, model: string, name: string) returns (m: nat)
    requires ConfigOk(cfg) && HostOk(h) && Endless(cfg, env) && Unstopped(env) && ClockUnbounded(env)
    requires StockedAt(cfg, h, env, k) && name in Open(After(cfg, h, env, k))
    requires Brought(cfg, AdoptedBy(cfg, h, env, k), After(cfg, h, env, k).current, model) && Files(cfg, model, name)
    requires Runnable(cfg, JobFor(cfg.models[model], name)) && Unrivalled(cfg, AdoptedEver(cfg, h, env), model, name)
    ensures m > k && Further(After(cfg, h, env, k), After(cfg, h, env, m))
  {
    var p, due := WillFinishHeld(cfg, AdoptedEver(cfg, h, env), AdoptedBy(cfg, h, env, k), After(cfg, h, env, k), model, name);
    assert Passes(env, due);
    var from: nat :| From(env, from, due);
    m := Finishes(cfg, h, env, k, p, name, due, from);
  }

  /** From any turn on the boot sequence comes further. */
  lemma ComesFurther(cfg: Config, h: Host, env: nat -> Tick, n: nat) returns (m: nat)
    requires ConfigOk(cfg) && HostOk(h) && Endless(cfg, env) && Unstopped(env) && ClockUnbounded(env)
    requires StockedAt(cfg, h, env, 0) && AllAssured(cfg, AdoptedEver(cfg, h, env))
    requires After(cfg, h, env, n).current < STAGES
    ensures m >= n && Further(After(cfg, h, env, n), After(cfg, h, env, m))
  {
    AfterStocked(cfg, h, env, n);
    var name, model := SomeAssured(cfg, AdoptedEver(cfg, h, env), AdoptedBy(cfg, h, env, n), After(cfg, h, env, n));
    m := BroughtBy(cfg, h, env, After(cfg, h, env, n).current, model, n);
    NeverBack(cfg, h, env, n, m);
    if !Further(After(cfg, h, env, n), After(cfg, h, env, m)) {
      AfterStocked(cfg, h, env, m);
      m := FurtherFrom(cfg, h, env, m, model, name);
    }
  }

  lemma {:induction false} Completes(cfg: Config, h: Host, env: nat -> Tick, n: nat) returns (m: nat)
    requires ConfigOk(cfg) && HostOk(h) && Endless(cfg, env) && Unstopped(env) && ClockUnbounded(env)
    requires StockedAt(cfg, h, env, 0) && AllAssured(cfg, AdoptedEver(cfg, h, env))
    ensures m >= n && After(cfg, h, env, m).current == STAGES
    decreases STAGES - After(cfg, h, env, n).current, |Open(After(cfg, h, env, n))|
  {
    var a := After(cfg, h, env, n);
    m := n;
    if a.current < STAGES {
      m := ComesFurther(cfg, h, env, n);
      if After(cfg, h, env, m).current == a.current {
        SmallerSet(Open(After(cfg, h, env, m)), Open(a));
      }
      m := Completes(cfg, h, env, m);
    }
  }

  // ----- if and only if

  lemma LaunchStocked(cfg: Config, order: (nat, nat) -> seq<string>, env: nat -> Tick)
    requires ConfigOk(cfg) && StageOrders(cfg, 0, order) && Endless(cfg, env) && StageZeroCounts(cfg)
    ensures StockedAt(cfg, Launch(cfg, order), env, 0)
  {
    var h := Launch(cfg, order);
    EnterStocked(cfg, AdoptedEver(cfg, h, env), iset{}, IdleHost(), 0, order);
    var names := StageNames(cfg, cfg.groups[0].value, |cfg.groups[0].value|);
    var any :| any in names;
    assert any in h.stages[0].value && !h.stages[0].value[any];
  }

  /** If stage 0 counts something and every counted name is assured, by the stages and by what
      the host adopts, the boot sequence ends. */
  lemma BootEndsIf(cfg: Config, order: (nat, nat) -> seq<string>, env: nat -> Tick) returns (m: nat)
    requires ConfigOk(cfg) && StageOrders(cfg, 0, order) && Endless(cfg, env) && Unstopped(env) && ClockUnbounded(env)
    requires StageZeroCounts(cfg) && AllAssured(cfg, AdoptedEver(cfg, Launch(cfg, order), env))
    ensures After(cfg, Launch(cfg, order), env, m).current == STAGES
  {
    LaunchStocked(cfg, order, env);
    m := Completes(cfg, Launch(cfg, order), env, 0);
  }

  lemma StepStuckSourced(cfg: Config, ids: iset<string>, h: Host, t: Tick, s: nat, name: string)
    requires ConfigOk(cfg) && TickOk(cfg, t) && HostOk(h) && AdoptsWithin(cfg, h, t, ids)
    requires AllSourced(cfg, ids, h.current, h.queue)
    requires Counts(cfg, s, name) && !Available(cfg, ids, s, name) && Stuck(h, s, name)
    ensures var r := Step(cfg, h, t); HostOk(r) && AllSourced(cfg, ids, r.current, r.queue) && Stuck(r, s, name)
  {
    StepStuck(cfg, ids, h, t, s, name);
    StepSourced(cfg, ids, h, t);
  }

  ghost predicate StuckAt(cfg: Config, h: Host, env: nat -> Tick, n: nat, s: nat, name: string)
    requires ConfigOk(cfg) && HostOk(h) && Endless(cfg, env) && s < STAGES
  {
    var a := After(cfg, h, env, n);
    AllSourced(cfg, AdoptedEver(cfg, h, env), a.current, a.queue) && Stuck(a, s, name)
  }

  lemma StuckNext(cfg: Config, h: Host, env: nat -> Tick, n: nat, s: nat, name: string)
    requires ConfigOk(cfg) && HostOk(h) && Endless(cfg, env)
    requires Counts(cfg, s, name) && !Available(cfg, AdoptedEver(cfg, h, env), s, name) && StuckAt(cfg, h, env, n, s, name)
    ensures StuckAt(cfg, h, env, n + 1, s, name)
  {
    TurnAdoptsWithin(cfg, h, env, n);
    NextTurn(cfg, h, env, n);
    StepStuckSourced(cfg, AdoptedEver(cfg, h, env), After(cfg, h, env, n), env(n), s, name);
  }

  lemma AfterStuck(cfg: Config, h: Host, env: nat -> Tick, n: nat, s: nat, name: string)
    requires ConfigOk(cfg) && HostOk(h) && Endless(cfg, env)
    requires Counts(cfg, s, name) && !Available(cfg, AdoptedEver(cfg, h, env), s, name) && StuckAt(cfg, h, env, 0, s, name)
    ensures StuckAt(cfg, h, env, n, s, name)
  {
    var p := (k: nat) => StuckAt(cfg, h, env, k, s, name);
    forall k: nat | p(k) ensures p(k + 1) {
      StuckNext(cfg, h, env, k, s, name);
    }
    Forever(p, n);
  }

  /** From the start of the host: a stage that counts a name nothing makes available is never passed. */
  lemma NeverAfter(cfg: Config, order: (nat, nat) -> seq<string>, env: nat -> Tick, n: nat, s: nat, name: string)
    requires ConfigOk(cfg) && StageOrders(cfg, 0, order) && Endless(cfg, env)
    requires Counts(cfg, s, name) && !Available(cfg, AdoptedEver(cfg, Launch(cfg, order), env), s, name)
    ensures After(cfg, Launch(cfg, order), env, n).current <= s
  {
    EnterStuck(cfg, IdleHost(), 0, order, s, name);
    LaunchSourced(cfg, AdoptedEver(cfg, Launch(cfg, order), env), order);
    AfterStuck(cfg, Launch(cfg, order), env, n, s, name);
  }

  /** The boot sequence ends only if every counted name is available, by the stages or by what
      the host adopts. */
  lemma BootEndsOnlyIf(cfg: Config, order: (nat, nat) -> seq<string>, env: nat -> Tick, m: nat)
    requires ConfigOk(cfg) && StageOrders(cfg, 0, order) && Endless(cfg, env)
    requires After(cfg, Launch(cfg, order), env, m).current == STAGES
    ensures StageZeroCounts(cfg) && AllAvailable(cfg, AdoptedEver(cfg, Launch(cfg, order), env))
  {
    var ids := AdoptedEver(cfg, Launch(cfg, order), env);
    if !StageZeroCounts(cfg) {
      StuckAtZero(cfg, order, env, m);
    }
    forall s: nat, name | Counts(cfg, s, name) ensures Available(cfg, ids, s, name) {
      if !Available(cfg, ids, s, name) {
        NeverAfter(cfg, order, env, m, s, name);
      }
    }
  }

  /** No job that makes a counted name available loses its key to another one. */
  ghost predicate NoneCrowdedOut(cfg: Config, ids: iset<string>)
    requires ConfigOk(cfg)
  {
    forall s: nat, name :: Counts(cfg, s, name) && Available(cfg, ids, s, name) ==> Assured(cfg, ids, s, name)
  }

  /** Whatever the outcomes of its jobs, the boot sequence of a host ends if and only if stage 0
      counts a name and every name that a stage counts is available by then, through the
      stages or the profile that the host adopts. */
  lemma BootEndsExactly(cfg: Config, order: (nat, nat) -> seq<string>, env: nat -> Tick)
    requires ConfigOk(cfg) && StageOrders(cfg, 0, order) && Endless(cfg, env) && Unstopped(env) && ClockUnbounded(env)
    requires NoneCrowdedOut(cfg, AdoptedEver(cfg, Launch(cfg, order), env))
    ensures (exists m: nat :: After(cfg, Launch(cfg, order), env, m).current == STAGES) <==>
              StageZeroCounts(cfg) && AllAvailable(cfg, AdoptedEver(cfg, Launch(cfg, order), env))
  {
    var ids := AdoptedEver(cfg, Launch(cfg, order), env);
    if StageZeroCounts(cfg) && AllAvailable(cfg, ids) {
      forall s: nat, name | Counts(cfg, s, name) ensures Assured(cfg, ids, s, name) {
      }
      var m := BootEndsIf(cfg, order, env);
    }
    if m: nat :| After(cfg, Launch(cfg, order), env, m).current == STAGES {
      BootEndsOnlyIf(cfg, order, env, m);
    }
  }

  /** Different jobs that are brought in have different keys. */
  ghost predicate KeysApart(cfg: Config, ids: iset<string>)
    requires ConfigOk(cfg)
  {
    forall m, n :: Brought(cfg, ids, STAGES, m) && Files(cfg, m, n) ==> Unrivalled(cfg, ids, m, n)
  }

  /** Then none is crowded out. */
  lemma ApartNotCrowded(cfg: Config, ids: iset<string>)
    requires ConfigOk(cfg) && KeysApart(cfg, ids)
    ensures NoneCrowdedOut(cfg, ids)
  {
    forall s: nat, name | Counts(cfg, s, name) && Available(cfg, ids, s, name) ensures Assured(cfg, ids, s, name) {
      var m :| Brought(cfg, ids, s, m) && Files(cfg, m, name) && Runnable(cfg, JobFor(cfg.models[m], name));
      BroughtLater(cfg, ids, s, STAGES, m);
      assert Unrivalled(cfg, ids, m, name);
    }
  }

  // ----- a host that never boots

  /** One profile with one poll in stage 0, enabled and with a collector; what the registry
      makes of it is left open. */
  function OnePoll(hash: Bytes -> int, enabled: bool, lookup: map<(string, string), Poll>): Config {
    var m := Model("p", map["x" := Poll("x", 1, false, enabled, 0, [60])]);
    Config("", [Some([m]), None, None, None, None], map["p" := m], lookup, {1}, hash)
  }

  /** If the poll is switched off, or cannot be looked up, stage 0 counts it and waits for it
      for ever. */
  lemma OnePollStuck(hash: Bytes -> int, enabled: bool, lookup: map<(string, string), Poll>,
                     order: (nat, nat) -> seq<string>, env: nat -> Tick, n: nat)
    requires !enabled || ("p", "x") !in lookup
    requires var cfg := OnePoll(hash, enabled, lookup);
             ConfigOk(cfg) && StageOrders(cfg, 0, order) && Endless(cfg, env)
    ensures var cfg := OnePoll(hash, enabled, lookup);
            Counts(cfg, 0, "x") && After(cfg, Launch(cfg, order), env, n).current == 0
  {
    var cfg := OnePoll(hash, enabled, lookup);
    var ms := cfg.groups[0].value;
    assert "x" in CountedNames(cfg, ms[0]) by {
      assert "x" in ms[0].polling && ms[0].polling["x"].protocol in cfg.collectors;
    }
    assert StageNames(cfg, ms, 1) == StageNames(cfg, ms, 0) + CountedNames(cfg, ms[0]);
    NeverAfter(cfg, order, env, n, 0, "x");
  }
}
