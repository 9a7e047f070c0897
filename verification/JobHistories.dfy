/** In a run of a whole host every job is treated exactly by its own outcomes: what the
    change filter and the cadence promise for a job alone, it has in company. */
module JobHistories {
  import opened Common
  import opened JobModel
  import opened Registry
  import opened HostModel
  import opened HostSteps
  import opened ChangeFilter

  /** The results handed over under a key. */
  function LogOf(key: string, log: seq<Handover>): seq<Option<Bytes>> {
    if log == [] then []
    else
      var last := log[|log| - 1];
      LogOf(key, log[..|log| - 1]) + if last.key == key then [last.result] else []
  }

  /** The outcome this turn has for the job with the key, if it runs. */
  function TurnOf(cfg: Config, h: Host, t: Tick, key: string): seq<Outcome>
    requires HostOk(h)
  {
    var i := FirstReady(h.queue, t.popAt);
    if i < |h.queue| && Key(h.queue[i]) == key && Ran(cfg, h.queue[i], t).Some?
    then [Ran(cfg, h.queue[i], t).value] else []
  }

  /** All the outcomes a run has for the job with the key. */
  function OutcomesOf(cfg: Config, h: Host, ts: seq<Tick>, key: string): seq<Outcome>
    requires ConfigOk(cfg) && TicksOk(cfg, ts) && HostOk(h)
    decreases |ts|
  {
    if ts == [] || !h.running then []
    else
      StepOk(cfg, h, ts[0]);
      TurnOf(cfg, h, ts[0], key) + OutcomesOf(cfg, Step(cfg, h, ts[0]), ts[1..], key)
  }

  /** Nothing was executed yet. */
  predicate Fresh(j: Job) {
    j.result.None? && j.error == "" && j.errorCount == 0 && j.lastHash == 0
  }

  /** The job with the key is what `first` has become after the outcomes `os`, and the
      log holds what it handed over. Without a collector there are no outcomes. */
  ghost predicate History(cfg: Config, h: Host, key: string, first: Job, os: seq<Outcome>) {
    && (HasCollector(cfg, first) || (os == [] && Fresh(first)))
    && LogOf(key, h.handed) == Selected(os, Hands(cfg.hash, first, os))
    && var p := FindKey(h.queue, key);
       p < |h.queue| && Core(h.queue[p]) == After(cfg.hash, first, os)
  }

  ghost predicate Absent(h: Host, key: string) {
    FindKey(h.queue, key) == |h.queue| && LogOf(key, h.handed) == []
  }

  lemma KeyPlace(q: seq<Job>, p: nat)
    requires Keyed(q) && p < |q|
    ensures FindKey(q, Key(q[p])) == p
  {
  }

  lemma {:induction false} NamesStay(hash: Bytes -> int, j: Job, os: seq<Outcome>)
    ensures var a := After(hash, j, os); a.pollaris == j.pollaris && a.name == j.name && a.always == j.always
  {
    if os != [] {
      NamesStay(hash, j, os[..|os| - 1]);
    }
  }

  lemma RunIsRunOnce(hash: Bytes -> int, j: Job, o: Outcome, t: Tick)
    ensures var (a, x) := Judge(hash, Executed(hash, j, o, t));
            (Core(a), x) == RunOnce(hash, Core(j), o) && a.result == Resulting(o) && Key(a) == Key(j)
  {
  }

  lemma AfterSnoc(hash: Bytes -> int, j: Job, os: seq<Outcome>, o: Outcome)
    ensures After(hash, j, os + [o]) == RunOnce(hash, After(hash, j, os), o).0
    ensures Hands(hash, j, os + [o]) == Hands(hash, j, os) + [RunOnce(hash, After(hash, j, os), o).1]
    ensures Selected(os + [o], Hands(hash, j, os + [o])) ==
            Selected(os, Hands(hash, j, os)) + if RunOnce(hash, After(hash, j, os), o).1 then [Resulting(o)] else []
  {
    assert (os + [o])[..|os|] == os;
  }

  lemma TreatedKey(cfg: Config, j: Job, t: Tick)
    ensures Key(Treated(cfg, j, t)) == Key(j)
  {
  }

  /** Position `p` after position `i` of `n` was served. */
  function PlaceAfter(p: nat, i: nat, n: nat): nat
    requires p < n
  {
    if p < i then p else if p > i then p - 1 else n - 1
  }

  /** What is at that place when the served job became `x`. */
  lemma ServedAt(cfg: Config, q: seq<Job>, i: nat, x: Job, r: seq<Job>, p: nat)
    requires i < |q| && p < |q|
    requires Carried(cfg, MoveToLast(q, i)[|q| - 1 := x], r)
    ensures PlaceAfter(p, i, |q|) < |r|
    ensures Core(r[PlaceAfter(p, i, |q|)]) == Core(if i == p then x else q[p])
  {
    var place := PlaceAfter(p, i, |q|);
    MoveToLastAt(q, i, place);
    assert MoveToLast(q, i)[|q| - 1 := x][place] == if i == p then x else q[p];
  }

  lemma PlaceAfterServing(cfg: Config, q: seq<Job>, i: nat, x: Job, r: seq<Job>, p: nat)
    requires i < |q| && p < |q| && Key(x) == Key(q[i]) && Keyed(r)
    requires Carried(cfg, MoveToLast(q, i)[|q| - 1 := x], r)
    ensures var f := FindKey(r, Key(q[p]));
            f < |r| && Core(r[f]) == Core(if i == p then x else q[p])
  {
    ServedAt(cfg, q, i, x, r, p);
    KeyPlace(r, PlaceAfter(p, i, |q|));
  }

  /** A turn that leaves the host running: what the job with the key has become. */
  lemma StepPlaces(cfg: Config, h: Host, t: Tick, key: string)
    requires ConfigOk(cfg) && TickOk(cfg, t) && HostOk(h) && h.running && Step(cfg, h, t).running
    requires FindKey(h.queue, key) < |h.queue|
    ensures var p, i, q := FindKey(h.queue, key), FirstReady(h.queue, t.popAt), Step(cfg, h, t).queue;
            && FindKey(q, key) < |q|
            && Core(q[FindKey(q, key)]) == Core(if i == p then Treated(cfg, h.queue[p], t) else h.queue[p])
  {
    var p, i, q := FindKey(h.queue, key), FirstReady(h.queue, t.popAt), Step(cfg, h, t).queue;
    StepOk(cfg, h, t);
    if i < |h.queue| {
      var x := Treated(cfg, h.queue[i], t);
      StepServes(cfg, h, t);
      TreatedKey(cfg, h.queue[i], t);
      PlaceAfterServing(cfg, h.queue, i, x, q, p);
    } else {
      assert Core(q[p]) == Core(h.queue[p]);
      KeyPlace(q, p);
    }
  }

  lemma LogSnoc(key: string, log: seq<Handover>, more: seq<Handover>)
    requires |more| <= 1
    ensures LogOf(key, log + more) == LogOf(key, log) + LogOf(key, more)
  {
    if |more| == 1 {
      assert (log + more)[..|log|] == log;
    } else {
      assert log + more == log;
    }
  }

  /** One turn extends the history by the outcome it has for the job. */
  lemma StepHistory(cfg: Config, h: Host, t: Tick, key: string, first: Job, os: seq<Outcome>)
    requires ConfigOk(cfg) && TickOk(cfg, t) && HostOk(h) && h.running
    requires History(cfg, h, key, first, os)
    ensures var all, r := os + TurnOf(cfg, h, t, key), Step(cfg, h, t);
            && LogOf(key, r.handed) == Selected(all, Hands(cfg.hash, first, all))
            && (r.running ==> History(cfg, r, key, first, all))
  {
    StepLog(cfg, h, t, key, first, os);
    StepBecomes(cfg, h, t, key, first, os);
    if Step(cfg, h, t).running {
      StepPlaces(cfg, h, t, key);
    }
  }

  /** What a turn makes of the job with the key, wherever it is then. */
  lemma StepBecomes(cfg: Config, h: Host, t: Tick, key: string, first: Job, os: seq<Outcome>)
    requires ConfigOk(cfg) && TickOk(cfg, t) && HostOk(h)
    requires History(cfg, h, key, first, os)
    ensures var p, i := FindKey(h.queue, key), FirstReady(h.queue, t.popAt);
            Core(if i == p then Treated(cfg, h.queue[p], t) else h.queue[p]) ==
            After(cfg.hash, first, os + TurnOf(cfg, h, t, key))
  {
    var p, i := FindKey(h.queue, key), FirstReady(h.queue, t.popAt);
    NamesStay(cfg.hash, first, os);
    if i < |h.queue| {
      KeyPlace(h.queue, i);
    }
    if i == p && Ran(cfg, h.queue[p], t).Some? {
      var o := Ran(cfg, h.queue[p], t).value;
      RunIsRunOnce(cfg.hash, h.queue[p], o, t);
      AfterSnoc(cfg.hash, first, os, o);
    } else {
      assert os + TurnOf(cfg, h, t, key) == os;
    }
  }

  /** What serving a job adds to the log under the key. */
  lemma ServedLog(cfg: Config, j: Job, t: Tick, key: string, first: Job, os: seq<Outcome>)
    requires Key(j) == key ==> Core(j) == After(cfg.hash, first, os)
    ensures var all := os + if Key(j) == key && Ran(cfg, j, t).Some? then [Ran(cfg, j, t).value] else [];
            Selected(all, Hands(cfg.hash, first, all)) == Selected(os, Hands(cfg.hash, first, os)) + LogOf(key, NewlyHanded(cfg, j, t))
  {
    if Key(j) == key && Ran(cfg, j, t).Some? {
      RunIsRunOnce(cfg.hash, j, Ran(cfg, j, t).value, t);
      AfterSnoc(cfg.hash, first, os, Ran(cfg, j, t).value);
    } else {
      assert os + [] == os;
      if Key(j) != key {
        HandedKey(cfg, j, t, key);
      }
    }
  }

  /** What a turn adds to the log under the key. */
  lemma StepLog(cfg: Config, h: Host, t: Tick, key: string, first: Job, os: seq<Outcome>)
    requires ConfigOk(cfg) && TickOk(cfg, t) && HostOk(h) && h.running
    requires History(cfg, h, key, first, os)
    ensures var all := os + TurnOf(cfg, h, t, key);
            LogOf(key, Step(cfg, h, t).handed) == Selected(all, Hands(cfg.hash, first, all))
  {
    var i := FirstReady(h.queue, t.popAt);
    if i < |h.queue| {
      StepServes(cfg, h, t);
      LogSnoc(key, h.handed, NewlyHanded(cfg, h.queue[i], t));
      KeyPlace(h.queue, i);
      ServedLog(cfg, h.queue[i], t, key, first, os);
    } else {
      assert os + TurnOf(cfg, h, t, key) == os;
    }
  }

  lemma {:induction false} RunHistory(cfg: Config, h: Host, ts: seq<Tick>, key: string, first: Job, os: seq<Outcome>)
    requires ConfigOk(cfg) && TicksOk(cfg, ts) && HostOk(h)
    requires History(cfg, h, key, first, os)
    ensures var all := os + OutcomesOf(cfg, h, ts, key);
            && LogOf(key, Run(cfg, h, ts).handed) == Selected(all, Hands(cfg.hash, first, all))
            && (Run(cfg, h, ts).running ==> History(cfg, Run(cfg, h, ts), key, first, all))
    decreases |ts|
  {
    var all := os + OutcomesOf(cfg, h, ts, key);
    if ts == [] || !h.running {
      assert all == os;
    } else {
      var r, turn := Step(cfg, h, ts[0]), TurnOf(cfg, h, ts[0], key);
      StepOk(cfg, h, ts[0]);
      StepHistory(cfg, h, ts[0], key, first, os);
      Regroup(os, turn, OutcomesOf(cfg, r, ts[1..], key));
      if r.running {
        RunHistory(cfg, r, ts[1..], key, first, os + turn);
      } else {
        assert all == os + turn;
      }
    }
  }

  lemma Regroup<T>(a: seq<T>, b: seq<T>, c: seq<T>)
    ensures a + (b + c) == a + b + c
  {
  }

  /** Every registered job with this key is judged by its changes. */
  ghost predicate Filtered(cfg: Config, key: string) {
    forall m, n :: m in cfg.models && n in cfg.models[m].polling ==>
      Key(JobFor(cfg.models[m], n)) == key ==> !cfg.models[m].polling[n].always
  }

  /** Nothing of a key is logged before its job is inserted, and an inserted job is new. */
  ghost predicate Beginning(cfg: Config, h: Host, key: string, first: Job) {
    && LogOf(key, h.handed) == []
    && var p := FindKey(h.queue, key);
       p < |h.queue| ==> Registered(cfg, first) && Key(first) == key && History(cfg, h, key, first, [])
  }

  /** A job found in a list that grew out of one without its key was inserted anew. */
  lemma InsertedAnew(cfg: Config, a: seq<Job>, b: seq<Job>, key: string)
    requires Carried(cfg, a, b) && FindKey(a, key) == |a|
    ensures FindKey(b, key) < |b| ==> Registered(cfg, b[FindKey(b, key)])
  {
  }

  lemma StepAbsent(cfg: Config, h: Host, t: Tick, key: string)
    requires ConfigOk(cfg) && TickOk(cfg, t) && HostOk(h) && h.running && Absent(h, key)
    ensures LogOf(key, Step(cfg, h, t).handed) == [] && TurnOf(cfg, h, t, key) == []
    ensures var q := Step(cfg, h, t).queue;
            Step(cfg, h, t).running && FindKey(q, key) < |q| ==> Registered(cfg, q[FindKey(q, key)])
  {
    var i, r := FirstReady(h.queue, t.popAt), Step(cfg, h, t);
    if i < |h.queue| {
      var j, x := h.queue[i], Treated(cfg, h.queue[i], t);
      StepServes(cfg, h, t);
      TreatedKey(cfg, j, t);
      HandedKey(cfg, j, t, key);
      LogSnoc(key, h.handed, NewlyHanded(cfg, j, t));
      if r.running {
        StillAbsent(h.queue, i, x, key);
        InsertedAnew(cfg, MoveToLast(h.queue, i)[|h.queue| - 1 := x], r.queue, key);
      }
    } else {
      ExpeditedKeys(h.queue, key);
    }
  }

  /** The job with the key, or any job when there is none. */
  function JobAt(q: seq<Job>, key: string): Job {
    var f := FindKey(q, key);
    if f < |q| then q[f] else Job("", "", false, false, 0, [], 0, 0, None, "", 0, 0)
  }

  lemma HandedKey(cfg: Config, j: Job, t: Tick, key: string)
    requires Key(j) != key
    ensures LogOf(key, NewlyHanded(cfg, j, t)) == []
  {
  }

  lemma ExpeditedKeys(q: seq<Job>, key: string)
    requires FindKey(q, key) == |q|
    ensures FindKey(Expedited(q), key) == |q|
  {
    assert forall k :: 0 <= k < |q| ==> Key(Expedited(q)[k]) == Key(q[k]);
  }

  lemma StillAbsent(q: seq<Job>, i: nat, x: Job, key: string)
    requires i < |q| && FindKey(q, key) == |q| && Key(x) == Key(q[i])
    ensures FindKey(MoveToLast(q, i)[|q| - 1 := x], key) == |q|
  {
    var b := MoveToLast(q, i)[|q| - 1 := x];
    forall k | 0 <= k < |q| ensures Key(b[k]) != key {
      MoveToLastAt(q, i, k);
    }
  }

  /** How a run treats a key: never inserted, or the history of one registered job. */
  ghost predicate Traced(cfg: Config, r: Host, key: string, first: Job, os: seq<Outcome>) {
    if os == [] && (r.running ==> FindKey(r.queue, key) == |r.queue|) then LogOf(key, r.handed) == []
    else
      && Registered(cfg, first) && Key(first) == key
      && LogOf(key, r.handed) == Selected(os, Hands(cfg.hash, first, os))
      && (r.running ==> History(cfg, r, key, first, os))
  }

  lemma {:induction false} TracedFromAbsence(cfg: Config, h: Host, ts: seq<Tick>, key: string) returns (first: Job)
    requires ConfigOk(cfg) && TicksOk(cfg, ts) && HostOk(h) && Absent(h, key)
    ensures Traced(cfg, Run(cfg, h, ts), key, first, OutcomesOf(cfg, h, ts, key))
    decreases |ts|, 0
  {
    first := JobAt(h.queue, key);
    if ts != [] && h.running {
      var r := Step(cfg, h, ts[0]);
      StepOk(cfg, h, ts[0]);
      StepAbsent(cfg, h, ts[0], key);
      assert OutcomesOf(cfg, h, ts, key) == OutcomesOf(cfg, r, ts[1..], key);
      if r.running {
        first := TracedFromBeginning(cfg, r, ts[1..], key, JobAt(r.queue, key));
      }
    }
  }

  lemma {:induction false} TracedFromBeginning(cfg: Config, h: Host, ts: seq<Tick>, key: string, job: Job) returns (first: Job)
    requires ConfigOk(cfg) && TicksOk(cfg, ts) && HostOk(h) && Beginning(cfg, h, key, job)
    ensures Traced(cfg, Run(cfg, h, ts), key, first, OutcomesOf(cfg, h, ts, key))
    decreases |ts|, 1
  {
    first := job;
    if FindKey(h.queue, key) == |h.queue| {
      first := TracedFromAbsence(cfg, h, ts, key);
    } else {
      RunHistory(cfg, h, ts, key, first, []);
      assert [] + OutcomesOf(cfg, h, ts, key) == OutcomesOf(cfg, h, ts, key);
    }
  }

  lemma TracedFromLaunch(cfg: Config, order: (nat, nat) -> seq<string>, ts: seq<Tick>, key: string) returns (first: Job)
    requires ConfigOk(cfg) && StageOrders(cfg, 0, order) && TicksOk(cfg, ts)
    ensures var h := Launch(cfg, order); Traced(cfg, Run(cfg, h, ts), key, first, OutcomesOf(cfg, h, ts, key))
  {
    var h := Launch(cfg, order);
    EnterStageCarries(cfg, IdleHost(), 0, order);
    InsertedAnew(cfg, [], h.queue, key);
    first := TracedFromBeginning(cfg, h, ts, key, JobAt(h.queue, key));
  }

  lemma {:induction false} OutcomesNamed(cfg: Config, h: Host, ts: seq<Tick>, key: string)
    requires ConfigOk(cfg) && TicksOk(cfg, ts) && HostOk(h)
    ensures ErrorsNamed(OutcomesOf(cfg, h, ts, key))
    decreases |ts|
  {
    if ts != [] && h.running {
      StepOk(cfg, h, ts[0]);
      OutcomesNamed(cfg, Step(cfg, h, ts[0]), ts[1..], key);
      assert TickOk(cfg, ts[0]);
    }
  }

  /** Over every run from the start of a host: what is handed to the parser for a job are
      exactly the changes among its own outcomes, whatever the other jobs do. When it either
      succeeds or fails each time, these are its successes without consecutive repeats. */
  lemma RunHandsOverChanges(cfg: Config, order: (nat, nat) -> seq<string>, ts: seq<Tick>, key: string)
    requires ConfigOk(cfg) && StageOrders(cfg, 0, order) && TicksOk(cfg, ts) && Filtered(cfg, key)
    requires NeverMisled(cfg.hash, OutcomesOf(cfg, Launch(cfg, order), ts, key))
    ensures var h := Launch(cfg, order);
            var os := OutcomesOf(cfg, h, ts, key);
            && LogOf(key, Run(cfg, h, ts).handed) == Selected(os, Changes(os))
            && (Tracked(os) ==> LogOf(key, Run(cfg, h, ts).handed) == Dedup(Successes(os)))
  {
    var h := Launch(cfg, order);
    var os := OutcomesOf(cfg, h, ts, key);
    var first := TracedFromLaunch(cfg, order, ts, key);
    OutcomesNamed(cfg, h, ts, key);
    if os != [] {
      RegisteredUnrun(cfg, key, first);
      FilterExact(cfg.hash, first, os);
    }
    if Tracked(os) {
      ChangesAreDedup(os);
    }
  }

  /** In particular where the hash function tells the results of the job apart. */
  lemma RunHandsOverDistinct(cfg: Config, order: (nat, nat) -> seq<string>, ts: seq<Tick>, key: string)
    requires ConfigOk(cfg) && StageOrders(cfg, 0, order) && TicksOk(cfg, ts) && Filtered(cfg, key)
    requires TellsApart(cfg.hash, OutcomesOf(cfg, Launch(cfg, order), ts, key))
    ensures var h := Launch(cfg, order);
            var os := OutcomesOf(cfg, h, ts, key);
            LogOf(key, Run(cfg, h, ts).handed) == Selected(os, Changes(os))
  {
    NotMisled(cfg.hash, OutcomesOf(cfg, Launch(cfg, order), ts, key));
    RunHandsOverChanges(cfg, order, ts, key);
  }

  lemma RegisteredUnrun(cfg: Config, key: string, j: Job)
    requires Registered(cfg, j) && Key(j) == key
    ensures Unrun(j) && (Filtered(cfg, key) ==> !j.always)
    ensures ConfigOk(cfg) ==> CadenceOk(j)
  {
  }

  /** The last failure is the outcome before position `since`; there is none if that is 0. */
  ghost predicate SinceFailure(os: seq<Outcome>, since: nat) {
    since <= |os| && (since > 0 ==> os[since - 1].Failure?) && forall i :: since <= i < |os| ==> !os[i].Failure?
  }

  /** min(k, last) after k results since the last failure, from the first level on if there is none. */
  function LevelAfter(first: Job, os: seq<Outcome>, since: nat): int
    requires since <= |os|
  {
    var k := (if since == 0 then first.current else 0) + ResultRuns(os[since..]);
    if k < |first.cadences| then k else |first.cadences| - 1
  }

  /** Over every run from the start of a host, a job stands at its poll's cadence number
      min(k, last) after k results since its last failure, from its poll's own number on if
      it never failed. */
  lemma RunKeepsLevel(cfg: Config, order: (nat, nat) -> seq<string>, ts: seq<Tick>, r: Host, key: string, os: seq<Outcome>, since: nat)
    returns (first: Job)
    requires ConfigOk(cfg) && StageOrders(cfg, 0, order) && TicksOk(cfg, ts) && Filtered(cfg, key)
    requires r == Run(cfg, Launch(cfg, order), ts) && os == OutcomesOf(cfg, Launch(cfg, order), ts, key)
    requires r.running && FindKey(r.queue, key) < |r.queue|
    requires SinceFailure(os, since)
    ensures Registered(cfg, first) && Key(first) == key
    ensures var job := JobAt(r.queue, key);
            job.cadences == first.cadences && job.current == LevelAfter(first, os, since)
  {
    first := TracedFromLaunch(cfg, order, ts, key);
    OutcomesNamed(cfg, Launch(cfg, order), ts, key);
    TracedLevel(cfg, r, key, first, os, since);
  }

  lemma TracedLevel(cfg: Config, r: Host, key: string, first: Job, os: seq<Outcome>, since: nat)
    requires ConfigOk(cfg) && Filtered(cfg, key) && Traced(cfg, r, key, first, os) && ErrorsNamed(os)
    requires r.running && FindKey(r.queue, key) < |r.queue|
    requires SinceFailure(os, since)
    ensures Registered(cfg, first) && Key(first) == key
    ensures var job := JobAt(r.queue, key);
            job.cadences == first.cadences && job.current == LevelAfter(first, os, since)
  {
    RegisteredUnrun(cfg, key, first);
    KeepsCadences(cfg.hash, first, os);
    CadenceLevel(cfg.hash, first, os, since);
  }

  /** Every registered job with this key is to be handed over each time. */
  ghost predicate Unfiltered(cfg: Config, key: string) {
    forall m, n :: m in cfg.models && n in cfg.models[m].polling ==>
      cfg.models[m].name + n == key ==> cfg.models[m].polling[n].always
  }

  lemma RegisteredAlways(cfg: Config, key: string, j: Job)
    requires Registered(cfg, j) && Key(j) == key && Unfiltered(cfg, key)
    ensures j.always
  {
    var m, n :| m in cfg.models && n in cfg.models[m].polling && j == JobFor(cfg.models[m], n);
    assert cfg.models[m].name + n == key;
  }

  /** Over every run from the start of a host: what is handed to the parser for a job marked
      `always` are the results of all its executions that did not fail. */
  lemma RunHandsOverAll(cfg: Config, order: (nat, nat) -> seq<string>, ts: seq<Tick>, key: string)
    requires ConfigOk(cfg) && StageOrders(cfg, 0, order) && TicksOk(cfg, ts) && Unfiltered(cfg, key)
    ensures var h := Launch(cfg, order);
            LogOf(key, Run(cfg, h, ts).handed) == Unfailed(OutcomesOf(cfg, h, ts, key))
  {
    var h := Launch(cfg, order);
    var os := OutcomesOf(cfg, h, ts, key);
    var first := TracedFromLaunch(cfg, order, ts, key);
    OutcomesNamed(cfg, h, ts, key);
    if os != [] {
      RegisteredAlways(cfg, key, first);
      AlwaysHands(cfg.hash, first, os);
    }
  }

  /** Over every run from the start of a host, a job marked `always` stands at the level of its
      poll until it fails once, and at the first from then on. */
  lemma RunKeepsAlwaysLevel(cfg: Config, order: (nat, nat) -> seq<string>, ts: seq<Tick>, r: Host, key: string, os: seq<Outcome>)
    returns (first: Job)
    requires ConfigOk(cfg) && StageOrders(cfg, 0, order) && TicksOk(cfg, ts) && Unfiltered(cfg, key)
    requires r == Run(cfg, Launch(cfg, order), ts) && os == OutcomesOf(cfg, Launch(cfg, order), ts, key)
    requires r.running && FindKey(r.queue, key) < |r.queue|
    ensures Registered(cfg, first) && Key(first) == key
    ensures var job := JobAt(r.queue, key);
            && job.cadences == first.cadences
            && job.current == if exists i :: 0 <= i < |os| && os[i].Failure? then 0 else first.current
  {
    first := TracedFromLaunch(cfg, order, ts, key);
    OutcomesNamed(cfg, Launch(cfg, order), ts, key);
    TracedAlways(cfg, r, key, first, os);
  }

  lemma TracedAlways(cfg: Config, r: Host, key: string, first: Job, os: seq<Outcome>)
    requires Unfiltered(cfg, key) && Traced(cfg, r, key, first, os) && ErrorsNamed(os)
    requires r.running && FindKey(r.queue, key) < |r.queue|
    ensures Registered(cfg, first) && Key(first) == key
    ensures var job := JobAt(r.queue, key);
            && job.cadences == first.cadences
            && job.current == if exists i :: 0 <= i < |os| && os[i].Failure? then 0 else first.current
  {
    RegisteredAlways(cfg, key, first);
    KeepsCadences(cfg.hash, first, os);
    AlwaysLevel(cfg.hash, first, os);
  }
}
