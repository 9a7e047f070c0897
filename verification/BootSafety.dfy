/** Safety of the boot sequence over all runs: stages are passed in order, only when
    complete, and stay complete. */
module BootSafety {
  import opened Common
  import opened JobModel
  import opened HostModel
  import opened HostSteps

  /** Every stage before the current one is complete. */
  ghost predicate PassedComplete(h: Host)
    requires |h.stages| == STAGES
  {
    forall s :: 0 <= s < h.current && s < STAGES ==>
      h.stages[s].Some? && forall n :: n in h.stages[s].value ==> h.stages[s].value[n]
  }

  /** The boot sequence is over, or the current stage waits for a job. */
  ghost predicate Settled(h: Host)
    requires |h.stages| == STAGES && (h.current < STAGES ==> h.stages[h.current].Some?)
  {
    h.current >= STAGES || exists n :: n in h.stages[h.current].value && !h.stages[h.current].value[n]
  }

  /** The boot sequence of `b` continues that of `a`. */
  ghost predicate Continues(a: Host, b: Host)
    requires |a.stages| == STAGES == |b.stages|
  {
    && a.current <= b.current
    && forall s :: 0 <= s < a.current && s < STAGES ==> b.stages[s] == a.stages[s]
  }

  lemma EnterSafe(cfg: Config, h: Host, order: (nat, nat) -> seq<string>)
    requires ConfigOk(cfg) && HostOk(h) && PassedComplete(h)
    requires h.current + 1 < STAGES && Complete(h.stages[h.current].value) && StageOrders(cfg, h.current + 1, order)
    ensures var r := EnterStage(cfg, h, h.current + 1, order);
            && HostOk(r) && r.current == h.current + 1 && PassedComplete(r) && Continues(h, r)
            && r.stages[h.current] == h.stages[h.current]
  {
    EnterStageOk(cfg, h, h.current + 1, order);
  }

  lemma {:induction false} AdvanceSafe(cfg: Config, h: Host, order: (nat, nat) -> seq<string>)
    requires ConfigOk(cfg) && HostOk(h) && h.current < STAGES && PassedComplete(h)
    requires forall stage :: 0 <= stage < STAGES ==> StageOrders(cfg, stage, order)
    ensures var r := Advance(cfg, h, order);
            HostOk(r) && PassedComplete(r) && Settled(r) && Continues(h, r) && r.stages[h.current] == h.stages[h.current]
    decreases STAGES - h.current
  {
    if Complete(h.stages[h.current].value) && h.current + 1 < STAGES {
      EnterSafe(cfg, h, order);
      AdvanceSafe(cfg, EnterStage(cfg, h, h.current + 1, order), order);
    }
  }

  lemma CompleteBootSafe(cfg: Config, h: Host, name: string, t: Tick)
    requires ConfigOk(cfg) && TickOk(cfg, t) && HostOk(h) && PassedComplete(h)
    ensures var r := CompleteBoot(cfg, h, name, t);
            HostOk(r) && PassedComplete(r) && Settled(r) && Continues(h, r)
  {
    if h.current < STAGES {
      var s := MarkComplete(h.stages[h.current].value, name);
      AdvanceSafe(cfg, h.(stages := h.stages[h.current := Some(s)]), t.order);
    }
  }

  lemma JudgeAtOk(cfg: Config, h: Host, p: nat, j: Job, t: Tick)
    requires ConfigOk(cfg) && TickOk(cfg, t) && HostOk(h) && p < |h.queue|
    requires Key(j) == Key(h.queue[p]) && CadenceOk(j)
    ensures var r := JudgeAt(cfg, h, p, j, t);
            HostOk(r) && r.current == h.current && r.stages == h.stages
  {
    var judged := Judge(cfg.hash, j).0;
    assert ValidQueue(h.queue[p := judged]);
    if t.identified.Some? {
      InsertModelOk(cfg, h.queue[p := judged], t.identified.value, t.order(STAGES, 0));
    }
  }

  lemma FinishSafe(cfg: Config, h: Host, p: nat, j: Job, t: Tick)
    requires ConfigOk(cfg) && TickOk(cfg, t) && HostOk(h) && PassedComplete(h) && p < |h.queue|
    requires Key(j) == Key(h.queue[p]) && CadenceOk(j)
    ensures var r := Finish(cfg, h, p, j, t);
            HostOk(r) && PassedComplete(r) && Settled(r) && Continues(h, r)
  {
    JudgeAtOk(cfg, h, p, j, t);
    CompleteBootSafe(cfg, JudgeAt(cfg, h, p, j, t), j.name, t);
  }

  lemma RunJobSafe(cfg: Config, h: Host, j: Job, t: Tick)
    requires ConfigOk(cfg) && TickOk(cfg, t) && HostOk(h) && PassedComplete(h)
    requires h.queue != [] && h.queue[|h.queue| - 1] == j && Ran(cfg, j, t).Some?
    ensures var r := RunJob(cfg, h, j, t);
            HostOk(r) && PassedComplete(r) && Settled(r) && Continues(h, r)
  {
    ExecutedSame(cfg, j, Ran(cfg, j, t).value, t);
    RunIsFinish(cfg, h, j, t);
    FinishSafe(cfg, h, |h.queue| - 1, Executed(cfg.hash, j, Ran(cfg, j, t).value, t), t);
  }

  lemma ExecutedSame(cfg: Config, j: Job, o: Outcome, t: Tick)
    ensures var x := Executed(cfg.hash, j, o, t); Key(x) == Key(j) && (CadenceOk(x) <==> CadenceOk(j))
  {
  }

  lemma RunIsFinish(cfg: Config, h: Host, j: Job, t: Tick)
    requires ConfigOk(cfg) && TickOk(cfg, t) && HostOk(h) && h.queue != [] && Ran(cfg, j, t).Some?
    ensures RunJob(cfg, h, j, t) == Finish(cfg, h, |h.queue| - 1, Executed(cfg.hash, j, Ran(cfg, j, t).value, t), t)
  {
  }

  /** One turn, in which a job may finish. */
  lemma StepSafe(cfg: Config, h: Host, t: Tick)
    requires ConfigOk(cfg) && TickOk(cfg, t) && HostOk(h) && PassedComplete(h)
    ensures var r, i := Step(cfg, h, t), FirstReady(h.queue, t.popAt);
            && HostOk(r) && PassedComplete(r) && Continues(h, r)
            && (if i < |h.queue| && Ran(cfg, h.queue[i], t).Some? then Settled(r)
                else r.current == h.current && r.stages == h.stages)
  {
    var i := FirstReady(h.queue, t.popAt);
    if i < |h.queue| && Ran(cfg, h.queue[i], t).Some? {
      RanSafe(cfg, h, i, t);
    } else {
      StepOk(cfg, h, t);
    }
  }

  lemma RanSafe(cfg: Config, h: Host, i: nat, t: Tick)
    requires ConfigOk(cfg) && TickOk(cfg, t) && HostOk(h) && PassedComplete(h)
    requires i == FirstReady(h.queue, t.popAt) < |h.queue| && Ran(cfg, h.queue[i], t).Some?
    ensures var r := Step(cfg, h, t);
            HostOk(r) && PassedComplete(r) && Continues(h, r) && Settled(r)
  {
    var j := h.queue[i];
    AfterPopValid(h.queue, t.popAt);
    RunJobSafe(cfg, h.(queue := MoveToLast(h.queue, i)), j, t);
  }

  /** Over every run: the stage never falls back, passed stages stay as they were and
      complete, and once a job has finished the host never rests on a complete stage. */
  lemma {:induction false} RunSafe(cfg: Config, h: Host, ts: seq<Tick>)
    requires ConfigOk(cfg) && TicksOk(cfg, ts) && HostOk(h) && PassedComplete(h)
    ensures var r := Run(cfg, h, ts);
            HostOk(r) && PassedComplete(r) && Continues(h, r) && (Settled(h) ==> Settled(r))
    decreases |ts|
  {
    if ts != [] && h.running {
      StepSafe(cfg, h, ts[0]);
      StepOk(cfg, h, ts[0]);
      RunSafe(cfg, Step(cfg, h, ts[0]), ts[1..]);
    }
  }

  /** Boot safety from the start of a host, between any two points of a run. */
  lemma BootIsSafe(cfg: Config, order: (nat, nat) -> seq<string>, before: seq<Tick>, after: seq<Tick>)
    requires ConfigOk(cfg) && StageOrders(cfg, 0, order) && TicksOk(cfg, before) && TicksOk(cfg, after)
    ensures var a := Run(cfg, Launch(cfg, order), before);
            && HostOk(a) && PassedComplete(a)
            && var b := Run(cfg, a, after);
               HostOk(b) && PassedComplete(b) && Continues(a, b) && (Settled(a) ==> Settled(b))
  {
    RunSafe(cfg, Launch(cfg, order), before);
    RunSafe(cfg, Run(cfg, Launch(cfg, order), before), after);
  }
}
