/** The collector of one host, in the form of the source: boot states and jobs are
    objects updated in place. Each turn of the collection loop is proved to compute
    HostModel.Step. */
module HostCollectors {
  import opened Common
  import opened JobModel
  import opened Registry
  import opened HostModel
  import opened JobsQueues

  class BootState {
    var jobNames: Stage

    constructor ()
      ensures jobNames == map[]
    {
      jobNames := map[];
    }

    method IsComplete() returns (complete: bool)
      ensures complete <==> Complete(jobNames)
      ensures complete <==> forall n :: n in jobNames ==> jobNames[n]
    {
      var names := jobNames.Keys;
      while names != {}
        invariant names <= jobNames.Keys
        invariant forall n :: n in jobNames.Keys - names ==> jobNames[n]
      {
        var n :| n in names;
        if !jobNames[n] {
          return false;
        }
        names := names - {n};
      }
      complete := true;
    }

    method JobComplete(name: string)
      modifies this
      ensures jobNames == MarkComplete(old(jobNames), name)
      ensures jobNames == if name in old(jobNames) then old(jobNames)[name := true] else old(jobNames)
    {
      if name in jobNames {
        jobNames := jobNames[name := true];
      }
    }
  }

  method JobHasChange(hash: Bytes -> int, job: CJob) returns (changed: bool)
    requires CadenceOk(job.View())
    modifies job.cadence`current
    ensures (job.View(), changed) ==
            if job.always then (old(job.View()), true)
            else (Slower(old(job.View())), DiffersFromHash(hash, job.lastResultHash, job.result))
  {
    if job.always {
      return true;
    }
    if job.result.Some? && job.cadence.current < |job.cadence.cadences| - 1 {
      job.cadence.current := job.cadence.current + 1;
    }
    if job.lastResultHash == 0 && job.result.None? {
      return false;
    } else if job.lastResultHash == 0 && job.result.Some? {
      return true;
    } else if job.result.None? {
      return true;
    }
    return HashBytes(hash, job.result) != job.lastResultHash;
  }

  /** The names of those polls under the given keys that have a collector. */
  function CountedOf(cfg: Config, m: Model, keys: set<string>): set<string> {
    set n | n in keys && n in m.polling && m.polling[n].protocol in cfg.collectors :: m.polling[n].name
  }

  lemma CountedMore(cfg: Config, m: Model, left: set<string>, k: string)
    requires k in left && left <= m.polling.Keys
    ensures CountedOf(cfg, m, m.polling.Keys - (left - {k})) ==
            CountedOf(cfg, m, m.polling.Keys - left) + if m.polling[k].protocol in cfg.collectors then {m.polling[k].name} else {}
  {
  }

  lemma PendingMore(s: Stage, names: set<string>, name: string)
    ensures (s + Pending(names))[name := false] == s + Pending(names + {name})
  {
  }

  class HostCollector {
    const cfg: Config
    const jobsQueue: JobsQueue
    var bootStages: seq<BootState?>
    var currentBootStage: nat
    var handed: seq<Handover>
    var pollarisName: string
    var running: bool
    ghost var Stages: seq<Option<Stage>>  // the boot states as values
    ghost var Repr: set<object>  // the objects of this host

    /** The host as a value. */
    ghost function State(): Host
      reads this`Stages, this`currentBootStage, this`handed, this`pollarisName, this`running, jobsQueue`Contents
    {
      Host(jobsQueue.Contents, Stages, currentBootStage, handed, pollarisName, running)
    }

    ghost predicate StagesShown()
      reads this`bootStages, this`Stages, bootStages
    {
      && |bootStages| == STAGES == |Stages|
      && (forall i, j :: 0 <= i < j < STAGES && bootStages[i] != null ==> bootStages[i] != bootStages[j])
      && (forall i :: 0 <= i < STAGES ==> (bootStages[i] == null <==> Stages[i].None?))
      && (forall i :: 0 <= i < STAGES && bootStages[i] != null ==> bootStages[i].jobNames == Stages[i].value)
    }

    /** Holds from construction on. */
    ghost predicate Consistent()
      reads this`running, this`bootStages, this`Stages, bootStages
      reads jobsQueue, jobsQueue.jobs, jobsQueue.Cadences()
    {
      && ConfigOk(cfg)
      && jobsQueue.Valid()
      && running == !jobsQueue.shutdown
      && StagesShown()
    }

    /** Holds once the host was started. */
    ghost predicate Valid()
      reads this`running, this`bootStages, this`Stages, this`currentBootStage, bootStages
      reads jobsQueue, jobsQueue.jobs, jobsQueue.Cadences()
    {
      && Consistent()
      && currentBootStage <= STAGES
      && (currentBootStage < STAGES ==> bootStages[currentBootStage] != null)
    }

    constructor (cfg: Config)
      requires ConfigOk(cfg)
      ensures this.cfg == cfg && Consistent()
      ensures State() == IdleHost()
    {
      this.cfg := cfg;
      jobsQueue := new JobsQueue();
      bootStages := [null, null, null, null, null];
      currentBootStage, handed, pollarisName, running := 0, [], "", true;
      Stages := [None, None, None, None, None];
    }

    /** Whether a profile of the stage carries exactly this target's links id. */
    method FindLinksMatch(ms: seq<Model>) returns (found: bool)
      ensures found <==> HasLinksMatch(cfg, ms)
    {
      found := false;
      if cfg.linksId != "" {
        for i := 0 to |ms|
          invariant forall k :: 0 <= k < i ==> ms[k].name != cfg.linksId
        {
          if ms[i].name == cfg.linksId {
            return true;
          }
        }
      }
    }

    /** Adds the names of the profile's polls that have a collector, as pending. */
    method CountPolls(m: Model, bs: BootState) returns (hasProtocol: bool)
      modifies bs
      ensures bs.jobNames == old(bs.jobNames) + Pending(CountedNames(cfg, m))
      ensures hasProtocol <==> CountedNames(cfg, m) != {}
    {
      hasProtocol := false;
      var keys := m.polling.Keys;
      ghost var before := bs.jobNames;
      while keys != {}
        invariant keys <= m.polling.Keys
        invariant bs.jobNames == before + Pending(CountedOf(cfg, m, m.polling.Keys - keys))
        invariant hasProtocol <==> CountedOf(cfg, m, m.polling.Keys - keys) != {}
      {
        var k :| k in keys;
        CountedMore(cfg, m, keys, k);
        if m.polling[k].protocol in cfg.collectors {
          PendingMore(before, CountedOf(cfg, m, m.polling.Keys - keys), m.polling[k].name);
          bs.jobNames := bs.jobNames[m.polling[k].name := false];
          hasProtocol := true;
        }
        keys := keys - {k};
      }
      assert CountedOf(cfg, m, m.polling.Keys - keys) == CountedNames(cfg, m);
    }

    /** Inserts the jobs of a profile that has a poll with a collector. */
    method AddProfile(m: Model, bs: BootState, order: seq<string>)
      requires ConfigOk(cfg) && jobsQueue.Valid() && !jobsQueue.shutdown && Orders(cfg, m.name, order)
      modifies bs, jobsQueue`jobs, jobsQueue`jobsMap, jobsQueue`Contents, jobsQueue.jobs
      ensures jobsQueue.Valid() && QueueGrown(old(jobsQueue.jobs))
      ensures bs.jobNames == old(bs.jobNames) + Pending(CountedNames(cfg, m))
      ensures jobsQueue.Contents == if CountedNames(cfg, m) != {}
                                    then InsertModel(cfg.models, old(jobsQueue.Contents), m.name, order)
                                    else old(jobsQueue.Contents)
    {
      var hasProtocol := CountPolls(m, bs);
      if hasProtocol {
        var ok := jobsQueue.InsertJob(cfg.models, m.name, order);
      }
    }

    /** Nothing but fresh jobs joined the queue since then. */
    twostate predicate QueueGrown(js: seq<CJob>)
      reads jobsQueue
    {
      forall j :: j in jobsQueue.jobs ==> j in js || (fresh(j) && fresh(j.cadence))
    }

    /** One turn of the loop over the profiles of a stage. */
    method VisitProfile(ms: seq<Model>, m: Model, hasLinksMatch: bool, bs: BootState, order: seq<string>, ghost names: set<string>)
      requires ConfigOk(cfg) && jobsQueue.Valid() && !jobsQueue.shutdown && Orders(cfg, m.name, order)
      requires hasLinksMatch == HasLinksMatch(cfg, ms) && bs.jobNames == Pending(names)
      modifies bs, jobsQueue`jobs, jobsQueue`jobsMap, jobsQueue`Contents, jobsQueue.jobs
      ensures jobsQueue.Valid() && QueueGrown(old(jobsQueue.jobs))
      ensures bs.jobNames == Pending(VisitedNames(cfg, names, ms, m))
      ensures jobsQueue.Contents == VisitedQueue(cfg, old(jobsQueue.Contents), ms, m, order)
    {
      if hasLinksMatch && m.name != cfg.linksId {
        return;
      }
      AddProfile(m, bs, order);
    }

    method AddProfiles(stage: nat, ms: seq<Model>, bs: BootState, order: (nat, nat) -> seq<string>)
      requires ConfigOk(cfg) && jobsQueue.Valid() && !jobsQueue.shutdown && bs.jobNames == map[]
      requires forall i :: 0 <= i < |ms| ==> Orders(cfg, ms[i].name, order(stage, i))
      modifies bs, jobsQueue`jobs, jobsQueue`jobsMap, jobsQueue`Contents, jobsQueue.jobs
      ensures jobsQueue.Valid() && QueueGrown(old(jobsQueue.jobs))
      ensures bs.jobNames == Pending(StageNames(cfg, ms, |ms|))
      ensures jobsQueue.Contents == StageQueue(cfg, old(jobsQueue.Contents), stage, ms, |ms|, order)
    {
      var hasLinksMatch := FindLinksMatch(ms);
      ghost var names, queues := StageTrace(cfg, jobsQueue.Contents, stage, ms, order);
      for i := 0 to |ms|
        invariant jobsQueue.Valid() && QueueGrown(old(jobsQueue.jobs))
        invariant bs.jobNames == Pending(names[i]) && jobsQueue.Contents == queues[i]
      {
        VisitProfile(ms, ms[i], hasLinksMatch, bs, order(stage, i), names[i]);
      }
    }

    /** Sets up a stage: counts its polls that have a collector, and inserts the jobs of
        every profile with such a poll. */
    method NewBootState(stage: nat, order: (nat, nat) -> seq<string>) returns (bs: BootState)
      requires ConfigOk(cfg) && jobsQueue.Valid() && !jobsQueue.shutdown
      requires stage < STAGES && StageOrders(cfg, stage, order)
      modifies jobsQueue`jobs, jobsQueue`jobsMap, jobsQueue`Contents, jobsQueue.jobs
      ensures jobsQueue.Valid() && fresh(bs) && QueueGrown(old(jobsQueue.jobs))
      ensures match cfg.groups[stage]
              case None => bs.jobNames == map[] && jobsQueue.Contents == old(jobsQueue.Contents)
              case Some(ms) =>
                && bs.jobNames == Pending(StageNames(cfg, ms, |ms|))
                && jobsQueue.Contents == StageQueue(cfg, old(jobsQueue.Contents), stage, ms, |ms|, order)
    {
      bs := new BootState();
      if cfg.groups[stage].Some? {
        AddProfiles(stage, cfg.groups[stage].value, bs, order);
      }
    }

    /** Nothing but fresh objects joined the host since then. */
    twostate predicate Grown(js: seq<CJob>, bss: seq<BootState?>)
      reads this, jobsQueue
    {
      && QueueGrown(js)
      && (forall b :: b in bootStages ==> b in bss || b == null || fresh(b))
    }

    /** Enters the next stage of the boot sequence. */
    method EnterStageAt(stage: nat, order: (nat, nat) -> seq<string>)
      requires Consistent() && running && stage < STAGES && StageOrders(cfg, stage, order)
      modifies this, jobsQueue, jobsQueue.jobs
      ensures Valid() && State() == EnterStage(cfg, old(State()), stage, order)
      ensures Grown(old(jobsQueue.jobs), old(bootStages))
    {
      currentBootStage := stage;
      var bs := NewBootState(stage, order);
      bootStages := bootStages[stage := bs];
      Stages := Stages[stage := Some(bs.jobNames)];
    }

    /** The advance loop: moves on over every complete stage. */
    method AdvanceStages(order: (nat, nat) -> seq<string>)
      requires Valid() && running && currentBootStage < STAGES
      requires forall stage :: 0 <= stage < STAGES ==> StageOrders(cfg, stage, order)
      modifies this, jobsQueue, jobsQueue.jobs
      ensures Valid() && State() == Advance(cfg, old(State()), order)
      ensures Grown(old(jobsQueue.jobs), old(bootStages))
    {
      ghost var goal := Advance(cfg, State(), order);
      while currentBootStage < STAGES
        invariant Valid() && running && Grown(old(jobsQueue.jobs), old(bootStages))
        invariant (if currentBootStage < STAGES then Advance(cfg, State(), order) else State()) == goal
        decreases STAGES - currentBootStage
      {
        var complete := bootStages[currentBootStage].IsComplete();
        if !complete {
          return;
        }
        if currentBootStage + 1 >= STAGES {
          LeaveLastStage();
        } else {
          EnterStageAt(currentBootStage + 1, order);
        }
      }
    }

    method LeaveLastStage()
      requires Valid() && currentBootStage + 1 == STAGES
      modifies this`currentBootStage
      ensures Valid() && State() == old(State()).(current := STAGES)
    {
      currentBootStage := currentBootStage + 1;
    }

    /** Tells the current boot stage that a job has finished. */
    method CompleteInBoot(job: CJob, t: Tick)
      requires Valid() && running && TickOk(cfg, t)
      modifies this, bootStages, jobsQueue, jobsQueue.jobs
      ensures Valid() && State() == CompleteBoot(cfg, old(State()), job.jobName, t)
      ensures Grown(old(jobsQueue.jobs), old(bootStages))
    {
      if currentBootStage < STAGES {
        var bs := bootStages[currentBootStage];
        bs.JobComplete(job.jobName);
        Stages := Stages[currentBootStage := Some(bs.jobNames)];
        AdvanceStages(t.order);
      }
    }

    /** The jobs of the profile that the first identifying system MIB points to. */
    method BootDetailDevice(job: CJob, t: Tick)
      requires Valid() && running && TickOk(cfg, t) && job.jobName == "systemMib"
      modifies this, jobsQueue, jobsQueue.jobs
      ensures Valid() && State() == Identify(cfg, old(State()), old(job.View()), t)
      ensures Grown(old(jobsQueue.jobs), old(bootStages)) && bootStages == old(bootStages)
    {
      if pollarisName != "" {
        return;
      }
      if job.result.None? || |job.result.value| < 3 {
        return;
      }
      if t.identified.None? || t.identified.value == "boot03" {
        return;
      }
      AdoptProfile(t.identified.value, t.order(STAGES, 0));
    }

    /** Inserts the jobs of the device's own profile. */
    method AdoptProfile(name: string, order: seq<string>)
      requires Valid() && running && Orders(cfg, name, order)
      modifies this`pollarisName, jobsQueue`jobs, jobsQueue`jobsMap, jobsQueue`Contents, jobsQueue.jobs
      ensures Valid() && pollarisName == name && jobsQueue.Contents == InsertModel(cfg.models, old(jobsQueue.Contents), name, order)
      ensures Grown(old(jobsQueue.jobs), old(bootStages))
    {
      pollarisName := name;
      var ok := jobsQueue.InsertJob(cfg.models, name, order);
    }

    /** Moves the cadence level of a finished job and decides whether to hand it over. */
    method JudgeJob(ghost p: nat, job: CJob) returns (hand: bool)
      requires Valid() && p < |jobsQueue.jobs| && jobsQueue.jobs[p] == job
      modifies jobsQueue`Contents, job.cadence
      ensures Valid() && (job.View(), hand) == Judge(cfg.hash, old(job.View()))
      ensures State() == old(State()).(queue := old(State()).queue[p := job.View()])
    {
      if job.error != "" {
        job.cadence.current := 0;
        hand := false;
      } else {
        hand := JobHasChange(cfg.hash, job);
      }
      Refresh(p, job);
    }

    /** Hands the result to the parser, and looks into a system MIB. */
    method HandOver(job: CJob, t: Tick)
      requires Valid() && running && TickOk(cfg, t)
      modifies this, jobsQueue, jobsQueue.jobs
      ensures Valid() && bootStages == old(bootStages) && Grown(old(jobsQueue.jobs), old(bootStages))
      ensures var j := old(job.View());
              State() == Identify(cfg, old(State()).(handed := old(handed) + [Handover(Key(j), j.result)]), j, t)
    {
      handed := handed + [Handover(job.Key(), job.result)];
      if job.jobName == "systemMib" {
        BootDetailDevice(job, t);
      }
    }

    /** Judges the job at position `p`, which has just finished, and passes it on. */
    method JobComplete(ghost p: nat, job: CJob, t: Tick)
      requires Valid() && running && TickOk(cfg, t) && p < |jobsQueue.jobs| && jobsQueue.jobs[p] == job
      modifies this, jobsQueue, jobsQueue.jobs, job.cadence
      ensures Valid() && bootStages == old(bootStages) && Grown(old(jobsQueue.jobs), old(bootStages))
      ensures State() == JudgeAt(cfg, old(State()), p, old(job.View()), t)
    {
      var hand := JudgeJob(p, job);
      if hand {
        HandOver(job, t);
      }
    }

    /** Brings the ghost values up to date after the job at position `p` changed. */
    ghost method Refresh(p: nat, job: CJob)
      requires p < |jobsQueue.jobs| && jobsQueue.jobs[p] == job
      requires Separate(jobsQueue.jobs) && Indexed(jobsQueue.jobs, jobsQueue.jobsMap)
      requires |jobsQueue.Contents| == |jobsQueue.jobs| && CadencesOk(jobsQueue.Contents) && CadenceOk(job.View())
      requires forall i :: 0 <= i < |jobsQueue.jobs| && i != p ==> jobsQueue.jobs[i].View() == jobsQueue.Contents[i]
      modifies jobsQueue`Contents
      ensures jobsQueue.Valid() && jobsQueue.Contents == old(jobsQueue.Contents)[p := job.View()]
    {
      jobsQueue.Contents := jobsQueue.Contents[p := job.View()];
    }

    /** What a protocol collector does to the job it executes. */
    static method Exec(job: CJob, o: Outcome)
      modifies job
      ensures job.View() == ApplyOutcome(old(job.View()), o)
    {
      match o
      case Done(r) =>
        job.result, job.errorCount := r, 0;
      case Failure(e, r) =>
        job.result, job.error, job.errorCount := r, e, job.errorCount + 1;
      case Untracked(r) =>
        job.result := r;
    }

    /** Passes a finished job on to the parser and to the boot sequence. */
    method FinishJob(ghost p: nat, job: CJob, t: Tick)
      requires Valid() && running && TickOk(cfg, t) && p < |jobsQueue.jobs| && jobsQueue.jobs[p] == job
      modifies this, bootStages, jobsQueue, jobsQueue.jobs, job.cadence
      ensures Valid() && State() == Finish(cfg, old(State()), p, old(job.View()), t)
      ensures Grown(old(jobsQueue.jobs), old(bootStages))
    {
      JobComplete(p, job, t);
      CompleteInBoot(job, t);
    }

    /** Marks the start, executes, marks the end. */
    method ExecuteJob(ghost p: nat, job: CJob, o: Outcome, t: Tick)
      requires Valid() && p < |jobsQueue.jobs| && jobsQueue.jobs[p] == job
      modifies jobsQueue`Contents, job
      ensures Valid() && job.View() == Executed(cfg.hash, old(job.View()), o, t)
      ensures State() == old(State()).(queue := old(State()).queue[p := job.View()])
    {
      job.MarkStart(cfg.hash, t.startAt);
      Exec(job, o);
      job.MarkEnded(t.endAt);
      Refresh(p, job);
    }

    /** A job whose protocol has no collector here is switched off. */
    method SkipJob(ghost p: nat, job: CJob, t: Tick)
      requires Valid() && p < |jobsQueue.jobs| && jobsQueue.jobs[p] == job
      modifies jobsQueue`Contents, job, job.cadence
      ensures Valid()
      ensures State() == old(State()).(queue := old(State()).queue[p :=
                MarkStarted(cfg.hash, old(job.View()), t.startAt).(ended := t.endAt, enabled := false)])
    {
      job.MarkStart(cfg.hash, t.startAt);
      job.MarkEnded(t.endAt);
      jobsQueue.DisableJob(job);
      Refresh(p, job);
    }

    /** Executes a job to the end and passes it on. */
    method ExecuteAndFinish(ghost p: nat, job: CJob, o: Outcome, t: Tick)
      requires Valid() && running && TickOk(cfg, t) && p < |jobsQueue.jobs| && jobsQueue.jobs[p] == job
      modifies this, bootStages, jobsQueue, jobsQueue.jobs, job.cadence
      ensures Valid()
      ensures State() == Finish(cfg, old(State()), p, Executed(cfg.hash, old(job.View()), o, t), t)
      ensures Grown(old(jobsQueue.jobs), old(bootStages))
    {
      ExecuteJob(p, job, o, t);
      FinishOverwrites(cfg, old(State()), p, job.View(), t);
      FinishJob(p, job, t);
    }

    /** Runs the job that was just popped, by now the last of the queue. */
    method RunPopped(job: CJob, t: Tick)
      requires Valid() && running && TickOk(cfg, t)
      requires |jobsQueue.jobs| > 0 && jobsQueue.jobs[|jobsQueue.jobs| - 1] == job
      modifies this, bootStages, jobsQueue, jobsQueue.jobs, job.cadence
      ensures Valid()
      ensures State() == RunJob(cfg, old(State()), old(State()).queue[|old(State()).queue| - 1], t)
      ensures Grown(old(jobsQueue.jobs), old(bootStages))
    {
      ghost var last := |jobsQueue.jobs| - 1;
      assert job.View() == State().queue[last];
      if (job.pollarisName, job.jobName) !in cfg.lookup {
        return;
      }
      var poll := cfg.lookup[(job.pollarisName, job.jobName)];
      if IsStatic(job.jobName) {
        ExecuteAndFinish(last, job, Untracked(t.local), t);
        return;
      }
      if poll.protocol !in cfg.collectors {
        SkipJob(last, job, t);
        return;
      }
      RunWithCollector(last, job, t);
    }

    /** Executes a job; unless the host was stopped meanwhile, the job is passed on. */
    method RunWithCollector(ghost p: nat, job: CJob, t: Tick)
      requires Valid() && running && TickOk(cfg, t) && p < |jobsQueue.jobs| && jobsQueue.jobs[p] == job
      modifies this, bootStages, jobsQueue, jobsQueue.jobs, job.cadence
      ensures Valid() && Grown(old(jobsQueue.jobs), old(bootStages))
      ensures State() == if t.stopped then old(State()).(queue := [], running := false)
                         else Finish(cfg, old(State()), p, Executed(cfg.hash, old(job.View()), t.outcome, t), t)
    {
      if t.stopped {
        ExecuteJob(p, job, t.outcome, t);
        Stop();
      } else {
        ExecuteAndFinish(p, job, t.outcome, t);
      }
    }

    /** Pops the next job, if one is due. */
    method NextJob(t: Tick) returns (job: CJob?)
      requires Valid() && running
      modifies jobsQueue`jobs, jobsQueue`Contents
      ensures Valid() && jobsQueue.Contents == AfterPop(old(jobsQueue.Contents), t.popAt)
      ensures job == null <==> FirstReady(old(jobsQueue.Contents), t.popAt) == |old(jobsQueue.Contents)|
      ensures job != null ==> 0 < |jobsQueue.jobs| && jobsQueue.jobs[|jobsQueue.jobs| - 1] == job
      ensures forall j :: j in jobsQueue.jobs ==> j in old(jobsQueue.jobs)
    {
      var wait;
      assert forall i :: 0 <= i < STAGES && bootStages[i] != null ==> bootStages[i].jobNames == Stages[i].value;
      job, wait := jobsQueue.Pop(t.popAt);
      assert forall i :: 0 <= i < STAGES && bootStages[i] != null ==> bootStages[i].jobNames == Stages[i].value;
    }

    /** Waits; an admission event ends the wait and makes every enabled job due. */
    method Wait(t: Tick)
      requires Valid()
      modifies jobsQueue`Contents, jobsQueue.jobs
      ensures Valid()
      ensures State() == if t.admission then old(State()).(queue := Expedited(old(State()).queue)) else old(State())
    {
      if t.admission {
        jobsQueue.Expedite();
      }
    }

    /** The footprint covers every object of the host. */
    ghost predicate Owned()
      reads this, jobsQueue
    {
      && this in Repr && jobsQueue in Repr
      && (forall j :: j in jobsQueue.jobs ==> j in Repr && j.cadence in Repr)
      && (forall b :: b in bootStages && b != null ==> b in Repr)
    }

    /** The objects the host holds now. */
    ghost function Objects(): (r: set<object>)
      reads this, jobsQueue
      ensures this in r && jobsQueue in r
      ensures forall j :: j in jobsQueue.jobs ==> j in r && j.cadence in r
      ensures forall b :: b in bootStages && b != null ==> b in r
    {
      {this, jobsQueue}
      + (set j: CJob | j in jobsQueue.jobs :: j as object)
      + (set j: CJob | j in jobsQueue.jobs :: j.cadence as object)
      + (set b: BootState? | b in bootStages && b != null :: b as object)
    }

    /** Whatever joined the host since then is fresh. */
    twostate lemma JoinedAreFresh()
      requires old(Owned()) && Grown(old(jobsQueue.jobs), old(bootStages))
      ensures forall o :: o in Objects() ==> o in old(Repr) || fresh(o)
    {
    }

    /** One turn of the collection loop. */
    method CollectOnce(t: Tick)
      requires Valid() && Owned() && running && TickOk(cfg, t)
      modifies Repr
      ensures Valid() && Owned() && fresh(Repr - old(Repr))
      ensures HostOk(old(State())) && State() == Step(cfg, old(State()), t)
    {
      Turn(t);
      JoinedAreFresh();
      Claim(old(Repr));
    }

    ghost method Claim(base: set<object>)
      requires Valid()
      modifies this`Repr
      ensures Valid() && Owned() && Repr == base + Objects()
    {
      Repr := base + Objects();
    }

    method Turn(t: Tick)
      requires Valid() && Owned() && running && TickOk(cfg, t)
      modifies Repr
      ensures Valid() && HostOk(old(State())) && State() == Step(cfg, old(State()), t)
      ensures Grown(old(jobsQueue.jobs), old(bootStages))
    {
      ValidIsOk();
      var job := NextJob(t);
      if job != null {
        RunPopped(job, t);
      } else {
        Wait(t);
      }
    }

    /** The collection loop, one turn for every tick until the host is stopped. */
    method Collect(ts: seq<Tick>)
      requires Valid() && Owned() && TicksOk(cfg, ts)
      modifies Repr
      ensures Valid() && Owned() && fresh(Repr - old(Repr))
      ensures HostOk(old(State())) && State() == Run(cfg, old(State()), ts)
    {
      ValidIsOk();
      ghost var goal := Run(cfg, State(), ts);
      var i := 0;
      while running && i < |ts|
        invariant i <= |ts| && Valid() && HostOk(State())
        invariant Owned() && fresh(Repr - old(Repr))
        invariant Run(cfg, State(), ts[i..]) == goal
      {
        RunFrom(cfg, State(), ts, i);
        CollectOnce(ts[i]);
        i := i + 1;
      }
    }

    /** Sets up the first boot stage; the collection loop may begin. */
    method Start(order: (nat, nat) -> seq<string>)
      requires Consistent() && State() == IdleHost()
      requires StageOrders(cfg, 0, order)
      modifies this, jobsQueue, jobsQueue.jobs
      ensures Valid() && Owned() && State() == Launch(cfg, order)
    {
      EnterStageAt(0, order);
      Repr := Objects();
    }

    lemma ValidIsOk()
      requires Valid()
      ensures HostOk(State())
    {
      var q := jobsQueue.Contents;
      forall i, j | 0 <= i < j < |q| ensures Key(q[i]) != Key(q[j]) {
        assert jobsQueue.jobs[i].Key() == Key(q[i]) && jobsQueue.jobs[j].Key() == Key(q[j]);
      }
    }

    method Stop()
      requires Valid()
      modifies this`running, jobsQueue
      ensures Valid() && !running && State() == old(State()).(queue := [], running := false)
      ensures jobsQueue.jobs == []
    {
      running := false;
      jobsQueue.Shutdown();
    }
  }

  lemma FinishOverwrites(cfg: Config, h: Host, p: nat, j: Job, t: Tick)
    requires ConfigOk(cfg) && TickOk(cfg, t) && p < |h.queue|
    requires |h.stages| == STAGES
    requires h.current < STAGES ==> h.stages[h.current].Some?
    ensures Finish(cfg, h.(queue := h.queue[p := j]), p, j, t) == Finish(cfg, h, p, j, t)
  {
    var judged := Judge(cfg.hash, j).0;
    assert h.queue[p := j][p := judged] == h.queue[p := judged];
  }

  /** What a stage waits for, and what is in the queue, profile by profile. */
  lemma StageTrace(cfg: Config, q: seq<Job>, stage: nat, ms: seq<Model>, order: (nat, nat) -> seq<string>)
    returns (names: seq<set<string>>, queues: seq<seq<Job>>)
    requires forall i :: 0 <= i < |ms| ==> Orders(cfg, ms[i].name, order(stage, i))
    ensures |names| == |queues| == |ms| + 1 && names[0] == {} && queues[0] == q
    ensures forall i :: 0 <= i < |ms| ==> names[i + 1] == VisitedNames(cfg, names[i], ms, ms[i])
    ensures forall i :: 0 <= i < |ms| ==> queues[i + 1] == VisitedQueue(cfg, queues[i], ms, ms[i], order(stage, i))
    ensures names[|ms|] == StageNames(cfg, ms, |ms|) && queues[|ms|] == StageQueue(cfg, q, stage, ms, |ms|, order)
  {
    names := NamesTrace(cfg, ms, |ms|);
    queues := QueueTrace(cfg, q, stage, ms, |ms|, order);
  }

  lemma {:induction false} NamesTrace(cfg: Config, ms: seq<Model>, n: nat) returns (names: seq<set<string>>)
    requires n <= |ms|
    ensures |names| == n + 1 && names[0] == {} && names[n] == StageNames(cfg, ms, n)
    ensures forall i :: 0 <= i < n ==> names[i + 1] == VisitedNames(cfg, names[i], ms, ms[i])
  {
    if n == 0 {
      names := [{}];
    } else {
      var before := NamesTrace(cfg, ms, n - 1);
      names := before + [VisitedNames(cfg, before[n - 1], ms, ms[n - 1])];
    }
  }

  lemma {:induction false} QueueTrace(cfg: Config, q: seq<Job>, stage: nat, ms: seq<Model>, n: nat, order: (nat, nat) -> seq<string>)
    returns (queues: seq<seq<Job>>)
    requires n <= |ms| && forall i :: 0 <= i < n ==> Orders(cfg, ms[i].name, order(stage, i))
    ensures |queues| == n + 1 && queues[0] == q && queues[n] == StageQueue(cfg, q, stage, ms, n, order)
    ensures forall i :: 0 <= i < n ==> queues[i + 1] == VisitedQueue(cfg, queues[i], ms, ms[i], order(stage, i))
  {
    if n == 0 {
      queues := [q];
    } else {
      var before := QueueTrace(cfg, q, stage, ms, n - 1, order);
      queues := before + [VisitedQueue(cfg, before[n - 1], ms, ms[n - 1], order(stage, n - 1))];
    }
  }
}
