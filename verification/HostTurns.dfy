/** One turn of the collection loop, in the fields of the job it serves: when the job is run
    and by whom, what is left in it, and when its result goes to the parser. */
module HostTurns {
  import opened Common
  import opened JobModel
  import opened Registry
  import opened HostModel
  import opened HostSteps

  /** Which outcome a popped job is judged by, if it is: a built-in job writes the local result
      whatever collectors there are; another needs its collector and a host that goes on. */
  lemma RunsExactly(cfg: Config, j: Job, t: Tick)
    ensures var builtIn := j.name == "ipAddress" || j.name == "deviceStatus";
            Ran(cfg, j, t) ==
              if (j.pollaris, j.name) !in cfg.lookup then None
              else if builtIn then Some(Untracked(t.local))
              else if cfg.lookup[(j.pollaris, j.name)].protocol in cfg.collectors && !t.stopped then Some(t.outcome)
              else None
  {
  }

  /** A job that cannot be looked up, and one during which the host is stopped, are left as
      they are; a built-in job needs no collector and is not stopped. */
  lemma NotServed(cfg: Config, j: Job, t: Tick)
    requires (j.pollaris, j.name) in cfg.lookup ==>
               && j.name != "ipAddress" && j.name != "deviceStatus"
               && cfg.lookup[(j.pollaris, j.name)].protocol in cfg.collectors && t.stopped
    ensures Treated(cfg, j, t) == j && NewlyHanded(cfg, j, t) == []
  {
  }

  /** A job whose protocol has no collector is marked as run and switched off. */
  lemma SwitchedOff(cfg: Config, j: Job, t: Tick)
    requires (j.pollaris, j.name) in cfg.lookup && cfg.lookup[(j.pollaris, j.name)].protocol !in cfg.collectors
    requires j.name != "ipAddress" && j.name != "deviceStatus"
    ensures var x := Treated(cfg, j, t);
            && !x.enabled && x.started == t.startAt && x.ended == t.endAt
            && x.result == None && x.error == "" && x.errorCount == j.errorCount
            && x.current == j.current && x.cadences == j.cadences
    ensures NewlyHanded(cfg, j, t) == []
  {
  }

  /** What the execution leaves in the job: the built-in ones write the local result. */
  lemma ServedJob(cfg: Config, j: Job, t: Tick)
    requires (j.pollaris, j.name) in cfg.lookup
    requires j.name == "ipAddress" || j.name == "deviceStatus"
             || (cfg.lookup[(j.pollaris, j.name)].protocol in cfg.collectors && !t.stopped)
    requires t.outcome.Failure? ==> t.outcome.error != ""
    ensures var x := Treated(cfg, j, t);
            var builtIn := j.name == "ipAddress" || j.name == "deviceStatus";
            var failed := !builtIn && t.outcome.Failure?;
            && x.pollaris == j.pollaris && x.name == j.name && x.always == j.always
            && x.enabled == j.enabled && x.cadences == j.cadences
            && x.started == t.startAt && x.ended == t.endAt
            && x.result == (if builtIn then t.local else if failed then t.outcome.partial else t.outcome.result)
            && x.error == (if failed then t.outcome.error else "")
            && x.errorCount == (if failed then j.errorCount + 1 else if !builtIn && t.outcome.Done? then 0 else j.errorCount)
            && x.lastHash == (if j.errorCount != 0 then j.lastHash
                              else if j.result == None || j.result == Some([]) then 0
                              else cfg.hash(j.result.value))
            && x.current == (if failed then 0
                             else if !j.always && x.result.Some? && j.current + 1 < |j.cadences| then j.current + 1
                             else j.current)
  {
  }

  /** The result goes to the parser unless the execution failed: always if the poll says so,
      otherwise if it differs from the last success as far as the hashes tell. */
  lemma HandedOver(cfg: Config, j: Job, t: Tick)
    requires (j.pollaris, j.name) in cfg.lookup
    requires j.name == "ipAddress" || j.name == "deviceStatus"
             || (cfg.lookup[(j.pollaris, j.name)].protocol in cfg.collectors && !t.stopped)
    requires t.outcome.Failure? ==> t.outcome.error != ""
    ensures var x := Treated(cfg, j, t);
            var failed := j.name != "ipAddress" && j.name != "deviceStatus" && t.outcome.Failure?;
            var changed := if x.lastHash == 0 then x.result.Some?
                           else x.result == None || x.result == Some([]) || cfg.hash(x.result.value) != x.lastHash;
            NewlyHanded(cfg, j, t) ==
              if !failed && (j.always || changed) then [Handover(j.pollaris + j.name, x.result)] else []
  {
  }

  /** A host that is stopped while a collector executes a job ends with an empty queue, and
      the job is not judged. */
  lemma StoppedTurn(cfg: Config, h: Host, t: Tick)
    requires ConfigOk(cfg) && TickOk(cfg, t) && HostOk(h) && t.stopped
    requires FirstReady(h.queue, t.popAt) < |h.queue|
    requires var j := h.queue[FirstReady(h.queue, t.popAt)];
             && (j.pollaris, j.name) in cfg.lookup && cfg.lookup[(j.pollaris, j.name)].protocol in cfg.collectors
             && j.name != "ipAddress" && j.name != "deviceStatus"
    ensures Step(cfg, h, t) == h.(queue := [], running := false)
  {
  }

  /** A turn that finds nothing due waits; an admission event ends the wait. */
  lemma IdleTurn(cfg: Config, h: Host, t: Tick)
    requires ConfigOk(cfg) && TickOk(cfg, t) && HostOk(h)
    requires forall k :: 0 <= k < |h.queue| && h.queue[k].enabled ==>
               t.popAt - h.queue[k].ended < h.queue[k].cadences[h.queue[k].current]
    ensures var r := Step(cfg, h, t);
            && r == h.(queue := r.queue) && |r.queue| == |h.queue|
            && forall k :: 0 <= k < |h.queue| ==>
                 r.queue[k] == if t.admission && h.queue[k].enabled then h.queue[k].(ended := 0) else h.queue[k]
  {
  }
}
