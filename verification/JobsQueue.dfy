/** The job queue of one host, in the form of the source: job objects that are
    updated in place, listed in `jobs` and indexed by key in `jobsMap`. */
module JobsQueues {
  import opened Common
  import opened JobModel
  import opened Registry

  class CadencePlan {
    var enabled: bool
    var current: int
    const cadences: seq<int>

    constructor (enabled: bool, current: int, cadences: seq<int>)
      ensures this.enabled == enabled && this.current == current && this.cadences == cadences
    {
      this.enabled, this.current, this.cadences := enabled, current, cadences;
    }
  }

  class CJob {
    const pollarisName: string
    const jobName: string
    const always: bool
    const cadence: CadencePlan
    var started: int
    var ended: int
    var result: Option<Bytes>
    var error: string
    var errorCount: int
    var lastResultHash: int

    constructor (m: Model, name: string)
      requires name in m.polling
      ensures View() == JobFor(m, name)
      ensures fresh(cadence)
      ensures pollarisName == m.name && jobName == name && always == m.polling[name].always
      ensures cadence.enabled == m.polling[name].enabled && cadence.current == m.polling[name].current
      ensures cadence.cadences == m.polling[name].cadences
      ensures started == ended == 0 && result == None && error == "" && errorCount == 0 && lastResultHash == 0
    {
      pollarisName, jobName := m.name, name;
      always := m.polling[name].always;
      cadence := new CadencePlan(m.polling[name].enabled, m.polling[name].current, m.polling[name].cadences);
      started, ended := 0, 0;
      result, error, errorCount, lastResultHash := None, "", 0, 0;
    }

    function Key(): string {
      JobKey(pollarisName, jobName)
    }

    function View(): Job
      reads this, cadence
    {
      Job(pollarisName, jobName, always, cadence.enabled, cadence.current, cadence.cadences,
          started, ended, result, error, errorCount, lastResultHash)
    }

    method MarkStart(hash: Bytes -> int, now: int)
      modifies this
      ensures View() == MarkStarted(hash, old(View()), now)
      ensures started == now && ended == 0 && result == None && error == "" && errorCount == old(errorCount)
      ensures lastResultHash == if errorCount != 0 then old(lastResultHash)
                                else if old(result) == None || old(result) == Some([]) then 0
                                else hash(old(result).value)
    {
      if errorCount == 0 {
        lastResultHash := HashBytes(hash, result);
      }
      started := now;
      ended := 0;
      result := None;
      error := "";
    }

    method MarkEnded(now: int)
      modifies this`ended
      ensures ended == now
    {
      ended := now;
    }
  }

  /** The list of job objects shows the list of job values. */
  ghost predicate Shows(js: seq<CJob>, q: seq<Job>)
    reads js, set j | j in js :: j.cadence
  {
    && |js| == |q|
    && forall i :: 0 <= i < |js| ==> js[i].View() == q[i]
  }

  /** Every job is listed once, and no two jobs share a cadence object. */
  ghost predicate Separate(js: seq<CJob>) {
    forall i, j :: 0 <= i < j < |js| ==> js[i] != js[j] && js[i].cadence != js[j].cadence
  }

  /** The map holds exactly the listed jobs, each under its own key. */
  ghost predicate Indexed(js: seq<CJob>, m: map<string, CJob>) {
    && (forall i :: 0 <= i < |js| ==> js[i].Key() in m && m[js[i].Key()] == js[i])
    && (forall k :: k in m ==> m[k] in js && m[k].Key() == k)
  }

  lemma AppendIndexed(js: seq<CJob>, m: map<string, CJob>, job: CJob)
    requires Separate(js) && Indexed(js, m)
    requires job.Key() !in m && job.cadence !in (set j | j in js :: j.cadence)
    ensures Separate(js + [job]) && Indexed(js + [job], m[job.Key() := job])
  {
    var s, n := js + [job], m[job.Key() := job];
    forall i, j | 0 <= i < j < |s| ensures s[i] != s[j] && s[i].cadence != s[j].cadence {
      assert s[i] in js && s[i].cadence in (set j | j in js :: j.cadence);
    }
    forall k | k in n ensures n[k] in s && n[k].Key() == k {
      if k != job.Key() {
        assert m[k] in js;
      }
    }
  }

  lemma AppendShows(js: seq<CJob>, q: seq<Job>, job: CJob)
    requires Shows(js, q) && CadencesOk(q) && CadenceOk(job.View())
    ensures Shows(js + [job], q + [job.View()]) && CadencesOk(q + [job.View()])
  {
  }

  lemma MoveKeepsSeparate(js: seq<CJob>, i: nat)
    requires Separate(js) && i < |js|
    ensures Separate(MoveToLast(js, i))
  {
    var r := MoveToLast(js, i);
    forall a, b | 0 <= a < b < |r| ensures r[a] != r[b] && r[a].cadence != r[b].cadence {
      var x := if a < i then a else a + 1;
      var y := if b == |r| - 1 then i else if b < i then b else b + 1;
      assert r[a] == js[x] && r[b] == js[y];
      assert x < y || y < x;
    }
  }

  lemma MoveKeepsIndexed(js: seq<CJob>, m: map<string, CJob>, i: nat)
    requires Indexed(js, m) && i < |js|
    ensures Indexed(MoveToLast(js, i), m)
  {
    var r := MoveToLast(js, i);
    forall j | j in r ensures j in js {}
    forall k | k in m ensures m[k] in r {
      MoveKeepsMembers(js, i, m[k]);
    }
  }

  lemma MoveKeepsMembers<T>(s: seq<T>, i: nat, x: T)
    requires i < |s|
    ensures x in MoveToLast(s, i) <==> x in s
  {
    assert s == s[..i] + [s[i]] + s[i + 1..];
  }

  lemma MoveKeepsValid(js: seq<CJob>, m: map<string, CJob>, i: nat)
    requires Separate(js) && Indexed(js, m) && i < |js|
    ensures Separate(MoveToLast(js, i)) && Indexed(MoveToLast(js, i), m)
    ensures MoveToLast(js, i)[|js| - 1] == js[i]
    ensures forall j :: j in MoveToLast(js, i) ==> j in js
  {
    MoveKeepsSeparate(js, i);
    MoveKeepsIndexed(js, m, i);
  }

  /** The jobs can join the list: neither they nor their cadences are in it. */
  ghost predicate Apart(js: seq<CJob>, from: nat, jobs: seq<CJob>) {
    forall i :: from <= i < |js| ==> forall j :: j in jobs ==> js[i] != j && js[i].cadence != j.cadence
  }

  lemma ApartNotIn(js: seq<CJob>, k: nat, jobs: seq<CJob>)
    requires Apart(js, k, jobs)
    ensures forall i :: k <= i < |js| ==> js[i] !in jobs
  {
  }

  lemma StillApart(js: seq<CJob>, k: nat, jobs: seq<CJob>)
    requires Separate(js) && k < |js| && Apart(js, k, jobs)
    ensures js[k] !in jobs && js[k].cadence !in (set j | j in jobs :: j.cadence)
    ensures Apart(js, k + 1, jobs) && Apart(js, k + 1, jobs + [js[k]])
  {
  }

  ghost predicate NoneReady(q: seq<Job>, n: nat, now: int)
    requires CadencesOk(q) && n <= |q|
  {
    forall k :: 0 <= k < n ==> !Ready(q[k], now)
  }

  lemma FirstReadyAt(q: seq<Job>, now: int, i: nat)
    requires CadencesOk(q) && i <= |q| && NoneReady(q, i, now)
    requires i < |q| ==> Ready(q[i], now)
    ensures FirstReady(q, now) == i
  {
  }

  lemma WaitMore(q: seq<Job>, now: int, i: nat)
    requires CadencesOk(q) && i < |q|
    ensures NextWait(q, now, i + 1) ==
            if q[i].enabled then Min(NextWait(q, now, i), Remaining(q[i], now)) else NextWait(q, now, i)
  {
  }

  /** Some of the jobs joined the list at its end. */
  ghost predicate Joined(before: seq<CJob>, after: seq<CJob>, js: seq<CJob>) {
    before <= after && forall j :: j in after ==> j in before || j in js
  }

  lemma OneJoins(before: seq<CJob>, now: seq<CJob>, after: seq<CJob>, js: seq<CJob>, k: nat)
    requires Joined(before, now, js) && k < |js| && (after == now || after == now + [js[k]])
    ensures Joined(before, after, js)
  {
  }

  /** The list while its jobs are expedited one by one. */
  lemma ExpediteTrace(q: seq<Job>) returns (qs: seq<seq<Job>>)
    ensures |qs| == |q| + 1 && qs[0] == q && qs[|q|] == Expedited(q)
    ensures forall i :: 0 <= i < |q| ==> |qs[i]| == |q| && qs[i + 1] == qs[i][i := ExpediteJob(qs[i][i])]
  {
    qs := seq(|q| + 1, i requires 0 <= i <= |q| => Expedited(q[..i]) + q[i..]);
    assert q[..|q|] == q;
    forall i | 0 <= i < |q| ensures qs[i + 1] == qs[i][i := ExpediteJob(qs[i][i])] {
      assert qs[i][i] == q[i];
    }
  }

  class JobsQueue {
    var jobs: seq<CJob>
    var jobsMap: map<string, CJob>
    var shutdown: bool
    ghost var Contents: seq<Job>  // the jobs as values

    ghost function Cadences(): set<CadencePlan>
      reads this
    {
      set j | j in jobs :: j.cadence
    }

    ghost predicate Valid()
      reads this, jobs, Cadences()
    {
      && Separate(jobs)
      && Indexed(jobs, jobsMap)
      && Shows(jobs, Contents)
      && CadencesOk(Contents)
    }

    constructor ()
      ensures Valid() && jobs == [] && Contents == [] && !shutdown
    {
      jobs, jobsMap, shutdown, Contents := [], map[], false, [];
    }

    method Shutdown()
      modifies this
      ensures shutdown && jobs == [] && Contents == [] && Valid()
    {
      shutdown, jobs, jobsMap, Contents := true, [], map[], [];
    }

    /** Fresh job objects for every poll of the profile, in the order the environment
        iterates the resulting map. */
    static method NewJobsForKey(m: Model, order: seq<string>) returns (r: seq<CJob>)
      requires forall n :: n in order ==> n in m.polling
      ensures |r| == |order|
      ensures forall i :: 0 <= i < |r| ==> fresh(r[i]) && fresh(r[i].cadence)
      ensures forall i, j :: 0 <= i < j < |r| ==> r[i] != r[j] && r[i].cadence != r[j].cadence
      ensures Shows(r, JobsOf(m, order))
      ensures forall i :: 0 <= i < |r| ==> r[i].pollarisName == m.name && r[i].jobName == order[i]
    {
      r := [];
      for k := 0 to |order|
        invariant |r| == k
        invariant forall i :: 0 <= i < k ==> fresh(r[i]) && fresh(r[i].cadence)
        invariant forall i, j :: 0 <= i < j < k ==> r[i] != r[j] && r[i].cadence != r[j].cadence
        invariant forall i :: 0 <= i < k ==> r[i].View() == JobFor(m, order[i])
        invariant forall i :: 0 <= i < k ==> r[i].pollarisName == m.name && r[i].jobName == order[i]
      {
        var job := new CJob(m, order[k]);
        r := r + [job];
      }
    }

    method Append(job: CJob)
      requires Valid() && job.Key() !in jobsMap
      requires job !in jobs && job.cadence !in Cadences() && CadenceOk(job.View())
      modifies this`jobs, this`jobsMap, this`Contents
      ensures Valid() && jobs == old(jobs) + [job]
      ensures Contents == old(Contents) + [old(job.View())]
    {
      AppendIndexed(jobs, jobsMap, job);
      AppendShows(jobs, Contents, job);
      jobsMap := jobsMap[job.Key() := job];
      jobs := jobs + [job];
      Contents := Contents + [job.View()];
    }

    method ResetKnown(key: string)
      requires Valid() && key in jobsMap
      modifies jobs, this`Contents
      ensures Valid()
      ensures var i := FindKey(old(Contents), key);
              i < |jobs| && Contents == old(Contents)[i := ResetTimes(old(Contents)[i])]
    {
      var known := jobsMap[key];
      known.started := 0;
      known.ended := 0;
      ghost var i := FindKey(old(Contents), key);
      assert known == jobs[i];
      Contents := Contents[i := known.View()];
    }

    /** Inserts a job, or resets the times of the one that has its key. */
    method InsertEnabled(job: CJob, ghost v: Job)
      requires Valid() && job !in jobs && job.cadence !in Cadences() && v == job.View() && CadenceOk(v) && v.enabled
      modifies this`jobs, this`jobsMap, this`Contents, jobs
      ensures Valid() && Contents == InsertOne(old(Contents), v)
      ensures jobs == old(jobs) || jobs == old(jobs) + [job]
    {
      var key := job.Key();
      if key !in jobsMap {
        Append(job);
      } else {
        ResetKnown(key);
      }
    }

    /** One turn of the insertion loop. */
    method InsertNew(js: seq<CJob>, k: nat, ghost v: Job)
      requires Valid() && Separate(js) && k < |js| && Apart(js, k, jobs) && v == js[k].View() && CadenceOk(v)
      modifies this`jobs, this`jobsMap, this`Contents, jobs
      ensures Valid() && Apart(js, k + 1, jobs)
      ensures Contents == InsertOne(old(Contents), v)
      ensures jobs == old(jobs) || jobs == old(jobs) + [js[k]]
    {
      StillApart(js, k, jobs);
      if js[k].cadence.enabled {
        InsertEnabled(js[k], v);
      }
    }

    /** Where the insertion loop stands: the first `k` of the jobs were inserted into `q`, some
        of them joined the list, and the others are as they were. */
    ghost predicate Inserting(js: seq<CJob>, k: nat, vs: seq<Job>, before: seq<CJob>, q: seq<Job>)
      reads this, jobs, Cadences(), js, set j | j in js :: j.cadence
    {
      && Valid() && Separate(js) && k <= |js| == |vs| && CadencesOk(vs)
      && Apart(js, k, jobs) && Joined(before, jobs, js)
      && (forall i :: k <= i < |js| ==> js[i].View() == vs[i])
      && Contents == InsertFirst(q, vs, k)
    }

    method InsertStep(js: seq<CJob>, k: nat, ghost vs: seq<Job>, ghost before: seq<CJob>, ghost q: seq<Job>)
      requires Inserting(js, k, vs, before, q) && k < |js|
      modifies this`jobs, this`jobsMap, this`Contents, before, js
      ensures Inserting(js, k + 1, vs, before, q)
    {
      ghost var now := jobs;
      ApartNotIn(js, k, now);
      InsertNew(js, k, vs[k]);
      OneJoins(before, now, jobs, js, k);
    }

    /** The insertion loop. */
    method InsertLoop(js: seq<CJob>, ghost vs: seq<Job>, ghost before: seq<CJob>, ghost q: seq<Job>)
      requires Inserting(js, 0, vs, before, q) && jobs == before
      modifies this`jobs, this`jobsMap, this`Contents, before, js
      ensures Inserting(js, |js|, vs, before, q)
    {
      for k := 0 to |js|
        invariant Inserting(js, k, vs, before, q)
      {
        InsertStep(js, k, vs, before, q);
      }
    }

    method InsertEach(js: seq<CJob>, ghost vs: seq<Job>)
      requires Valid() && Separate(js) && Apart(js, 0, jobs) && Shows(js, vs) && CadencesOk(vs)
      modifies this`jobs, this`jobsMap, this`Contents, jobs, js
      ensures Valid()
      ensures Contents == InsertAll(old(Contents), vs)
      ensures Joined(old(jobs), jobs, js)
    {
      InsertLoop(js, vs, jobs, Contents);
    }

    /** Refused when the profile is unknown. A queue that is shut down cannot look profiles up. */
    method InsertJob(models: map<string, Model>, name: string, order: seq<string>) returns (ok: bool)
      requires Valid() && !shutdown
      requires forall m :: m in models ==> ModelOk(models[m])
      requires name in models ==> Enumerates(order, models[name].polling.Keys)
      modifies this`jobs, this`jobsMap, this`Contents, jobs
      ensures Valid()
      ensures ok <==> name in models
      ensures Contents == if ok then InsertModel(models, old(Contents), name, order) else old(Contents)
      ensures old(jobs) <= jobs
      ensures forall j :: j in jobs ==> j in old(jobs) || (fresh(j) && fresh(j.cadence))
    {
      if name !in models {
        return false;
      }
      var js := NewJobsForKey(models[name], order);
      InsertEach(js, JobsOf(models[name], order));
      ok := true;
    }

    /** Overwrites the list, entry by entry. */
    method CopyBack(swap: seq<CJob>)
      requires |jobs| == |swap|
      modifies this`jobs
      ensures jobs == swap
    {
      for i := 0 to |swap|
        invariant |jobs| == |swap| && jobs[..i] == swap[..i]
      {
        jobs := jobs[i := swap[i]];
      }
    }

    /** Puts the job at `index` behind all others; -1 stands for no job. */
    method MoveJobToLast(index: int)
      requires Valid() && -1 <= index < |jobs|
      modifies this`jobs, this`Contents
      ensures Valid()
      ensures if index == -1
              then jobs == old(jobs) && Contents == old(Contents)
              else jobs == MoveToLast(old(jobs), index) && Contents == MoveToLast(old(Contents), index)
                   && jobs[|jobs| - 1] == old(jobs)[index]
      ensures forall j :: j in jobs ==> j in old(jobs)
    {
      if index != -1 {
        var swap := jobs[..index] + jobs[index + 1..] + [jobs[index]];
        ghost var js, q := jobs, Contents;
        MoveKeepsValid(js, jobsMap, index);
        CopyBack(swap);
        Contents := MoveToLast(q, index);
        forall k | 0 <= k < |jobs| ensures jobs[k].View() == Contents[k] && CadenceOk(Contents[k]) {
          MoveToLastAt(js, index, k);
          MoveToLastAt(q, index, k);
        }
      }
    }

    /** One look at a job: whether it is due, else the shorter time to wait. */
    static method Look(j: CJob, ghost v: Job, now: int, wait: int) returns (due: bool, left: int)
      requires v == j.View() && CadenceOk(v)
      ensures due <==> Ready(v, now)
      ensures left == if due || !v.enabled then wait else Min(wait, Remaining(v, now))
    {
      due, left := false, wait;
      if !j.cadence.enabled {
        return;
      }
      var timeSinceExecuted := now - j.ended;
      var jobCadence := j.cadence.cadences[j.cadence.current];
      if timeSinceExecuted >= jobCadence {
        due := true;
      } else if jobCadence - timeSinceExecuted < wait {
        left := jobCadence - timeSinceExecuted;
      }
    }

    /** The scan of Pop: how far it gets, and the time to wait it has gathered there. */
    method Scan(now: int) returns (index: int, wait: int)
      requires Shows(jobs, Contents) && CadencesOk(Contents)
      ensures var i := FirstReady(Contents, now);
              index == (if i < |jobs| then i else -1) && wait == NextWait(Contents, now, i)
    {
      wait := NO_JOB_WAIT;
      ghost var q := Contents;
      for i := 0 to |jobs|
        invariant NoneReady(q, i, now) && wait == NextWait(q, now, i)
      {
        var due;
        due, wait := Look(jobs[i], q[i], now, wait);
        if due {
          FirstReadyAt(q, now, i);
          return i, wait;
        }
        WaitMore(q, now, i);
      }
      FirstReadyAt(q, now, |q|);
      index := -1;
    }

    /** The first enabled due job, which moves to the back, or none and the time to wait. */
    method Pop(now: int) returns (job: CJob?, wait: int)
      requires Valid() && !shutdown
      modifies this`jobs, this`Contents
      ensures Valid()
      ensures Contents == AfterPop(old(Contents), now)
      ensures var i := FirstReady(old(Contents), now);
              && wait == NextWait(old(Contents), now, i)
              && (if i < |old(jobs)|
                  then jobs == MoveToLast(old(jobs), i) && job == old(jobs)[i] == jobs[|jobs| - 1]
                  else jobs == old(jobs) && job == null)
      ensures job == null <==> FirstReady(old(Contents), now) == |old(Contents)|
      ensures job != null ==> jobs != [] && jobs[|jobs| - 1] == job
      ensures forall j :: j in jobs ==> j in old(jobs)
    {
      var index;
      index, wait := Scan(now);
      job := if index == -1 then null else jobs[index];
      MoveJobToLast(index);
    }

    method ExpediteAt(i: nat)
      requires Valid() && i < |jobs|
      modifies jobs[i], this`Contents
      ensures Valid() && Contents == old(Contents)[i := ExpediteJob(old(Contents)[i])]
    {
      if jobs[i].cadence.enabled {
        jobs[i].ended := 0;
      }
      Contents := Contents[i := jobs[i].View()];
    }

    /** Makes every enabled job due at once. */
    method Expedite()
      requires Valid()
      modifies jobs, this`Contents
      ensures Valid() && Contents == Expedited(old(Contents))
    {
      ghost var qs := ExpediteTrace(Contents);
      for i := 0 to |jobs|
        invariant Valid() && Contents == qs[i]
      {
        ExpediteAt(i);
      }
    }

    /** Switches one job off for good. Only its own cadence object changes, so every other
        job, and every other host's job for the same poll, keeps its cadence. */
    method DisableJob(job: CJob)
      modifies job.cadence`enabled
      ensures job.View() == old(job.View()).(enabled := false)
    {
      job.cadence.enabled := false;
    }
  }
}
