/** Whole runs of the job queue: every due job is served in turn, however much work is
    inserted meanwhile, and a reported waiting time is exact. */
module QueueRuns {
  import opened Common
  import opened JobModel

  /** One operation on the queue. Update is whatever the collector does to the job it popped
      last (marking, executing, judging, disabling); it leaves the job's names alone. */
  datatype Event =
    | Pop(now: int)
    | Insert(jobs: seq<Job>)
    | Expedite
    | Update(job: Job)

  /** The queue, and the key of the job the collector is holding. */
  datatype Runner = Runner(queue: seq<Job>, held: Option<string>)

  ghost predicate EventOk(e: Event) {
    && (e.Insert? ==> CadencesOk(e.jobs))
    && (e.Update? ==> CadenceOk(e.job))
  }

  function Next(s: Runner, e: Event): Runner
    requires CadencesOk(s.queue)
  {
    match e
    case Pop(now) =>
      var i := FirstReady(s.queue, now);
      Runner(AfterPop(s.queue, now), if i < |s.queue| then Some(Key(s.queue[i])) else None)
    case Insert(jobs) => s.(queue := InsertAll(s.queue, jobs))
    case Expedite => s.(queue := Expedited(s.queue))
    case Update(job) =>
      var i := FindKey(s.queue, Key(job));
      if s.held == Some(Key(job)) && i < |s.queue| then s.(queue := s.queue[i := job]) else s
  }

  lemma NextValid(s: Runner, e: Event)
    requires ValidQueue(s.queue) && EventOk(e)
    ensures ValidQueue(Next(s, e).queue)
  {
    match e
    case Pop(now) => AfterPopValid(s.queue, now);
    case Insert(jobs) => InsertFirstValid(s.queue, jobs, |jobs|);
    case Expedite => ExpeditedValid(s.queue);
    case Update(job) =>
  }

  function Pops(es: seq<Event>): nat {
    if es == [] then 0 else (if es[0].Pop? then 1 else 0) + Pops(es[1..])
  }

  /** The job with this key is returned by one of the first `n` Pops of the run. */
  ghost predicate ServedWithin(s: Runner, es: seq<Event>, key: string, n: nat)
    requires ValidQueue(s.queue) && forall i :: 0 <= i < |es| ==> EventOk(es[i])
    decreases |es|
  {
    if es == [] || n == 0 then false
    else
      NextValid(s, es[0]);
      var next := Next(s, es[0]);
      if es[0].Pop? then next.held == Some(key) || ServedWithin(next, es[1..], key, n - 1)
      else ServedWithin(next, es[1..], key, n)
  }

  /** The job at position `p` has this key, is enabled, and is due from `t` on. */
  ghost predicate Waiting(s: Runner, p: nat, key: string, t: int) {
    && p < |s.queue| && CadenceOk(s.queue[p])
    && Key(s.queue[p]) == key && s.held != Some(key)
    && Ready(s.queue[p], t) && s.queue[p].ended >= 0
  }

  lemma {:induction false} InsertKeepsPlaces(q: seq<Job>, jobs: seq<Job>, n: nat, p: nat)
    requires n <= |jobs| && p < |q|
    ensures InsertFirst(q, jobs, n)[p] == q[p] || InsertFirst(q, jobs, n)[p] == ResetTimes(q[p])
  {
    if n > 0 {
      InsertKeepsPlaces(q, jobs, n - 1, p);
    }
  }

  /** An operation that does not serve a waiting job leaves it waiting, and a Pop that
      serves another one brings it a place nearer. */
  lemma StillWaiting(s: Runner, e: Event, p: nat, key: string, t: int)
    requires ValidQueue(s.queue) && EventOk(e) && Waiting(s, p, key, t)
    requires e.Pop? ==> e.now >= t
    ensures ValidQueue(Next(s, e).queue)
    ensures if e.Pop?
            then Next(s, e).held == Some(key) || (p > 0 && Waiting(Next(s, e), p - 1, key, t))
            else Waiting(Next(s, e), p, key, t)
  {
    NextValid(s, e);
    match e
    case Pop(now) =>
      var i := FirstReady(s.queue, now);
      assert Ready(s.queue[p], now);
      assert i <= p;
      if i < p {
        MoveToLastAt(s.queue, i, p - 1);
      }
    case Insert(jobs) => InsertKeepsPlaces(s.queue, jobs, |jobs|, p);
    case Expedite =>
    case Update(job) =>
  }

  /** Starvation freedom: an enabled due job at position `p` is returned by one of the next
      p + 1 Pops, whatever is inserted, re-inserted, expedited or updated in between. */
  lemma {:induction false} BoundedWaiting(s: Runner, es: seq<Event>, p: nat, key: string, t: int)
    requires ValidQueue(s.queue) && Waiting(s, p, key, t)
    requires forall i :: 0 <= i < |es| ==> EventOk(es[i]) && (es[i].Pop? ==> es[i].now >= t)
    requires Pops(es) > p
    ensures ServedWithin(s, es, key, p + 1)
    decreases |es|
  {
    StillWaiting(s, es[0], p, key, t);
    var next := Next(s, es[0]);
    if !es[0].Pop? {
      BoundedWaiting(next, es[1..], p, key, t);
    } else if next.held != Some(key) {
      BoundedWaiting(next, es[1..], p - 1, key, t);
    }
  }

  // ----- what the operations promise, in the fields of the jobs

  /** Pop takes the first enabled job whose last end lies its present cadence back or longer,
      puts it behind all others, and leaves the list alone when there is none. */
  lemma PopsFirstDue(q: seq<Job>, now: int)
    requires forall k :: 0 <= k < |q| ==> 0 <= q[k].current < |q[k].cadences|
    ensures CadencesOk(q)
    ensures var i := FirstReady(q, now);
            && (i < |q| ==> q[i].enabled && now - q[i].ended >= q[i].cadences[q[i].current])
            && (forall k :: 0 <= k < i && q[k].enabled ==> now - q[k].ended < q[k].cadences[q[k].current])
            && AfterPop(q, now) == if i < |q| then q[..i] + q[i + 1..] + [q[i]] else q
  {
  }

  /** What Pop reports when it finds nothing: the least of 999999 and of what is left of the
      present cadence of each enabled job. */
  lemma WaitsForSoonest(q: seq<Job>, now: int)
    requires forall k :: 0 <= k < |q| ==> 0 <= q[k].current < |q[k].cadences|
    ensures CadencesOk(q)
    ensures var w := NextWait(q, now, |q|);
            && w <= 999999
            && (forall k :: 0 <= k < |q| && q[k].enabled ==> w <= q[k].cadences[q[k].current] - (now - q[k].ended))
            && (w == 999999 || exists k :: 0 <= k < |q| && q[k].enabled && w == q[k].cadences[q[k].current] - (now - q[k].ended))
  {
    var w := NextWait(q, now, |q|);
    if w != 999999 {
      var k :| 0 <= k < |q| && q[k].enabled && w == Remaining(q[k], now);
      assert w == q[k].cadences[q[k].current] - (now - q[k].ended);
    }
  }

  /** Inserting a disabled job changes nothing; a job with new names goes to the end; a job
      whose names read like those of a listed one only sets that one's times to zero. */
  lemma InsertsOrResets(q: seq<Job>, j: Job)
    requires Keyed(q)
    ensures !j.enabled ==> InsertOne(q, j) == q
    ensures j.enabled && (forall i :: 0 <= i < |q| ==> q[i].pollaris + q[i].name != j.pollaris + j.name) ==>
              InsertOne(q, j) == q + [j]
    ensures forall i :: j.enabled && 0 <= i < |q| && q[i].pollaris + q[i].name == j.pollaris + j.name ==>
              InsertOne(q, j) == q[i := q[i].(started := 0, ended := 0)]
  {
    var f := FindKey(q, Key(j));
    if f < |q| {
      assert q[f].pollaris + q[f].name == j.pollaris + j.name;
      forall i | 0 <= i < |q| && q[i].pollaris + q[i].name == j.pollaris + j.name ensures i == f {
        assert Key(q[i]) == Key(j);
      }
    }
  }

  /** An admission event clears the end of every enabled job and touches nothing else. */
  lemma ExpeditesEnabled(q: seq<Job>, i: nat)
    requires i < |q|
    ensures |Expedited(q)| == |q|
    ensures Expedited(q)[i] == if q[i].enabled then q[i].(ended := 0) else q[i]
  {
  }

  lemma NothingDueBefore(q: seq<Job>, now: int, t: int)
    requires CadencesOk(q) && t < now + NextWait(q, now, |q|)
    ensures FirstReady(q, t) == |q|
  {
  }

  lemma WaitShrinks(q: seq<Job>, now: int, t: int)
    requires CadencesOk(q) && NextWait(q, now, |q|) < NO_JOB_WAIT && now <= t
    ensures NextWait(q, t, |q|) == NextWait(q, now, |q|) - (t - now)
  {
    var w := NextWait(q, now, |q|);
    var i :| 0 <= i < |q| && q[i].enabled && w == Remaining(q[i], now);
    assert Remaining(q[i], t) == w - (t - now);
  }

  lemma WaitEnds(q: seq<Job>, now: int)
    requires CadencesOk(q) && NextWait(q, now, |q|) < NO_JOB_WAIT
    ensures var t := now + NextWait(q, now, |q|);
            FirstReady(q, t) < |q| && Remaining(q[FirstReady(q, t)], t) == 0
  {
    var w := NextWait(q, now, |q|);
    var i :| 0 <= i < |q| && q[i].enabled && w == Remaining(q[i], now);
    assert Ready(q[i], now + w);
    var r := FirstReady(q, now + w);
    assert w <= Remaining(q[r], now);
  }

  /** Exact sleep: when Pop finds nothing and reports `w`, nothing is due before now + w, an
      earlier look reports what is left of the wait, and a wait below the cap ends in a job. */
  lemma ExactSleep(q: seq<Job>, now: int, t: int)
    requires CadencesOk(q) && FirstReady(q, now) == |q|
    ensures var w := NextWait(q, now, |q|);
            && w > 0
            && (t < now + w ==> FirstReady(q, t) == |q|)
            && (w < NO_JOB_WAIT && now <= t < now + w ==> NextWait(q, t, |q|) == w - (t - now))
            && (w < NO_JOB_WAIT ==> FirstReady(q, now + w) < |q| && Remaining(q[FirstReady(q, now + w)], now + w) == 0)
  {
    var w := NextWait(q, now, |q|);
    if t < now + w {
      NothingDueBefore(q, now, t);
    }
    if w < NO_JOB_WAIT {
      WaitEnds(q, now);
      if now <= t {
        WaitShrinks(q, now, t);
      }
    }
  }

  /** A wait that is cut short makes every enabled job due: it is found again as soon as the
      clock stands above its cadence, however recently it ran. */
  lemma ExpediteEndsWaiting(q: seq<Job>, i: nat, now: int)
    requires CadencesOk(q) && i < |q| && q[i].enabled && q[i].cadences[q[i].current] <= now
    ensures CadencesOk(Expedited(q)) && FirstReady(Expedited(q), now) <= i
  {
    assert Ready(Expedited(q)[i], now);
  }

  /** Pop is a rotation of the list behind the served job: the same jobs, and any two
      others in the same relative order. */
  lemma PopKeepsOrder(q: seq<Job>, now: int, k1: string, k2: string)
    requires ValidQueue(q)
    ensures multiset(AfterPop(q, now)) == multiset(q)
    ensures var i := FirstReady(q, now);
            (i < |q| ==> Key(q[i]) != k1 && Key(q[i]) != k2) ==>
              (FindKey(q, k1) < FindKey(q, k2) <==> FindKey(AfterPop(q, now), k1) < FindKey(AfterPop(q, now), k2))
  {
    var i := FirstReady(q, now);
    if i < |q| {
      MoveKeepsAll(q, i);
      if Key(q[i]) != k1 && Key(q[i]) != k2 {
        PlaceAfterMove(q, i, k1);
        PlaceAfterMove(q, i, k2);
      }
    }
  }

  lemma MoveKeepsAll(q: seq<Job>, i: nat)
    requires i < |q|
    ensures multiset(MoveToLast(q, i)) == multiset(q)
  {
    assert q == q[..i] + [q[i]] + q[i + 1..];
  }

  lemma PlaceAfterMove(q: seq<Job>, i: nat, key: string)
    requires Keyed(q) && i < |q| && Key(q[i]) != key
    ensures var f := FindKey(q, key);
            FindKey(MoveToLast(q, i), key) == if i < f < |q| then f - 1 else f
  {
    var f, r := FindKey(q, key), MoveToLast(q, i);
    var g := if i < f < |q| then f - 1 else f;
    forall k | 0 <= k < |q| ensures Key(r[k]) == key ==> k == g {
      MoveToLastAt(q, i, k);
      var x := if k < i then k else if k < |q| - 1 then k + 1 else i;
      assert r[k] == q[x] && (Key(q[x]) == key ==> x == f);
    }
    if f < |q| {
      MoveToLastAt(q, i, g);
      assert Key(r[g]) == key;
    }
    assert FindKey(r, key) < |q| ==> Key(r[FindKey(r, key)]) == key;
  }

  /** Some job of the list carries these names. */
  ghost predicate Present(q: seq<Job>, pollaris: string, name: string) {
    exists i :: 0 <= i < |q| && q[i].pollaris == pollaris && q[i].name == name
  }

  /** Inserting a job makes it present exactly when it is enabled and no listed pair of names
      reads the same: two pairs of names can read the same, and then the second one is lost. */
  lemma InsertedIffKeyFree(q: seq<Job>, j: Job)
    ensures Present(InsertOne(q, j), j.pollaris, j.name) <==>
              Present(q, j.pollaris, j.name)
              || (j.enabled && forall i :: 0 <= i < |q| ==> q[i].pollaris + q[i].name != j.pollaris + j.name)
  {
    var r := InsertOne(q, j);
    if i :| 0 <= i < |q| && q[i].pollaris == j.pollaris && q[i].name == j.name {
      assert r[i].pollaris == j.pollaris && r[i].name == j.name;
    }
    var f := FindKey(q, Key(j));
    if f < |q| {
      assert q[f].pollaris + q[f].name == j.pollaris + j.name;
    } else {
      forall i | 0 <= i < |q| ensures q[i].pollaris + q[i].name != j.pollaris + j.name {
        assert Key(q[i]) != Key(j);
      }
      if j.enabled {
        assert r[|q|] == j;
      }
    }
  }

  /** Of two jobs with different names and one key the second is lost. */
  lemma SecondIsLost(q: seq<Job>, j: Job, k: Job)
    requires j.enabled && j.pollaris + j.name == k.pollaris + k.name && (j.pollaris, j.name) != (k.pollaris, k.name)
    requires !Present(q, k.pollaris, k.name)
    ensures !Present(InsertOne(InsertOne(q, j), k), k.pollaris, k.name)
  {
    InsertedIffKeyFree(InsertOne(q, j), k);
    assert forall i :: 0 <= i < |q| ==> InsertOne(q, j)[i].pollaris == q[i].pollaris && InsertOne(q, j)[i].name == q[i].name;
    var f := FindKey(q, Key(j));
    assert Key(InsertOne(q, j)[f]) == Key(j);
  }

  /** There are such jobs: the two names are simply put together. */
  lemma KeysCollide(p: string, x: string, n: string)
    requires x != ""
    ensures (p, x + n) != (p + x, n) && JobKey(p, x + n) == JobKey(p + x, n)
  {
    assert |p| != |p + x|;
    assert p + (x + n) == p + x + n;
  }
}
