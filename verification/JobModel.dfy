/** Jobs and the list of jobs of one host, as values: what every queue operation
    computes. The classes of JobsQueue.dfy and HostCollector.dfy are proved
    against these functions. */
module JobModel {
  import opened Common

  type Bytes = seq<bv8>

  /** A collection job. `result` is None where the source holds nil. */
  datatype Job = Job(
    pollaris: string,
    name: string,
    always: bool,
    enabled: bool,
    current: int,
    cadences: seq<int>,
    started: int,
    ended: int,
    result: Option<Bytes>,
    error: string,
    errorCount: int,
    lastHash: int)

  /** Plain concatenation, so two different name pairs can share a key. */
  function JobKey(pollaris: string, name: string): string {
    pollaris + name
  }

  function Key(j: Job): string {
    JobKey(j.pollaris, j.name)
  }

  /** The cadence index points into the cadence list; indexing it elsewhere panics. */
  predicate CadenceOk(j: Job) {
    0 <= j.current < |j.cadences|
  }

  function Cadence(j: Job): int
    requires CadenceOk(j)
  {
    j.cadences[j.current]
  }

  ghost predicate Keyed(q: seq<Job>) {
    forall i, j :: 0 <= i < j < |q| ==> Key(q[i]) != Key(q[j])
  }

  ghost predicate CadencesOk(q: seq<Job>) {
    forall i :: 0 <= i < |q| ==> CadenceOk(q[i])
  }

  /** What holds of a job list between any two queue operations. */
  ghost predicate ValidQueue(q: seq<Job>) {
    Keyed(q) && CadencesOk(q)
  }

  predicate Due(j: Job, now: int)
    requires CadenceOk(j)
  {
    now - j.ended >= Cadence(j)
  }

  predicate Ready(j: Job, now: int)
    requires CadenceOk(j)
  {
    j.enabled && Due(j, now)
  }

  function Remaining(j: Job, now: int): int
    requires CadenceOk(j)
  {
    Cadence(j) - (now - j.ended)
  }

  /** The position of the first enabled due job; the length of the list when there is none. */
  function FirstReady(q: seq<Job>, now: int): (r: nat)
    requires CadencesOk(q)
    ensures r <= |q|
    ensures r < |q| ==> Ready(q[r], now)
    ensures forall i :: 0 <= i < r ==> !Ready(q[i], now)
  {
    if q == [] then 0
    else if Ready(q[0], now) then 0
    else 1 + FirstReady(q[1..], now)
  }

  const NO_JOB_WAIT := 999999

  /** The shortest remaining time of the first `n` jobs, counting enabled jobs only. */
  function NextWait(q: seq<Job>, now: int, n: nat): (w: int)
    requires CadencesOk(q) && n <= |q|
    ensures w <= NO_JOB_WAIT
    ensures forall i :: 0 <= i < n && q[i].enabled ==> w <= Remaining(q[i], now)
    ensures w == NO_JOB_WAIT || exists i :: 0 <= i < n && q[i].enabled && w == Remaining(q[i], now)
  {
    if n == 0 then NO_JOB_WAIT
    else
      var w := NextWait(q, now, n - 1);
      if q[n - 1].enabled then Min(w, Remaining(q[n - 1], now)) else w
  }

  function AfterPop(q: seq<Job>, now: int): (r: seq<Job>)
    requires CadencesOk(q)
    ensures |r| == |q|
  {
    var i := FirstReady(q, now);
    if i < |q| then MoveToLast(q, i) else q
  }

  function ExpediteJob(j: Job): Job {
    if j.enabled then j.(ended := 0) else j
  }

  function Expedited(q: seq<Job>): (r: seq<Job>)
    ensures |r| == |q|
  {
    seq(|q|, i requires 0 <= i < |q| => ExpediteJob(q[i]))
  }

  /** The position of the job with this key; the length of the list when there is none. */
  function FindKey(q: seq<Job>, key: string): (r: nat)
    ensures r <= |q|
    ensures r < |q| ==> Key(q[r]) == key
    ensures forall i :: 0 <= i < r ==> Key(q[i]) != key
  {
    if q == [] then 0
    else if Key(q[0]) == key then 0
    else 1 + FindKey(q[1..], key)
  }

  function ResetTimes(j: Job): Job {
    j.(started := 0, ended := 0)
  }

  /** Insert one job: a disabled one is skipped, a known key only has its times reset. */
  function InsertOne(q: seq<Job>, j: Job): (r: seq<Job>)
    ensures |q| <= |r| <= |q| + 1
  {
    if !j.enabled then q
    else
      var i := FindKey(q, Key(j));
      if i < |q| then q[i := ResetTimes(q[i])] else q + [j]
  }

  /** The list after the first `n` of the jobs were inserted one by one. */
  function InsertFirst(q: seq<Job>, jobs: seq<Job>, n: nat): (r: seq<Job>)
    requires n <= |jobs|
    ensures |q| <= |r|
  {
    if n == 0 then q else InsertOne(InsertFirst(q, jobs, n - 1), jobs[n - 1])
  }

  function InsertAll(q: seq<Job>, jobs: seq<Job>): (r: seq<Job>)
    ensures |q| <= |r|
  {
    InsertFirst(q, jobs, |jobs|)
  }

  /** 64-bit hash of a result under the hash function `hash`; nil and empty data give 0. */
  function HashBytes(hash: Bytes -> int, data: Option<Bytes>): int {
    if data.None? || |data.value| == 0 then 0 else hash(data.value)
  }

  function MarkStarted(hash: Bytes -> int, j: Job, now: int): Job {
    var h := if j.errorCount == 0 then HashBytes(hash, j.result) else j.lastHash;
    j.(lastHash := h, started := now, ended := 0, result := None, error := "")
  }

  // ----- what the operations keep

  lemma InsertOneValid(q: seq<Job>, j: Job)
    requires ValidQueue(q) && CadenceOk(j)
    ensures ValidQueue(InsertOne(q, j))
  {
  }

  lemma {:induction false} InsertFirstValid(q: seq<Job>, jobs: seq<Job>, n: nat)
    requires ValidQueue(q) && CadencesOk(jobs) && n <= |jobs|
    ensures ValidQueue(InsertFirst(q, jobs, n))
  {
    if n > 0 {
      InsertFirstValid(q, jobs, n - 1);
      InsertOneValid(InsertFirst(q, jobs, n - 1), jobs[n - 1]);
    }
  }

  lemma MoveToLastAt<T>(s: seq<T>, i: nat, k: nat)
    requires i < |s| && k < |s|
    ensures MoveToLast(s, i)[k] == if k < i then s[k] else if k < |s| - 1 then s[k + 1] else s[i]
  {
  }

  lemma AfterPopValid(q: seq<Job>, now: int)
    requires ValidQueue(q)
    ensures ValidQueue(AfterPop(q, now))
  {
    var i := FirstReady(q, now);
    if i < |q| {
      var r := MoveToLast(q, i);
      forall a, b | 0 <= a < b < |r| ensures Key(r[a]) != Key(r[b]) {
        MoveToLastAt(q, i, a);
        MoveToLastAt(q, i, b);
      }
    }
  }

  lemma ExpeditedValid(q: seq<Job>)
    requires ValidQueue(q)
    ensures ValidQueue(Expedited(q))
  {
    forall a | 0 <= a < |q| ensures Key(Expedited(q)[a]) == Key(q[a]) {
    }
  }
}
