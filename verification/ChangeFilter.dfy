/** The change filter and the cadence level of one job, over all the times it runs, and
    the fact that a host run treats every job exactly by its own outcomes. */
module ChangeFilter {
  import opened Common
  import opened JobModel
  import opened HostModel

  /** The clock readings of a job play no part here, nor whether it is switched on. */
  function Core(j: Job): Job {
    ResetTimes(j).(enabled := true)
  }

  /** One execution: marking the start, executing, judging. */
  function RunOnce(hash: Bytes -> int, j: Job, o: Outcome): (Job, bool) {
    var (r, hand) := Judge(hash, ApplyOutcome(MarkStarted(hash, j, 0), o));
    (Core(r), hand)
  }

  /** The job after all its executions. */
  function After(hash: Bytes -> int, j: Job, os: seq<Outcome>): Job {
    if os == [] then Core(j) else RunOnce(hash, After(hash, j, os[..|os| - 1]), os[|os| - 1]).0
  }

  /** Which of the executions hand their result over. */
  function Hands(hash: Bytes -> int, j: Job, os: seq<Outcome>): (r: seq<bool>)
    ensures |r| == |os|
  {
    if os == [] then []
    else
      var before := os[..|os| - 1];
      Hands(hash, j, before) + [RunOnce(hash, After(hash, j, before), os[|os| - 1]).1]
  }

  function Resulting(o: Outcome): Option<Bytes> {
    match o
    case Done(r) => r
    case Failure(_, r) => r
    case Untracked(r) => r
  }

  /** The results handed over, in order. */
  function Selected(os: seq<Outcome>, hands: seq<bool>): seq<Option<Bytes>>
    requires |hands| == |os|
  {
    if os == [] then []
    else
      var n := |os| - 1;
      Selected(os[..n], hands[..n]) + if hands[n] then [Resulting(os[n])] else []
  }

  // ----- the reference: compare with the last result that counted

  /** The result compared with, and whether the job has been failing since. */
  datatype Baseline = Baseline(result: Option<Bytes>, failing: bool)

  /** A failure keeps the baseline. A success becomes the baseline; an untracked result
      does so only if the job was not failing. */
  function BaselineAfter(os: seq<Outcome>): Baseline {
    if os == [] then Baseline(None, false)
    else
      var b := BaselineAfter(os[..|os| - 1]);
      match os[|os| - 1]
      case Failure(_, _) => b.(failing := true)
      case Done(r) => Baseline(r, false)
      case Untracked(r) => if b.failing then b else Baseline(r, false)
  }

  /** Exactly the changes against the baseline. */
  function Changes(os: seq<Outcome>): (r: seq<bool>)
    ensures |r| == |os|
  {
    if os == [] then []
    else
      var o := os[|os| - 1];
      Changes(os[..|os| - 1]) + [!o.Failure? && Resulting(o) != BaselineAfter(os[..|os| - 1]).result]
  }

  /** The hashes mislead about these two results: an earlier result that hashes to zero (an
      empty one does) followed by nil or by itself, or two results that collide. */
  predicate Misleads(hash: Bytes -> int, earlier: Option<Bytes>, later: Option<Bytes>) {
    if HashBytes(hash, earlier) == 0 then earlier.Some? && (later.None? || later == earlier)
    else later.Some? && later != earlier && HashBytes(hash, later) == HashBytes(hash, earlier)
  }

  ghost predicate NeverMisled(hash: Bytes -> int, os: seq<Outcome>) {
    forall i :: 0 <= i < |os| && !os[i].Failure? ==>
      !Misleads(hash, BaselineAfter(os[..i]).result, Resulting(os[i]))
  }

  /** A job as it is when inserted: nothing executed yet. */
  predicate Unrun(j: Job) {
    j.result.None? && j.errorCount == 0
  }

  ghost predicate ErrorsNamed(os: seq<Outcome>) {
    forall i :: 0 <= i < |os| && os[i].Failure? ==> os[i].error != ""
  }

  /** The fields of the job encode the baseline of what it has been through. */
  lemma {:induction false} TracksBaseline(hash: Bytes -> int, j: Job, os: seq<Outcome>)
    requires Unrun(j) && ErrorsNamed(os)
    ensures var (a, b) := (After(hash, j, os), BaselineAfter(os));
            && a.always == j.always
            && (a.errorCount > 0 <==> b.failing) && a.errorCount >= 0
            && (if b.failing then a.lastHash == HashBytes(hash, b.result) else a.result == b.result)
  {
    if os != [] {
      TracksBaseline(hash, j, os[..|os| - 1]);
    }
  }

  lemma FilterStep(hash: Bytes -> int, a: Job, b: Baseline, o: Outcome)
    requires !a.always && (o.Failure? ==> o.error != "")
    requires a.errorCount >= 0 && (a.errorCount > 0 <==> b.failing)
    requires if b.failing then a.lastHash == HashBytes(hash, b.result) else a.result == b.result
    ensures (RunOnce(hash, a, o).1 <==> !o.Failure? && Resulting(o) != b.result) <==>
            (!o.Failure? ==> !Misleads(hash, b.result, Resulting(o)))
  {
  }

  lemma NeverMisledSnoc(hash: Bytes -> int, os: seq<Outcome>)
    requires os != []
    ensures var before, o := os[..|os| - 1], os[|os| - 1];
            NeverMisled(hash, os) <==>
              NeverMisled(hash, before) && (!o.Failure? ==> !Misleads(hash, BaselineAfter(before).result, Resulting(o)))
  {
    var n := |os| - 1;
    forall i | 0 <= i < n ensures os[..i] == os[..n][..i] && os[i] == os[..n][i] {
    }
  }

  /** The change filter decides by hashes, and decides as the reference does at every
      execution if and only if the hashes never mislead. */
  lemma {:induction false} FilterExact(hash: Bytes -> int, j: Job, os: seq<Outcome>)
    requires Unrun(j) && !j.always && ErrorsNamed(os)
    ensures Hands(hash, j, os) == Changes(os) <==> NeverMisled(hash, os)
  {
    if os != [] {
      var n := |os| - 1;
      FilterExact(hash, j, os[..n]);
      TracksBaseline(hash, j, os[..n]);
      FilterStep(hash, After(hash, j, os[..n]), BaselineAfter(os[..n]), os[n]);
      NeverMisledSnoc(hash, os);
      SnocEqual(Hands(hash, j, os[..n]), Changes(os[..n]), Hands(hash, j, os)[n], Changes(os)[n]);
    }
  }

  lemma SnocEqual<T>(a: seq<T>, b: seq<T>, x: T, y: T)
    requires |a| == |b|
    ensures a + [x] == b + [y] <==> a == b && x == y
  {
    assert (a + [x])[..|a|] == a && (b + [y])[..|b|] == b;
    assert (a + [x])[|a|] == x && (b + [y])[|b|] == y;
  }

  /** The hash tells these results apart, and none of them is empty or hashes to zero. */
  ghost predicate TellsApart(hash: Bytes -> int, os: seq<Outcome>) {
    && (forall i :: 0 <= i < |os| && Resulting(os[i]).Some? ==>
          Resulting(os[i]).value != [] && hash(Resulting(os[i]).value) != 0)
    && (forall i, k :: 0 <= i < |os| && 0 <= k < |os| && Resulting(os[i]).Some? && Resulting(os[k]).Some? ==>
          hash(Resulting(os[i]).value) == hash(Resulting(os[k]).value) ==> Resulting(os[i]) == Resulting(os[k]))
  }

  lemma {:induction false} BaselineFrom(os: seq<Outcome>)
    ensures BaselineAfter(os).result.None? || exists i :: 0 <= i < |os| && Resulting(os[i]) == BaselineAfter(os).result
  {
    if os != [] {
      var n := |os| - 1;
      BaselineFrom(os[..n]);
      if i :| 0 <= i < n && Resulting(os[..n][i]) == BaselineAfter(os[..n]).result {
        assert Resulting(os[i]) == BaselineAfter(os[..n]).result;
      }
      assert Resulting(os[n]) == Resulting(os[|os| - 1]);
    }
  }

  /** A hash that tells the results of a job apart never misleads the filter. */
  lemma NotMisled(hash: Bytes -> int, os: seq<Outcome>)
    requires TellsApart(hash, os)
    ensures NeverMisled(hash, os)
  {
    forall i | 0 <= i < |os| && !os[i].Failure? ensures !Misleads(hash, BaselineAfter(os[..i]).result, Resulting(os[i])) {
      BaselineFrom(os[..i]);
      if k :| 0 <= k < i && Resulting(os[..i][k]) == BaselineAfter(os[..i]).result {
        assert Resulting(os[k]) == BaselineAfter(os[..i]).result;
      }
    }
  }

  // ----- successes without consecutive repeats

  function Successes(os: seq<Outcome>): seq<Option<Bytes>> {
    if os == [] then []
    else
      Successes(os[..|os| - 1]) + match os[|os| - 1]
      case Done(r) => [r]
      case _ => []
  }

  function Latest(rs: seq<Option<Bytes>>): Option<Bytes> {
    if rs == [] then None else rs[|rs| - 1]
  }

  /** Consecutive repeats removed; a leading nil repeats the nil every job starts with. */
  function Dedup(rs: seq<Option<Bytes>>): seq<Option<Bytes>> {
    if rs == [] then []
    else
      var n := |rs| - 1;
      Dedup(rs[..n]) + if rs[n] == Latest(rs[..n]) then [] else [rs[n]]
  }

  ghost predicate Tracked(os: seq<Outcome>) {
    forall i :: 0 <= i < |os| ==> !os[i].Untracked?
  }

  lemma {:induction false} ChangesAreDedup(os: seq<Outcome>)
    requires Tracked(os)
    ensures BaselineAfter(os).result == Latest(Successes(os))
    ensures Selected(os, Changes(os)) == Dedup(Successes(os))
  {
    if os != [] {
      var n := |os| - 1;
      ChangesAreDedup(os[..n]);
      assert Changes(os)[..n] == Changes(os[..n]);
      var rs := Successes(os[..n]);
      if os[n].Done? {
        assert Successes(os) == rs + [os[n].result];
        assert Successes(os)[..|rs|] == rs;
      } else {
        assert Successes(os) == rs;
      }
    }
  }

  lemma {:induction false} DedupEndsInLatest(rs: seq<Option<Bytes>>)
    ensures Latest(Dedup(rs)) == Latest(rs)
  {
    if rs != [] {
      DedupEndsInLatest(rs[..|rs| - 1]);
    }
  }

  /** For a job that succeeds or fails each time: what is handed over are its successful
      results with consecutive repeats removed, failures in between changing nothing; the
      last hand-over is the latest success. */
  lemma HandsOverDedup(hash: Bytes -> int, j: Job, os: seq<Outcome>)
    requires Unrun(j) && !j.always && ErrorsNamed(os) && Tracked(os) && NeverMisled(hash, os)
    ensures Selected(os, Hands(hash, j, os)) == Dedup(Successes(os))
    ensures Latest(Selected(os, Hands(hash, j, os))) == Latest(Successes(os))
  {
    FilterExact(hash, j, os);
    ChangesAreDedup(os);
    DedupEndsInLatest(Successes(os));
  }

  /** Where the code and the promise part: an empty result is handed over every time,
      however often it repeats. */
  lemma {:induction false} EmptyResultsRepeat(hash: Bytes -> int, j: Job, os: seq<Outcome>)
    requires Unrun(j) && !j.always
    requires forall i :: 0 <= i < |os| ==> os[i] == Done(Some([]))
    ensures forall i :: 0 <= i < |os| ==> Hands(hash, j, os)[i]
    ensures |os| >= 2 ==> !NeverMisled(hash, os)
  {
    if os != [] {
      var n := |os| - 1;
      EmptyResultsRepeat(hash, j, os[..n]);
      TracksBaseline(hash, j, os[..n]);
      assert n > 0 ==> os[..n][..n - 1] == os[..n - 1];
      assert n > 0 ==> BaselineAfter(os[..n]).result == Some([]);
      assert Hands(hash, j, os)[n];
      assert n > 0 ==> Misleads(hash, BaselineAfter(os[..n]).result, Resulting(os[n]));
    }
  }

  // ----- the cadence level

  function ResultRuns(os: seq<Outcome>): nat {
    if os == [] then 0
    else ResultRuns(os[..|os| - 1]) + if Resulting(os[|os| - 1]).Some? then 1 else 0
  }

  /** The level by itself: back to the first with a failure, one on with a result. */
  function Level(j: Job, os: seq<Outcome>): int {
    if os == [] then j.current
    else
      var level, o := Level(j, os[..|os| - 1]), os[|os| - 1];
      if o.Failure? then 0
      else if Resulting(o).Some? && level < |j.cadences| - 1 then level + 1
      else level
  }

  lemma {:induction false} LevelOfJob(hash: Bytes -> int, j: Job, os: seq<Outcome>)
    requires !j.always && ErrorsNamed(os)
    ensures After(hash, j, os).current == Level(j, os)
  {
    if os != [] {
      KeepsCadences(hash, j, os[..|os| - 1]);
      LevelOfJob(hash, j, os[..|os| - 1]);
    }
  }

  lemma {:induction false} LevelCounts(j: Job, os: seq<Outcome>, since: nat)
    requires CadenceOk(j) && since <= |os|
    requires forall i :: since <= i < |os| ==> !os[i].Failure?
    requires since > 0 ==> os[since - 1].Failure?
    ensures Level(j, os) == Min((if since == 0 then j.current else 0) + ResultRuns(os[since..]), |j.cadences| - 1)
    decreases |os|
  {
    if since < |os| {
      LevelCounts(j, os[..|os| - 1], since);
      ResultRunsSnoc(os, since);
    }
  }

  /** Since its last failure (or from its first level, if it never failed) a job moves one
      level on with every result, up to the last level. */
  lemma CadenceLevel(hash: Bytes -> int, j: Job, os: seq<Outcome>, since: nat)
    requires !j.always && CadenceOk(j) && ErrorsNamed(os) && since <= |os|
    requires forall i :: since <= i < |os| ==> !os[i].Failure?
    requires since > 0 ==> os[since - 1].Failure?
    ensures After(hash, j, os).current ==
            Min((if since == 0 then j.current else 0) + ResultRuns(os[since..]), |j.cadences| - 1)
  {
    LevelOfJob(hash, j, os);
    LevelCounts(j, os, since);
  }

  lemma ResultRunsSnoc(os: seq<Outcome>, since: nat)
    requires since < |os|
    ensures var n := |os| - 1;
            ResultRuns(os[since..]) == ResultRuns(os[..n][since..]) + if Resulting(os[n]).Some? then 1 else 0
  {
    var n := |os| - 1;
    assert os[since..][..n - since] == os[..n][since..];
    assert os[since..][n - since] == os[n];
  }

  lemma {:induction false} KeepsCadences(hash: Bytes -> int, j: Job, os: seq<Outcome>)
    ensures After(hash, j, os).cadences == j.cadences && After(hash, j, os).always == j.always
  {
    if os != [] {
      KeepsCadences(hash, j, os[..|os| - 1]);
    }
  }

  // ----- a job that is handed over each time

  /** The results of the executions that did not fail, in order. */
  function Unfailed(os: seq<Outcome>): seq<Option<Bytes>> {
    if os == [] then []
    else
      Unfailed(os[..|os| - 1]) + match os[|os| - 1]
      case Done(r) => [r]
      case Failure(_, _) => []
      case Untracked(r) => [r]
  }

  lemma AlwaysOnce(hash: Bytes -> int, a: Job, o: Outcome)
    requires a.always && (o.Failure? ==> o.error != "")
    ensures RunOnce(hash, a, o).1 <==> !o.Failure?
    ensures RunOnce(hash, a, o).0.current == if o.Failure? then 0 else a.current
  {
  }

  /** A job marked `always` hands over every result that is not a failure's, repeats and nil
      included. */
  lemma {:induction false} AlwaysHands(hash: Bytes -> int, j: Job, os: seq<Outcome>)
    requires j.always && ErrorsNamed(os)
    ensures Selected(os, Hands(hash, j, os)) == Unfailed(os)
  {
    if os != [] {
      var n := |os| - 1;
      AlwaysHands(hash, j, os[..n]);
      KeepsCadences(hash, j, os[..n]);
      AlwaysOnce(hash, After(hash, j, os[..n]), os[n]);
      assert Hands(hash, j, os)[..n] == Hands(hash, j, os[..n]);
    }
  }

  /** Its level falls to the first with a failure and moves no other way. */
  lemma {:induction false} AlwaysLevel(hash: Bytes -> int, j: Job, os: seq<Outcome>)
    requires j.always && ErrorsNamed(os)
    ensures After(hash, j, os).current == if exists i :: 0 <= i < |os| && os[i].Failure? then 0 else j.current
  {
    if os != [] {
      var n := |os| - 1;
      AlwaysLevel(hash, j, os[..n]);
      KeepsCadences(hash, j, os[..n]);
      AlwaysOnce(hash, After(hash, j, os[..n]), os[n]);
      assert forall i :: 0 <= i < n ==> os[..n][i] == os[i];
    }
  }
}
