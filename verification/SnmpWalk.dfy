/** The SNMP walk: GetNext after GetNext, with one reconnect and retry per step. */
module SnmpWalk {
  import opened Common
  import opened Oids

  /** What befalls the session in one round of the walk: whether the time-out handler
      closed it before the request, after the first failure, or after the reconnect; and
      whether the request, the reconnect and the second request succeed. */
  datatype Round = Round(closedBefore: bool, first: bool, closedAfter: bool, reconnects: bool, closedAgain: bool, second: bool)

  datatype Verdict = Answered | Closed | GaveUp

  function VerdictOf(r: Round): Verdict {
    if r.closedBefore then Closed
    else if r.first then Answered
    else if r.closedAfter then Closed
    else if !r.reconnects then GaveUp
    else if r.closedAgain then Closed
    else if r.second then Answered
    else GaveUp
  }

  /** The round brings an answer: the session is open and the first request succeeds, or the
      session stays open over a reconnect and the second request does. */
  predicate Answers(r: Round) {
    !r.closedBefore && (r.first || (!r.closedAfter && r.reconnects && !r.closedAgain && r.second))
  }

  /** The round finds the session closed from outside. */
  predicate FindsClosed(r: Round) {
    r.closedBefore || (!r.first && (r.closedAfter || (r.reconnects && r.closedAgain)))
  }

  lemma VerdictsMean(r: Round)
    ensures VerdictOf(r) == Answered <==> Answers(r)
    ensures VerdictOf(r) == Closed <==> FindsClosed(r)
  {
  }

  datatype WalkError = NotInitialized | BadOid | SessionClosed | NoResults

  /** The first of the rounds 0, ..., n - 1 that brings no answer; n if there is none. */
  function RoundsAnswered(env: nat -> Round, n: nat): (r: nat)
    ensures r <= n
    ensures forall i: nat :: i < r ==> VerdictOf(env(i)) == Answered
    ensures r < n ==> VerdictOf(env(r)) != Answered
  {
    if n == 0 then 0
    else
      var r := RoundsAnswered(env, n - 1);
      if r == n - 1 && VerdictOf(env(n - 1)) == Answered then n else r
  }

  lemma RoundsExact(env: nat -> Round, n: nat, k: nat)
    requires k <= n && AllAnswered(env, k)
    requires k < n ==> VerdictOf(env(k)) != Answered
    ensures RoundsAnswered(env, n) == k
  {
  }

  /** What a walk over a subtree with the readable instances `s` comes to: one instance a
      round, up to the first round without an answer. The round after the last instance
      asks once more, and finds the end of the subtree. */
  function WalkResult(s: seq<Instance>, env: nat -> Round): (seq<Instance>, Option<WalkError>) {
    var k := RoundsAnswered(env, |s|);
    if VerdictOf(env(k)) == Closed then (s[..k], Some(SessionClosed))
    else if k == 0 then ([], Some(NoResults))
    else (s[..k], None)
  }

  /** The collector's session, as far as a walk is concerned. */
  class SNMPv2Collector {
    var session: bool
    var connected: bool

    constructor ()
      ensures !session && !connected
    {
      session, connected := false, false;
    }

    /** Closes the session and opens a fresh one, if the target lets it. */
    method ReconnectSession(succeeds: bool) returns (ok: bool)
      modifies this
      ensures ok == session == connected == succeeds
    {
      session := false;
      connected := false;
      if succeeds {
        session := true;
        connected := true;
      }
      ok := succeeds;
    }

    /** One request with its retry. No answer: the walk is over, with or without an error. */
    method Ask(mib: seq<Instance>, current: Oid, r: Round) returns (answer: Option<Instance>, closed: bool)
      requires session
      modifies this
      ensures match VerdictOf(r)
              case Answered => answer == Some(GetNext(mib, current)) && !closed && session
              case Closed => answer == None && closed && !session
              case GaveUp => answer == None && !closed && session == r.reconnects
      ensures answer == (if Answers(r) then Some(GetNext(mib, current)) else None) && closed == FindsClosed(r)
    {
      closed := false;
      answer := None;
      if r.closedBefore {
        session := false;
      }
      if !session {
        return None, true;
      }
      if r.first {
        return Some(GetNext(mib, current)), false;
      }
      if r.closedAfter {
        session := false;
      }
      if !session {
        return None, true;
      }
      var ok := ReconnectSession(r.reconnects);
      if !ok {
        return None, false;
      }
      if r.closedAgain {
        session := false;
      }
      if !session {
        return None, true;
      }
      if r.second {
        answer := Some(GetNext(mib, current));
      }
    }

    /** The walk from a base OID, None if it does not parse. */
    method Walk(parsed: Option<Oid>, mib: seq<Instance>, env: nat -> Round)
      returns (pdus: seq<Instance>, err: Option<WalkError>)
      requires Sorted(mib)
      modifies this
      ensures !old(session) ==> pdus == [] && err == Some(NotInitialized) && !session
      ensures old(session) && parsed.None? ==> pdus == [] && err == Some(BadOid) && session
      ensures old(session) && parsed.Some? ==>
                (pdus, err) == WalkResult(Readable(Subtree(mib, parsed.value)), env)
                && (err == Some(SessionClosed) <==> !session && VerdictOf(env(|pdus|)) == Closed)
    {
      if !session {
        return [], Some(NotInitialized);
      }
      if parsed.None? {
        return [], Some(BadOid);
      }
      var base := parsed.value;
      var current := base;
      pdus := [];
      while true
        invariant session && Collected(mib, base, env, pdus, current)
        decreases |mib| - (NextIndex(mib, base) + |pdus|)
      {
        var answer, closed := Ask(mib, current, env(|pdus|));
        if answer.None? {
          WalkEnds(mib, base, env, pdus, current);
          if closed {
            return pdus, Some(SessionClosed);
          }
          break;
        }
        var next := answer.value;
        if !Within(next.oid, base) {
          WalkEnds(mib, base, env, pdus, current);
          break;
        }
        if next.value.TypeTag? {
          WalkEnds(mib, base, env, pdus, current);
          break;
        }
        OneMore(mib, base, env, pdus, current, next);
        pdus := pdus + [next];
        current := next.oid;
      }
      if |pdus| == 0 {
        return [], Some(NoResults);
      }
      err := None;
    }
  }

  /** Where a walk stands: it has collected a stretch of the view, all of it within the
      base, one instance for every round so far. */
  ghost predicate Collected(mib: seq<Instance>, base: Oid, env: nat -> Round, pdus: seq<Instance>, current: Oid) {
    var lo, k := NextIndex(mib, base), |pdus|;
    && lo + k <= |mib| && NextIndex(mib, current) == lo + k
    && pdus == mib[lo..lo + k]
    && AllReadable(pdus, base)
    && Within(current, base)
    && AllAnswered(env, k)
  }

  ghost predicate AllReadable(s: seq<Instance>, base: Oid) {
    forall i :: 0 <= i < |s| ==> Within(s[i].oid, base) && s[i].value.Data?
  }

  ghost predicate AllAnswered(env: nat -> Round, k: nat) {
    forall i: nat :: i < k ==> VerdictOf(env(i)) == Answered
  }

  lemma OneMore(mib: seq<Instance>, base: Oid, env: nat -> Round, pdus: seq<Instance>, current: Oid, next: Instance)
    requires Sorted(mib) && Collected(mib, base, env, pdus, current) && next == GetNext(mib, current)
    requires VerdictOf(env(|pdus|)) == Answered && Within(next.oid, base) && next.value.Data?
    ensures NextIndex(mib, base) + |pdus| < |mib| && Collected(mib, base, env, pdus + [next], next.oid)
  {
    var i := NextIndex(mib, base) + |pdus|;
    NextIsAt(mib, current, i);
    SuccessorOf(mib, i);
    Grows(mib, base, env, pdus, current, i);
  }

  lemma Grows(mib: seq<Instance>, base: Oid, env: nat -> Round, pdus: seq<Instance>, current: Oid, i: nat)
    requires Collected(mib, base, env, pdus, current) && i == NextIndex(mib, base) + |pdus| < |mib|
    requires NextIndex(mib, mib[i].oid) == i + 1
    requires VerdictOf(env(|pdus|)) == Answered && Within(mib[i].oid, base) && mib[i].value.Data?
    ensures Collected(mib, base, env, pdus + [mib[i]], mib[i].oid)
  {
    var lo, k := NextIndex(mib, base), |pdus|;
    StretchSnoc(mib, lo, k);
    OneMoreReadable(pdus, base, mib[i]);
    OneMoreAnswered(env, k);
    CollectedTo(mib, base, env, pdus + [mib[i]], mib[i].oid, lo, k + 1);
  }

  lemma CollectedTo(mib: seq<Instance>, base: Oid, env: nat -> Round, pdus: seq<Instance>, current: Oid, lo: nat, k: nat)
    requires lo == NextIndex(mib, base) && k == |pdus| && lo + k <= |mib| && NextIndex(mib, current) == lo + k
    requires pdus == mib[lo..lo + k] && AllReadable(pdus, base) && Within(current, base) && AllAnswered(env, k)
    ensures Collected(mib, base, env, pdus, current)
  {
  }

  lemma NextIsAt(mib: seq<Instance>, current: Oid, i: nat)
    requires NextIndex(mib, current) == i && GetNext(mib, current).value.Data?
    ensures i < |mib| && GetNext(mib, current) == mib[i]
  {
  }

  lemma OneMoreReadable(s: seq<Instance>, base: Oid, next: Instance)
    requires AllReadable(s, base) && Within(next.oid, base) && next.value.Data?
    ensures AllReadable(s + [next], base)
  {
  }

  lemma OneMoreAnswered(env: nat -> Round, k: nat)
    requires AllAnswered(env, k) && VerdictOf(env(k)) == Answered
    ensures AllAnswered(env, k + 1)
  {
  }

  lemma StretchSnoc(mib: seq<Instance>, lo: nat, k: nat)
    requires lo + k < |mib|
    ensures mib[lo..lo + k + 1] == mib[lo..lo + k] + [mib[lo + k]]
  {
  }

  /** The round that ends a walk decides its result. */
  lemma WalkEnds(mib: seq<Instance>, base: Oid, env: nat -> Round, pdus: seq<Instance>, current: Oid)
    requires Sorted(mib) && Collected(mib, base, env, pdus, current)
    requires var next := GetNext(mib, current);
             VerdictOf(env(|pdus|)) == Answered ==> !Within(next.oid, base) || next.value.TypeTag?
    ensures WalkResult(Readable(Subtree(mib, base)), env) ==
            if VerdictOf(env(|pdus|)) == Closed then (pdus, Some(SessionClosed))
            else if |pdus| == 0 then ([], Some(NoResults))
            else (pdus, None)
  {
    var lo, k, s := NextIndex(mib, base), |pdus|, Readable(Subtree(mib, base));
    CollectedSoFar(mib, base, lo, k);
    assert pdus == s[..k];
    RoundsExact(env, |s|, k);
  }

  /** How many instances from position `i` on lie within the base. */
  function StretchFrom(mib: seq<Instance>, base: Oid, i: nat): (n: nat)
    requires i <= |mib|
    ensures i + n <= |mib|
    ensures forall j :: i <= j < i + n ==> Within(mib[j].oid, base)
    ensures i + n < |mib| ==> !Within(mib[i + n].oid, base)
    decreases |mib| - i
  {
    if i == |mib| || !Within(mib[i].oid, base) then 0 else 1 + StretchFrom(mib, base, i + 1)
  }

  /** `k` readable members of the subtree, collected from its start, are its beginning; they
      are all of it when the next instance ends the walk. */
  lemma CollectedSoFar(mib: seq<Instance>, base: Oid, lo: nat, k: nat)
    requires Sorted(mib) && lo == NextIndex(mib, base) && lo + k <= |mib|
    requires AllReadable(mib[lo..lo + k], base)
    ensures mib[lo..lo + k] <= Readable(Subtree(mib, base))
    ensures lo + k == |mib| || !Within(mib[lo + k].oid, base) || mib[lo + k].value.TypeTag? ==>
              mib[lo..lo + k] == Readable(Subtree(mib, base))
  {
    var n := StretchFrom(mib, base, lo);
    SubtreeStretch(mib, base, lo, n);
    NoLonger(mib, base, lo, n, k);
    StretchPrefix(mib, lo, n, k);
    PrefixReadable(mib[lo..lo + n], base, k);
    ReadablePrefix(mib[lo..lo + n], k);
  }

  lemma PrefixReadable(s: seq<Instance>, base: Oid, k: nat)
    requires k <= |s| && AllReadable(s[..k], base)
    ensures forall i :: 0 <= i < k ==> s[i].value.Data?
  {
    forall i | 0 <= i < k ensures s[i].value.Data? {
      assert s[i] == s[..k][i];
    }
  }

  lemma NoLonger(mib: seq<Instance>, base: Oid, lo: nat, n: nat, k: nat)
    requires lo + n <= |mib| && lo + k <= |mib| && AllReadable(mib[lo..lo + k], base)
    requires lo + n < |mib| ==> !Within(mib[lo + n].oid, base)
    ensures k <= n
  {
    if n < k {
      ReadableAt(mib, base, lo, k, n);
    }
  }

  lemma ReadableAt(mib: seq<Instance>, base: Oid, lo: nat, k: nat, i: nat)
    requires lo + k <= |mib| && AllReadable(mib[lo..lo + k], base) && i < k
    ensures Within(mib[lo + i].oid, base)
  {
    assert mib[lo + i] == mib[lo..lo + k][i];
  }

  lemma StretchPrefix(mib: seq<Instance>, lo: nat, n: nat, k: nat)
    requires k <= n && lo + n <= |mib|
    ensures mib[lo..lo + n][..k] == mib[lo..lo + k]
    ensures k < n ==> mib[lo..lo + n][k] == mib[lo + k]
  {
  }

  lemma {:induction false} ReadablePrefix(s: seq<Instance>, k: nat)
    requires k <= |s| && forall i :: 0 <= i < k ==> s[i].value.Data?
    ensures s[..k] <= Readable(s)
    ensures k == |s| || s[k].value.TypeTag? ==> s[..k] == Readable(s)
  {
    if k > 0 {
      ReadablePrefix(s[1..], k - 1);
      assert s[..k] == [s[0]] + s[1..][..k - 1];
    }
  }

  // ----- what a walk promises

  lemma {:induction false} SubtreeMembers(mib: seq<Instance>, base: Oid, x: Instance)
    ensures x in Subtree(mib, base) <==> x in mib && Below(x.oid, base)
  {
    if mib != [] {
      SubtreeMembers(mib[1..], base, x);
      assert mib == [mib[0]] + mib[1..];
    }
  }

  lemma {:induction false} SubtreeSorted(mib: seq<Instance>, base: Oid)
    requires Sorted(mib)
    ensures Sorted(Subtree(mib, base))
  {
    if mib != [] {
      var rest := Subtree(mib[1..], base);
      SubtreeSorted(mib[1..], base);
      forall i | 0 <= i < |rest| ensures Less(mib[0].oid, rest[i].oid) {
        SubtreeMembers(mib[1..], base, rest[i]);
      }
    }
  }

  lemma {:induction false} ReadableOfAll(s: seq<Instance>)
    ensures Readable(s) == s <==> forall i :: 0 <= i < |s| ==> s[i].value.Data?
  {
    if s != [] {
      ReadableOfAll(s[1..]);
      assert s == [s[0]] + s[1..];
      assert (forall i :: 0 <= i < |s| ==> s[i].value.Data?) <==>
             s[0].value.Data? && forall i :: 0 <= i < |s[1..]| ==> s[1..][i].value.Data?;
    }
  }

  /** Whatever fails, what a walk returns is a gap-free beginning of the subtree without
      repetitions, and a result without an error is never empty. */
  lemma WalkIsPrefix(mib: seq<Instance>, base: Oid, env: nat -> Round)
    requires Sorted(mib)
    ensures var (pdus, err) := WalkResult(Readable(Subtree(mib, base)), env);
            && pdus <= Subtree(mib, base)
            && Sorted(pdus)
            && (forall x :: x in pdus ==> x in mib && base < x.oid)
            && (err == None ==> pdus != [])
            && (err == Some(NoResults) ==> pdus == [])
  {
    SubtreeSorted(mib, base);
    var (pdus, err) := WalkResult(Readable(Subtree(mib, base)), env);
    forall x | x in pdus ensures x in mib && base < x.oid {
      SubtreeMembers(mib, base, x);
    }
  }

  /** A walk whose every round is answered returns exactly the instances strictly below the
      base, in order, if and only if none of them answers with a bare type tag. */
  lemma WalkIsComplete(mib: seq<Instance>, base: Oid, env: nat -> Round)
    requires Sorted(mib) && AllAnswered(env, |Subtree(mib, base)| + 1)
    ensures var (pdus, err) := WalkResult(Readable(Subtree(mib, base)), env);
            && pdus == Readable(Subtree(mib, base))
            && (err == None <==> pdus != [])
            && ((forall x :: x in pdus <==> x in mib && base < x.oid) <==>
                (forall x :: x in mib && base < x.oid ==> x.value.Data?))
  {
    var s := Subtree(mib, base);
    var (pdus, err) := WalkResult(Readable(s), env);
    RoundsExact(env, |Readable(s)|, |Readable(s)|);
    forall x ensures x in s <==> x in mib && base < x.oid {
      SubtreeMembers(mib, base, x);
    }
    ReadableOfAll(s);
    if pdus == s {
      forall x | x in mib && base < x.oid ensures x.value.Data? {
        assert x in s;
      }
    } else {
      var x := s[|pdus|];
      assert x in s && x.value.TypeTag?;
      assert x !in pdus;
    }
  }

  // ----- the same in terms of what befalls the session

  /** Lost requests do no harm as long as reconnecting helps: if the session is never closed
      from outside, and in every round the first request succeeds or the reconnect and the
      second one do, then the walk returns the whole readable subtree. */
  lemma WalkDespiteRetries(mib: seq<Instance>, base: Oid, env: nat -> Round)
    requires Sorted(mib)
    requires forall i: nat :: i <= |Subtree(mib, base)| ==>
               && !env(i).closedBefore && !env(i).closedAfter && !env(i).closedAgain
               && (env(i).first || (env(i).reconnects && env(i).second))
    ensures var (pdus, err) := WalkResult(Readable(Subtree(mib, base)), env);
            && pdus == Readable(Subtree(mib, base))
            && err == (if pdus == [] then Some(NoResults) else None)
            && ((forall x :: x in pdus <==> x in mib && base < x.oid) <==>
                (forall x :: x in mib && base < x.oid ==> x.value.Data?))
  {
    forall i: nat | i <= |Subtree(mib, base)| ensures VerdictOf(env(i)) == Answered {
      VerdictsMean(env(i));
    }
    WalkIsComplete(mib, base, env);
  }

  /** Every round before `k` brought an answer. */
  ghost predicate AnsweredUpTo(env: nat -> Round, k: nat) {
    forall i: nat :: i < k ==> Answers(env(i))
  }

  lemma AnsweredIsAll(env: nat -> Round, k: nat)
    ensures AnsweredUpTo(env, k) <==> AllAnswered(env, k)
  {
    forall i: nat | i < k ensures VerdictOf(env(i)) == Answered <==> Answers(env(i)) {
      VerdictsMean(env(i));
    }
  }

  lemma AnsweredRounds(env: nat -> Round, n: nat, k: nat)
    requires k <= n && AnsweredUpTo(env, k) && (k < n ==> !Answers(env(k)))
    ensures RoundsAnswered(env, n) == k
  {
    forall i: nat | i <= k ensures VerdictOf(env(i)) == Answered <==> Answers(env(i)) {
      VerdictsMean(env(i));
    }
    RoundsExact(env, n, k);
  }

  lemma FirstUnanswered(env: nat -> Round, n: nat)
    ensures AnsweredUpTo(env, RoundsAnswered(env, n))
    ensures RoundsAnswered(env, n) < n ==> !Answers(env(RoundsAnswered(env, n)))
  {
    var k := RoundsAnswered(env, n);
    forall i: nat | i <= k ensures VerdictOf(env(i)) == Answered <==> Answers(env(i)) {
      VerdictsMean(env(i));
    }
  }

  /** A walk ends short of the readable subtree without telling so if and only if some round
      loses its first request and then the reconnect or the second request, the session being
      open where it is looked at, and every round before was answered. */
  lemma EndsShort(mib: seq<Instance>, base: Oid, env: nat -> Round)
    ensures var (pdus, err) := WalkResult(Readable(Subtree(mib, base)), env);
            pdus != Readable(Subtree(mib, base)) && err != Some(SessionClosed) <==>
              exists k: nat ::
                && k < |Readable(Subtree(mib, base))| && AnsweredUpTo(env, k)
                && !env(k).closedBefore && !env(k).first && !env(k).closedAfter
                && (!env(k).reconnects || (!env(k).closedAgain && !env(k).second))
  {
    var n := |Readable(Subtree(mib, base))|;
    FirstUnanswered(env, n);
    VerdictsMean(env(RoundsAnswered(env, n)));
    if k: nat :| k < n && AnsweredUpTo(env, k) && !Answers(env(k)) && !FindsClosed(env(k)) {
      AnsweredRounds(env, n, k);
    }
  }

  /** A walk fails with a closed session if and only if the session is found closed in a round
      before which every round was answered. */
  lemma EndsClosed(mib: seq<Instance>, base: Oid, env: nat -> Round)
    ensures var (pdus, err) := WalkResult(Readable(Subtree(mib, base)), env);
            err == Some(SessionClosed) <==>
              exists k: nat ::
                && k <= |Readable(Subtree(mib, base))| && AnsweredUpTo(env, k)
                && (env(k).closedBefore || (!env(k).first && (env(k).closedAfter || (env(k).reconnects && env(k).closedAgain))))
  {
    var n := |Readable(Subtree(mib, base))|;
    FirstUnanswered(env, n);
    VerdictsMean(env(RoundsAnswered(env, n)));
    if k: nat :| k <= n && AnsweredUpTo(env, k) && FindsClosed(env(k)) {
      AnsweredRounds(env, n, k);
    }
  }
}
