/** Object identifiers: their lexicographic order, the subtree relation, and the agent's
    view of them. */
module Oids {
  import opened Common
  import opened JobModel

  type Oid = seq<nat>

  /** Lexicographic order: a proper prefix comes first. */
  predicate Less(a: Oid, b: Oid) {
    if b == [] then false
    else if a == [] then true
    else a[0] < b[0] || (a[0] == b[0] && Less(a[1..], b[1..]))
  }

  /** The identifier lies in the subtree of `base`, the base included. */
  predicate Within(oid: Oid, base: Oid) {
    base <= oid
  }

  predicate Below(oid: Oid, base: Oid) {
    Within(oid, base) && oid != base
  }

  /** Below a base is what the base is a proper prefix of. */
  lemma BelowMeans(oid: Oid, base: Oid)
    ensures Within(oid, base) <==> |base| <= |oid| && oid[..|base|] == base
    ensures Below(oid, base) <==> base < oid
  {
  }

  /** One identifier comes before another if it is a proper prefix of it, or is smaller where
      the two first differ. */
  lemma {:induction false} LessMeans(a: Oid, b: Oid)
    ensures Less(a, b) <==> a < b || exists i :: 0 <= i < |a| && i < |b| && a[..i] == b[..i] && a[i] < b[i]
  {
    if a != [] && b != [] && a[0] == b[0] {
      LessMeans(a[1..], b[1..]);
      assert a == [a[0]] + a[1..] && b == [b[0]] + b[1..];
      if i :| 0 <= i < |a[1..]| && i < |b[1..]| && a[1..][..i] == b[1..][..i] && a[1..][i] < b[1..][i] {
        assert a[..i + 1] == [a[0]] + a[1..][..i] && b[..i + 1] == [b[0]] + b[1..][..i];
        assert a[i + 1] < b[i + 1];
      }
      if i :| 0 <= i < |a| && i < |b| && a[..i] == b[..i] && a[i] < b[i] {
        assert a[1..][..i - 1] == a[..i][1..] && b[1..][..i - 1] == b[..i][1..];
        assert a[1..][i - 1] < b[1..][i - 1];
      }
    } else if a != [] && b != [] {
      if i :| 0 <= i < |a| && i < |b| && a[..i] == b[..i] && a[i] < b[i] {
        FirstOfPrefix(a, b, i);
      }
      assert a[..0] == b[..0];
    }
  }

  lemma {:induction false} LessIrreflexive(a: Oid)
    ensures !Less(a, a)
  {
    if a != [] {
      LessIrreflexive(a[1..]);
    }
  }

  lemma {:induction false} LessTransitive(a: Oid, b: Oid, c: Oid)
    requires Less(a, b) && Less(b, c)
    ensures Less(a, c)
  {
    if a != [] && a[0] == b[0] == c[0] {
      LessTransitive(a[1..], b[1..], c[1..]);
    }
  }

  /** A base comes before everything below it. */
  lemma {:induction false} BaseFirst(oid: Oid, base: Oid)
    requires Below(oid, base)
    ensures Less(base, oid)
  {
    if base != [] {
      assert base[0] == oid[0] && base[1..] <= oid[1..];
      assert oid == [oid[0]] + oid[1..] && base == [base[0]] + base[1..];
      BaseFirst(oid[1..], base[1..]);
    }
  }

  /** A subtree is contiguous: what lies between its base and one of its members belongs
      to it. */
  lemma {:induction false} SubtreeConvex(base: Oid, b: Oid, c: Oid)
    requires Less(base, b) && Less(b, c) && Within(c, base)
    ensures Below(b, base)
  {
    if base != [] {
      assert c != [] && c[0] == base[0] && base[1..] <= c[1..];
      assert b[0] == base[0];
      SubtreeConvex(base[1..], b[1..], c[1..]);
      assert base == [base[0]] + base[1..] && b == [b[0]] + b[1..];
    }
  }

  // ----- the agent

  /** What GetNext can return as a value: data, or a bare type tag, with which the client
      library reports the end of the view and values it cannot interpret. */
  datatype Value = Data(bytes: Bytes) | TypeTag

  datatype Instance = Instance(oid: Oid, value: Value)

  /** The instances an agent can reach, in lexicographic order (section 4.2.2 of RFC 3416). */
  ghost predicate Sorted(mib: seq<Instance>) {
    forall i, j :: 0 <= i < j < |mib| ==> Less(mib[i].oid, mib[j].oid)
  }

  /** The position of the lexicographic successor of `oid`. */
  function NextIndex(mib: seq<Instance>, oid: Oid): (r: nat)
    ensures r <= |mib|
    ensures r < |mib| ==> Less(oid, mib[r].oid)
    ensures forall i :: 0 <= i < r ==> !Less(oid, mib[i].oid)
  {
    if mib == [] then 0
    else if Less(oid, mib[0].oid) then 0
    else 1 + NextIndex(mib[1..], oid)
  }

  /** The agent's answer to GetNext; past the last instance it repeats the requested name
      with an endOfMibView exception. */
  function GetNext(mib: seq<Instance>, oid: Oid): Instance {
    var i := NextIndex(mib, oid);
    if i < |mib| then mib[i] else Instance(oid, TypeTag)
  }

  lemma NotLess(mib: seq<Instance>, k: nat, i: nat)
    requires Sorted(mib) && k <= i < |mib|
    ensures !Less(mib[i].oid, mib[k].oid)
  {
    if k < i && Less(mib[i].oid, mib[k].oid) {
      LessTransitive(mib[i].oid, mib[k].oid, mib[i].oid);
    }
    LessIrreflexive(mib[i].oid);
  }

  lemma SuccessorOf(mib: seq<Instance>, i: nat)
    requires Sorted(mib) && i < |mib|
    ensures NextIndex(mib, mib[i].oid) == i + 1
  {
    forall k | 0 <= k <= i ensures !Less(mib[i].oid, mib[k].oid) {
      NotLess(mib, k, i);
    }
    if i + 1 < |mib| {
      assert Less(mib[i].oid, mib[i + 1].oid);
    }
  }

  /** All instances strictly below the base, in order. */
  function Subtree(mib: seq<Instance>, base: Oid): seq<Instance> {
    if mib == [] then []
    else (if Below(mib[0].oid, base) then [mib[0]] else []) + Subtree(mib[1..], base)
  }

  /** The instances before the first bare type tag. */
  function Readable(s: seq<Instance>): (r: seq<Instance>)
    ensures r <= s
    ensures forall i :: 0 <= i < |r| ==> r[i].value.Data?
    ensures |r| < |s| ==> s[|r|].value.TypeTag?
  {
    if s == [] || s[0].value.TypeTag? then [] else [s[0]] + Readable(s[1..])
  }

  lemma {:induction false} SubtreeOfNone(s: seq<Instance>, base: Oid)
    requires forall i :: 0 <= i < |s| ==> !Below(s[i].oid, base)
    ensures Subtree(s, base) == []
  {
    if s != [] {
      SubtreeOfNone(s[1..], base);
    }
  }

  lemma SubtreeCons(x: Instance, s: seq<Instance>, base: Oid)
    ensures Subtree([x] + s, base) == (if Below(x.oid, base) then [x] else []) + Subtree(s, base)
  {
    assert ([x] + s)[1..] == s;
  }

  lemma {:induction false} SubtreeSplits(a: seq<Instance>, b: seq<Instance>, base: Oid)
    ensures Subtree(a + b, base) == Subtree(a, base) + Subtree(b, base)
  {
    if a == [] {
      assert a + b == b;
    } else {
      var x, rest := a[0], a[1..];
      assert a == [x] + rest && a + b == [x] + (rest + b);
      SubtreeCons(x, rest, base);
      SubtreeCons(x, rest + b, base);
      SubtreeSplits(rest, b, base);
    }
  }

  lemma NothingBefore(mib: seq<Instance>, base: Oid, lo: nat)
    requires lo == NextIndex(mib, base)
    ensures Subtree(mib[..lo], base) == []
  {
    forall i | 0 <= i < lo ensures !Below(mib[i].oid, base) {
      if Below(mib[i].oid, base) {
        BaseFirst(mib[i].oid, base);
      }
    }
    SubtreeOfNone(mib[..lo], base);
  }

  lemma AllInside(mib: seq<Instance>, base: Oid, lo: nat, k: nat)
    requires Sorted(mib) && lo == NextIndex(mib, base) && lo + k <= |mib|
    requires forall i :: lo <= i < lo + k ==> Within(mib[i].oid, base)
    ensures Subtree(mib[lo..lo + k], base) == mib[lo..lo + k]
  {
    forall i | lo <= i < lo + k ensures Below(mib[i].oid, base) {
      AfterBase(mib, base, lo, i);
      LessIrreflexive(base);
    }
    SubtreeOfAll(mib[lo..lo + k], base);
  }

  lemma NothingAfter(mib: seq<Instance>, base: Oid, lo: nat, k: nat)
    requires Sorted(mib) && lo == NextIndex(mib, base) && lo + k <= |mib|
    requires lo + k < |mib| ==> !Within(mib[lo + k].oid, base)
    ensures Subtree(mib[lo + k..], base) == []
  {
    forall i | lo + k <= i < |mib| ensures !Below(mib[i].oid, base) {
      if Below(mib[i].oid, base) && i > lo + k {
        AfterBase(mib, base, lo, lo + k);
        SubtreeConvex(base, mib[lo + k].oid, mib[i].oid);
      }
    }
    SubtreeOfNone(mib[lo + k..], base);
  }

  lemma SubtreeOfThree(a: seq<Instance>, b: seq<Instance>, c: seq<Instance>, base: Oid)
    ensures Subtree(a + (b + c), base) == Subtree(a, base) + (Subtree(b, base) + Subtree(c, base))
  {
    SubtreeSplits(a, b + c, base);
    SubtreeSplits(b, c, base);
  }

  /** In a sorted view the subtree is the stretch that starts at the successor of the base:
      each of its members follows directly on the one before, and nothing of it comes after
      the first instance outside. */
  lemma SubtreeStretch(mib: seq<Instance>, base: Oid, lo: nat, k: nat)
    requires Sorted(mib) && lo == NextIndex(mib, base) && lo + k <= |mib|
    requires forall i :: lo <= i < lo + k ==> Within(mib[i].oid, base)
    requires lo + k < |mib| ==> !Within(mib[lo + k].oid, base)
    ensures Subtree(mib, base) == mib[lo..lo + k]
  {
    ThreeParts(mib, lo, k);
    NothingBefore(mib, base, lo);
    AllInside(mib, base, lo, k);
    NothingAfter(mib, base, lo, k);
    SubtreeOfThree(mib[..lo], mib[lo..lo + k], mib[lo + k..], base);
  }

  lemma ThreeParts<T>(s: seq<T>, lo: nat, k: nat)
    requires lo + k <= |s|
    ensures s == s[..lo] + (s[lo..lo + k] + s[lo + k..])
  {
  }

  lemma AfterBase(mib: seq<Instance>, base: Oid, lo: nat, i: nat)
    requires Sorted(mib) && lo == NextIndex(mib, base) && lo <= i < |mib|
    ensures Less(base, mib[i].oid)
  {
    if lo < i {
      LessTransitive(base, mib[lo].oid, mib[i].oid);
    }
  }

  lemma {:induction false} SubtreeOfAll(s: seq<Instance>, base: Oid)
    requires forall i :: 0 <= i < |s| ==> Below(s[i].oid, base)
    ensures Subtree(s, base) == s
  {
    if s != [] {
      SubtreeOfAll(s[1..], base);
    }
  }
}
