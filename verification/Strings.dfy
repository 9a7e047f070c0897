/** The string operations of the standard library that the collector relies on. */
module Strings {
  import opened Common

  /** Unicode white space, as strings.TrimSpace knows it. */
  predicate IsSpace(c: char) {
    || c == ' ' || '\t' <= c <= '\r' || c == '\U{0085}' || c == '\U{00A0}' || c == '\U{1680}'
    || '\U{2000}' <= c <= '\U{200A}' || c == '\U{2028}' || c == '\U{2029}' || c == '\U{202F}'
    || c == '\U{205F}' || c == '\U{3000}'
  }

  function TrimLeft(s: string): (r: string)
    ensures |r| <= |s|
  {
    if s != [] && IsSpace(s[0]) then TrimLeft(s[1..]) else s
  }

  function TrimRight(s: string): (r: string)
    ensures |r| <= |s|
  {
    if s != [] && IsSpace(s[|s| - 1]) then TrimRight(s[..|s| - 1]) else s
  }

  function TrimSpace(s: string): string {
    TrimRight(TrimLeft(s))
  }

  /** Neither end is white space. */
  predicate Trimmed(s: string) {
    s != [] ==> !IsSpace(s[0]) && !IsSpace(s[|s| - 1])
  }

  lemma TrimmedStays(s: string)
    requires Trimmed(s)
    ensures TrimSpace(s) == s
  {
  }

  lemma {:induction false} TrimLeftEdge(s: string)
    ensures TrimLeft(s) != [] ==> !IsSpace(TrimLeft(s)[0])
  {
    if s != [] && IsSpace(s[0]) {
      TrimLeftEdge(s[1..]);
    }
  }

  lemma {:induction false} TrimRightEdge(s: string)
    ensures TrimRight(s) != [] ==> !IsSpace(TrimRight(s)[|TrimRight(s)| - 1])
    ensures TrimRight(s) <= s
  {
    if s != [] && IsSpace(s[|s| - 1]) {
      TrimRightEdge(s[..|s| - 1]);
    }
  }

  lemma TrimSpaceTrims(s: string)
    ensures Trimmed(TrimSpace(s))
  {
    TrimLeftEdge(s);
    TrimRightEdge(TrimLeft(s));
  }

  ghost predicate Blank(s: string) {
    forall i :: 0 <= i < |s| ==> IsSpace(s[i])
  }

  lemma {:induction false} TrimLeftTakes(s: string)
    ensures TrimLeft(s) == s[|s| - |TrimLeft(s)|..] && Blank(s[..|s| - |TrimLeft(s)|])
  {
    if s != [] && IsSpace(s[0]) {
      TrimLeftTakes(s[1..]);
      var n := |s| - |TrimLeft(s)|;
      assert forall i :: 0 < i < n ==> s[i] == s[1..][..n - 1][i - 1];
    }
  }

  lemma {:induction false} TrimRightTakes(s: string)
    ensures TrimRight(s) <= s && Blank(s[|TrimRight(s)|..])
  {
    if s != [] && IsSpace(s[|s| - 1]) {
      var front := s[..|s| - 1];
      TrimRightTakes(front);
      assert forall i :: |TrimRight(s)| <= i < |front| ==> s[i] == front[|TrimRight(s)|..][i - |TrimRight(s)|];
    }
  }

  /** Trimming takes white space off the ends, all of it and nothing else. */
  lemma TrimSpaceTakes(s: string) returns (before: string, after: string)
    ensures s == before + TrimSpace(s) + after && Blank(before) && Blank(after) && Trimmed(TrimSpace(s))
  {
    TrimLeftTakes(s);
    TrimRightTakes(TrimLeft(s));
    TrimSpaceTrims(s);
    var left := TrimLeft(s);
    before, after := s[..|s| - |left|], left[|TrimSpace(s)|..];
    InThree(s, before, left, TrimSpace(s), after);
  }

  lemma InThree(s: string, before: string, left: string, middle: string, after: string)
    requires |left| <= |s| && before == s[..|s| - |left|] && left == s[|s| - |left|..]
    requires middle <= left && after == left[|middle|..]
    ensures s == before + middle + after
  {
    assert s == before + left && left == middle + after;
  }

  lemma {:induction false} TrimLeftOf(before: string, s: string)
    requires Blank(before)
    ensures TrimLeft(before + s) == TrimLeft(s)
  {
    if before == [] {
      assert before + s == s;
    } else {
      assert (before + s)[0] == before[0] && (before + s)[1..] == before[1..] + s;
      TrimLeftOf(before[1..], s);
    }
  }

  lemma {:induction false} TrimRightOf(s: string, after: string)
    requires Blank(after)
    ensures TrimRight(s + after) == TrimRight(s)
  {
    if after == [] {
      assert s + after == s;
    } else {
      var n := |after| - 1;
      assert (s + after)[|s + after| - 1] == after[n] && (s + after)[..|s + after| - 1] == s + after[..n];
      TrimRightOf(s, after[..n]);
    }
  }

  /** What is left between white space is found back. */
  lemma TrimSpaceOf(before: string, s: string, after: string)
    requires Blank(before) && Blank(after) && Trimmed(s)
    ensures TrimSpace(before + s + after) == s
  {
    assert before + s + after == before + (s + after);
    TrimLeftOf(before, s + after);
    if s == [] {
      assert s + after == after + [];
      TrimLeftOf(after, []);
    } else {
      TrimRightOf(s, after);
    }
  }

  /** Among the ASCII characters these six are white space. */
  lemma AsciiSpaces(c: char)
    requires c < '\U{0080}'
    ensures IsSpace(c) <==> c in [' ', '\t', '\n', '\U{000B}', '\U{000C}', '\r']
  {
  }

  /** The pieces between the separators; at least one. */
  function Split(s: string, sep: char): (r: seq<string>)
    ensures r != []
  {
    if s == [] then [""]
    else
      var r := Split(s[1..], sep);
      if s[0] == sep then [""] + r else [[s[0]] + r[0]] + r[1..]
  }

  function Join(parts: seq<string>, sep: char): string {
    if parts == [] then ""
    else if |parts| == 1 then parts[0]
    else parts[0] + [sep] + Join(parts[1..], sep)
  }

  lemma {:induction false} SplitOne(s: string, sep: char)
    requires sep !in s
    ensures Split(s, sep) == [s]
  {
    if s != [] {
      SplitOne(s[1..], sep);
      assert s == [s[0]] + s[1..];
    }
  }

  lemma {:induction false} SplitFirst(a: string, b: string, sep: char)
    requires sep !in a
    ensures Split(a + [sep] + b, sep) == [a] + Split(b, sep)
  {
    var s := a + [sep] + b;
    if a == [] {
      assert s[1..] == b;
    } else {
      SplitFirst(a[1..], b, sep);
      assert s[1..] == a[1..] + [sep] + b;
      assert a == [a[0]] + a[1..];
    }
  }

  /** Splitting undoes joining when no part holds the separator. */
  lemma {:induction false} SplitJoin(parts: seq<string>, sep: char)
    requires parts != [] && forall p :: p in parts ==> sep !in p
    ensures Split(Join(parts, sep), sep) == parts
  {
    if |parts| == 1 {
      SplitOne(parts[0], sep);
    } else {
      SplitJoin(parts[1..], sep);
      SplitFirst(parts[0], Join(parts[1..], sep), sep);
    }
  }

  /** Joining undoes splitting, and no piece holds the separator. */
  lemma {:induction false} JoinSplit(s: string, sep: char)
    ensures Join(Split(s, sep), sep) == s
    ensures forall p :: p in Split(s, sep) ==> sep !in p
  {
    if s != [] {
      var r, all := Split(s[1..], sep), Split(s, sep);
      JoinSplit(s[1..], sep);
      assert s == [s[0]] + s[1..];
      if s[0] == sep {
        assert all[1..] == r;
      } else {
        assert all[1..] == r[1..];
        assert r[0] in r;
        forall p | p in all ensures sep !in p {
          if p != all[0] {
            assert p in r;
          }
        }
      }
    }
  }

  /** The two sides of the first separator; None when there is none. */
  function Cut(s: string, sep: char): Option<(string, string)> {
    if s == [] then None
    else if s[0] == sep then Some(("", s[1..]))
    else
      match Cut(s[1..], sep)
      case None => None
      case Some((a, b)) => Some(([s[0]] + a, b))
  }

  lemma {:induction false} CutFirst(a: string, b: string, sep: char)
    requires sep !in a
    ensures Cut(a + [sep] + b, sep) == Some((a, b))
  {
    var s := a + [sep] + b;
    if a == [] {
      assert s[1..] == b;
    } else {
      CutFirst(a[1..], b, sep);
      assert s[1..] == a[1..] + [sep] + b;
      assert a == [a[0]] + a[1..];
    }
  }

  /** A text is cut at its first separator, if it has one. */
  lemma {:induction false} CutExact(s: string, sep: char)
    ensures match Cut(s, sep)
            case None => sep !in s
            case Some((a, b)) => sep !in a && s == a + [sep] + b
  {
    if s != [] && s[0] != sep {
      CutExact(s[1..], sep);
      assert s == [s[0]] + s[1..];
      if Cut(s[1..], sep).Some? {
        var (a, b) := Cut(s[1..], sep).value;
        assert [s[0]] + (a + [sep] + b) == [s[0]] + a + [sep] + b;
      }
    }
  }

  // ----- order

  /** Lexicographic order on strings. */
  predicate Leq(a: string, b: string) {
    if a == [] then true
    else if b == [] then false
    else a[0] < b[0] || (a[0] == b[0] && Leq(a[1..], b[1..]))
  }

  /** One text comes before another if it is a prefix of it, or has the smaller character
      where the two first differ. */
  lemma {:induction false} LeqMeans(a: string, b: string)
    ensures Leq(a, b) <==> a <= b || exists i :: 0 <= i < |a| && i < |b| && a[..i] == b[..i] && a[i] < b[i]
  {
    if a != [] && b != [] && a[0] == b[0] {
      LeqMeans(a[1..], b[1..]);
      assert a == [a[0]] + a[1..] && b == [b[0]] + b[1..];
      if i :| 0 <= i < |a[1..]| && i < |b[1..]| && a[1..][..i] == b[1..][..i] && a[1..][i] < b[1..][i] {
        assert a[..i + 1] == [a[0]] + a[1..][..i] && b[..i + 1] == [b[0]] + b[1..][..i];
        assert a[i + 1] < b[i + 1];
      }
      if i :| 0 <= i < |a| && i < |b| && a[..i] == b[..i] && a[i] < b[i] {
        assert a[1..][..i - 1] == a[..i][1..] && b[1..][..i - 1] == b[..i][1..];
        assert a[1..][i - 1] < b[1..][i - 1];
      }
    } else if a != [] && b != [] {
      if i :| 0 <= i < |a| && i < |b| && a[..i] == b[..i] && a[i] < b[i] {
        FirstOfPrefix(a, b, i);
      }
      assert a[..0] == b[..0];
    }
  }

  lemma {:induction false} LeqTotal(a: string, b: string)
    ensures Leq(a, b) || Leq(b, a)
  {
    if a != [] && b != [] {
      LeqTotal(a[1..], b[1..]);
    }
  }

  lemma {:induction false} LeqAntisymmetric(a: string, b: string)
    requires Leq(a, b) && Leq(b, a)
    ensures a == b
  {
    if a != [] && b != [] {
      LeqAntisymmetric(a[1..], b[1..]);
      assert a == [a[0]] + a[1..] && b == [b[0]] + b[1..];
    }
  }

  lemma {:induction false} LeqTransitive(a: string, b: string, c: string)
    requires Leq(a, b) && Leq(b, c)
    ensures Leq(a, c)
  {
    if a != [] && b != [] && c != [] && a[0] == b[0] == c[0] {
      LeqTransitive(a[1..], b[1..], c[1..]);
    }
  }

  /** Sorted, every string once. */
  ghost predicate Ascending(s: seq<string>) {
    forall i, j :: 0 <= i < j < |s| ==> Leq(s[i], s[j]) && s[i] != s[j]
  }

  function InsertSorted(s: seq<string>, x: string): (r: seq<string>)
    ensures |r| == |s| + 1
  {
    if s == [] || Leq(x, s[0]) then [x] + s else [s[0]] + InsertSorted(s[1..], x)
  }

  function Sort(s: seq<string>): (r: seq<string>)
    ensures |r| == |s|
  {
    if s == [] then [] else InsertSorted(Sort(s[1..]), s[0])
  }

  lemma {:induction false} InsertSortedAscends(s: seq<string>, x: string)
    requires Ascending(s) && x !in s
    ensures Ascending(InsertSorted(s, x))
    ensures forall y :: y in InsertSorted(s, x) <==> y == x || y in s
  {
    if s == [] {
    } else if Leq(x, s[0]) {
      forall j | 0 <= j < |s| ensures Leq(x, s[j]) {
        if j > 0 {
          LeqTransitive(x, s[0], s[j]);
        }
      }
    } else {
      LeqTotal(x, s[0]);
      var r := InsertSorted(s[1..], x);
      InsertSortedAscends(s[1..], x);
      forall j | 0 <= j < |r| ensures Leq(s[0], r[j]) && s[0] != r[j] {
        assert r[j] in r;
      }
      assert s == [s[0]] + s[1..];
    }
  }

  lemma {:induction false} SortAscends(s: seq<string>)
    requires Distinct(s)
    ensures Ascending(Sort(s))
    ensures forall y :: y in Sort(s) <==> y in s
  {
    if s != [] {
      SortAscends(s[1..]);
      assert s == [s[0]] + s[1..];
      InsertSortedAscends(Sort(s[1..]), s[0]);
    }
  }

  lemma FirstIn(s: seq<string>)
    ensures s != [] ==> s[0] in s
  {
  }

  lemma TailMembers(s: seq<string>, x: string)
    requires Ascending(s) && s != []
    ensures x in s[1..] <==> x in s && x != s[0]
  {
    if x in s && x != s[0] {
      var i :| 0 <= i < |s| && s[i] == x;
      assert s[1..][i - 1] == x;
    }
  }

  /** An ascending list is determined by its members. */
  lemma {:induction false} AscendingUnique(a: seq<string>, b: seq<string>)
    requires Ascending(a) && Ascending(b) && forall x :: x in a <==> x in b
    ensures a == b
    decreases |a|
  {
    FirstIn(a);
    FirstIn(b);
    if a != [] {
      var i :| 0 <= i < |a| && a[i] == b[0];
      var j :| 0 <= j < |b| && b[j] == a[0];
      if i > 0 && j > 0 {
        LeqAntisymmetric(a[0], b[0]);
      }
      assert a[0] == b[0];
      forall x ensures x in a[1..] <==> x in b[1..] {
        TailMembers(a, x);
        TailMembers(b, x);
      }
      AscendingUnique(a[1..], b[1..]);
      assert a == [a[0]] + a[1..] && b == [b[0]] + b[1..];
    }
  }
}
