/** Label selectors: how they are printed, and how cached objects are matched against
    them. */
module Selectors {
  import opened Common
  import opened Strings

  /** A decoded JSON value. */
  datatype Json =
    | Null
    | Bool(b: bool)
    | Number(text: string)
    | Text(s: string)
    | List(items: seq<Json>)
    | Object(fields: map<string, Json>)

  /** An entry of the collector cache. `content` is None where the source holds a nil map. */
  datatype CachedObject = CachedObject(
    gvr: string,
    namespace: string,
    name: string,
    uid: string,
    content: Option<map<string, Json>>,
    observedAt: int)

  /** Follows a path of field names through nested objects. */
  function NestedValue(value: Json, path: seq<string>): Option<Json>
    decreases |path|
  {
    if path == [] then Some(value)
    else if value.Object? && path[0] in value.fields then NestedValue(value.fields[path[0]], path[1..])
    else None
  }

  function ContentOf(obj: CachedObject): Json {
    if obj.content.Some? then Object(obj.content.value) else Object(map[])
  }

  /** What a path of two names leads to: the field of an object within the content. */
  lemma NestedTwo(o: CachedObject, outer: string, inner: string)
    ensures NestedValue(ContentOf(o), [outer, inner]) ==
            if o.content.Some? && outer in o.content.value && o.content.value[outer].Object?
               && inner in o.content.value[outer].fields
            then Some(o.content.value[outer].fields[inner]) else None
  {
    var path := [outer, inner];
    assert path[1..] == [inner] && path[1..][1..] == [];
    if o.content.Some? && outer in o.content.value {
      var below := o.content.value[outer];
      assert NestedValue(ContentOf(o), path) == NestedValue(below, path[1..]);
      if below.Object? && inner in below.fields {
        assert NestedValue(below, path[1..]) == NestedValue(below.fields[inner], path[1..][1..]);
      }
    }
  }

  /** The labels of an object, if it has a map of them. */
  function LabelsOf(obj: CachedObject): Option<map<string, Json>> {
    match NestedValue(ContentOf(obj), ["metadata", "labels"])
    case Some(Object(fields)) => Some(fields)
    case _ => None
  }

  /** The text of a value, `show` being the general formatting of the run-time library. */
  function Stringify(show: Json -> string, value: Json): string {
    if value.Null? then "" else show(value)
  }

  /** Whether one requirement of a selector holds for the labels; a blank one always does,
      one without an equals sign never. */
  predicate PartMatches(show: Json -> string, labels: map<string, Json>, part: string) {
    var p := TrimSpace(part);
    if p == "" then true
    else
      match Cut(p, '=')
      case None => false
      case Some((k, v)) =>
        TrimSpace(k) in labels && Stringify(show, labels[TrimSpace(k)]) == TrimSpace(v)
  }

  predicate MatchesSelector(show: Json -> string, obj: CachedObject, selector: string) {
    var s := TrimSpace(selector);
    if s == "" then true
    else
      match LabelsOf(obj)
      case None => false
      case Some(labels) => forall part :: part in Split(s, ',') ==> PartMatches(show, labels, part)
  }

  /** The matching loop. */
  method Matches(show: Json -> string, obj: CachedObject, selector: string) returns (r: bool)
    ensures r <==> MatchesSelector(show, obj, selector)
  {
    var s := TrimSpace(selector);
    if s == "" {
      return true;
    }
    var labels := LabelsOf(obj);
    if labels.None? {
      return false;
    }
    var parts := Split(s, ',');
    for i := 0 to |parts|
      invariant forall j :: 0 <= j < i ==> PartMatches(show, labels.value, parts[j])
    {
      assert parts[i] in parts;
      var part := TrimSpace(parts[i]);
      if part == "" {
        continue;
      }
      var tokens := Cut(part, '=');
      if tokens.None? {
        return false;
      }
      var key, expected := TrimSpace(tokens.value.0), TrimSpace(tokens.value.1);
      if key !in labels.value || Stringify(show, labels.value[key]) != expected {
        return false;
      }
    }
    r := true;
  }

  // ----- printing

  function Pair(show: Json -> string, m: map<string, Json>, k: string): string
    requires k in m
  {
    k + "=" + show(m[k])
  }

  function Pairs(show: Json -> string, m: map<string, Json>, keys: seq<string>): (r: seq<string>)
    requires forall k :: k in keys ==> k in m
    ensures |r| == |keys|
    ensures forall i :: 0 <= i < |r| ==> r[i] == Pair(show, m, keys[i])
  {
    seq(|keys|, i requires 0 <= i < |keys| => Pair(show, m, keys[i]))
  }

  /** The text is the pairs of the map in the order of their keys, each key once. */
  ghost predicate Prints(show: Json -> string, m: map<string, Json>, s: string) {
    exists keys: seq<string> :: PrintsInOrder(show, m, keys, s)
  }

  ghost predicate PrintsInOrder(show: Json -> string, m: map<string, Json>, keys: seq<string>, s: string) {
    Ascending(keys) && (forall k :: k in keys <==> k in m) && s == Join(Pairs(show, m, keys), ',')
  }

  /** A map has one selector, in whatever order its keys are collected. */
  lemma PrintsOne(show: Json -> string, m: map<string, Json>, s: string, t: string)
    requires Prints(show, m, s) && Prints(show, m, t)
    ensures s == t
  {
    var a: seq<string> :| PrintsInOrder(show, m, a, s);
    var b: seq<string> :| PrintsInOrder(show, m, b, t);
    AscendingUnique(a, b);
  }

  /** The selector of a label map. */
  method SelectorString(show: Json -> string, m: map<string, Json>) returns (s: string)
    ensures Prints(show, m, s)
  {
    var left := m.Keys;
    var found := [];
    while left != {}
      invariant left <= m.Keys
      invariant Distinct(found) && forall k :: k in found <==> k in m.Keys - left
    {
      var k :| k in left;
      assert k !in found;
      left := left - {k};
      found := found + [k];
    }
    SortAscends(found);
    var sorted := Sort(found);
    assert forall j :: 0 <= j < |sorted| ==> sorted[j] in found;
    var parts := [];
    for i := 0 to |sorted|
      invariant |parts| == i && forall j :: 0 <= j < |sorted| ==> sorted[j] in m
      invariant forall j :: 0 <= j < i ==> parts[j] == Pair(show, m, sorted[j])
    {
      parts := parts + [Pair(show, m, sorted[i])];
    }
    assert parts == Pairs(show, m, sorted);
    s := Join(parts, ',');
    assert PrintsInOrder(show, m, sorted, s);
  }

  // ----- agreement

  predicate CleanKey(k: string) {
    '=' !in k && ',' !in k && forall i :: 0 <= i < |k| ==> !IsSpace(k[i])
  }

  predicate CleanValue(v: string) {
    ',' !in v && Trimmed(v)
  }

  /** The content of the object has these labels. */
  ghost predicate Labelled(obj: CachedObject, labels: map<string, Json>) {
    && obj.content.Some? && "metadata" in obj.content.value && obj.content.value["metadata"].Object?
    && "labels" in obj.content.value["metadata"].fields
    && obj.content.value["metadata"].fields["labels"] == Object(labels)
  }

  lemma LabelsExactly(obj: CachedObject, labels: map<string, Json>)
    ensures LabelsOf(obj) == Some(labels) <==> Labelled(obj, labels)
  {
    NestedTwo(obj, "metadata", "labels");
  }

  /** The object carries the label with that text; null reads as blank. */
  ghost predicate HasLabel(show: Json -> string, obj: CachedObject, k: string, text: string) {
    exists labels :: Labelled(obj, labels) && k in labels && (if labels[k] == Null then "" else show(labels[k])) == text
  }

  lemma HasLabelExactly(show: Json -> string, obj: CachedObject, k: string, text: string)
    ensures HasLabel(show, obj, k, text) <==>
              LabelsOf(obj).Some? && k in LabelsOf(obj).value && Stringify(show, LabelsOf(obj).value[k]) == text
  {
    if labels :| Labelled(obj, labels) && k in labels && (if labels[k] == Null then "" else show(labels[k])) == text {
      LabelsExactly(obj, labels);
    }
    if LabelsOf(obj).Some? {
      LabelsExactly(obj, LabelsOf(obj).value);
    }
  }

  lemma PairIsClean(show: Json -> string, m: map<string, Json>, k: string)
    requires k in m && CleanKey(k) && CleanValue(show(m[k]))
    ensures var p := Pair(show, m, k);
            ',' !in p && Trimmed(p) && p != "" && Cut(p, '=') == Some((k, show(m[k])))
  {
    var v := show(m[k]);
    CutFirst(k, v, '=');
    assert Pair(show, m, k) == k + ['='] + v;
  }

  /** A printed pair demands exactly its own label. */
  lemma PairMatches(show: Json -> string, m: map<string, Json>, k: string, labels: map<string, Json>)
    requires k in m && CleanKey(k) && CleanValue(show(m[k]))
    ensures PartMatches(show, labels, Pair(show, m, k)) <==> k in labels && Stringify(show, labels[k]) == show(m[k])
  {
    PairIsClean(show, m, k);
    TrimmedStays(Pair(show, m, k));
    TrimmedStays(k);
    TrimmedStays(show(m[k]));
  }

  lemma {:induction false} JoinTrimmed(parts: seq<string>)
    requires forall i :: 0 <= i < |parts| ==> parts[i] != "" && Trimmed(parts[i])
    ensures Trimmed(Join(parts, ',')) && (parts != [] ==> Join(parts, ',') != "")
  {
    if |parts| > 1 {
      JoinTrimmed(parts[1..]);
      var rest := Join(parts[1..], ',');
      var s := parts[0] + [','] + rest;
      assert s[0] == parts[0][0] && s[|s| - 1] == rest[|rest| - 1];
    }
  }

  /** Printing a label map and matching by the printed selector agree: an object matches if
      and only if it carries every label of the map. */
  lemma PrintedSelectorMatches(show: Json -> string, m: map<string, Json>, s: string, obj: CachedObject)
    requires Prints(show, m, s)
    requires forall k :: k in m ==> CleanKey(k) && CleanValue(show(m[k]))
    ensures MatchesSelector(show, obj, s) <==> forall k :: k in m ==> HasLabel(show, obj, k, show(m[k]))
  {
    var keys: seq<string> :| PrintsInOrder(show, m, keys, s);
    PairsMatch(show, m, keys, obj);
  }

  lemma PairsMatch(show: Json -> string, m: map<string, Json>, keys: seq<string>, obj: CachedObject)
    requires forall k :: k in keys <==> k in m
    requires forall k :: k in m ==> CleanKey(k) && CleanValue(show(m[k]))
    ensures MatchesSelector(show, obj, Join(Pairs(show, m, keys), ',')) <==>
            forall k :: k in m ==> HasLabel(show, obj, k, show(m[k]))
  {
    var parts := Pairs(show, m, keys);
    forall i | 0 <= i < |parts| ensures parts[i] != "" && Trimmed(parts[i]) && ',' !in parts[i] {
      assert keys[i] in keys;
      PairIsClean(show, m, keys[i]);
    }
    JoinTrimmed(parts);
    TrimmedStays(Join(parts, ','));
    forall k | k in m
      ensures HasLabel(show, obj, k, show(m[k])) <==>
                LabelsOf(obj).Some? && k in LabelsOf(obj).value && Stringify(show, LabelsOf(obj).value[k]) == show(m[k])
    {
      HasLabelExactly(show, obj, k, show(m[k]));
    }
    if parts == [] {
      assert forall k :: k !in m;
    } else {
      SplitJoin(parts, ',');
      if LabelsOf(obj).Some? {
        PartsMatch(show, m, keys, LabelsOf(obj).value);
      } else {
        assert keys[0] in m;
      }
    }
  }

  lemma PartsMatch(show: Json -> string, m: map<string, Json>, keys: seq<string>, labels: map<string, Json>)
    requires forall k :: k in keys <==> k in m
    requires forall k :: k in m ==> CleanKey(k) && CleanValue(show(m[k]))
    ensures (forall part :: part in Pairs(show, m, keys) ==> PartMatches(show, labels, part)) <==>
            forall k :: k in m ==> k in labels && Stringify(show, labels[k]) == show(m[k])
  {
    var parts := Pairs(show, m, keys);
    forall k | k in m
      ensures PartMatches(show, labels, Pair(show, m, k)) <==> k in labels && Stringify(show, labels[k]) == show(m[k])
      ensures Pair(show, m, k) in parts
    {
      PairMatches(show, m, k, labels);
      var i :| 0 <= i < |keys| && keys[i] == k;
      assert parts[i] == Pair(show, m, k);
    }
  }

  // ----- selectors of other origin

  /** A selector of white space selects everything. */
  lemma BlankSelectsAll(show: Json -> string, obj: CachedObject, s: string)
    requires Blank(s)
    ensures MatchesSelector(show, obj, s)
  {
    assert s + [] + [] == s;
    TrimSpaceOf(s, [], []);
  }

  /** A requirement without an equals sign never holds, unless it is blank. */
  lemma BareWordFails(show: Json -> string, labels: map<string, Json>, part: string)
    requires '=' !in part
    ensures PartMatches(show, labels, part) <==> TrimSpace(part) == ""
  {
    var before, after := TrimSpaceTakes(part);
    StillIn(before, TrimSpace(part), after, '=');
    CutExact(TrimSpace(part), '=');
  }

  lemma StillIn(before: string, s: string, after: string, c: char)
    ensures c in s ==> c in before + s + after
  {
  }

  /** A requirement `key=text`, with or without white space around the two, holds if the label
      has that text; what follows a second equals sign belongs to the text. */
  lemma RequirementMeans(show: Json -> string, labels: map<string, Json>,
                         a: string, k: string, b: string, c: string, v: string, d: string)
    requires Blank(a) && Blank(b) && Blank(c) && Blank(d) && Trimmed(k) && Trimmed(v) && k != "" && v != "" && '=' !in k
    ensures PartMatches(show, labels, a + (k + b + "=" + c + v) + d) <==>
              k in labels && (if labels[k] == Null then "" else show(labels[k])) == v
  {
    var p := k + b + "=" + c + v;
    assert p[0] == k[0] && p[|p| - 1] == v[|v| - 1];
    TrimSpaceOf(a, p, d);
    CutsThere(k, b, c, v);
    TrimmedSides(k, b, c, v);
  }

  lemma CutsThere(k: string, b: string, c: string, v: string)
    requires Blank(b) && '=' !in k
    ensures Cut(k + b + "=" + c + v, '=') == Some((k + b, c + v))
  {
    NoEquals(b);
    CutFirst(k + b, c + v, '=');
    assert k + b + "=" + c + v == (k + b) + ['='] + (c + v);
  }

  lemma TrimmedSides(k: string, b: string, c: string, v: string)
    requires Blank(b) && Blank(c) && Trimmed(k) && Trimmed(v)
    ensures TrimSpace(k + b) == k && TrimSpace(c + v) == v
  {
    assert [] + k + b == k + b && c + v + [] == c + v;
    TrimSpaceOf([], k, b);
    TrimSpaceOf(c, v, []);
  }

  lemma NoEquals(s: string)
    requires Blank(s)
    ensures '=' !in s && ',' !in s
  {
  }

  /** A selector of several requirements selects what is labelled and meets each of them. */
  lemma AllMustHold(show: Json -> string, obj: CachedObject, parts: seq<string>)
    requires parts != [] && forall p :: p in parts ==> ',' !in p
    requires Trimmed(Join(parts, ',')) && Join(parts, ',') != ""
    ensures MatchesSelector(show, obj, Join(parts, ',')) <==>
              exists labels :: Labelled(obj, labels) && forall p :: p in parts ==> PartMatches(show, labels, p)
  {
    TrimmedStays(Join(parts, ','));
    SplitJoin(parts, ',');
    if LabelsOf(obj).Some? {
      LabelsExactly(obj, LabelsOf(obj).value);
    }
    forall labels ensures LabelsOf(obj) == Some(labels) <==> Labelled(obj, labels) {
      LabelsExactly(obj, labels);
    }
  }
}
