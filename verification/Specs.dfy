/** Cache specs of polls after JSON decoding, and resource types. */
module Specs {
  import opened Common
  import opened Strings

  function LowerChar(c: char): char {
    if 'A' <= c <= 'Z' then c - 'A' + 'a' else c
  }

  function UpperChar(c: char): char {
    if 'a' <= c <= 'z' then c - 'a' + 'A' else c
  }

  function ToLower(s: string): (r: string)
    ensures |r| == |s| && forall i :: 0 <= i < |s| ==> r[i] == LowerChar(s[i])
  {
    seq(|s|, i requires 0 <= i < |s| => LowerChar(s[i]))
  }

  function ToUpper(s: string): (r: string)
    ensures |r| == |s| && forall i :: 0 <= i < |s| ==> r[i] == UpperChar(s[i])
  {
    seq(|s|, i requires 0 <= i < |s| => UpperChar(s[i]))
  }

  function UpperTrimmed(ops: seq<string>): (r: seq<string>)
    ensures |r| == |ops| && forall i :: 0 <= i < |ops| ==> r[i] == ToUpper(TrimSpace(ops[i]))
  {
    seq(|ops|, i requires 0 <= i < |ops| => ToUpper(TrimSpace(ops[i])))
  }

  /** The case of the letters A to Z is changed, and of nothing else. */
  lemma LetterCases(c: char)
    ensures 'A' <= c <= 'Z' ==> LowerChar(c) as int - 'a' as int == c as int - 'A' as int && UpperChar(c) == c
    ensures 'a' <= c <= 'z' ==> UpperChar(c) as int - 'A' as int == c as int - 'a' as int && LowerChar(c) == c
    ensures !('A' <= c <= 'Z' || 'a' <= c <= 'z') ==> LowerChar(c) == UpperChar(c) == c
  {
  }

  const RESULT_MAP := "map"
  const RESULT_TABLE := "table"
  const MODE_GET := "get"
  const MODE_LIST := "list"
  const DEFAULT_FIELDS := ["metadata.name", "metadata.namespace", "metadata.uid"]
  const DEFAULT_OPERATIONS := ["CREATE", "UPDATE", "DELETE"]

  /** The part of a cache spec that has defaults or is checked. */
  datatype Spec = Spec(
    result: string,
    mode: string,
    gvr: string,
    operations: seq<string>,
    name: string,
    nameFromArg: string,
    fields: seq<string>,
    columns: seq<string>,
    columnNames: seq<string>)

  function ModeOf(s: Spec): string {
    var mode := ToLower(TrimSpace(s.mode));
    if mode != "" then mode else if s.name != "" || s.nameFromArg != "" then MODE_GET else MODE_LIST
  }

  function ResultOf(s: Spec): string {
    var result := ToLower(TrimSpace(s.result));
    if result != "" then result else if ModeOf(s) == MODE_GET then RESULT_MAP else RESULT_TABLE
  }

  function FieldsOf(s: Spec): seq<string> {
    if s.fields != [] then s.fields else if s.columns != [] then s.columns else DEFAULT_FIELDS
  }

  function ColumnsOf(s: Spec): seq<string> {
    if s.columns != [] then s.columns else FieldsOf(s)
  }

  function Defaulted(s: Spec): Spec {
    s.(mode := ModeOf(s), result := ResultOf(s), fields := FieldsOf(s), columns := ColumnsOf(s),
       columnNames := if s.columnNames != [] then s.columnNames else ColumnsOf(s),
       operations := UpperTrimmed(if s.operations == [] then DEFAULT_OPERATIONS else s.operations))
  }

  /** A spec that is filled in step by step. */
  class CacheSpec {
    var spec: Spec

    constructor (spec: Spec)
      ensures this.spec == spec
    {
      this.spec := spec;
    }

    method FillModeAndResult()
      modifies this
      ensures spec == old(spec).(mode := ModeOf(old(spec)), result := ResultOf(old(spec)))
    {
      spec := spec.(result := ToLower(TrimSpace(spec.result)));
      spec := spec.(mode := ToLower(TrimSpace(spec.mode)));
      if spec.mode == "" {
        spec := spec.(mode := if spec.name != "" || spec.nameFromArg != "" then MODE_GET else MODE_LIST);
      }
      if spec.result == "" {
        spec := spec.(result := if spec.mode == MODE_GET then RESULT_MAP else RESULT_TABLE);
      }
    }

    method FillColumns()
      modifies this
      ensures var s := old(spec);
              spec == s.(fields := FieldsOf(s), columns := ColumnsOf(s),
                         columnNames := if s.columnNames != [] then s.columnNames else ColumnsOf(s))
    {
      if |spec.columns| == 0 && |spec.fields| > 0 {
        spec := spec.(columns := spec.fields);
      }
      if |spec.fields| == 0 && |spec.columns| > 0 {
        spec := spec.(fields := spec.columns);
      }
      if |spec.columnNames| == 0 && |spec.columns| > 0 {
        spec := spec.(columnNames := spec.columns);
      }
      if |spec.fields| == 0 {
        spec := spec.(fields := DEFAULT_FIELDS);
      }
      if |spec.columns| == 0 {
        spec := spec.(columns := spec.fields);
      }
      if |spec.columnNames| == 0 {
        spec := spec.(columnNames := spec.columns);
      }
    }

    method FillOperations()
      modifies this
      ensures var s := old(spec);
              spec == s.(operations := UpperTrimmed(if s.operations == [] then DEFAULT_OPERATIONS else s.operations))
    {
      if |spec.operations| == 0 {
        spec := spec.(operations := DEFAULT_OPERATIONS);
      }
      ghost var given := spec.operations;
      for i := 0 to |spec.operations|
        invariant |spec.operations| == |given| && spec == old(spec).(operations := spec.operations)
        invariant forall k :: 0 <= k < |given| ==>
                    spec.operations[k] == if k < i then ToUpper(TrimSpace(given[k])) else given[k]
      {
        spec := spec.(operations := spec.operations[i := ToUpper(TrimSpace(spec.operations[i]))]);
      }
      assert spec.operations == UpperTrimmed(given);
    }

    method ApplyDefaults(hasPoll: bool)
      modifies this
      ensures spec == Defaulted(old(spec))
    {
      FillModeAndResult();
      FillColumns();
      FillOperations();
      if hasPoll && spec.result == "" {
        assert false;  // the fallback on the poll's own operation is never reached
      }
    }
  }

  /** The checks on a decoded spec; `decoded` is None when the text is no JSON object. */
  function ParseCacheSpec(what: string, decoded: Option<Spec>): Result<Spec> {
    if TrimSpace(what) == "" then Err("poll.What is empty")
    else if decoded.None? then Err("not a cache spec")
    else
      var s := Defaulted(decoded.value);
      if s.gvr == "" then Err("cache spec gvr is empty")
      else if s.mode == MODE_GET && s.name == "" && s.nameFromArg == "" then Err("cache spec get requires name or nameFromArg")
      else Ok(s)
  }

  // ----- what is filled in

  /** The texts are written in capitals without white space around them. */
  lemma CapitalsStay(ops: seq<string>)
    requires forall i, k :: 0 <= i < |ops| && 0 <= k < |ops[i]| ==> 'A' <= ops[i][k] <= 'Z'
    ensures UpperTrimmed(ops) == ops
  {
    forall i | 0 <= i < |ops| ensures UpperTrimmed(ops)[i] == ops[i] {
      assert Trimmed(ops[i]);
      TrimmedStays(ops[i]);
      assert ToUpper(ops[i]) == ops[i];
    }
  }

  lemma DefaultOperationsStay(create: string, update: string, delete: string)
    requires create == "CREATE" && update == "UPDATE" && delete == "DELETE"
    ensures UpperTrimmed(DEFAULT_OPERATIONS) == [create, update, delete]
  {
    CapitalsStay([create, update, delete]);
  }

  lemma BlankIsBlank(s: string)
    ensures ToLower(TrimSpace(s)) == "" <==> TrimSpace(s) == ""
  {
  }

  /** The mode is the given one in lower case without white space around it; if that is blank,
      `get` for a spec that names an object and `list` for any other. The result is likewise
      the given one, or `map` for the mode `get` and `table` for any other. */
  lemma DefaultModeAndResult(s: Spec)
    ensures var d := Defaulted(s);
            && d.mode == (if TrimSpace(s.mode) != "" then ToLower(TrimSpace(s.mode))
                          else if s.name != "" || s.nameFromArg != "" then "get" else "list")
            && d.result == (if TrimSpace(s.result) != "" then ToLower(TrimSpace(s.result))
                            else if d.mode == "get" then "map" else "table")
            && d.gvr == s.gvr && d.name == s.name && d.nameFromArg == s.nameFromArg
  {
    BlankIsBlank(s.mode);
    BlankIsBlank(s.result);
  }

  /** Fields and columns stand in for each other, the name, namespace and UID for both, and
      the columns for their names; without operations these are the three of an admission. */
  lemma DefaultLists(s: Spec)
    ensures var d := Defaulted(s);
            && (s.fields != [] ==> d.fields == s.fields && (s.columns == [] ==> d.columns == s.fields))
            && (s.columns != [] ==> d.columns == s.columns && (s.fields == [] ==> d.fields == s.columns))
            && (s.fields == [] && s.columns == [] ==>
                  d.fields == d.columns == ["metadata.name", "metadata.namespace", "metadata.uid"])
            && d.columnNames == (if s.columnNames != [] then s.columnNames else d.columns)
            && (s.operations == [] ==> d.operations == ["CREATE", "UPDATE", "DELETE"])
            && (s.operations != [] ==>
                  && |d.operations| == |s.operations|
                  && forall i :: 0 <= i < |s.operations| ==> d.operations[i] == ToUpper(TrimSpace(s.operations[i])))
  {
    DefaultOperationsStay("CREATE", "UPDATE", "DELETE");
  }

  /** The spec names an object unless its mode does not ask for one. */
  predicate NamesObject(s: Spec) {
    ToLower(TrimSpace(s.mode)) == "get" ==> s.name != "" || s.nameFromArg != ""
  }

  /** A text is a cache spec if and only if it is not blank, decodes, has a resource type, and
      names an object if it asks for a single one; it is then the spec with its defaults. */
  lemma ParsesExactly(what: string, decoded: Option<Spec>)
    ensures ParseCacheSpec(what, decoded).Ok? <==>
              TrimSpace(what) != "" && decoded.Some? && decoded.value.gvr != "" && NamesObject(decoded.value)
    ensures ParseCacheSpec(what, decoded).Ok? ==> ParseCacheSpec(what, decoded).value == Defaulted(decoded.value)
  {
    if decoded.Some? {
      DefaultModeAndResult(decoded.value);
      BlankIsBlank(decoded.value.mode);
    }
  }

  // ----- defaults are settled by one application

  lemma CaseKeepsEdges(s: string)
    requires Trimmed(s)
    ensures Trimmed(ToUpper(s)) && Trimmed(ToLower(s))
  {
  }

  lemma UpperSettled(s: string)
    ensures ToUpper(TrimSpace(ToUpper(TrimSpace(s)))) == ToUpper(TrimSpace(s))
  {
    TrimSpaceTrims(s);
    CaseKeepsEdges(TrimSpace(s));
    TrimmedStays(ToUpper(TrimSpace(s)));
    assert ToUpper(ToUpper(TrimSpace(s))) == ToUpper(TrimSpace(s));
  }

  lemma LowerSettled(s: string)
    ensures ToLower(TrimSpace(ToLower(TrimSpace(s)))) == ToLower(TrimSpace(s))
  {
    TrimSpaceTrims(s);
    CaseKeepsEdges(TrimSpace(s));
    TrimmedStays(ToLower(TrimSpace(s)));
    assert ToLower(ToLower(TrimSpace(s))) == ToLower(TrimSpace(s));
  }

  lemma WordSettled(s: string)
    requires s in {MODE_GET, MODE_LIST, RESULT_MAP, RESULT_TABLE}
    ensures ToLower(TrimSpace(s)) == s
  {
    TrimmedStays(s);
    assert ToLower(s) == s;
  }

  lemma ModeSettled(s: Spec)
    ensures ToLower(TrimSpace(ModeOf(s))) == ModeOf(s) && ModeOf(s) != ""
    ensures ToLower(TrimSpace(ResultOf(s))) == ResultOf(s) && ResultOf(s) != ""
  {
    LowerSettled(s.mode);
    LowerSettled(s.result);
    WordSettled(MODE_GET);
    WordSettled(MODE_LIST);
    WordSettled(RESULT_MAP);
    WordSettled(RESULT_TABLE);
  }

  /** Filling in the defaults twice is filling them in once, and leaves nothing blank; so the
      fallback on the poll's own operation is never reached. */
  lemma DefaultsSettle(s: Spec)
    ensures Defaulted(Defaulted(s)) == Defaulted(s)
    ensures var d := Defaulted(s);
            d.result != "" && d.mode != "" && d.fields != [] && d.columns != [] && d.columnNames != [] && d.operations != []
  {
    var d := Defaulted(s);
    ModeSettled(s);
    forall i | 0 <= i < |d.operations| ensures ToUpper(TrimSpace(d.operations[i])) == d.operations[i] {
      UpperSettled((if s.operations == [] then DEFAULT_OPERATIONS else s.operations)[i]);
    }
    assert UpperTrimmed(d.operations) == d.operations;
  }

  // ----- resource types

  datatype Gvr = Gvr(group: string, version: string, resource: string)

  function ParseGVR(raw: string): Option<Gvr> {
    var parts := Split(TrimSpace(raw), '/');
    if |parts| == 2 then Some(Gvr("", parts[0], parts[1]))
    else if |parts| == 3 then Some(Gvr(parts[0], parts[1], parts[2]))
    else None
  }

  lemma JoinTwo(a: string, b: string)
    ensures Join([a, b], '/') == a + "/" + b
  {
  }

  lemma JoinThree(a: string, b: string, c: string)
    ensures Join([a, b, c], '/') == a + "/" + b + "/" + c
  {
    assert [a, b, c][1..] == [b, c];
    JoinTwo(b, c);
    assert a + "/" + (b + "/" + c) == a + "/" + b + "/" + c;
  }

  /** The text is group/version/resource, or version/resource for the group without a name. */
  predicate ReadsAs(text: string, g: Gvr) {
    && '/' !in g.group && '/' !in g.version && '/' !in g.resource
    && (text == g.group + "/" + g.version + "/" + g.resource || (g.group == "" && text == g.version + "/" + g.resource))
  }

  /** A text is parsed as a resource type if and only if, without the white space around it,
      it is that type's two or three parts with slashes between them. */
  lemma ParseGVRExact(raw: string, g: Gvr)
    ensures ParseGVR(raw) == Some(g) <==> ReadsAs(TrimSpace(raw), g)
  {
    var text := TrimSpace(raw);
    var parts := Split(text, '/');
    JoinSplit(text, '/');
    if |parts| == 2 {
      JoinTwo(parts[0], parts[1]);
      assert parts == [parts[0], parts[1]];
    } else if |parts| == 3 {
      JoinThree(parts[0], parts[1], parts[2]);
      assert parts == [parts[0], parts[1], parts[2]];
    }
    if ReadsAs(text, g) {
      ReadBack(text, g);
    }
  }

  lemma ReadBack(text: string, g: Gvr)
    requires ReadsAs(text, g)
    ensures Split(text, '/') == [g.group, g.version, g.resource] || (g.group == "" && Split(text, '/') == [g.version, g.resource])
  {
    if text == g.group + "/" + g.version + "/" + g.resource {
      JoinThree(g.group, g.version, g.resource);
      SplitJoin([g.group, g.version, g.resource], '/');
    } else {
      JoinTwo(g.version, g.resource);
      SplitJoin([g.version, g.resource], '/');
    }
  }

  /** group/version/resource, or version/resource in the core group. */
  function GvrText(g: Gvr): string {
    (if g.group == "" then "" else g.group + "/") + g.version + "/" + g.resource
  }

  predicate NoSlashOrSpace(s: string) {
    '/' !in s && Trimmed(s)
  }

  /** Parsing reads back what is written in the form group/version/resource. */
  lemma ParseGVROfText(g: Gvr)
    requires NoSlashOrSpace(g.group) && NoSlashOrSpace(g.version) && NoSlashOrSpace(g.resource)
    requires g.version != "" && g.resource != ""
    ensures ParseGVR(GvrText(g)) == Some(g)
  {
    var parts := if g.group == "" then [g.version, g.resource] else [g.group, g.version, g.resource];
    if g.group == "" {
      assert Join([g.version, g.resource], '/') == g.version + "/" + g.resource;
    } else {
      assert Join([g.version, g.resource], '/') == g.version + "/" + g.resource;
      assert parts[1..] == [g.version, g.resource];
      assert Join(parts, '/') == g.group + "/" + (g.version + "/" + g.resource);
    }
    assert GvrText(g) == Join(parts, '/');
    TrimmedStays(GvrText(g));
    SplitJoin(parts, '/');
  }
}
