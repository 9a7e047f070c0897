/** Admission webhook rules: how the polls of all profiles are aggregated into rules, and
    how requests are matched against them. */
module Webhooks {
  import opened Common
  import opened Strings
  import opened Specs

  /** A poll, as far as the rules are concerned: whether it uses the Kubernetes API, its
      text, and what that decodes to. */
  datatype Poll = Poll(name: string, api: bool, what: string, decoded: Option<Spec>)

  type Profile = map<string, Option<Poll>>

  datatype WebhookRule = WebhookRule(
    groups: seq<string>,
    versions: seq<string>,
    resources: seq<string>,
    operations: seq<string>)

  /** What a poll asks to be told about: nothing, something that cannot be understood, or some
      operations on a resource type. */
  datatype Ask = Ignored | Bad(error: string) | Wants(gvr: Gvr, operations: seq<string>)

  function AskOf(p: Poll): Ask {
    if !p.api then Ignored
    else
      match ParseCacheSpec(p.what, p.decoded)
      case Err(e) => Bad(e)
      case Ok(spec) =>
        match ParseGVR(spec.gvr)
        case None => Bad("invalid gvr")
        case Some(g) => Wants(g, spec.operations)
  }

  /** The poll uses the API, and its text is a cache spec: not blank, decoded, and naming an
      object if it asks for a single one. */
  ghost predicate Understood(p: Poll) {
    p.api && TrimSpace(p.what) != "" && p.decoded.Some? && p.decoded.value.gvr != "" && NamesObject(p.decoded.value)
  }

  /** The operations a spec lists, in capitals without white space around them; the three of
      an admission if it lists none. */
  ghost predicate ListsOperations(spec: Spec, operations: seq<string>) {
    if spec.operations == [] then operations == ["CREATE", "UPDATE", "DELETE"]
    else |operations| == |spec.operations|
         && forall i :: 0 <= i < |operations| ==> operations[i] == ToUpper(TrimSpace(spec.operations[i]))
  }

  lemma ListsOne(spec: Spec, a: seq<string>, b: seq<string>)
    requires ListsOperations(spec, a) && ListsOperations(spec, b)
    ensures a == b
  {
  }

  /** A poll asks for operations on a resource type if and only if it is understood, its type
      reads as that one, and these are the operations it lists; it asks for nothing if and
      only if it does not use the API. */
  lemma AsksExactly(p: Poll, g: Gvr, operations: seq<string>)
    ensures AskOf(p) == Wants(g, operations) <==>
              Understood(p) && ReadsAs(TrimSpace(p.decoded.value.gvr), g) && ListsOperations(p.decoded.value, operations)
    ensures AskOf(p) == Ignored <==> !p.api
  {
    ParsesExactly(p.what, p.decoded);
    if Understood(p) {
      var spec := p.decoded.value;
      DefaultModeAndResult(spec);
      DefaultLists(spec);
      ParseGVRExact(spec.gvr, g);
      assert ListsOperations(spec, Defaulted(spec).operations);
      if ListsOperations(spec, operations) {
        ListsOne(spec, operations, Defaulted(spec).operations);
      }
    }
  }

  /** A poll that uses the API is in error if and only if it is not understood or its type
      reads as none. */
  lemma BadExactly(p: Poll)
    ensures AskOf(p).Bad? <==> p.api && !(Understood(p) && exists h :: ReadsAs(TrimSpace(p.decoded.value.gvr), h))
  {
    ParsesExactly(p.what, p.decoded);
    if Understood(p) {
      var spec := p.decoded.value;
      DefaultModeAndResult(spec);
      forall h ensures ParseGVR(spec.gvr) == Some(h) <==> ReadsAs(TrimSpace(spec.gvr), h) {
        ParseGVRExact(spec.gvr, h);
      }
    }
  }

  /** The poll asks for this operation on this resource type. */
  ghost predicate AsksFor(p: Poll, g: Gvr, operation: string) {
    && Understood(p) && ReadsAs(TrimSpace(p.decoded.value.gvr), g)
    && if p.decoded.value.operations == [] then operation in ["CREATE", "UPDATE", "DELETE"]
       else exists i :: 0 <= i < |p.decoded.value.operations| && ToUpper(TrimSpace(p.decoded.value.operations[i])) == operation
  }

  lemma ListedOperation(spec: Spec, operations: seq<string>, operation: string)
    requires ListsOperations(spec, operations)
    ensures operation in operations <==>
              if spec.operations == [] then operation in ["CREATE", "UPDATE", "DELETE"]
              else exists i :: 0 <= i < |spec.operations| && ToUpper(TrimSpace(spec.operations[i])) == operation
  {
    if spec.operations != [] && operation in operations {
      var i :| 0 <= i < |operations| && operations[i] == operation;
      assert ToUpper(TrimSpace(spec.operations[i])) == operation;
    }
    if i :| 0 <= i < |spec.operations| && ToUpper(TrimSpace(spec.operations[i])) == operation && spec.operations != [] {
      assert operations[i] == operation;
    }
  }

  lemma AsksForExactly(p: Poll, g: Gvr, operation: string)
    ensures AsksFor(p, g, operation) <==> AskOf(p).Wants? && AskOf(p).gvr == g && operation in AskOf(p).operations
  {
    match AskOf(p)
    case Wants(h, operations) =>
      AsksExactly(p, h, operations);
      ListedOperation(p.decoded.value, operations, operation);
      ParseGVRExact(p.decoded.value.gvr, g);
      ParseGVRExact(p.decoded.value.gvr, h);
    case Ignored =>
      AsksExactly(p, g, []);
    case Bad(_) =>
      BadExactly(p);
      assert Understood(p) ==> !ReadsAs(TrimSpace(p.decoded.value.gvr), g);
  }

  function AggKey(g: Gvr): string {
    g.group + "|" + g.version + "|" + g.resource
  }

  function NewRule(g: Gvr): WebhookRule {
    WebhookRule([g.group], [g.version], [g.resource], [])
  }

  method Contains(items: seq<string>, value: string) returns (r: bool)
    ensures r <==> value in items
  {
    for i := 0 to |items|
      invariant value !in items[..i]
    {
      if items[i] == value {
        return true;
      }
    }
    r := false;
  }

  function AddUnique(items: seq<string>, value: string): seq<string> {
    if value in items then items else items + [value]
  }

  /** The operations after the first `n` of `more` were added. */
  function AddFirst(items: seq<string>, more: seq<string>, n: nat): seq<string>
    requires n <= |more|
  {
    if n == 0 then items else AddUnique(AddFirst(items, more, n - 1), more[n - 1])
  }

  function AddOperations(rule: WebhookRule, more: seq<string>): WebhookRule {
    rule.(operations := AddFirst(rule.operations, more, |more|))
  }

  type Agg = map<string, WebhookRule>

  function RuleFor(agg: Agg, g: Gvr): WebhookRule {
    if AggKey(g) in agg then agg[AggKey(g)] else NewRule(g)
  }

  function AddAsk(agg: Agg, a: Ask): Result<Agg> {
    match a
    case Ignored => Ok(agg)
    case Bad(e) => Err(e)
    case Wants(g, operations) => Ok(agg[AggKey(g) := AddOperations(RuleFor(agg, g), operations)])
  }

  /** The aggregation of the first `n` polls. */
  function AggOf(asks: seq<Ask>, n: nat): Result<Agg>
    requires n <= |asks|
  {
    if n == 0 then Ok(map[])
    else
      match AggOf(asks, n - 1)
      case Err(e) => Err(e)
      case Ok(agg) => AddAsk(agg, asks[n - 1])
  }

  // ----- building the rules

  method AddOperationsTo(rule: WebhookRule, more: seq<string>) returns (r: WebhookRule)
    ensures r == AddOperations(rule, more)
  {
    r := rule;
    for i := 0 to |more|
      invariant r == rule.(operations := AddFirst(rule.operations, more, i))
    {
      var known := Contains(r.operations, more[i]);
      if !known {
        r := r.(operations := r.operations + [more[i]]);
      }
    }
  }

  method AddPollTo(agg: Agg, p: Poll) returns (r: Result<Agg>)
    ensures r == AddAsk(agg, AskOf(p))
  {
    if !p.api {
      return Ok(agg);
    }
    var spec := ParseCacheSpec(p.what, p.decoded);
    if spec.Err? {
      return Err(spec.error);
    }
    var gvr := ParseGVR(spec.value.gvr);
    if gvr.None? {
      return Err("invalid gvr");
    }
    var rule := RuleFor(agg, gvr.value);
    rule := AddOperationsTo(rule, spec.value.operations);
    r := Ok(agg[AggKey(gvr.value) := rule]);
  }

  /** What the polls of one profile ask for. */
  ghost function ProfileAsks(m: Profile): iset<Ask> {
    iset k | k in m && m[k].Some? :: AskOf(m[k].value)
  }

  /** What the polls of all profiles ask for. */
  ghost function AsksOf(models: seq<Option<Profile>>): iset<Ask> {
    iset i, a | 0 <= i < |models| && models[i].Some? && a in ProfileAsks(models[i].value) :: a
  }

  ghost function Listed(asks: seq<Ask>): iset<Ask> {
    iset a | a in asks
  }

  lemma ListedMore(asks: seq<Ask>, a: Ask)
    ensures Listed(asks + [a]) == Listed(asks) + iset{a}
  {
  }

  method AddModel(agg: Agg, polling: Profile, ghost before: seq<Ask>)
    returns (r: Result<Agg>, ghost visited: seq<Ask>)
    requires AggOf(before, |before|) == Ok(agg)
    ensures r == AggOf(visited, |visited|)
    ensures Listed(visited) <= Listed(before) + ProfileAsks(polling)
    ensures r.Ok? ==> Listed(visited) == Listed(before) + ProfileAsks(polling)
  {
    var now := agg;
    visited := before;
    var left := polling.Keys;
    ghost var done := iset{};
    while left != {}
      invariant left <= polling.Keys
      invariant AggOf(visited, |visited|) == Ok(now)
      invariant done <= ProfileAsks(polling)
      invariant forall k :: k in polling && k !in left && polling[k].Some? ==> AskOf(polling[k].value) in done
      invariant Listed(visited) == Listed(before) + done
    {
      var k :| k in left;
      left := left - {k};
      if polling[k].Some? {
        ghost var a := AskOf(polling[k].value);
        AggPrefix(visited, a);
        ListedMore(visited, a);
        visited := visited + [a];
        done := done + iset{a};
        var res := AddPollTo(now, polling[k].value);
        if res.Err? {
          return res, visited;
        }
        now := res.value;
      }
    }
    r := Ok(now);
  }

  function SortedRule(rule: WebhookRule): WebhookRule {
    rule.(operations := Sort(rule.operations))
  }

  ghost predicate RulesBy(agg: Agg, keys: seq<string>, rules: seq<WebhookRule>) {
    && Ascending(keys)
    && (forall k :: k in keys <==> k in agg)
    && |rules| == |keys|
    && forall i :: 0 <= i < |keys| ==> rules[i] == SortedRule(agg[keys[i]])
  }

  /** One rule for each aggregated resource type, in the order of their keys, with sorted operations. */
  ghost predicate OrderedRules(agg: Agg, rules: seq<WebhookRule>) {
    exists keys: seq<string> :: RulesBy(agg, keys, rules)
  }

  method KeysOf(agg: Agg) returns (keys: seq<string>)
    ensures Enumerates(keys, agg.Keys)
  {
    keys := [];
    var left := agg.Keys;
    while left != {}
      invariant left <= agg.Keys
      invariant Enumerates(keys, agg.Keys - left)
    {
      var k :| k in left;
      assert k !in keys;
      left := left - {k};
      keys := keys + [k];
    }
  }

  method Ordered(agg: Agg) returns (rules: seq<WebhookRule>)
    ensures OrderedRules(agg, rules)
  {
    var found := KeysOf(agg);
    SortAscends(found);
    var keys := Sort(found);
    rules := [];
    for i := 0 to |keys|
      invariant |rules| == i
      invariant forall j :: 0 <= j < i ==> keys[j] in agg && rules[j] == SortedRule(agg[keys[j]])
    {
      assert keys[i] in keys;
      rules := rules + [SortedRule(agg[keys[i]])];
    }
    assert RulesBy(agg, keys, rules);
  }

  /** The polls were visited in some order: all of them, unless one of them is in error. */
  ghost predicate BuiltFrom(models: seq<Option<Profile>>, visited: seq<Ask>, r: Result<seq<WebhookRule>>) {
    && Listed(visited) <= AsksOf(models)
    && match AggOf(visited, |visited|)
       case Err(e) => r == Err(e)
       case Ok(agg) => r.Ok? && OrderedRules(agg, r.value) && Listed(visited) == AsksOf(models)
  }

  /** `r` is a possible result of building the rules. */
  ghost predicate Built(models: seq<Option<Profile>>, r: Result<seq<WebhookRule>>) {
    exists visited: seq<Ask> :: BuiltFrom(models, visited, r)
  }

  /** The rules for all profiles. Missing profiles and polls are skipped; the polls of a
      profile are visited in whatever order its map yields them. */
  method WebhookRules(models: seq<Option<Profile>>) returns (r: Result<seq<WebhookRule>>)
    ensures Built(models, r)
  {
    var agg: Agg := map[];
    ghost var visited: seq<Ask> := [];
    for i := 0 to |models|
      invariant AggOf(visited, |visited|) == Ok(agg)
      invariant Listed(visited) == AsksOf(models[..i])
    {
      AsksNext(models, i);
      if models[i].Some? {
        var res;
        res, visited := AddModel(agg, models[i].value, visited);
        if res.Err? {
          r := Err(res.error);
          AsksPrefix(models, i + 1);
          assert BuiltFrom(models, visited, r);
          return;
        }
        agg := res.value;
      }
    }
    assert models[..|models|] == models;
    var rules := Ordered(agg);
    r := Ok(rules);
    assert BuiltFrom(models, visited, r);
  }

  lemma AsksNext(models: seq<Option<Profile>>, i: nat)
    requires i < |models|
    ensures AsksOf(models[..i + 1]) == AsksOf(models[..i]) + (if models[i].Some? then ProfileAsks(models[i].value) else iset{})
  {
    var next := models[..i + 1];
    forall a | a in AsksOf(models[..i]) ensures a in AsksOf(next) {
      var j :| 0 <= j < i && models[..i][j].Some? && a in ProfileAsks(models[..i][j].value);
      assert next[j] == models[..i][j];
    }
    if models[i].Some? {
      assert next[i] == models[i];
    }
  }

  lemma AsksPrefix(models: seq<Option<Profile>>, n: nat)
    requires n <= |models|
    ensures AsksOf(models[..n]) <= AsksOf(models)
  {
    forall a | a in AsksOf(models[..n]) ensures a in AsksOf(models) {
      var j :| 0 <= j < n && models[..n][j].Some? && a in ProfileAsks(models[..n][j].value);
      assert models[j] == models[..n][j];
    }
  }

  lemma AggPrefix(asks: seq<Ask>, a: Ask)
    ensures AggOf(asks + [a], |asks|) == AggOf(asks, |asks|)
  {
    AggSame(asks + [a], asks, |asks|);
  }

  lemma {:induction false} AggSame(a: seq<Ask>, b: seq<Ask>, n: nat)
    requires n <= |a| && n <= |b| && a[..n] == b[..n]
    ensures AggOf(a, n) == AggOf(b, n)
  {
    if n > 0 {
      assert a[n - 1] == a[..n][n - 1] == b[n - 1];
      assert a[..n - 1] == a[..n][..n - 1] && b[..n - 1] == b[..n][..n - 1];
      AggSame(a, b, n - 1);
    }
  }

  // ----- matching requests

  /** An admission request: the resource type and the operation. */
  datatype Request = Request(gvr: Gvr, operation: string)

  predicate RuleCovers(rule: WebhookRule, q: Request) {
    q.gvr.group in rule.groups && q.gvr.version in rule.versions && q.gvr.resource in rule.resources && q.operation in rule.operations
  }

  predicate Covered(rules: seq<WebhookRule>, q: Request) {
    exists i :: 0 <= i < |rules| && RuleCovers(rules[i], q)
  }

  method MatchesRule(rules: seq<WebhookRule>, request: Option<Request>) returns (r: bool)
    ensures r <==> request.Some? && Covered(rules, request.value)
  {
    if request.None? {
      return false;
    }
    var q := request.value;
    for i := 0 to |rules|
      invariant forall j :: 0 <= j < i ==> !RuleCovers(rules[j], q)
    {
      var group := Contains(rules[i].groups, q.gvr.group);
      if !group {
        continue;
      }
      var version := Contains(rules[i].versions, q.gvr.version);
      if !version {
        continue;
      }
      var resource := Contains(rules[i].resources, q.gvr.resource);
      if !resource {
        continue;
      }
      var operation := Contains(rules[i].operations, q.operation);
      if !operation {
        continue;
      }
      assert RuleCovers(rules[i], q);
      return true;
    }
    r := false;
  }

  // ----- what the aggregation holds

  predicate BarFree(g: Gvr) {
    '|' !in g.group && '|' !in g.version && '|' !in g.resource
  }

  /** Resource types without a bar have different keys. */
  lemma AggKeyInjective(a: Gvr, b: Gvr)
    requires BarFree(a) && BarFree(b) && AggKey(a) == AggKey(b)
    ensures a == b
  {
    AggKeyParts(a);
    AggKeyParts(b);
    var x, y := [a.group, a.version, a.resource], [b.group, b.version, b.resource];
    assert x == y;
    assert x[0] == y[0] && x[1] == y[1] && x[2] == y[2];
  }

  lemma AggKeyParts(g: Gvr)
    requires BarFree(g)
    ensures Split(AggKey(g), '|') == [g.group, g.version, g.resource]
  {
    var parts := [g.group, g.version, g.resource];
    assert parts[1..] == [g.version, g.resource];
    assert Join([g.version, g.resource], '|') == g.version + "|" + g.resource;
    assert Join(parts, '|') == AggKey(g);
    SplitJoin(parts, '|');
  }

  /** With a bar in a version or a resource, two resource types can share a rule. */
  lemma AggKeyCollides()
    ensures exists a: Gvr, b: Gvr :: a != b && AggKey(a) == AggKey(b)
  {
    var a, b := Gvr("", "v1|x", "y"), Gvr("", "v1", "x|y");
    assert AggKey(a) == AggKey(b);
  }

  ghost predicate Named(asks: iset<Ask>, g: Gvr) {
    exists a :: a in asks && a.Wants? && a.gvr == g
  }

  ghost predicate Wanted(asks: iset<Ask>, g: Gvr, op: string) {
    exists a :: a in asks && a.Wants? && a.gvr == g && op in a.operations
  }

  /** No two resource types that are asked for share a key. */
  ghost predicate Unambiguous(asks: iset<Ask>) {
    forall g, h :: Named(asks, g) && Named(asks, h) && AggKey(g) == AggKey(h) ==> g == h
  }

  ghost predicate AllBarFree(asks: iset<Ask>) {
    forall a :: a in asks && a.Wants? ==> BarFree(a.gvr)
  }

  function GvrOf(rule: WebhookRule): Gvr
    requires |rule.groups| == |rule.versions| == |rule.resources| == 1
  {
    Gvr(rule.groups[0], rule.versions[0], rule.resources[0])
  }

  /** The rule is about one resource type that is asked for, and filed under its key. */
  ghost predicate Shaped(rule: WebhookRule, key: string, asks: iset<Ask>) {
    && |rule.groups| == |rule.versions| == |rule.resources| == 1
    && AggKey(GvrOf(rule)) == key
    && Named(asks, GvrOf(rule))
  }

  /** Besides, it lists exactly the operations asked for, each once. */
  ghost predicate SumsUp(rule: WebhookRule, key: string, asks: iset<Ask>) {
    && Shaped(rule, key, asks)
    && Distinct(rule.operations)
    && forall op :: op in rule.operations <==> Wanted(asks, GvrOf(rule), op)
  }

  /** There is a rule under every key asked for, and every rule has its shape. */
  ghost predicate Covers(agg: Agg, asks: iset<Ask>) {
    && (forall g :: Named(asks, g) ==> AggKey(g) in agg)
    && (forall k :: k in agg ==> Shaped(agg[k], k, asks))
  }

  /** Every rule sums up. */
  ghost predicate Summarizes(agg: Agg, asks: iset<Ask>) {
    Covers(agg, asks) && forall k :: k in agg ==> SumsUp(agg[k], k, asks)
  }

  lemma {:induction false} AddFirstMembers(items: seq<string>, more: seq<string>, n: nat)
    requires n <= |more| && Distinct(items)
    ensures Distinct(AddFirst(items, more, n))
    ensures forall x :: x in AddFirst(items, more, n) <==> x in items || x in more[..n]
  {
    if n > 0 {
      AddFirstMembers(items, more, n - 1);
      assert more[..n] == more[..n - 1] + [more[n - 1]];
    }
  }

  lemma MoreWanted(asks: iset<Ask>, a: Ask, g: Gvr)
    ensures Named(asks + iset{a}, g) <==> Named(asks, g) || (a.Wants? && a.gvr == g)
    ensures forall op :: Wanted(asks + iset{a}, g, op) <==> Wanted(asks, g, op) || (a.Wants? && a.gvr == g && op in a.operations)
  {
    var all := asks + iset{a};
    if b :| b in asks && b.Wants? && b.gvr == g {
      assert b in all;
    }
    assert a in all;
    forall op | Wanted(asks, g, op) ensures Wanted(all, g, op) {
      var b :| b in asks && b.Wants? && b.gvr == g && op in b.operations;
      assert b in all;
    }
  }

  lemma AddAskCovers(agg: Agg, asks: iset<Ask>, a: Ask)
    requires Covers(agg, asks) && !a.Bad?
    ensures AddAsk(agg, a).Ok? && Covers(AddAsk(agg, a).value, asks + iset{a})
  {
    var more := AddAsk(agg, a).value;
    forall g | Named(asks + iset{a}, g) ensures AggKey(g) in more {
      MoreWanted(asks, a, g);
    }
    forall k | k in more ensures Shaped(more[k], k, asks + iset{a}) {
      if k in agg {
        MoreWanted(asks, a, GvrOf(agg[k]));
      } else {
        MoreWanted(asks, a, a.gvr);
      }
    }
  }

  lemma OtherRule(rule: WebhookRule, key: string, asks: iset<Ask>, a: Ask)
    requires SumsUp(rule, key, asks) && (a.Wants? ==> a.gvr != GvrOf(rule))
    ensures SumsUp(rule, key, asks + iset{a})
  {
    MoreWanted(asks, a, GvrOf(rule));
  }

  /** The rule under construction for the asked type is about that type. */
  lemma SameType(agg: Agg, asks: iset<Ask>, a: Ask)
    requires Covers(agg, asks) && a.Wants? && Unambiguous(asks + iset{a}) && AggKey(a.gvr) in agg
    ensures GvrOf(agg[AggKey(a.gvr)]) == a.gvr
  {
    MoreWanted(asks, a, GvrOf(agg[AggKey(a.gvr)]));
    MoreWanted(asks, a, a.gvr);
  }

  lemma AskedRule(agg: Agg, asks: iset<Ask>, a: Ask)
    requires Summarizes(agg, asks) && a.Wants? && Unambiguous(asks + iset{a})
    ensures SumsUp(AddOperations(RuleFor(agg, a.gvr), a.operations), AggKey(a.gvr), asks + iset{a})
  {
    var rule := RuleFor(agg, a.gvr);
    if AggKey(a.gvr) in agg {
      SameType(agg, asks, a);
    }
    AddFirstMembers(rule.operations, a.operations, |a.operations|);
    assert a.operations[..|a.operations|] == a.operations;
    MoreWanted(asks, a, a.gvr);
    forall op ensures op in rule.operations <==> Wanted(asks, a.gvr, op) {
      if Wanted(asks, a.gvr, op) {
        assert Named(asks, a.gvr);
      }
    }
  }

  lemma AddAskSummarizes(agg: Agg, asks: iset<Ask>, a: Ask)
    requires Summarizes(agg, asks) && !a.Bad? && Unambiguous(asks + iset{a})
    ensures AddAsk(agg, a).Ok? && Summarizes(AddAsk(agg, a).value, asks + iset{a})
  {
    var more := AddAsk(agg, a).value;
    AddAskCovers(agg, asks, a);
    if a.Wants? {
      AskedRule(agg, asks, a);
    }
    forall k | k in more ensures SumsUp(more[k], k, asks + iset{a}) {
      if !(a.Wants? && k == AggKey(a.gvr)) {
        OtherRule(agg[k], k, asks, a);
      }
    }
  }

  lemma {:induction false} AggCovers(asks: seq<Ask>)
    requires AggOf(asks, |asks|).Ok?
    ensures Covers(AggOf(asks, |asks|).value, Listed(asks))
  {
    if asks != [] {
      var n := |asks| - 1;
      var before := asks[..n];
      assert asks == before + [asks[n]];
      ListedMore(before, asks[n]);
      AggSame(asks, before, n);
      AggCovers(before);
      AddAskCovers(AggOf(before, n).value, Listed(before), asks[n]);
    }
  }

  lemma FewerUnambiguous(asks: iset<Ask>, a: Ask)
    requires Unambiguous(asks + iset{a})
    ensures Unambiguous(asks)
  {
    forall g, h | Named(asks, g) && Named(asks, h) && AggKey(g) == AggKey(h) ensures g == h {
      MoreWanted(asks, a, g);
      MoreWanted(asks, a, h);
    }
  }

  lemma {:induction false} AggSummarizes(asks: seq<Ask>)
    requires AggOf(asks, |asks|).Ok? && Unambiguous(Listed(asks))
    ensures Summarizes(AggOf(asks, |asks|).value, Listed(asks))
  {
    if asks != [] {
      var n := |asks| - 1;
      var before := asks[..n];
      assert asks == before + [asks[n]];
      ListedMore(before, asks[n]);
      FewerUnambiguous(Listed(before), asks[n]);
      AggSame(asks, before, n);
      AggSummarizes(before);
      AddAskSummarizes(AggOf(before, n).value, Listed(before), asks[n]);
    }
  }

  lemma {:induction false} AggOkIff(asks: seq<Ask>, n: nat)
    requires n <= |asks|
    ensures AggOf(asks, n).Ok? <==> forall i :: 0 <= i < n ==> !asks[i].Bad?
  {
    if n > 0 {
      AggOkIff(asks, n - 1);
    }
  }

  // ----- what the rules mean

  /** Rules are built exactly when every poll that uses the API can be understood. */
  lemma BuiltIff(models: seq<Option<Profile>>, r: Result<seq<WebhookRule>>)
    requires Built(models, r)
    ensures r.Ok? <==> forall a :: a in AsksOf(models) ==> !a.Bad?
  {
    var visited: seq<Ask> :| BuiltFrom(models, visited, r);
    AggOkIff(visited, |visited|);
    if r.Err? {
      var i: nat :| i < |visited| && visited[i].Bad?;
      assert visited[i] in Listed(visited);
    } else {
      forall a | a in AsksOf(models) ensures !a.Bad? {
        assert a in Listed(visited);
      }
    }
  }

  /** What the rules were built from; a summary if no two types share a key. */
  lemma BuiltSummary(models: seq<Option<Profile>>, rules: seq<WebhookRule>) returns (agg: Agg, keys: seq<string>)
    requires Built(models, Ok(rules))
    ensures RulesBy(agg, keys, rules) && Covers(agg, AsksOf(models))
    ensures Unambiguous(AsksOf(models)) ==> Summarizes(agg, AsksOf(models))
  {
    var visited: seq<Ask> :| BuiltFrom(models, visited, Ok(rules));
    AggCovers(visited);
    if Unambiguous(AsksOf(models)) {
      AggSummarizes(visited);
    }
    agg := AggOf(visited, |visited|).value;
    keys :| RulesBy(agg, keys, rules);
  }

  lemma CoversIff(rule: WebhookRule, key: string, asks: iset<Ask>, q: Request)
    requires SumsUp(rule, key, asks)
    ensures RuleCovers(SortedRule(rule), q) <==> q.gvr == GvrOf(rule) && Wanted(asks, q.gvr, q.operation)
  {
    SortAscends(rule.operations);
  }

  lemma CoveredIffWanted(models: seq<Option<Profile>>, rules: seq<WebhookRule>, q: Request)
    requires Built(models, Ok(rules)) && Unambiguous(AsksOf(models))
    ensures Covered(rules, q) <==> Wanted(AsksOf(models), q.gvr, q.operation)
  {
    var agg, keys := BuiltSummary(models, rules);
    if i :| 0 <= i < |rules| && RuleCovers(rules[i], q) {
      assert keys[i] in keys;
      CoversIff(agg[keys[i]], keys[i], AsksOf(models), q);
    }
    if Wanted(AsksOf(models), q.gvr, q.operation) {
      var k := AggKey(q.gvr);
      assert Named(AsksOf(models), q.gvr);
      assert k in agg && k in keys;
      var i :| 0 <= i < |keys| && keys[i] == k;
      CoversIff(agg[k], k, AsksOf(models), q);
    }
  }

  lemma AskHasOperations(p: Poll)
    ensures AskOf(p).Wants? ==> AskOf(p).operations != []
  {
  }

  ghost predicate AllList(asks: iset<Ask>) {
    forall a :: a in asks && a.Wants? ==> a.operations != []
  }

  /** The defaults leave no spec without operations. */
  lemma AsksList(models: seq<Option<Profile>>)
    ensures AllList(AsksOf(models))
  {
    forall a | a in AsksOf(models) ensures a.Wants? ==> a.operations != [] {
      var i :| 0 <= i < |models| && models[i].Some? && a in ProfileAsks(models[i].value);
      ProfileLists(models[i].value, a);
    }
  }

  lemma ProfileLists(m: Profile, a: Ask)
    requires a in ProfileAsks(m)
    ensures a.Wants? ==> a.operations != []
  {
    var k :| k in m && m[k].Some? && a == AskOf(m[k].value);
    AskHasOperations(m[k].value);
  }

  /** A type whose key holds the rule of another type is never matched. */
  lemma RuleLost(asks: iset<Ask>, rules: seq<WebhookRule>, agg: Agg, keys: seq<string>, g: Gvr) returns (q: Request)
    requires RulesBy(agg, keys, rules) && Covers(agg, asks) && AllList(asks)
    requires Named(asks, g) && GvrOf(agg[AggKey(g)]) != g
    ensures Wanted(asks, q.gvr, q.operation) && !Covered(rules, q)
  {
    var a :| a in asks && a.Wants? && a.gvr == g;
    q := Request(g, a.operations[0]);
    forall j | 0 <= j < |rules| ensures !RuleCovers(rules[j], q) {
      assert keys[j] in keys && Shaped(agg[keys[j]], keys[j], asks);
    }
  }

  /** With two types under one key, one of them is lost. */
  lemma OneIsLost(asks: iset<Ask>, rules: seq<WebhookRule>, agg: Agg, keys: seq<string>)
    requires RulesBy(agg, keys, rules) && Covers(agg, asks) && AllList(asks) && !Unambiguous(asks)
    ensures exists q: Request :: Wanted(asks, q.gvr, q.operation) && !Covered(rules, q)
  {
    var g, h :| Named(asks, g) && Named(asks, h) && AggKey(g) == AggKey(h) && g != h;
    var q := RuleLost(asks, rules, agg, keys, if GvrOf(agg[AggKey(g)]) == g then h else g);
  }

  /** The rules match a request exactly when some poll that uses the API is about its resource
      type and lists its operation: if and only if no two types asked for share a key. */
  lemma RulesMeanSpecs(models: seq<Option<Profile>>, rules: seq<WebhookRule>)
    requires Built(models, Ok(rules))
    ensures (forall q :: Covered(rules, q) <==> Wanted(AsksOf(models), q.gvr, q.operation)) <==> Unambiguous(AsksOf(models))
  {
    if Unambiguous(AsksOf(models)) {
      forall q ensures Covered(rules, q) <==> Wanted(AsksOf(models), q.gvr, q.operation) {
        CoveredIffWanted(models, rules, q);
      }
    } else {
      var agg, keys := BuiltSummary(models, rules);
      AsksList(models);
      OneIsLost(AsksOf(models), rules, agg, keys);
    }
  }

  lemma WantedByPoll(models: seq<Option<Profile>>, g: Gvr, operation: string)
    ensures Wanted(AsksOf(models), g, operation) <==>
              exists i, k ::
                && 0 <= i < |models| && models[i].Some? && k in models[i].value && models[i].value[k].Some?
                && AsksFor(models[i].value[k].value, g, operation)
  {
    if Wanted(AsksOf(models), g, operation) {
      var a :| a in AsksOf(models) && a.Wants? && a.gvr == g && operation in a.operations;
      var i :| 0 <= i < |models| && models[i].Some? && a in ProfileAsks(models[i].value);
      var k :| k in models[i].value && models[i].value[k].Some? && AskOf(models[i].value[k].value) == a;
      AsksForExactly(models[i].value[k].value, g, operation);
    }
    if i, k :| 0 <= i < |models| && models[i].Some? && k in models[i].value && models[i].value[k].Some?
               && AsksFor(models[i].value[k].value, g, operation) {
      var p := models[i].value[k].value;
      AsksForExactly(p, g, operation);
      assert AskOf(p) in ProfileAsks(models[i].value);
      assert AskOf(p) in AsksOf(models);
    }
  }

  /** In terms of the polls: where no two types asked for share a key, a rule covers a request
      if and only if some poll of some profile asks for that operation on that type. */
  lemma RulesMeanPolls(models: seq<Option<Profile>>, rules: seq<WebhookRule>, q: Request)
    requires Built(models, Ok(rules)) && Unambiguous(AsksOf(models))
    ensures (exists r :: 0 <= r < |rules| && q.gvr.group in rules[r].groups && q.gvr.version in rules[r].versions
                         && q.gvr.resource in rules[r].resources && q.operation in rules[r].operations) <==>
            (exists i, k ::
               && 0 <= i < |models| && models[i].Some? && k in models[i].value && models[i].value[k].Some?
               && AsksFor(models[i].value[k].value, q.gvr, q.operation))
  {
    CoveredIffWanted(models, rules, q);
    WantedByPoll(models, q.gvr, q.operation);
    assert Covered(rules, q) <==> exists r :: 0 <= r < |rules| && RuleCovers(rules[r], q);
  }

  /** Types without a bar never share a key. */
  lemma BarFreeUnambiguous(asks: iset<Ask>)
    requires AllBarFree(asks)
    ensures Unambiguous(asks)
  {
    forall g, h | Named(asks, g) && Named(asks, h) && AggKey(g) == AggKey(h) ensures g == h {
      AggKeyInjective(g, h);
    }
  }

  lemma SameRule(x: WebhookRule, y: WebhookRule, key: string, asks: iset<Ask>)
    requires SumsUp(x, key, asks) && SumsUp(y, key, asks) && Unambiguous(asks)
    ensures SortedRule(x) == SortedRule(y)
  {
    assert GvrOf(x) == GvrOf(y);
    SortAscends(x.operations);
    SortAscends(y.operations);
    AscendingUnique(Sort(x.operations), Sort(y.operations));
    assert x.groups == y.groups && x.versions == y.versions && x.resources == y.resources;
  }

  lemma SameKeys(x: Agg, y: Agg, asks: iset<Ask>)
    requires Covers(x, asks) && Covers(y, asks)
    ensures x.Keys <= y.Keys
  {
    forall k | k in x ensures k in y {
      assert Shaped(x[k], k, asks);
    }
  }

  /** The rules depend only on what the polls ask for: not on the order of the profiles, of
      their polls, or of the keys. */
  lemma RulesOrderFree(a: seq<Option<Profile>>, b: seq<Option<Profile>>, r: Result<seq<WebhookRule>>, s: Result<seq<WebhookRule>>)
    requires Built(a, r) && Built(b, s)
    requires AsksOf(a) == AsksOf(b) && Unambiguous(AsksOf(a))
    ensures r.Ok? == s.Ok?
    ensures r.Ok? ==> r.value == s.value
  {
    BuiltIff(a, r);
    BuiltIff(b, s);
    if r.Ok? {
      var agg, keys := BuiltSummary(a, r.value);
      var bgg, leys := BuiltSummary(b, s.value);
      SameKeys(agg, bgg, AsksOf(a));
      SameKeys(bgg, agg, AsksOf(a));
      AscendingUnique(keys, leys);
      forall i | 0 <= i < |keys| ensures r.value[i] == s.value[i] {
        assert keys[i] in keys;
        SameRule(agg[keys[i]], bgg[keys[i]], keys[i], AsksOf(a));
      }
    }
  }

  // ----- types that share a key

  /** Every aggregation has its rules. */
  lemma {:induction false} SomeKeys(keys: set<string>) returns (order: seq<string>)
    ensures Enumerates(order, keys)
    decreases |keys|
  {
    order := [];
    if keys != {} {
      var k :| k in keys;
      var rest := SomeKeys(keys - {k});
      order := rest + [k];
    }
  }

  lemma RulesExist(agg: Agg) returns (keys: seq<string>, rules: seq<WebhookRule>)
    ensures RulesBy(agg, keys, rules)
  {
    var found := SomeKeys(agg.Keys);
    SortAscends(found);
    keys := Sort(found);
    forall i | 0 <= i < |keys| ensures keys[i] in agg {
      assert keys[i] in keys;
    }
    rules := seq(|keys|, i requires 0 <= i < |keys| => SortedRule(agg[keys[i]]));
  }

  /** The first type asked for keeps its key. */
  lemma {:induction false} FirstKeeps(asks: seq<Ask>, n: nat)
    requires 0 < n <= |asks| && asks[0].Wants? && AggOf(asks, n).Ok?
    ensures var agg, g := AggOf(asks, n).value, asks[0].gvr;
            AggKey(g) in agg && agg[AggKey(g)].(operations := []) == NewRule(g)
  {
    if n > 1 {
      FirstKeeps(asks, n - 1);
    }
  }

  /** Visiting one poll more, before all others. */
  lemma AskedFirst(visited: seq<Ask>, a: Ask) returns (all: seq<Ask>, agg: Agg, keys: seq<string>, rules: seq<WebhookRule>)
    requires AggOf(visited, |visited|).Ok? && a in visited && a.Wants?
    ensures Listed(all) == Listed(visited)
    ensures AggOf(all, |all|) == Ok(agg) && RulesBy(agg, keys, rules) && Covers(agg, Listed(visited))
    ensures AggKey(a.gvr) in agg && agg[AggKey(a.gvr)].(operations := []) == NewRule(a.gvr)
  {
    all := [a] + visited;
    AggOkIff(visited, |visited|);
    forall i | 0 <= i < |all| ensures !all[i].Bad? {
      assert i > 0 ==> all[i] == visited[i - 1];
    }
    AggOkIff(all, |all|);
    FirstKeeps(all, |all|);
    agg := AggOf(all, |all|).value;
    keys, rules := RulesExist(agg);
    assert Listed(all) == Listed(visited);
    AggCovers(all);
  }

  lemma BuiltBy(models: seq<Option<Profile>>, visited: seq<Ask>, agg: Agg, keys: seq<string>, rules: seq<WebhookRule>)
    requires Listed(visited) == AsksOf(models)
    requires AggOf(visited, |visited|) == Ok(agg) && RulesBy(agg, keys, rules)
    ensures Built(models, Ok(rules))
  {
    assert BuiltFrom(models, visited, Ok(rules));
  }

  lemma AskedAlready(models: seq<Option<Profile>>, p: Poll)
    requires AskOf(p) in AsksOf(models)
    ensures AsksOf([Some(map["" := Some(p)])] + models) == AsksOf(models)
  {
    var one: Profile := map["" := Some(p)];
    var more := [Some(one)] + models;
    forall a ensures a in ProfileAsks(one) <==> a == AskOf(p) {
      assert "" in one;
    }
    forall a | a in AsksOf(models) ensures a in AsksOf(more) {
      var i :| 0 <= i < |models| && models[i].Some? && a in ProfileAsks(models[i].value);
      assert more[i + 1] == models[i];
    }
    forall a | a in AsksOf(more) ensures a in AsksOf(models) {
      var i :| 0 <= i < |more| && more[i].Some? && a in ProfileAsks(more[i].value);
      if i > 0 {
        assert more[i] == models[i - 1];
      }
    }
  }

  /** The profiles with one more in front, whose poll asks once more for the same. */
  lemma OneInFront(models: seq<Option<Profile>>, a: Ask) returns (more: seq<Option<Profile>>)
    requires a in AsksOf(models)
    ensures AsksOf(more) == AsksOf(models)
  {
    var i :| 0 <= i < |models| && models[i].Some? && a in ProfileAsks(models[i].value);
    var k :| k in models[i].value && models[i].value[k].Some? && AskOf(models[i].value[k].value) == a;
    var p := models[i].value[k].value;
    AskedAlready(models, p);
    more := [Some(map["" := Some(p)])] + models;
  }

  /** The same rules cannot come from two aggregations with different types under one key. */
  lemma RulesTellTypes(asks: iset<Ask>, x: Agg, kx: seq<string>, r: seq<WebhookRule>, g: Gvr,
                       y: Agg, ky: seq<string>, s: seq<WebhookRule>, h: Gvr)
    requires RulesBy(x, kx, r) && Covers(x, asks) && RulesBy(y, ky, s) && Covers(y, asks)
    requires AggKey(g) in x && x[AggKey(g)].(operations := []) == NewRule(g)
    requires AggKey(h) in y && y[AggKey(h)].(operations := []) == NewRule(h)
    requires g != h && AggKey(g) == AggKey(h)
    ensures r != s
  {
    SameKeys(x, y, asks);
    SameKeys(y, x, asks);
    AscendingUnique(kx, ky);
    assert AggKey(g) in kx;
    var i :| 0 <= i < |kx| && kx[i] == AggKey(g);
    assert r[i].(operations := []) == NewRule(g) && s[i].(operations := []) == NewRule(h);
    NewRulesDiffer(g, h);
  }

  lemma NewRulesDiffer(g: Gvr, h: Gvr)
    ensures NewRule(g) == NewRule(h) ==> g == h
  {
    assert GvrOf(NewRule(g)) == g && GvrOf(NewRule(h)) == h;
  }

  /** All ways to visit polls that ask for the same lead to one rule list. */
  ghost predicate OneRuleList(asks: iset<Ask>) {
    forall a, b, r, s :: AsksOf(a) == asks && AsksOf(b) == asks && Built(a, Ok(r)) && Built(b, Ok(s)) ==> r == s
  }

  /** The rule list is canonical if and only if no two types asked for share a key: if two do,
      the one that is visited first gets the rule. */
  lemma CanonicalIff(models: seq<Option<Profile>>, rules: seq<WebhookRule>)
    requires Built(models, Ok(rules))
    ensures OneRuleList(AsksOf(models)) <==> Unambiguous(AsksOf(models))
  {
    if Unambiguous(AsksOf(models)) {
      OneList(AsksOf(models));
    } else {
      var g, h :| Named(AsksOf(models), g) && Named(AsksOf(models), h) && AggKey(g) == AggKey(h) && g != h;
      var a, b, r, s := TwoOrders(models, rules, g, h);
    }
  }

  lemma OneList(asks: iset<Ask>)
    requires Unambiguous(asks)
    ensures OneRuleList(asks)
  {
    forall a, b, r, s | AsksOf(a) == asks && AsksOf(b) == asks && Built(a, Ok(r)) && Built(b, Ok(s)) ensures r == s {
      RulesOrderFree(a, b, Ok(r), Ok(s));
    }
  }

  /** For two types under one key there are two ways to ask for the same that lead to
      different rules. */
  lemma TwoOrders(models: seq<Option<Profile>>, rules: seq<WebhookRule>, g: Gvr, h: Gvr)
    returns (a: seq<Option<Profile>>, b: seq<Option<Profile>>, r: seq<WebhookRule>, s: seq<WebhookRule>)
    requires Built(models, Ok(rules)) && g != h && AggKey(g) == AggKey(h)
    requires Named(AsksOf(models), g) && Named(AsksOf(models), h)
    ensures AsksOf(a) == AsksOf(models) == AsksOf(b) && Built(a, Ok(r)) && Built(b, Ok(s)) && r != s
  {
    var x, kx, y, ky;
    a, x, kx, r := WithFirst(models, rules, g);
    b, y, ky, s := WithFirst(models, rules, h);
    RulesTellTypes(AsksOf(models), x, kx, r, g, y, ky, s, h);
  }

  /** The rules when a poll that asks for this type is visited first. */
  lemma WithFirst(models: seq<Option<Profile>>, rules: seq<WebhookRule>, g: Gvr)
    returns (more: seq<Option<Profile>>, agg: Agg, keys: seq<string>, r: seq<WebhookRule>)
    requires Built(models, Ok(rules)) && Named(AsksOf(models), g)
    ensures AsksOf(more) == AsksOf(models) && Built(more, Ok(r))
    ensures RulesBy(agg, keys, r) && Covers(agg, AsksOf(models))
    ensures AggKey(g) in agg && agg[AggKey(g)].(operations := []) == NewRule(g)
  {
    var visited := VisitedFor(models, rules);
    var a := AskFor(AsksOf(models), g);
    var all;
    all, agg, keys, r := AskedFirst(visited, a);
    more := OneInFront(models, a);
    BuiltBy(more, all, agg, keys, r);
  }

  lemma VisitedFor(models: seq<Option<Profile>>, rules: seq<WebhookRule>) returns (visited: seq<Ask>)
    requires Built(models, Ok(rules))
    ensures AggOf(visited, |visited|).Ok? && Listed(visited) == AsksOf(models)
    ensures forall a :: a in AsksOf(models) ==> a in visited
  {
    visited :| BuiltFrom(models, visited, Ok(rules));
    forall a | a in AsksOf(models) ensures a in visited {
      assert a in Listed(visited);
    }
  }

  lemma AskFor(asks: iset<Ask>, g: Gvr) returns (a: Ask)
    requires Named(asks, g)
    ensures a in asks && a.Wants? && a.gvr == g
  {
    a :| a in asks && a.Wants? && a.gvr == g;
  }

  /** A poll that asks to be told when objects of the type are created. */
  function Asking(gvr: string): Poll {
    Poll("", true, "{}", Some(Spec("", "", gvr, ["CREATE"], "", "", [], [], [])))
  }

  lemma AskingAsks(text: string, g: Gvr)
    requires ParseGVR(text) == Some(g) && text != ""
    ensures AskOf(Asking(text)).Wants? && AskOf(Asking(text)).gvr == g
  {
    TrimmedStays("{}");
  }

  /** A version "v1|x" and a resource "x|y" make two types that parse and share a key. */
  lemma BarredTypes(s: string, t: string, g: Gvr, h: Gvr)
    requires s == "v1|x/y" && t == "v1/x|y"
    requires g == Gvr("", "v1|x", "y") && h == Gvr("", "v1", "x|y")
    ensures ParseGVR(s) == Some(g) && ParseGVR(t) == Some(h) && g != h && AggKey(g) == AggKey(h)
  {
    VersionBar();
    ResourceBar();
    assert "v1|x" != "v1";
  }

  lemma VersionBar()
    ensures ParseGVR("v1|x/y") == Some(Gvr("", "v1|x", "y"))
  {
    assert GvrText(Gvr("", "v1|x", "y")) == "v1|x/y";
    ParseGVROfText(Gvr("", "v1|x", "y"));
  }

  lemma ResourceBar()
    ensures ParseGVR("v1/x|y") == Some(Gvr("", "v1", "x|y"))
  {
    assert GvrText(Gvr("", "v1", "x|y")) == "v1/x|y";
    ParseGVROfText(Gvr("", "v1", "x|y"));
  }

  /** Some profile has the poll. */
  ghost predicate HasPoll(models: seq<Option<Profile>>, p: Poll) {
    exists i, k :: 0 <= i < |models| && models[i].Some? && k in models[i].value && models[i].value[k] == Some(p)
  }

  lemma PollAsks(models: seq<Option<Profile>>, p: Poll)
    requires HasPoll(models, p)
    ensures AskOf(p) in AsksOf(models)
  {
    var i, k :| 0 <= i < |models| && models[i].Some? && k in models[i].value && models[i].value[k] == Some(p);
    assert AskOf(p) in ProfileAsks(models[i].value);
  }

  lemma AskingNames(models: seq<Option<Profile>>, text: string, g: Gvr)
    requires HasPoll(models, Asking(text)) && ParseGVR(text) == Some(g) && text != ""
    ensures Named(AsksOf(models), g)
  {
    PollAsks(models, Asking(text));
    AskingAsks(text, g);
  }

  /** One poll for a version "v1|x" and one for a resource "x|y": they share a key, and
      whatever the order, some request that one of them asks for is not covered. */
  lemma BarsCollide(models: seq<Option<Profile>>, rules: seq<WebhookRule>, s: string, t: string)
    requires s == "v1|x/y" && t == "v1/x|y"
    requires Built(models, Ok(rules)) && HasPoll(models, Asking(s)) && HasPoll(models, Asking(t))
    ensures exists q: Request :: Wanted(AsksOf(models), q.gvr, q.operation) && !Covered(rules, q)
  {
    var g, h := Gvr("", "v1|x", "y"), Gvr("", "v1", "x|y");
    BarredTypes(s, t, g, h);
    PollsCollide(models, rules, s, t, g, h);
  }

  lemma PollsCollide(models: seq<Option<Profile>>, rules: seq<WebhookRule>, s: string, t: string, g: Gvr, h: Gvr)
    requires Built(models, Ok(rules)) && HasPoll(models, Asking(s)) && HasPoll(models, Asking(t))
    requires ParseGVR(s) == Some(g) && s != "" && ParseGVR(t) == Some(h) && t != "" && g != h && AggKey(g) == AggKey(h)
    ensures exists q: Request :: Wanted(AsksOf(models), q.gvr, q.operation) && !Covered(rules, q)
  {
    AskingNames(models, s, g);
    AskingNames(models, t, h);
    TypesCollide(models, rules, g, h);
  }

  lemma TypesCollide(models: seq<Option<Profile>>, rules: seq<WebhookRule>, g: Gvr, h: Gvr)
    requires Built(models, Ok(rules)) && g != h && AggKey(g) == AggKey(h)
    requires Named(AsksOf(models), g) && Named(AsksOf(models), h)
    ensures exists q: Request :: Wanted(AsksOf(models), q.gvr, q.operation) && !Covered(rules, q)
  {
    var agg, keys := BuiltSummary(models, rules);
    AsksList(models);
    OneIsLost(AsksOf(models), rules, agg, keys);
  }
}
