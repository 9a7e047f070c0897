/** The collector's cache of Kubernetes objects. */
module Caches {
  import opened Common
  import opened Selectors

  function CacheKey(gvr: string, namespace: string, name: string): string {
    gvr + "::" + namespace + "::" + name
  }

  function KeyOf(o: CachedObject): string {
    CacheKey(o.gvr, o.namespace, o.name)
  }

  type Objects = map<string, CachedObject>

  /** Every object is stored under its own key. */
  ghost predicate Filed(objs: Objects) {
    forall k :: k in objs ==> KeyOf(objs[k]) == k
  }

  class CollectorCache {
    const show: Json -> string
    var objects: Objects

    constructor (show: Json -> string)
      ensures this.show == show && objects == map[]
    {
      this.show := show;
      objects := map[];
    }

    /** Stores an object under its key; the time of observation is set if it has none. */
    method Upsert(obj: Option<CachedObject>, now: int)
      modifies this
      ensures obj.None? ==> objects == old(objects)
      ensures obj.Some? ==>
                var o := obj.value.(observedAt := if obj.value.observedAt == 0 then now else obj.value.observedAt);
                objects == old(objects)[KeyOf(o) := o]
      ensures Filed(old(objects)) ==> Filed(objects)
    {
      if obj.None? {
        return;
      }
      var o := obj.value;
      if o.observedAt == 0 {
        o := o.(observedAt := now);
      }
      objects := objects[KeyOf(o) := o];
    }

    method Delete(gvr: string, namespace: string, name: string)
      modifies this
      ensures objects == old(objects) - {CacheKey(gvr, namespace, name)}
    {
      objects := objects - {CacheKey(gvr, namespace, name)};
    }

    method Get(gvr: string, namespace: string, name: string) returns (r: Option<CachedObject>)
      ensures var k := CacheKey(gvr, namespace, name); r == if k in objects then Some(objects[k]) else None
    {
      var k := CacheKey(gvr, namespace, name);
      r := if k in objects then Some(objects[k]) else None;
    }

    /** The objects asked for, each once, in whatever order the map yields them; empty texts
        ask for everything. */
    method List(gvr: string, namespace: string, selector: string) returns (r: seq<CachedObject>)
      requires Filed(objects)
      ensures forall o :: o in r <==>
                && KeyOf(o) in objects && objects[KeyOf(o)] == o
                && (gvr == "" || o.gvr == gvr) && (namespace == "" || o.namespace == namespace) && MatchesSelector(show, o, selector)
      ensures Distinct(r)
    {
      r := [];
      var left := objects.Keys;
      while left != {}
        invariant left <= objects.Keys
        invariant forall o :: o in r <==>
                    && KeyOf(o) in objects && KeyOf(o) !in left && objects[KeyOf(o)] == o
                    && (gvr == "" || o.gvr == gvr) && (namespace == "" || o.namespace == namespace)
                    && MatchesSelector(show, o, selector)
        invariant Distinct(r)
      {
        var k :| k in left;
        left := left - {k};
        var obj := objects[k];
        assert obj !in r;
        if gvr != "" && obj.gvr != gvr {
          continue;
        }
        if namespace != "" && obj.namespace != namespace {
          continue;
        }
        var matches := Matches(show, obj, selector);
        if !matches {
          continue;
        }
        r := r + [obj];
      }
    }
  }

  // ----- keys

  predicate NoColon(s: string) {
    ':' !in s
  }

  lemma HeadOf(a: string, x: string)
    ensures (a + "::" + x)[0] == if a == [] then ':' else a[0]
  {
  }

  /** The text before the first "::" and the text after it are determined by the whole. */
  lemma {:induction false} ColonSplit(a: string, x: string, b: string, y: string)
    requires NoColon(a) && NoColon(b) && a + "::" + x == b + "::" + y
    ensures a == b && x == y
  {
    var s, t := a + "::" + x, b + "::" + y;
    HeadOf(a, x);
    HeadOf(b, y);
    if a == [] || b == [] {
      assert s[2..] == x && t[2..] == y;
    } else {
      assert s[0] == a[0] && t[0] == b[0];
      assert s[1..] == a[1..] + "::" + x && t[1..] == b[1..] + "::" + y;
      ColonSplit(a[1..], x, b[1..], y);
      assert a == [a[0]] + a[1..] && b == [b[0]] + b[1..];
    }
  }

  /** Keys are unambiguous when resource types and namespaces hold no colon, whatever the
      names look like. */
  lemma CacheKeyInjective(g1: string, s1: string, n1: string, g2: string, s2: string, n2: string)
    requires NoColon(g1) && NoColon(s1) && NoColon(g2) && NoColon(s2)
    requires CacheKey(g1, s1, n1) == CacheKey(g2, s2, n2)
    ensures g1 == g2 && s1 == s2 && n1 == n2
  {
    assert CacheKey(g1, s1, n1) == g1 + "::" + (s1 + "::" + n1);
    assert CacheKey(g2, s2, n2) == g2 + "::" + (s2 + "::" + n2);
    ColonSplit(g1, s1 + "::" + n1, g2, s2 + "::" + n2);
    ColonSplit(s1, n1, s2, n2);
  }

  /** The object has this resource type, namespace and name. */
  predicate HasIdentity(o: CachedObject, gvr: string, namespace: string, name: string) {
    o.gvr == gvr && o.namespace == namespace && o.name == name
  }

  /** What is cached under the key of an identity, if anything, is the object of that identity. */
  ghost predicate KeyIsOwn(objs: Objects, gvr: string, namespace: string, name: string) {
    var k := CacheKey(gvr, namespace, name);
    k in objs ==> HasIdentity(objs[k], gvr, namespace, name)
  }

  /** Looking up an identity finds that object and no other, and deleting it removes that
      object and no other: if and only if the entry under its key is its own. */
  lemma FoundByIdentity(objs: Objects, gvr: string, namespace: string, name: string)
    requires Filed(objs)
    ensures (forall k :: k in objs ==> (k == CacheKey(gvr, namespace, name) <==> HasIdentity(objs[k], gvr, namespace, name)))
              <==> KeyIsOwn(objs, gvr, namespace, name)
  {
  }

  /** Without colons in types and namespaces every entry is its own. */
  lemma ColonFreeIsOwn(objs: Objects, gvr: string, namespace: string, name: string)
    requires Filed(objs) && NoColon(gvr) && NoColon(namespace)
    requires forall k :: k in objs ==> NoColon(objs[k].gvr) && NoColon(objs[k].namespace)
    ensures KeyIsOwn(objs, gvr, namespace, name)
  {
    var k := CacheKey(gvr, namespace, name);
    if k in objs {
      CacheKeyInjective(objs[k].gvr, objs[k].namespace, objs[k].name, gvr, namespace, name);
    }
  }

  /** A colon in a namespace can make two different objects share a key. */
  lemma CacheKeyCollides(g: string, s: string, t: string, n: string)
    ensures CacheKey(g, s + "::" + t, n) == CacheKey(g, s, t + "::" + n)
  {
    assert CacheKey(g, s + "::" + t, n) == g + "::" + s + "::" + t + "::" + n;
  }
}
