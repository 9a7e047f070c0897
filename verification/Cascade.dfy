/** Deletions and their cascades through the cache. */
module Cascades {
  import opened Common
  import opened Selectors
  import opened Caches

  // ----- ownership

  /** A field of an object that is a text; blank if it is missing or something else. */
  function TextOf(fields: map<string, Json>, name: string): string {
    if name in fields && fields[name].Text? then fields[name].s else ""
  }

  predicate OwnerMatches(owner: Json, uid: string, name: string, kind: string) {
    && owner.Object?
    && (|| (uid != "" && TextOf(owner.fields, "uid") == uid)
        || (TextOf(owner.fields, "name") == name && TextOf(owner.fields, "kind") == kind))
  }

  /** The owner references of an object; none if any part of the path is not as expected. */
  function OwnersOf(o: CachedObject): seq<Json> {
    match NestedValue(ContentOf(o), ["metadata", "ownerReferences"])
    case Some(List(owners)) => owners
    case _ => []
  }

  predicate OwnedBy(o: CachedObject, uid: string, name: string, kind: string) {
    exists i :: 0 <= i < |OwnersOf(o)| && OwnerMatches(OwnersOf(o)[i], uid, name, kind)
  }

  method IsOwnedBy(o: CachedObject, uid: string, name: string, kind: string) returns (r: bool)
    ensures r <==> OwnedBy(o, uid, name, kind)
  {
    if o.content.None? || "metadata" !in o.content.value {
      return false;
    }
    var metadata := o.content.value["metadata"];
    if !metadata.Object? || "ownerReferences" !in metadata.fields {
      return false;
    }
    var raw := metadata.fields["ownerReferences"];
    assert NestedValue(ContentOf(o), ["metadata", "ownerReferences"]) == Some(raw);
    if !raw.List? {
      return false;
    }
    var owners := raw.items;
    for i := 0 to |owners|
      invariant forall j :: 0 <= j < i ==> !OwnerMatches(owners[j], uid, name, kind)
    {
      var owner := owners[i];
      if !owner.Object? {
        continue;
      }
      assert OwnersOf(o)[i] == owner;
      if uid != "" && TextOf(owner.fields, "uid") == uid {
        return true;
      }
      if TextOf(owner.fields, "name") == name && TextOf(owner.fields, "kind") == kind {
        return true;
      }
    }
    r := false;
  }

  // ----- what a deletion takes away

  const NAMESPACES := "v1/namespaces"
  const DEPLOYMENTS := "apps/v1/deployments"
  const REPLICA_SETS := "apps/v1/replicasets"
  const PODS := "v1/pods"

  /** What is told about a deleted object. */
  datatype Id = Id(gvr: string, namespace: string, name: string)

  function IdOf(o: CachedObject): Id {
    Id(o.gvr, o.namespace, o.name)
  }

  /** The keys of the objects in a namespace, namespaces themselves excepted. */
  function InNamespace(objs: Objects, namespace: string): set<string> {
    set k | k in objs && objs[k].namespace == namespace && objs[k].gvr != NAMESPACES
  }

  /** The keys of the namespace's ReplicaSets that belong to a Deployment. */
  function OwnedSets(objs: Objects, namespace: string, name: string, uid: string): set<string> {
    set k | k in objs && objs[k].gvr == REPLICA_SETS && objs[k].namespace == namespace
            && OwnedBy(objs[k], uid, name, "Deployment")
  }

  /** The keys of the namespace's Pods that belong to one of the ReplicaSets. */
  function OwnedPods(objs: Objects, namespace: string, sets: set<string>): set<string>
    requires sets <= objs.Keys
  {
    set k | k in objs && objs[k].gvr == PODS && objs[k].namespace == namespace
            && exists s :: s in sets && OwnedBy(objs[k], objs[s].uid, objs[s].name, "ReplicaSet")
  }

  /** Everything a deletion takes away besides the object itself. `uid` is that of the
      deleted object, blank if it was not cached. */
  function Cascade(objs: Objects, gvr: string, namespace: string, name: string, uid: string): set<string> {
    if gvr == NAMESPACES then
      if name == "" then {} else InNamespace(objs, name)
    else if gvr == DEPLOYMENTS && namespace != "" && name != "" then
      var sets := OwnedSets(objs, namespace, name, uid);
      sets + OwnedPods(objs, namespace, sets)
    else {}
  }

  /** The listed objects are those of the keys, each told once. */
  ghost predicate TellsAll(objs: Objects, keys: set<string>, told: seq<Id>) {
    && Distinct(told)
    && keys <= objs.Keys
    && forall id :: id in told <==> exists k :: k in keys && IdOf(objs[k]) == id
  }

  lemma TellOneMore(objs: Objects, keys: set<string>, told: seq<Id>, k: string)
    requires Filed(objs) && TellsAll(objs, keys, told) && k in objs && k !in keys
    ensures TellsAll(objs, keys + {k}, told + [IdOf(objs[k])])
  {
    var id := IdOf(objs[k]);
    forall k2 | k2 in keys ensures IdOf(objs[k2]) != id {
      assert KeyOf(objs[k2]) == k2;
    }
    assert id !in told;
    forall x ensures x in told + [id] <==> exists k2 :: k2 in keys + {k} && IdOf(objs[k2]) == x {
      if x == id {
        assert k in keys + {k};
      } else if x in told {
        var k2 :| k2 in keys && IdOf(objs[k2]) == x;
        assert k2 in keys + {k};
      }
    }
  }

  // ----- the deletion itself

  class Runtime {
    const cache: CollectorCache
    var registered: bool  // a delete callback is registered
    var told: seq<Id>     // what the callback was called with

    constructor (cache: CollectorCache)
      ensures this.cache == cache && !registered && told == []
    {
      this.cache, registered, told := cache, false, [];
    }

    /** Where a cascade over `objs` stands that has taken away the objects of `gone`. */
    ghost predicate Gone(objs: Objects, before: seq<Id>, gone: set<string>, since: seq<Id>)
      reads this, cache
    {
      && Filed(objs) && TellsAll(objs, gone, since)
      && cache.objects == objs - gone
      && told == if registered then before + since else before
    }

    /** Takes one object away and tells it. */
    method Remove(o: CachedObject, ghost objs: Objects, ghost before: seq<Id>, ghost gone: set<string>, ghost since: seq<Id>)
      requires Gone(objs, before, gone, since)
      requires KeyOf(o) in objs && objs[KeyOf(o)] == o && KeyOf(o) !in gone
      modifies cache, this`told
      ensures Gone(objs, before, gone + {KeyOf(o)}, since + [IdOf(o)])
    {
      cache.Delete(o.gvr, o.namespace, o.name);
      if registered {
        told := told + [Id(o.gvr, o.namespace, o.name)];
      }
      TellOneMore(objs, gone, since, KeyOf(o));
    }

    /** The same, with what is gone in two parts. */
    method RemoveMore(o: CachedObject, ghost objs: Objects, ghost before: seq<Id>, ghost gone: set<string>,
                      ghost mine: set<string>, ghost since: seq<Id>)
      requires Gone(objs, before, gone + mine, since)
      requires KeyOf(o) in objs && objs[KeyOf(o)] == o && KeyOf(o) !in gone + mine
      modifies cache, this`told
      ensures Gone(objs, before, gone + (mine + {KeyOf(o)}), since + [IdOf(o)])
    {
      Remove(o, objs, before, gone + mine, since);
      assert gone + mine + {KeyOf(o)} == gone + (mine + {KeyOf(o)});
    }

    method CascadeNamespaceDelete(namespace: string) returns (ghost since: seq<Id>)
      requires Filed(cache.objects)
      modifies cache, this`told
      ensures Gone(old(cache.objects), old(told),
                   if namespace == "" then {} else InNamespace(old(cache.objects), namespace), since)
    {
      ghost var objs, before := cache.objects, told;
      ghost var gone := {};
      since := [];
      if namespace == "" {
        return;
      }
      var entries := cache.List("", namespace, "");
      for i := 0 to |entries|
        invariant Gone(objs, before, gone, since)
        invariant gone == set j | 0 <= j < i && entries[j].gvr != NAMESPACES :: KeyOf(entries[j])
      {
        var entry := entries[i];
        if entry.gvr == NAMESPACES {
          continue;
        }
        assert entry in entries;
        Remove(entry, objs, before, gone, since);
        since := since + [IdOf(entry)];
        gone := gone + {KeyOf(entry)};
      }
      ListedKeys(entries, objs, namespace);
    }

    /** Takes away the Pods of one ReplicaSet that are still cached. */
    method DeletePodsOf(rs: CachedObject, namespace: string, ghost objs: Objects, ghost before: seq<Id>,
                        ghost gone: set<string>, ghost since: seq<Id>)
      returns (ghost since': seq<Id>)
      requires Gone(objs, before, gone, since) && namespace != ""
      modifies cache, this`told
      ensures Gone(objs, before, gone + PodsOf(objs, namespace, rs), since')
    {
      var pods := cache.List(PODS, namespace, "");
      ListedOnce(pods, objs);
      since' := since;
      ghost var mine := {};
      for i := 0 to |pods|
        invariant Gone(objs, before, gone + mine, since')
        invariant mine == OwnedKeys(pods[..i], rs)
      {
        assert pods[..i + 1] == pods[..i] + [pods[i]];
        OwnedKeysSnoc(pods[..i], pods[i], rs);
        var owned := IsOwnedBy(pods[i], rs.uid, rs.name, "ReplicaSet");
        if owned {
          NotYetGone(pods, objs, i, rs);
          RemoveMore(pods[i], objs, before, gone, mine, since');
          since' := since' + [IdOf(pods[i])];
          mine := mine + {KeyOf(pods[i])};
        }
      }
      assert pods[..|pods|] == pods;
      ListedPods(pods, objs, gone, namespace, rs);
    }

    /** The ReplicaSets of the namespace that belong to a Deployment. */
    method ListOwnedSets(namespace: string, name: string, uid: string) returns (owned: seq<CachedObject>)
      requires Filed(cache.objects) && namespace != ""
      ensures Lists(owned, cache.objects, OwnedSets(cache.objects, namespace, name, uid))
    {
      var all := cache.List(REPLICA_SETS, namespace, "");
      owned := [];
      for i := 0 to |all|
        invariant Distinct(owned)
        invariant forall o :: o in owned <==> o in all[..i] && OwnedBy(o, uid, name, "Deployment")
      {
        var mine := IsOwnedBy(all[i], uid, name, "Deployment");
        if mine {
          assert all[i] !in all[..i];
          owned := owned + [all[i]];
        }
      }
      assert all[..|all|] == all;
      ListedSets(owned, cache.objects, namespace, name, uid);
    }

    /** Takes away a Deployment's ReplicaSets, each after its Pods. */
    method CascadeDeploymentDelete(namespace: string, name: string, uid: string) returns (ghost since: seq<Id>)
      requires Filed(cache.objects)
      modifies cache, this`told
      ensures Gone(old(cache.objects), old(told),
                   Cascade(old(cache.objects), DEPLOYMENTS, namespace, name, uid), since)
    {
      ghost var objs, before := cache.objects, told;
      since := [];
      if namespace == "" || name == "" {
        return;
      }
      var ownedRS := ListOwnedSets(namespace, name, uid);
      ghost var sets := OwnedSets(objs, namespace, name, uid);
      ghost var done := {};
      for i := 0 to |ownedRS|
        invariant done <= sets && done == KeysOf(ownedRS[..i])
        invariant Gone(objs, before, done + OwnedPods(objs, namespace, done), since)
      {
        var rs := ownedRS[i];
        NextSet(ownedRS, objs, sets, i);
        since := DeletePodsOf(rs, namespace, objs, before, done + OwnedPods(objs, namespace, done), since);
        MorePods(objs, namespace, done, rs);
        SetNotPod(objs, namespace, name, uid, done, rs);
        Remove(rs, objs, before, done + OwnedPods(objs, namespace, done + {KeyOf(rs)}), since);
        since := since + [IdOf(rs)];
        done := done + {KeyOf(rs)};
      }
      assert ownedRS[..|ownedRS|] == ownedRS;
    }

    /** The single entry point for deletions: the object goes, and everything that hangs on
        it. Whatever goes is told once, the object itself even if it was not cached. */
    method HandleResourceDeletion(gvr: string, namespace: string, name: string) returns (ghost since: seq<Id>)
      requires Filed(cache.objects)
      modifies cache, this`told
      ensures var k := CacheKey(gvr, namespace, name);
              var uid := if k in old(cache.objects) then old(cache.objects)[k].uid else "";
              var rest := old(cache.objects) - {k};
              && Filed(cache.objects)
              && cache.objects == Left(old(cache.objects), Id(gvr, namespace, name))
              && TellsAll(rest, Cascade(rest, gvr, namespace, name, uid), since)
              && Id(gvr, namespace, name) !in since
              && told == if registered then old(told) + [Id(gvr, namespace, name)] + since else old(told)
    {
      var uid := "";
      var existing := cache.Get(gvr, namespace, name);
      if existing.Some? {
        uid := existing.value.uid;
      }
      cache.Delete(gvr, namespace, name);
      if registered {
        told := told + [Id(gvr, namespace, name)];
      }
      ghost var rest := cache.objects;
      since := [];
      if gvr == NAMESPACES {
        since := CascadeNamespaceDelete(name);
      }
      if gvr == DEPLOYMENTS {
        since := CascadeDeploymentDelete(namespace, name, uid);
      }
      RootNotTold(rest, Cascade(rest, gvr, namespace, name, uid), since, Id(gvr, namespace, name));
    }
  }

  function KeysOf(os: seq<CachedObject>): set<string> {
    set o | o in os :: KeyOf(o)
  }

  /** The list holds the objects of exactly these keys, each once. */
  ghost predicate Lists(os: seq<CachedObject>, objs: Objects, keys: set<string>) {
    && KeysOf(os) == keys
    && (forall i :: 0 <= i < |os| ==> KeyOf(os[i]) in objs && objs[KeyOf(os[i])] == os[i])
    && (forall i, j :: 0 <= i < j < |os| ==> KeyOf(os[i]) != KeyOf(os[j]))
  }

  lemma ListedSets(owned: seq<CachedObject>, objs: Objects, namespace: string, name: string, uid: string)
    requires Filed(objs) && Distinct(owned)
    requires forall o :: o in owned <==>
               KeyOf(o) in objs && objs[KeyOf(o)] == o && o.gvr == REPLICA_SETS && o.namespace == namespace
               && OwnedBy(o, uid, name, "Deployment")
    ensures Lists(owned, objs, OwnedSets(objs, namespace, name, uid))
  {
    ListedOnce(owned, objs);
    forall i | 0 <= i < |owned| ensures KeyOf(owned[i]) in objs && objs[KeyOf(owned[i])] == owned[i] {
      assert owned[i] in owned;
    }
    forall k | k in OwnedSets(objs, namespace, name, uid) ensures k in KeysOf(owned) {
      assert objs[k] in owned;
    }
  }

  lemma NextSet(os: seq<CachedObject>, objs: Objects, keys: set<string>, i: nat)
    requires Lists(os, objs, keys) && i < |os|
    ensures KeysOf(os[..i + 1]) == KeysOf(os[..i]) + {KeyOf(os[i])}
    ensures KeyOf(os[i]) in keys && KeyOf(os[i]) !in KeysOf(os[..i]) && objs[KeyOf(os[i])] == os[i]
  {
    assert os[..i + 1] == os[..i] + [os[i]];
    assert os[i] in os;
  }

  /** The Pods of one more ReplicaSet. */
  lemma MorePods(objs: Objects, namespace: string, done: set<string>, rs: CachedObject)
    requires Filed(objs) && done <= objs.Keys && KeyOf(rs) in objs && objs[KeyOf(rs)] == rs
    ensures OwnedPods(objs, namespace, done + {KeyOf(rs)}) == OwnedPods(objs, namespace, done) + PodsOf(objs, namespace, rs)
    ensures done + OwnedPods(objs, namespace, done) + PodsOf(objs, namespace, rs) ==
            done + OwnedPods(objs, namespace, done + {KeyOf(rs)})
  {
    forall k | k in PodsOf(objs, namespace, rs) ensures k in OwnedPods(objs, namespace, done + {KeyOf(rs)}) {
      assert KeyOf(rs) in done + {KeyOf(rs)};
    }
    forall k | k in OwnedPods(objs, namespace, done) ensures k in OwnedPods(objs, namespace, done + {KeyOf(rs)}) {
      var s :| s in done && OwnedBy(objs[k], objs[s].uid, objs[s].name, "ReplicaSet");
      assert s in done + {KeyOf(rs)};
    }
  }

  lemma SetNotPod(objs: Objects, namespace: string, name: string, uid: string, done: set<string>, rs: CachedObject)
    requires Filed(objs) && done <= objs.Keys && KeyOf(rs) !in done
    requires KeyOf(rs) in OwnedSets(objs, namespace, name, uid) && objs[KeyOf(rs)] == rs
    ensures KeyOf(rs) !in done + OwnedPods(objs, namespace, done + {KeyOf(rs)})
    ensures done + OwnedPods(objs, namespace, done + {KeyOf(rs)}) + {KeyOf(rs)} ==
            done + {KeyOf(rs)} + OwnedPods(objs, namespace, done + {KeyOf(rs)})
  {
  }

  lemma RootNotTold(objs: Objects, keys: set<string>, told: seq<Id>, root: Id)
    requires Filed(objs) && TellsAll(objs, keys, told) && CacheKey(root.gvr, root.namespace, root.name) !in objs
    ensures root !in told
  {
    forall k | k in keys ensures IdOf(objs[k]) != root {
      assert KeyOf(objs[k]) == k;
    }
  }

  /** The keys of the listed Pods that belong to the ReplicaSet. */
  ghost function OwnedKeys(pods: seq<CachedObject>, rs: CachedObject): set<string> {
    set o | o in pods && OwnedBy(o, rs.uid, rs.name, "ReplicaSet") :: KeyOf(o)
  }

  lemma OwnedKeysSnoc(pods: seq<CachedObject>, pod: CachedObject, rs: CachedObject)
    ensures OwnedKeys(pods + [pod], rs) ==
            OwnedKeys(pods, rs) + if OwnedBy(pod, rs.uid, rs.name, "ReplicaSet") then {KeyOf(pod)} else {}
  {
    forall k | k in OwnedKeys(pods, rs) ensures k in OwnedKeys(pods + [pod], rs) {
      var o :| o in pods && OwnedBy(o, rs.uid, rs.name, "ReplicaSet") && KeyOf(o) == k;
      assert o in pods + [pod];
    }
    assert pod in pods + [pod];
  }

  /** Listed objects have different keys. */
  lemma ListedOnce(os: seq<CachedObject>, objs: Objects)
    requires Distinct(os) && forall o :: o in os ==> KeyOf(o) in objs && objs[KeyOf(o)] == o
    ensures forall i, j :: 0 <= i < j < |os| ==> KeyOf(os[i]) != KeyOf(os[j])
  {
    forall i, j | 0 <= i < j < |os| ensures KeyOf(os[i]) != KeyOf(os[j]) {
      assert os[i] in os && os[j] in os;
    }
  }

  lemma NotYetGone(pods: seq<CachedObject>, objs: Objects, i: nat, rs: CachedObject)
    requires i < |pods| && forall a, b :: 0 <= a < b < |pods| ==> KeyOf(pods[a]) != KeyOf(pods[b])
    ensures KeyOf(pods[i]) !in OwnedKeys(pods[..i], rs) && pods[i] in pods
  {
  }

  /** The keys of the namespace's Pods that belong to one ReplicaSet. */
  function PodsOf(objs: Objects, namespace: string, rs: CachedObject): set<string> {
    set k | k in objs && objs[k].gvr == PODS && objs[k].namespace == namespace
            && OwnedBy(objs[k], rs.uid, rs.name, "ReplicaSet")
  }

  lemma ListedPods(pods: seq<CachedObject>, objs: Objects, gone: set<string>, namespace: string, rs: CachedObject)
    requires Filed(objs)
    requires forall o :: o in pods <==>
               KeyOf(o) in objs && KeyOf(o) !in gone && objs[KeyOf(o)] == o && o.gvr == PODS && o.namespace == namespace
    ensures gone + OwnedKeys(pods, rs) == gone + PodsOf(objs, namespace, rs)
  {
    forall k | k in PodsOf(objs, namespace, rs) && k !in gone ensures k in OwnedKeys(pods, rs) {
      assert objs[k] in pods;
    }
  }

  lemma ListedKeys(entries: seq<CachedObject>, objs: Objects, namespace: string)
    requires Filed(objs)
    requires forall o :: o in entries <==> KeyOf(o) in objs && objs[KeyOf(o)] == o && o.namespace == namespace
    ensures (set j | 0 <= j < |entries| && entries[j].gvr != NAMESPACES :: KeyOf(entries[j])) == InNamespace(objs, namespace)
  {
    forall k | k in InNamespace(objs, namespace)
      ensures k in set j | 0 <= j < |entries| && entries[j].gvr != NAMESPACES :: KeyOf(entries[j])
    {
      assert objs[k] in entries;
    }
    forall j | 0 <= j < |entries| && entries[j].gvr != NAMESPACES ensures KeyOf(entries[j]) in InNamespace(objs, namespace) {
      assert entries[j] in entries;
    }
  }

  // ----- what a deletion leaves

  /** What is left after a deletion, given what is stored under its key. */
  function Left(objs: Objects, root: Id): Objects {
    var k := CacheKey(root.gvr, root.namespace, root.name);
    var uid := if k in objs then objs[k].uid else "";
    (objs - {k}) - Cascade(objs - {k}, root.gvr, root.namespace, root.name, uid)
  }

  /** What is cached under the key of the root, if anything, is the root. */
  ghost predicate RootIsOwn(objs: Objects, root: Id) {
    KeyIsOwn(objs, root.gvr, root.namespace, root.name)
  }

  /** What a deletion of a namespace should leave: the other objects that are outside it or
      are namespaces themselves. */
  predicate OutlivesNamespace(o: CachedObject, root: Id) {
    IdOf(o) != root && (o.namespace != root.name || o.gvr == NAMESPACES)
  }

  /** Deleting a namespace leaves exactly these objects, as they were, whatever namespace the
      deletion itself carries: if and only if the entry under the root's key is the root, or
      goes with the namespace anyway. */
  lemma NamespaceDeletionExact(objs: Objects, ns: string, name: string)
    requires Filed(objs) && name != ""
    ensures var root := Id(NAMESPACES, ns, name);
            var key := CacheKey(NAMESPACES, ns, name);
            && (forall k :: k in Left(objs, root) ==> k in objs && Left(objs, root)[k] == objs[k])
            && ((forall k :: k in objs ==> (k in Left(objs, root) <==> OutlivesNamespace(objs[k], root))) <==>
                (key in objs ==> IdOf(objs[key]) == root || (objs[key].namespace == name && objs[key].gvr != NAMESPACES)))
  {
    var root, key := Id(NAMESPACES, ns, name), CacheKey(NAMESPACES, ns, name);
    if key in objs {
      assert key !in Left(objs, root);
    }
    forall k | k in objs && k != key ensures k in Left(objs, root) <==> OutlivesNamespace(objs[k], root) {
      assert KeyOf(objs[k]) == k;
    }
  }

  /** A deletion that carries the namespace's own name, as an admission review does, empties
      the namespace but leaves the entry of the namespace itself, which an informer files
      without a namespace. */
  lemma NamespaceEntryStays(objs: Objects, name: string)
    requires Filed(objs) && name != "" && CacheKey(NAMESPACES, "", name) in objs
    requires RootIsOwn(objs, Id(NAMESPACES, "", name)) && RootIsOwn(objs, Id(NAMESPACES, name, name))
    ensures var k := CacheKey(NAMESPACES, "", name); var left := Left(objs, Id(NAMESPACES, name, name));
            && k in left && left[k] == objs[k]
            && (forall x :: x in left && left[x].namespace == name ==> left[x].gvr == NAMESPACES)
  {
    NamespaceDeletionExact(objs, name, name);
  }

  /** The object is a ReplicaSet of the Deployment. */
  predicate IsSetOf(o: CachedObject, root: Id, uid: string) {
    o.gvr == REPLICA_SETS && o.namespace == root.namespace && OwnedBy(o, uid, root.name, "Deployment")
  }

  predicate IsPodOf(o: CachedObject, root: Id, s: CachedObject) {
    o.gvr == PODS && o.namespace == root.namespace && OwnedBy(o, s.uid, s.name, "ReplicaSet")
  }

  /** The object is a Pod of a ReplicaSet of the Deployment that is not filed under `but`. */
  ghost predicate IsPodBelow(objs: Objects, o: CachedObject, root: Id, uid: string, but: string) {
    exists s :: s in objs && s != but && IsSetOf(objs[s], root, uid) && IsPodOf(o, root, objs[s])
  }

  /** What a deletion of a Deployment should leave: the other objects that are neither one of
      its ReplicaSets nor a Pod of one of those. */
  ghost predicate OutlivesDeployment(objs: Objects, o: CachedObject, root: Id, uid: string) {
    && IdOf(o) != root
    && !IsSetOf(o, root, uid)
    && !(exists s :: s in objs && IsSetOf(objs[s], root, uid) && IsPodOf(o, root, objs[s]))
  }

  function UidAt(objs: Objects, k: string): string {
    if k in objs then objs[k].uid else ""
  }

  /** The entry under the root's key is the root; or it goes with the Deployment anyway, and
      if it is one of its ReplicaSets, all its Pods belong to another one too. */
  ghost predicate RootGoesAlong(objs: Objects, root: Id) {
    var key := CacheKey(root.gvr, root.namespace, root.name);
    key in objs ==>
      || IdOf(objs[key]) == root
      || (&& !OutlivesDeployment(objs, objs[key], root, objs[key].uid)
          && (IsSetOf(objs[key], root, objs[key].uid) ==>
                forall k :: k in objs && IsPodOf(objs[k], root, objs[key]) ==> IsPodBelow(objs, objs[k], root, objs[key].uid, key)))
  }

  lemma SetsElsewhere(objs: Objects, namespace: string, name: string, s: string)
    ensures var root, key := Id(DEPLOYMENTS, namespace, name), CacheKey(DEPLOYMENTS, namespace, name);
            s in OwnedSets(objs - {key}, namespace, name, UidAt(objs, key)) <==>
              s in objs && s != key && IsSetOf(objs[s], root, UidAt(objs, key))
  {
  }

  /** What is left at any other key than the root's. */
  lemma LeftElsewhere(objs: Objects, namespace: string, name: string, k: string)
    requires Filed(objs) && namespace != "" && name != ""
    requires k in objs && k != CacheKey(DEPLOYMENTS, namespace, name)
    ensures var root, key := Id(DEPLOYMENTS, namespace, name), CacheKey(DEPLOYMENTS, namespace, name);
            k in Left(objs, root) <==>
              !IsSetOf(objs[k], root, UidAt(objs, key)) && !IsPodBelow(objs, objs[k], root, UidAt(objs, key), key)
  {
    var root, key := Id(DEPLOYMENTS, namespace, name), CacheKey(DEPLOYMENTS, namespace, name);
    var uid, rest := UidAt(objs, key), objs - {key};
    SetsElsewhere(objs, namespace, name, k);
    if IsPodBelow(objs, objs[k], root, uid, key) {
      var s :| s in objs && s != key && IsSetOf(objs[s], root, uid) && IsPodOf(objs[k], root, objs[s]);
      SetsElsewhere(objs, namespace, name, s);
    }
    if k in OwnedPods(rest, namespace, OwnedSets(rest, namespace, name, uid)) {
      var s :| s in OwnedSets(rest, namespace, name, uid) && OwnedBy(rest[k], rest[s].uid, rest[s].name, "ReplicaSet");
      SetsElsewhere(objs, namespace, name, s);
    }
  }

  /** Deleting a Deployment leaves exactly the other objects that are neither one of its
      ReplicaSets nor a Pod of one of those, as they were: if and only if the entry under the
      root's key goes along. */
  lemma DeploymentDeletionExact(objs: Objects, namespace: string, name: string)
    requires Filed(objs) && namespace != "" && name != ""
    ensures var root := Id(DEPLOYMENTS, namespace, name);
            var uid := UidAt(objs, CacheKey(DEPLOYMENTS, namespace, name));
            && (forall k :: k in Left(objs, root) ==> k in objs && Left(objs, root)[k] == objs[k])
            && ((forall k :: k in objs ==> (k in Left(objs, root) <==> OutlivesDeployment(objs, objs[k], root, uid))) <==>
                RootGoesAlong(objs, root))
  {
    var root, key := Id(DEPLOYMENTS, namespace, name), CacheKey(DEPLOYMENTS, namespace, name);
    var uid := UidAt(objs, key);
    forall k | k in objs && k != key
      ensures k in Left(objs, root) <==> (OutlivesDeployment(objs, objs[k], root, uid) || PodOfEntryOnly(objs, objs[k], root, uid, key))
    {
      LeftElsewhere(objs, namespace, name, k);
      OutlivesElsewhere(objs, root, uid, key, k);
    }
    if key in objs {
      assert key !in Left(objs, root);
    }
  }

  /** The object is a Pod of the entry under the root's key, as a ReplicaSet, and of no other. */
  ghost predicate PodOfEntryOnly(objs: Objects, o: CachedObject, root: Id, uid: string, key: string) {
    && key in objs && IsSetOf(objs[key], root, uid) && IsPodOf(o, root, objs[key])
    && !IsPodBelow(objs, o, root, uid, key)
  }

  lemma OutlivesElsewhere(objs: Objects, root: Id, uid: string, key: string, k: string)
    requires Filed(objs) && k in objs && k != key && key == CacheKey(root.gvr, root.namespace, root.name)
    ensures !IsSetOf(objs[k], root, uid) && !IsPodBelow(objs, objs[k], root, uid, key) <==>
              OutlivesDeployment(objs, objs[k], root, uid) || PodOfEntryOnly(objs, objs[k], root, uid, key)
  {
    assert KeyOf(objs[k]) == k;
  }
}
