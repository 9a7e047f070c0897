/** Who owns a cached object, read off its JSON, and what a deletion therefore leaves. */
module Ownerships {
  import opened Common
  import opened Selectors
  import opened Caches
  import opened Cascades

  /** The field reads as this text; one that is missing or no text reads as blank. */
  ghost predicate Reads(fields: map<string, Json>, field: string, text: string) {
    if field in fields && fields[field].Text? then fields[field] == Text(text) else text == ""
  }

  /** The reference names this owner: by a UID that is not blank, or by name and kind. */
  ghost predicate Names(reference: Json, uid: string, name: string, kind: string) {
    && reference.Object?
    && (|| (uid != "" && "uid" in reference.fields && reference.fields["uid"] == Text(uid))
        || (Reads(reference.fields, "name", name) && Reads(reference.fields, "kind", kind)))
  }

  /** The object has a list of owner references, and one of them names this owner. */
  ghost predicate Refers(o: CachedObject, uid: string, name: string, kind: string) {
    && o.content.Some? && "metadata" in o.content.value && o.content.value["metadata"].Object?
    && "ownerReferences" in o.content.value["metadata"].fields
    && match o.content.value["metadata"].fields["ownerReferences"]
       case List(references) => exists i :: 0 <= i < |references| && Names(references[i], uid, name, kind)
       case _ => false
  }

  lemma MatchesIsNames(reference: Json, uid: string, name: string, kind: string)
    ensures OwnerMatches(reference, uid, name, kind) <==> Names(reference, uid, name, kind)
  {
  }

  /** An object is owned if and only if one of its owner references names the owner; without
      a list of references where it belongs nothing owns it. */
  lemma OwnedExactly(o: CachedObject, uid: string, name: string, kind: string)
    ensures OwnedBy(o, uid, name, kind) <==> Refers(o, uid, name, kind)
  {
    NestedTwo(o, "metadata", "ownerReferences");
    forall i | 0 <= i < |OwnersOf(o)|
      ensures OwnerMatches(OwnersOf(o)[i], uid, name, kind) <==> Names(OwnersOf(o)[i], uid, name, kind)
    {
      MatchesIsNames(OwnersOf(o)[i], uid, name, kind);
    }
    if Refers(o, uid, name, kind) {
      assert OwnersOf(o) == o.content.value["metadata"].fields["ownerReferences"].items;
    }
  }

  /** The object is a ReplicaSet of the namespace that refers to the Deployment. */
  ghost predicate SetOf(o: CachedObject, namespace: string, name: string, uid: string) {
    o.gvr == "apps/v1/replicasets" && o.namespace == namespace && Refers(o, uid, name, "Deployment")
  }

  /** The object is a Pod of the namespace that refers to the ReplicaSet. */
  ghost predicate PodOf(o: CachedObject, namespace: string, s: CachedObject) {
    o.gvr == "v1/pods" && o.namespace == namespace && Refers(o, s.uid, s.name, "ReplicaSet")
  }

  lemma SetsExactly(o: CachedObject, namespace: string, name: string, uid: string)
    ensures IsSetOf(o, Id(DEPLOYMENTS, namespace, name), uid) <==> SetOf(o, namespace, name, uid)
  {
    OwnedExactly(o, uid, name, "Deployment");
  }

  lemma PodsExactly(o: CachedObject, namespace: string, name: string, s: CachedObject)
    ensures IsPodOf(o, Id(DEPLOYMENTS, namespace, name), s) <==> PodOf(o, namespace, s)
  {
    OwnedExactly(o, s.uid, s.name, "ReplicaSet");
  }

  /** Deleting a Deployment takes away, besides what is cached under its key, exactly the
      ReplicaSets of its namespace that refer to it, by the UID that was cached or by name
      and kind, and the Pods of the namespace that refer to one of these. */
  lemma DeploymentTakes(objs: Objects, namespace: string, name: string, k: string)
    requires Filed(objs) && namespace != "" && name != "" && k in objs
    ensures var key := CacheKey("apps/v1/deployments", namespace, name);
            var left := Left(objs, Id("apps/v1/deployments", namespace, name));
            var uid := if key in objs then objs[key].uid else "";
            && (k in left ==> left[k] == objs[k])
            && (k in left <==>
                  && k != key && !SetOf(objs[k], namespace, name, uid)
                  && !(exists s ::
                         s in objs && s != key && SetOf(objs[s], namespace, name, uid) && PodOf(objs[k], namespace, objs[s])))
  {
    var root, key := Id(DEPLOYMENTS, namespace, name), CacheKey(DEPLOYMENTS, namespace, name);
    var uid := UidAt(objs, key);
    if k == key {
      assert k !in Left(objs, root);
    } else {
      LeftElsewhere(objs, namespace, name, k);
      SetsExactly(objs[k], namespace, name, uid);
      BelowExactly(objs, objs[k], namespace, name, uid, key);
    }
  }

  lemma BelowExactly(objs: Objects, o: CachedObject, namespace: string, name: string, uid: string, key: string)
    ensures IsPodBelow(objs, o, Id(DEPLOYMENTS, namespace, name), uid, key) <==>
              exists s :: s in objs && s != key && SetOf(objs[s], namespace, name, uid) && PodOf(o, namespace, objs[s])
  {
    var root := Id(DEPLOYMENTS, namespace, name);
    forall s | s in objs
      ensures IsSetOf(objs[s], root, uid) <==> SetOf(objs[s], namespace, name, uid)
      ensures IsPodOf(o, root, objs[s]) <==> PodOf(o, namespace, objs[s])
    {
      SetsExactly(objs[s], namespace, name, uid);
      PodsExactly(o, namespace, name, objs[s]);
    }
  }

  /** An object whose references all name another UID, and another name or kind, survives:
      the ReplicaSet of one Deployment outlives any other Deployment. */
  lemma OthersSurvive(objs: Objects, namespace: string, name: string, k: string, references: seq<Json>)
    requires Filed(objs) && namespace != "" && name != ""
    requires k in objs && objs[k].gvr != "v1/pods" && k != CacheKey("apps/v1/deployments", namespace, name)
    requires objs[k].content.Some? && "metadata" in objs[k].content.value && objs[k].content.value["metadata"].Object?
    requires "ownerReferences" in objs[k].content.value["metadata"].fields
    requires objs[k].content.value["metadata"].fields["ownerReferences"] == List(references)
    requires forall i :: 0 <= i < |references| ==>
               var key := CacheKey("apps/v1/deployments", namespace, name);
               references[i].Object? ==>
               && (key in objs && "uid" in references[i].fields ==> references[i].fields["uid"] != Text(objs[key].uid))
               && (!Reads(references[i].fields, "name", name) || !Reads(references[i].fields, "kind", "Deployment"))
    ensures var left := Left(objs, Id("apps/v1/deployments", namespace, name)); k in left && left[k] == objs[k]
  {
    DeploymentTakes(objs, namespace, name, k);
  }

  /** Deleting a namespace takes away, besides what is cached under its key, exactly the
      objects of the namespace that are no namespaces. */
  lemma NamespaceTakes(objs: Objects, namespace: string, name: string, k: string)
    requires Filed(objs) && name != "" && k in objs
    ensures var left := Left(objs, Id("v1/namespaces", namespace, name));
            && (k in left ==> left[k] == objs[k])
            && (k in left <==>
                  k != CacheKey("v1/namespaces", namespace, name) && (objs[k].namespace != name || objs[k].gvr == "v1/namespaces"))
  {
  }

  /** Any other deletion, and one without the names a cascade goes by, takes away what is
      cached under its key and nothing else. */
  lemma OthersTakeThemselves(objs: Objects, root: Id)
    requires root.gvr == "v1/namespaces" ==> root.name == ""
    requires root.gvr == "apps/v1/deployments" ==> root.namespace == "" || root.name == ""
    ensures Left(objs, root) == objs - {root.gvr + "::" + root.namespace + "::" + root.name}
  {
  }
}
