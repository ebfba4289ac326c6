/** Labels, annotations and controller references (internal/metadata, controllerutil). */
module Metadata {
  import opened Basics
  import opened Objects

  const OWNER_KIND := "RabbitmqCluster"

  // -------------------------------------------------------------- annotations

  predicate IsKubernetesAnnotation(k: string) {
    Contains(k, "kubernetes.io") || Contains(k, "k8s.io")
  }

  /** Annotations with either of the two domains anywhere in their key are not copied. */
  lemma KubernetesAnnotationIff(k: string)
    ensures IsKubernetesAnnotation(k) <==> Occurs("kubernetes.io", k) || Occurs("k8s.io", k)
  {
    ContainsIff(k, "kubernetes.io");
    ContainsIff(k, "k8s.io");
  }

  /** The entries of a map that a filter lets through. */
  function Kept(m: StrMap, filtered: bool): StrMap {
    map k | k in m && (filtered ==> !IsKubernetesAnnotation(k)) :: m[k]
  }

  /** mergeWithFilter: later maps win, nothing is removed. */
  function MergeWithFilter(base: StrMap, maps: seq<StrMap>, filtered: bool): StrMap {
    if maps == [] then base
    else MergeWithFilter(base, maps[..|maps| - 1], filtered) + Kept(maps[|maps| - 1], filtered)
  }

  function ReconcileAnnotations(existing: StrMap, defaults: StrMap): StrMap {
    MergeWithFilter(existing, [defaults], false)
  }

  function ReconcileAndFilterAnnotations(existing: StrMap, defaults: StrMap): StrMap {
    MergeWithFilter(existing, [defaults], true)
  }

  lemma MergeOne(base: StrMap, m: StrMap, filtered: bool)
    ensures MergeWithFilter(base, [m], filtered) == base + Kept(m, filtered)
  {
    assert [m][..0] == [];
    assert MergeWithFilter(base, [], filtered) == base;
  }

  /** The last map that lets this key through, or -1. */
  function Decider(maps: seq<StrMap>, filtered: bool, k: string): (i: int)
    ensures -1 <= i < |maps|
    ensures i >= 0 ==> k in Kept(maps[i], filtered)
    ensures forall j :: i < j < |maps| ==> k !in Kept(maps[j], filtered)
  {
    if maps == [] then -1
    else if k in Kept(maps[|maps| - 1], filtered) then |maps| - 1
    else Decider(maps[..|maps| - 1], filtered, k)
  }

  /** A key keeps its value unless some map lets it through; then the last such map decides. */
  lemma {:induction false} MergeDecides(base: StrMap, maps: seq<StrMap>, filtered: bool, k: string)
    ensures var r, i := MergeWithFilter(base, maps, filtered), Decider(maps, filtered, k);
            && (k in r <==> k in base || i >= 0)
            && (i >= 0 ==> r[k] == maps[i][k])
            && (i < 0 && k in base ==> r[k] == base[k])
  {
    if maps != [] {
      MergeDecides(base, maps[..|maps| - 1], filtered, k);
    }
  }

  /** Merging the same maps again changes nothing. */
  lemma MergeTwice(base: StrMap, maps: seq<StrMap>, filtered: bool)
    ensures var r := MergeWithFilter(base, maps, filtered);
            MergeWithFilter(r, maps, filtered) == r
  {
    var r := MergeWithFilter(base, maps, filtered);
    var t := MergeWithFilter(r, maps, filtered);
    forall k ensures (k in t <==> k in r) && (k in r ==> t[k] == r[k]) {
      MergeDecides(base, maps, filtered, k);
      MergeDecides(r, maps, filtered, k);
    }
    assert t == r;
  }

  /** The nested loops; the order in which a map is walked does not matter. */
  method Merge(base: StrMap, maps: seq<StrMap>, filtered: bool) returns (result: StrMap)
    ensures result == MergeWithFilter(base, maps, filtered)
  {
    result := base;
    for i := 0 to |maps|
      invariant result == MergeWithFilter(base, maps[..i], filtered)
    {
      assert maps[..i + 1][..i] == maps[..i];
      result := MergeMap(result, maps[i], filtered);
    }
    assert maps[..|maps|] == maps;
  }

  /** The entries let through among those already walked. */
  function Walked(m: StrMap, filtered: bool, todo: set<string>): StrMap {
    map k | k in m && k !in todo && (filtered ==> !IsKubernetesAnnotation(k)) :: m[k]
  }

  lemma WalkedOne(base: StrMap, m: StrMap, filtered: bool, todo: set<string>, k: string)
    requires k in todo && k in m
    ensures base + Walked(m, filtered, todo - {k}) ==
              if filtered && IsKubernetesAnnotation(k) then base + Walked(m, filtered, todo)
              else (base + Walked(m, filtered, todo))[k := m[k]]
  {
    hide IsKubernetesAnnotation;
  }

  lemma WalkedEnds(base: StrMap, m: StrMap, filtered: bool)
    ensures base + Walked(m, filtered, m.Keys) == base
    ensures Walked(m, filtered, {}) == Kept(m, filtered)
  {
  }

  method MergeMap(base: StrMap, m: StrMap, filtered: bool) returns (result: StrMap)
    ensures result == base + Kept(m, filtered)
  {
    WalkedEnds(base, m, filtered);
    hide IsKubernetesAnnotation, Walked, Kept;
    result := base;
    var keys := m.Keys;
    while keys != {}
      invariant keys <= m.Keys && result == base + Walked(m, filtered, keys)
      decreases |keys|
    {
      var k :| k in keys;
      WalkedOne(base, m, filtered, keys, k);
      keys := keys - {k};
      if !(filtered && IsKubernetesAnnotation(k)) {
        result := result[k := m[k]];
      }
    }
  }

  // ------------------------------------------------------------------- labels

  function Label(name: string): StrMap {
    map[NAME_LABEL := name,
        "app.kubernetes.io/component" := "rabbitmq",
        "app.kubernetes.io/part-of" := "rabbitmq"]
  }

  function GetLabels(name: string, labels: StrMap): StrMap {
    Label(name) + (map k | k in labels && !HasPrefix(k, "app.kubernetes.io") :: labels[k])
  }

  function LabelSelector(name: string): StrMap {
    map[NAME_LABEL := name]
  }

  /** A label of the operator's own domain, whoever sets it. */
  predicate OwnDomain(k: string) { "app.kubernetes.io" <= k }

  /** Children carry the operator's three labels and the user's, but none of the user's in the operator's domain. */
  lemma LabelsAre(name: string, labels: StrMap)
    ensures var r := GetLabels(name, labels);
            && (forall k :: OwnDomain(k) ==> (k in r <==> k in Label(name)) && (k in r ==> r[k] == Label(name)[k]))
            && (forall k :: !OwnDomain(k) ==> (k in r <==> k in labels) && (k in r ==> r[k] == labels[k]))
            && Label(name) == map["app.kubernetes.io/name" := name, "app.kubernetes.io/component" := "rabbitmq",
                 "app.kubernetes.io/part-of" := "rabbitmq"]
  {
    assert OwnDomain("app.kubernetes.io/name") && OwnDomain("app.kubernetes.io/component")
      && OwnDomain("app.kubernetes.io/part-of");
    assert forall k :: OwnDomain(k) <==> HasPrefix(k, "app.kubernetes.io");
  }

  lemma LabelsSelected(name: string, labels: StrMap)
    ensures NAME_LABEL in GetLabels(name, labels) && GetLabels(name, labels)[NAME_LABEL] == name
  {
    assert NAME_LABEL[..|"app.kubernetes.io"|] == "app.kubernetes.io";
  }

  // ----------------------------------------------------- the metadata update

  /** SetControllerReference: refused when another controller already owns the object. */
  predicate OwnedByOther(meta: Meta, rmq: Cluster) {
    meta.owner.Some? && (meta.owner.value.kind != OWNER_KIND || meta.owner.value.name != rmq.name)
  }

  /** Only another kind or name counts: a controller of this name with another UID is replaced. */
  lemma OwnedByOtherIff(meta: Meta, rmq: Cluster)
    ensures OwnedByOther(meta, rmq) <==>
              exists kind, name, uid ::
                meta.owner == Some(OwnerRef(kind, name, uid)) && (kind, name) != ("RabbitmqCluster", rmq.name)
  {
    if meta.owner.Some? {
      var o := meta.owner.value;
      assert meta.owner == Some(OwnerRef(o.kind, o.name, o.uid));
    }
  }

  /** What every builder's Update does to labels, annotations and owner. */
  function Renewed(rmq: Cluster, meta: Meta): Meta {
    Meta(
      GetLabels(rmq.name, rmq.labels),
      ReconcileAndFilterAnnotations(meta.annotations, rmq.annotations),
      Some(OwnerRef(OWNER_KIND, rmq.name, rmq.uid)))
  }

  /** Metadata of a freshly built object. */
  function Initial(rmq: Cluster): Meta {
    Meta(
      GetLabels(rmq.name, rmq.labels),
      ReconcileAndFilterAnnotations(map[], rmq.annotations),
      None)
  }

  lemma RenewedTwice(rmq: Cluster, meta: Meta)
    ensures Renewed(rmq, Renewed(rmq, meta)) == Renewed(rmq, meta)
    ensures !OwnedByOther(Renewed(rmq, meta), rmq)
  {
    MergeTwice(meta.annotations, [rmq.annotations], true);
  }

  /** The operator's own annotations never disturb a fixpoint, as users do not supply them. */
  lemma FlagsDoNotDisturb(rmq: Cluster, o: Object, p: Object)
    requires Clean(rmq) && SameButFlags(o, p) && Renewed(rmq, o.meta) == o.meta
    ensures Renewed(rmq, p.meta) == p.meta
    ensures OwnedByOther(p.meta, rmq) == OwnedByOther(o.meta, rmq)
  {
    MergeOne(o.meta.annotations, rmq.annotations, true);
    MergeOne(p.meta.annotations, rmq.annotations, true);
    var kept := Kept(rmq.annotations, true);
    assert forall k :: k in kept ==> k in o.meta.annotations && o.meta.annotations[k] == kept[k] by {
      assert forall k :: k in kept ==> k in (o.meta.annotations + kept);
    }
    assert p.meta.annotations + kept == p.meta.annotations;
  }

  /** Update keeps every annotation the cluster does not override, the operator's flags included. */
  lemma RenewedKeeps(rmq: Cluster, meta: Meta, k: string)
    requires k !in rmq.annotations
    ensures k in Renewed(rmq, meta).annotations <==> k in meta.annotations
    ensures k in meta.annotations ==> Renewed(rmq, meta).annotations[k] == meta.annotations[k]
  {
    MergeOne(meta.annotations, rmq.annotations, true);
  }
}
