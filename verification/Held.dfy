/** A cluster that is being deleted but held back by someone else's finalizer is reconciled like a live one. */
module Held {
  import opened Basics
  import opened Objects
  import opened Store
  import opened Conditions
  import opened Resources
  import opened Stages
  import opened Builders
  import opened Reconcile
  import opened Passes
  import opened Protocol
  import opened Safety
  import opened Convergence
  import opened Calm
  import opened Progress
  import Finalizer
  import Scaling

  /** Something was written to a child. */
  ghost predicate WroteChild(w: World, v: World)
    requires Extends(w, v)
  {
    exists e :: e in News(w, v) && ChildWrite(e)
  }

  lemma WritesLogged(s: Sys, b: Builder, built: Object, sch: Schedule)
    ensures var (s1, op, restart) := CreateOrUpdateSpec(s, b, built, sch);
            && Extends(s.world, s1.world)
            && (op.CreatedObject? ==> Created(b.key) in News(s.world, s1.world))
            && (op.UpdatedObject? ==> Updated(b.key) in News(s.world, s1.world))
  {
    var (s1, op, restart) := CreateOrUpdateSpec(s, b, built, sch);
    var n := |s.world.log|;
    if op.CreatedObject? {
      assert News(s.world, s1.world)[0] == Created(b.key);
    } else if op.UpdatedObject? {
      assert News(s.world, s1.world)[0] == Updated(b.key);
    }
  }

  lemma ApplyWrites(s: Sys, b: Builder, built: Object, sch: Schedule)
    requires NoFaults(sch) && WellBehaved(b) && !InPlace(b, s.world)
    requires if b.key in s.world.objects then b.update(s.world.objects[b.key]).Accepted? else b.update(built).Accepted?
    ensures var v := ApplyStep(s, b, built, sch).sys.world; Extends(s.world, v) && WroteChild(s.world, v)
  {
    hide WellBehaved, SetConditionSpec, AnnotateIfNeededSpec;
    WritesLogged(s, b, built, sch);
    var (s1, op, restart) := CreateOrUpdateSpec(s, b, built, sch);
    AnnotateEffect(s1, b, op, restart, sch);
    var v := AnnotateIfNeededSpec(s1, b, op, restart, sch).sys.world;
    NewsCompose(s.world, s1.world, v);
    var e := if op.CreatedObject? then Created(b.key) else Updated(b.key);
    assert e in News(s.world, s1.world);
    assert e in News(s.world, v) && ChildWrite(e);
  }

  /** The turn of a builder with work to do writes its object. */
  lemma TurnWrites(s: Sys, b: Builder, sch: Schedule)
    requires NoFaults(sch) && WellBehaved(b) && Workable(b, s.world) && !InPlace(b, s.world)
    ensures var v := BuilderStep(s, b, sch).sys.world; Extends(s.world, v) && WroteChild(s.world, v)
  {
    hide ApplyStep, Scaling.ScaleSpec, Fixed, Capacity, WellBehaved, WroteChild;
    var r := sch.random(s.calls);
    var built := b.build(r);
    BuiltKind(b, r);
    if b.key.kind == KindStatefulSet {
      ScaleCalm(Called(s), b.key, Wanted(b, r), sch);
      ScaleEffect(Called(s), b.key, Wanted(b, r), sch);
      var p := ReconcilePVCSpec(Called(s), b.key, Wanted(b, r), sch);
      ApplyWrites(p.sys, b, built, sch);
      WroteLater(s.world, p.sys.world, ApplyStep(p.sys, b, built, sch).sys.world);
    } else {
      ApplyWrites(Called(s), b, built, sch);
    }
  }

  lemma BuiltKind(b: Builder, r: string)
    requires WellBehaved(b)
    ensures Fits(b.key.kind, b.build(r))
  {
  }

  lemma WroteLater(w: World, u: World, v: World)
    requires Extends(w, u) && Extends(u, v) && WroteChild(u, v)
    ensures Extends(w, v) && WroteChild(w, v)
  {
    NewsCompose(w, u, v);
    var e :| e in News(u, v) && ChildWrite(e);
    assert e in News(w, v);
  }

  /**
    Calm, with the defaults and conditions in order and an object out of place, a pass past the
    deletion stage writes a child.
  */
  lemma WritesPastDeletion(w: World, cfg: Settings, sch: Schedule, order: set<Key> -> seq<Key>)
    requires Fit(w, cfg) && CalmPass(w, sch, order) && Prepared(w, cfg, order)
    requires var bs := ResourceBuilders(w.cluster.value); Unfinished(bs, w, |bs|) > 0
    ensures Extends(w, After(w, cfg, sch)) && WroteChild(w, After(w, cfg, sch))
  {
    hide ReconcileSpec, ResourceBuilders, Defaulted, NeedsDefaults, Clear, Clean, Tidy, Quiet, MineSet, PastDeletion;
    hide UpToDate, OwnSets;
    hide TLSFine, BuilderStep, WellBehaved, Workable, InPlace, WroteChild, OnlyAt, Rewritten, StatusAfter, OwnWrite;
    hide ClaimsBy;
    var rmq, v := w.cluster.value, After(w, cfg, sch);
    var bs := ResourceBuilders(rmq);
    FullFacts(rmq, cfg);
    var j, c := BuildersPassAt(w, cfg, sch, order);
    var i := BuildersPass(w, cfg, sch, order);
    assert bs[j] in bs;
    ClearIsWorkable(rmq, w, bs[j]);
    BuilderCalm(Sys(w, rmq, c), bs[j], sch);
    CalmIsFaultless(w, sch, order);
    if InPlace(bs[j], w) {
      assert false;
    }
    TurnWrites(Sys(w, rmq, c), bs[j], sch);
  }

  /**
    The exact rule for children and the finalizer. With the defaults and conditions in order,
    some object out of place, and no sets left if the cluster is being deleted, a calm pass
    writes a child if and only if it gets past the deletion stage: the finalizer is stored, or
    it is already gone from a cluster that is being deleted.
  */
  lemma WritesIffPastDeletion(w: World, cfg: Settings, sch: Schedule, order: set<Key> -> seq<Key>)
    requires Fit(w, cfg) && CalmPass(w, sch, order)
    requires var c := w.cluster.value; !NeedsDefaults(c.spec, cfg) && UpToDate(w, c, order)
    requires var bs := ResourceBuilders(w.cluster.value); Unfinished(bs, w, |bs|) > 0
    ensures Extends(w, After(w, cfg, sch)) && (WroteChild(w, After(w, cfg, sch)) <==> PastDeletion(w.cluster.value))
  {
    hide ReconcileSpec, ResourceBuilders, NeedsDefaults, Serviceable, Clean, Tidy, Quiet, MineSet, PastDeletion;
    hide UpToDate, OwnSets, TLSFine;
    hide CalmPass, AfterDeletion, RemovedProperly, Undeleted;
    var u := DeletionProtocol(w, cfg, sch);
    if PastDeletion(w.cluster.value) {
      WritesPastDeletion(w, cfg, sch, order);
    }
  }

  // ----------------------------------------------------------------- an instance

  const IDLE := Schedule(_ => false, _ => "t", _ => "", _ => [], _ => [], _ => true, _ => false)

  function PlainSpec(replicas: nat): Spec {
    Spec(replicas, false, "image", false, 0, "", map[], "", "", false, None, "", [], Some([]), "", "", "", 0, 0, [], [],
      [], Some([]))
  }

  /** What the conditions see of a cluster without sets and endpoints. */
  function NoChildren(replicas: nat): seq<Resource> {
    seq(replicas + 1, i requires 0 <= i < replicas + 1 =>
      if i < replicas then SetResource(None) else EndpointsResource(None))
  }

  function PlainConditions(replicas: nat): seq<Condition> { SetConditionsSpec(NoChildren(replicas), [], "t") }

  /**
    A cluster of this name and size that is being deleted, held back by another controller's
    finalizer only, without children.
  */
  function HeldStore(name: string, replicas: nat): World {
    var c := Cluster(name, "", "", 0, true, ["example.com/other"], map[], map[], PlainSpec(replicas),
                     ClusterStatus(0, PlainConditions(replicas), None, None, 0));
    World(name, Some(c), map[], {}, map[], map[], None, [])
  }

  lemma HeldUpToDate(name: string, replicas: nat, order: set<Key> -> seq<Key>)
    requires order(MineSet(HeldStore(name, replicas))) == []
    ensures UpToDate(HeldStore(name, replicas), HeldStore(name, replicas).cluster.value, order)
  {
    var w := HeldStore(name, replicas);
    var resources := NoChildren(replicas);
    assert ChildResources(w, [], replicas).value == resources;
    var conditions := PlainConditions(replicas);
    forall later: string ensures SetConditionsSpec(resources, conditions, later) == conditions {
      SetConditionsTwice(resources, [], "t", later);
    }
    hide SetConditionsSpec, PlainConditions;
  }

  lemma HeldFit(name: string, replicas: nat, cfg: Settings)
    requires Supplies(cfg)
    ensures Fit(HeldStore(name, replicas), cfg) && !NeedsDefaults(PlainSpec(replicas), cfg)
  {
    hide ResourceBuilders, DefaultPullSecrets, PlainConditions;
    var c := HeldStore(name, replicas).cluster.value;
    FullFacts(c, cfg);
    assert Clean(c);
  }

  lemma HeldCalm(name: string, replicas: nat, order: set<Key> -> seq<Key>)
    requires order(MineSet(HeldStore(name, replicas))) == []
    ensures CalmPass(HeldStore(name, replicas), IDLE, order)
  {
    hide PlainSpec, PlainConditions;
  }

  lemma HeldPast(name: string, replicas: nat)
    ensures var c := HeldStore(name, replicas).cluster.value; PastDeletion(c) && Finalizer.FINALIZER !in c.finalizers
  {
    hide PlainSpec, PlainConditions;
    assert |Finalizer.FINALIZER| != |"example.com/other"|;
  }

  lemma HeldUnfinished(name: string, replicas: nat)
    ensures var w := HeldStore(name, replicas);
            var bs := ResourceBuilders(w.cluster.value); Unfinished(bs, w, |bs|) > 0
  {
    hide ResourceBuilders, PlainSpec, PlainConditions, HasUserSecret;
    var w := HeldStore(name, replicas);
    EmptyUnfinished(ResourceBuilders(w.cluster.value), w, |ResourceBuilders(w.cluster.value)|);
    BuilderCount(w.cluster.value);
  }

  /** The other finalizer's owner sees children come back: a pass over such a cluster creates one. */
  lemma HeldClusterIsRebuilt(name: string, replicas: nat, cfg: Settings)
    requires Supplies(cfg)
    ensures var w := HeldStore(name, replicas);
            && w.cluster.value.deleting && Finalizer.FINALIZER !in w.cluster.value.finalizers && w.objects == map[]
            && exists k :: k in After(w, cfg, IDLE).objects
  {
    hide ReconcileSpec, ResourceBuilders, Fit, UpToDate, NeedsDefaults, Finalizer.FINALIZER, InPlace, Rewritten;
    hide CalmPass, PastDeletion;
    hide PlainSpec, PlainConditions, IDLE, Supplies, Unfinished;
    var w := HeldStore(name, replicas);
    var order := (s: set<Key>) => [];
    HeldPast(name, replicas);
    HeldFit(name, replicas, cfg);
    HeldUpToDate(name, replicas, order);
    HeldUnfinished(name, replicas);
    HeldCalm(name, replicas, order);
    var bs := ResourceBuilders(w.cluster.value);
    var j := BuildersPass(w, cfg, IDLE, order);
    PlaceMeansThere(bs[j], After(w, cfg, IDLE));
  }

  lemma PlaceMeansThere(b: Builder, v: World)
    requires InPlace(b, v)
    ensures b.key in v.objects
  {
  }
}
