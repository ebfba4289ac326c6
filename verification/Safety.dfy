/** Safety of one pass: one rollout at a time, deletion, scale-down, claims, flags and success. */
module Safety {
  import opened Basics
  import opened Objects
  import opened Store
  import opened Names
  import opened Resources
  import opened Stages
  import opened Builders
  import opened Reconcile
  import opened Passes
  import opened Protocol
  import Finalizer
  import Restart
  import Cli
  import Plugins

  // ------------------------------------------------------------------- typing

  /** Objects have the type of their key, and every StatefulSet carries the cluster's label. */
  ghost predicate Tidy(w: World) {
    forall k :: k in w.objects ==> TidyObject(w.name, k, w.objects[k])
  }

  ghost predicate TidyObject(name: string, k: Key, o: Object) {
    && Fits(k.kind, o)
    && (k.kind == KindStatefulSet ==> NAME_LABEL in o.meta.labels && o.meta.labels[NAME_LABEL] == name)
  }

  lemma UpdateTidy(rmq: Cluster, b: Builder, o: Object)
    requires Clean(rmq) && b in ResourceBuilders(rmq) && Fits(b.key.kind, o) && b.update(o).Accepted?
    ensures TidyObject(rmq.name, b.key, b.update(o).result)
  {
    hide ResourceBuilders, Clean, SetBody, PlainUpdate;
    AllWellBehaved(rmq);
    if b.key.kind == KindStatefulSet {
      BuilderKinds(rmq, b);
      var i: nat :| i < rmq.spec.replicas && b == NodeBuilder(rmq, i);
      UpdateKeepsStamp(rmq, i, o);
    }
  }

  lemma FlaggedTidy(name: string, k: Key, o: Object, p: Object)
    requires MaybeFlagged(o, p) && TidyObject(name, k, o)
    ensures TidyObject(name, k, p)
  {
    hide OperatorKey;
  }

  lemma RenewedTidy(u: World, v: World, rmq: Cluster, k: Key)
    requires Clean(rmq) && k in u.objects && TidyObject(rmq.name, k, u.objects[k]) && RenewedByBuilder(u, v, rmq, k)
    ensures k in v.objects && TidyObject(rmq.name, k, v.objects[k])
  {
    hide ResourceBuilders, Clean, OperatorKey, MaybeFlagged;
    var b :| b in ResourceBuilders(rmq) && b.key == k && Resources.Renewed(u, v, b);
    UpdateTidy(rmq, b, u.objects[k]);
    FlaggedTidy(rmq.name, k, Restored(u.objects[k], b.update(u.objects[k]).result), v.objects[k]);
  }

  lemma MadeTidy(u: World, v: World, rmq: Cluster, k: Key)
    requires Extends(u, v) && Clean(rmq) && MadeByBuilder(u, v, rmq, k)
    ensures k in v.objects && TidyObject(rmq.name, k, v.objects[k])
  {
    hide ResourceBuilders, Clean, OperatorKey, MaybeFlagged;
    var b :| b in ResourceBuilders(rmq) && b.key == k && Made(u, v, b);
    var r: Encoded :| MadeFrom(v, b, r);
    AllWellBehaved(rmq);
    UpdateTidy(rmq, b, b.build(r));
    FlaggedTidy(rmq.name, k, Stored(b.update(b.build(r)).result), v.objects[k]);
  }

  lemma TidyStep(u: World, v: World, rmq: Cluster)
    requires Clean(rmq) && rmq.name == u.name && Effect(u, v, rmq) && Extends(u, v) && v.name == u.name && Tidy(u)
    ensures Tidy(v)
  {
    hide Effect, ResourceBuilders, Clean, OperatorKey, RenewedByBuilder, MadeByBuilder;
    forall k | k in v.objects ensures TidyObject(v.name, k, v.objects[k]) {
      ObjectAfter(u, v, rmq, k);
      if k in u.objects && RenewedByBuilder(u, v, rmq, k) {
        RenewedTidy(u, v, rmq, k);
      } else if MadeByBuilder(u, v, rmq, k) {
        MadeTidy(u, v, rmq, k);
      }
    }
  }

  lemma DeletionTidy(w: World, u: World, rmq: Cluster)
    requires Tidy(w) && AfterDeletion(w, u, rmq)
    ensures Tidy(u) && RollingSet(u) <= RollingSet(w) && u.name == w.name && u.claims == w.claims
  {
  }

  // --------------------------------------------------- one rollout at a time

  /** The sets whose rollout the operator caused and the environment has not finished. */
  function RollingSet(w: World): set<Key> {
    set k | k in w.objects && w.objects[k].StatefulSet? && BeingUpdated(w.objects[k])
  }

  lemma QuietNotRolling(w: World)
    requires Tidy(w) && Quiet(w)
    ensures RollingSet(w) == {}
  {
    forall k | k in w.objects && w.objects[k].StatefulSet? ensures !BeingUpdated(w.objects[k]) {
      assert TidyObject(w.name, k, w.objects[k]);
      assert Mine(w, k);
    }
  }

  /** All template writes of these events are to one set. */
  ghost predicate OneTemplate(ev: seq<Event>) {
    forall k, l :: TemplateWritten(k) in ev && TemplateWritten(l) in ev ==> k == l
  }

  lemma BuiltRollsOne(u: World, v: World, bs: seq<Builder>, j: nat)
    requires Tidy(u) && RollingSet(u) == {} && StoppedAt(u, v, bs, 0, j)
    ensures RollingSet(v) <= {bs[j].key} && OneTemplate(News(u, v))
  {
    hide OwnWrite, InPlace;
    var key := bs[j].key;
    forall k | k in v.objects && k != key ensures k in u.objects && v.objects[k] == u.objects[k] {
      assert k in v.objects - {key};
      assert v.objects[k] == (v.objects - {key})[k] == (u.objects - {key})[k];
    }
    assert forall k :: k in u.objects && u.objects[k].StatefulSet? && BeingUpdated(u.objects[k]) ==> k in RollingSet(u);
    assert forall k :: TemplateWritten(k) in News(u, v) ==> BuilderEvent(TemplateWritten(k), key);
  }

  /** A stage starts a rollout only on a quiet cluster, and of one set only. */
  lemma StageRollsOne(u: World, v: World, rmq: Cluster)
    requires Tidy(u) && Effect(u, v, rmq) && Extends(u, v)
    ensures v == u || |RollingSet(v)| <= 1
    ensures OneTemplate(News(u, v)) && (v != u ==> Quiet(u))
  {
    hide ResourceBuilders, AllInPlace, NoneStale, StoppedAt, MineSet, Cli.CommandRan;
    if v == u {
      assert News(u, v) == [];
    } else {
      QuietNotRolling(u);
      if Built(u, v, rmq) {
        var j: nat :| StoppedAt(u, v, ResourceBuilders(rmq), 0, j);
        StoppedInRange(u, v, ResourceBuilders(rmq), j);
        BuiltRollsOne(u, v, ResourceBuilders(rmq), j);
        AtMostOne(RollingSet(v), ResourceBuilders(rmq)[j].key);
      } else if Rolled(u, v, rmq) {
        var since := Restart.ConfChangedAt(u).value;
        var key, now :| Restart.Restarted(u, v, key, since, now);
        RestartEvents(u, v, key, since, now);
        assert forall k :: k in RollingSet(v) && k != key ==> k in RollingSet(u);
        AtMostOne(RollingSet(v), key);
      } else {
        CommandsRollNone(u, v, rmq);
      }
    }
  }

  lemma StoppedInRange(u: World, v: World, bs: seq<Builder>, j: nat)
    requires StoppedAt(u, v, bs, 0, j)
    ensures j < |bs|
  {
  }

  lemma AtMostOne(s: set<Key>, k: Key)
    requires s <= {k}
    ensures |s| <= 1
  {
    if k in s {
      assert s == {k};
    } else {
      assert s == {};
    }
  }

  lemma CommandsRollNone(u: World, v: World, rmq: Cluster)
    requires Cli.CliEffect(u, v, rmq) && RollingSet(u) == {}
    ensures RollingSet(v) == {} && OneTemplate(News(u, v))
  {
    hide Cli.CommandRan, OperatorKey, Cli.Justified;
    forall k ensures TemplateWritten(k) !in News(u, v) {
      Cli.ClearedMeansRan(News(u, v), rmq, k, "");
    }
    forall k | k in v.objects && v.objects[k].StatefulSet? ensures !BeingUpdated(v.objects[k]) {
      assert Cli.Unflagged(u.objects[k], v.objects[k], k, News(u, v));
      assert k !in RollingSet(u);
    }
  }

  /**
    One rollout at a time: from a store with at most one set rolling, a pass leaves at most
    one set rolling; it writes at most one set's template, and only on a quiet cluster.
  */
  lemma OneRolloutAtATime(w: World, cfg: Settings, sch: Schedule) returns (u: World)
    requires Live(w) && Tidy(w) && |RollingSet(w)| <= 1
    ensures var v := After(w, cfg, sch);
            && Tidy(v) && |RollingSet(v)| <= 1 && Extends(w, v) && OneTemplate(News(w, v))
            && u == Undeleted(w, cfg, sch) && AfterDeletion(w, u, w.cluster.value)
            && ((exists k :: TemplateWritten(k) in News(w, v)) ==> Quiet(u))
  {
    hide ReconcileSpec, Effect, Clean, Quiet, TidyObject, AfterDeletion, BeingUpdated, Commanded, FlagsGone, Undeleted;
    hide PastDeletion;
    var rmq, v := w.cluster.value, After(w, cfg, sch);
    u := ChildrenAfter(w, cfg, sch);
    var v' := v.(cluster := u.cluster);
    EventsSplit(w, u, v, rmq);
    DeletionTidy(w, u, rmq);
    TidyStep(u, v', rmq);
    StageRollsOne(u, v', rmq);
    Subsets(RollingSet(u), RollingSet(w));
    assert RollingSet(v) == RollingSet(v');
    assert v' == u ==> News(u, v') == [];
  }

  lemma Subsets(a: set<Key>, b: set<Key>)
    requires a <= b
    ensures |a| <= |b|
  {
    assert b == a + (b - a);
  }

  // ----------------------------------------------------------------- deletion

  /** What a pass with deletion store u removed, and by which rule. */
  ghost predicate RemovedProperly(w: World, u: World, v: World, rmq: Cluster)
    requires Extends(w, v)
  {
    && (forall k :: k in w.objects && k !in u.objects ==>
      rmq.deleting && Finalizer.DeletedProperly(w, News(w, v), k, rmq))
    && (forall k :: k in u.objects && k !in v.objects ==>
          k.kind == KindStatefulSet && Deleted(k) in News(w, v) && PastDeletion(rmq) && Quiet(u))
  }

  /**
    Deletion protocol of one pass. A child is created or updated only past the deletion
    stage: the finalizer is already stored, or is gone from a cluster being deleted. Every set
    the deletion stage removes carries the cluster's UID as its controller's, and every pod its
    selector matches was labelled or had vanished before; a set with another controller or none
    stays as it is and is not asked to go. Only the claim scaler removes a set otherwise, past
    that stage and on a quiet cluster.
  */
  lemma DeletionProtocol(w: World, cfg: Settings, sch: Schedule) returns (u: World)
    requires Live(w)
    ensures var rmq, v := w.cluster.value, After(w, cfg, sch);
            && Extends(w, v) && u == Undeleted(w, cfg, sch) && AfterDeletion(w, u, rmq) && RemovedProperly(w, u, v, rmq)
            && Extends(w, u) && (forall k :: k in w.objects && Foreign(w.objects[k], rmq.uid) ==>
                  k in u.objects && u.objects[k] == w.objects[k] && Deleted(k) !in News(w, u))
            && ((exists e :: e in News(w, v) && ChildWrite(e)) ==> PastDeletion(rmq))
            && (!PastDeletion(rmq) ==>
                  && v.claims == w.claims
                  && forall k :: k in v.objects ==> k in w.objects && v.objects[k] == w.objects[k])
  {
    hide ReconcileSpec, Effect, Clean, PastDeletion, Quiet, Commanded, FlagsGone, Undeleted, RemovedProperly;
    var rmq, v := w.cluster.value, After(w, cfg, sch);
    u := ChildrenAfter(w, cfg, sch);
    EventsSplit(w, u, v, rmq);
    var v' := v.(cluster := u.cluster);
    if !PastDeletion(rmq) {
      assert v == u.(cluster := v.cluster);
      assert News(u, v') == [];
    }
    RemovalsProper(w, u, v, rmq);
    ForeignStay(w, u, rmq);
  }

  /** Nobody controls the object, or someone with another UID. */
  predicate Foreign(o: Object, uid: string) { o.meta.owner.None? || o.meta.owner.value.uid != uid }

  lemma ForeignStay(w: World, u: World, rmq: Cluster)
    requires AfterDeletion(w, u, rmq)
    ensures Extends(w, u) && forall k :: k in w.objects && Foreign(w.objects[k], rmq.uid) ==>
              k in u.objects && u.objects[k] == w.objects[k] && Deleted(k) !in News(w, u)
  {
    hide Finalizer.PodsAccounted;
    assert w.log == u.log ==> News(w, u) == [];
  }

  /**
    Deletion makes progress: when no call fails, one pass over a cluster that is being deleted
    and held back by the operator's finalizer alone removes every set of the cluster, each after
    its pods were labelled or seen gone, and the cluster goes.
  */
  lemma DeletionMakesProgress(w: World, cfg: Settings, sch: Schedule)
    requires w.cluster.Some? && (forall at :: !sch.fails(at)) && IsListing(w, sch.listing(1))
    requires var c := w.cluster.value;
             && c.deleting && c.finalizers != [] && (forall f :: f in c.finalizers ==> f == Finalizer.FINALIZER)
             && Finalizer.PodsListed(Sys(w, c, 2), sch.listing(1), 0, sch)
    ensures var c, v := w.cluster.value, After(w, cfg, sch);
            && v.cluster == None && Extends(w, v) && Finalizer.OnlyDeletes(w, v.(cluster := w.cluster))
            && forall k :: Mine(w, k) && w.objects[k].meta.owner.Some? && w.objects[k].meta.owner.value.uid == c.uid ==>
                 k !in v.objects && Finalizer.DeletedProperly(w, News(w, v), k, c)
  {
    hide RunStage, PIPELINE, RunFrom, Finalizer.ReconcileDeleteSpec, Finalizer.FINALIZER, Finalizer.PodsListed;
    hide Finalizer.DeletedProperly;
    var s := Sys(w, w.cluster.value, 1);
    PipelineLength();
    Finalizer.DeletionCompletes(s, sch);
    Finalizer.DeleteStageEffect(s, sch);
    DeletionIs(s, cfg, sch);
    Advance(s, 0, cfg, sch);
  }

  lemma RemovalsProper(w: World, u: World, v: World, rmq: Cluster)
    requires AfterDeletion(w, u, rmq) && Effect(u, v.(cluster := u.cluster), rmq)
    requires v.(cluster := u.cluster) != u ==> PastDeletion(rmq)
    ensures Extends(w, v) && RemovedProperly(w, u, v, rmq)
  {
    hide Effect, PastDeletion, Finalizer.DeletedProperly, Quiet, AfterDeletion;
    EventsSplit(w, u, v, rmq);
    var v' := v.(cluster := u.cluster);
    forall k | k in w.objects && k !in u.objects
      ensures rmq.deleting && Finalizer.DeletedProperly(w, News(w, v), k, rmq)
    {
      DeletionOfObject(w, u, rmq, k);
      Finalizer.ProperlyBefore(w, News(w, u), News(u, v'), k, rmq);
    }
    forall k | k in u.objects && k !in v.objects
      ensures k.kind == KindStatefulSet && Deleted(k) in News(w, v) && PastDeletion(rmq) && Quiet(u)
    {
      LostByBuilder(u, v', rmq, k);
    }
  }

  /** A stage that lost an object deleted it, on a quiet cluster. */
  lemma LostByBuilder(u: World, v: World, rmq: Cluster, k: Key)
    requires Extends(u, v) && Effect(u, v, rmq) && k in u.objects && k !in v.objects
    ensures k.kind == KindStatefulSet && Deleted(k) in News(u, v) && v != u && Quiet(u)
  {
    hide ResourceBuilders, AllInPlace, NoneStale, StoppedAt, MineSet, MadeByBuilder, Cli.CliEffect;
    hide Restart.ConfChangedAt;
    ObjectAfter(u, v, rmq, k);
  }

  /**
    With no finalizer but the operator's, a cluster being deleted never has a child created, updated
    or its claims changed.
  */
  lemma NothingWrittenWhileDeleting(w: World, cfg: Settings, sch: Schedule)
    requires Live(w) && w.cluster.value.deleting && w.cluster.value.finalizers != []
    requires forall f :: f in w.cluster.value.finalizers ==> f == Finalizer.FINALIZER
    ensures var v := After(w, cfg, sch);
            && Extends(w, v) && (forall e :: e in News(w, v) ==> !ChildWrite(e)) && v.claims == w.claims
            && (forall k :: k in v.objects ==> k in w.objects && v.objects[k] == w.objects[k])
  {
    hide ReconcileSpec, Clean, Finalizer.FINALIZER;
    assert w.cluster.value.finalizers[0] in w.cluster.value.finalizers;
    var u := DeletionProtocol(w, cfg, sch);
  }

  // -------------------------------------------------------------- other objects

  /** Nothing of this cluster: no child's name, no flag of the operator, and if a set, without the cluster's label. */
  ghost predicate Stranger(w: World, k: Key, rmq: Cluster)
    requires k in w.objects
  {
    var meta := w.objects[k].meta;
    && (forall b :: b in ResourceBuilders(rmq) ==> b.key != k)
    && (forall a :: a in meta.annotations ==> !OperatorKey(a))
    && (k.kind == KindStatefulSet ==> ("app.kubernetes.io/name", w.name) !in meta.labels.Items)
  }

  lemma StrangerNotMine(w: World, k: Key, rmq: Cluster)
    requires k in w.objects && Stranger(w, k, rmq)
    ensures !Mine(w, k)
  {
    hide ResourceBuilders, OperatorKey;
    var labels := w.objects[k].meta.labels;
    if NAME_LABEL in labels && labels[NAME_LABEL] == w.name {
      assert (NAME_LABEL, w.name) in labels.Items;
    }
  }

  lemma BuilderLeaves(u: World, v: World, bs: seq<Builder>, j: nat, k: Key)
    requires StoppedAt(u, v, bs, 0, j) && k in u.objects && forall b :: b in bs ==> b.key != k
    ensures k in v.objects && v.objects[k] == u.objects[k]
  {
    hide OwnWrite, BuilderEvents, ClaimsBy, InPlace;
    assert bs[j] in bs;
    assert k in u.objects - {bs[j].key};
    assert v.objects[k] == (v.objects - {bs[j].key})[k];
  }

  lemma RestartLeaves(u: World, v: World, k: Key, key: Key, since: string, now: string)
    requires Restart.Restarted(u, v, key, since, now) && k in u.objects && !Mine(u, k)
    ensures k in v.objects && v.objects[k] == u.objects[k]
  {
  }

  lemma CommandsLeave(o: Object, p: Object, k: Key, ev: seq<Event>)
    requires Cli.Unflagged(o, p, k, ev) && forall a :: a in o.meta.annotations ==> !OperatorKey(a)
    ensures p == o
  {
    hide OperatorKey;
    assert p.meta.annotations == o.meta.annotations;
  }

  /** What one stage does leaves a stranger alone. */
  lemma StrangerStep(u: World, v: World, rmq: Cluster, k: Key)
    requires Effect(u, v, rmq) && k in u.objects && Stranger(u, k, rmq)
    ensures k in v.objects && v.objects[k] == u.objects[k]
  {
    StrangerNotMine(u, k, rmq);
    hide ResourceBuilders, Quiet, MineSet, AllInPlace, NoneStale, OperatorKey, Cli.Justified, StoppedAt, Mine;
    hide Restart.Restarted, Cli.Unflagged;
    if Built(u, v, rmq) {
      var bs := ResourceBuilders(rmq);
      var j: nat :| StoppedAt(u, v, bs, 0, j);
      BuilderLeaves(u, v, bs, j, k);
    } else if Rolled(u, v, rmq) {
      var since := Restart.ConfChangedAt(u).value;
      var key, now :| Restart.Restarted(u, v, key, since, now);
      RestartLeaves(u, v, k, key, since, now);
    } else if Commanded(u, v, rmq) {
      CommandsLeave(u.objects[k], v.objects[k], k, News(u, v));
    }
  }

  /** No pass creates, changes, restarts or removes an object that is nothing of its cluster. */
  lemma StrangersStay(w: World, cfg: Settings, sch: Schedule, k: Key)
    requires Live(w) && k in w.objects && Stranger(w, k, w.cluster.value)
    ensures var v := After(w, cfg, sch); k in v.objects && v.objects[k] == w.objects[k]
  {
    hide ReconcileSpec, Clean, Effect, Undeleted, PastDeletion, Finalizer.PodsAccounted;
    var rmq := w.cluster.value;
    var u := ChildrenAfter(w, cfg, sch);
    StrangerNotMine(w, k, rmq);
    DeletionOfObject(w, u, rmq, k);
    hide Finalizer.DeletionEffect, Mine, OperatorKey, ResourceBuilders;
    assert Stranger(u, k, rmq);
    StrangerStep(u, After(w, cfg, sch).(cluster := u.cluster), rmq, k);
  }

  // --------------------------------------------------------------- scale-down

  /** A live cluster asked to shrink writes no child and no claim. */
  lemma NoScaleDown(w: World, cfg: Settings, sch: Schedule)
    requires Live(w) && !w.cluster.value.deleting && w.cluster.value.spec.replicas < w.cluster.value.status.replicas
    ensures After(w, cfg, sch) == w.(cluster := After(w, cfg, sch).cluster)
    ensures !ReconcileSpec(w, cfg, sch).1.Continue?
  {
    hide ReconcileSpec, Clean, Quiet, StoppedAt, AllInPlace, NoneStale, Cli.CliEffect, Undeleted;
    var u := ChildrenAfter(w, cfg, sch);
  }

  // ------------------------------------------------------------------- claims

  ghost predicate ClaimsGrow(w: World, v: World) {
    forall c :: c in w.claims ==> c in v.claims && w.claims[c] <= v.claims[c]
  }

  lemma ClaimsStep(u: World, v: World, rmq: Cluster)
    requires Effect(u, v, rmq)
    ensures ClaimsGrow(u, v)
  {
    hide ResourceBuilders, AllInPlace, NoneStale, Quiet, MineSet, Cli.Justified, OwnWrite, InPlace, BuilderEvents;
    if Built(u, v, rmq) {
      var j: nat :| StoppedAt(u, v, ResourceBuilders(rmq), 0, j);
    }
  }

  /** No pass shrinks or loses a claim. */
  lemma ClaimsNeverFall(w: World, cfg: Settings, sch: Schedule)
    requires Live(w)
    ensures ClaimsGrow(w, After(w, cfg, sch))
  {
    hide ReconcileSpec, Effect, Clean, AfterDeletion, Undeleted;
    var u := ChildrenAfter(w, cfg, sch);
    NameAfterDeletion(w, u, w.cluster.value);
    ClaimsStep(u, After(w, cfg, sch).(cluster := u.cluster), w.cluster.value);
  }

  // -------------------------------------------------------------------- flags

  /** A flag that is set goes only with its object or by an explicit clearing. */
  ghost predicate FlagKept(w: World, v: World, k: Key, f: string)
    requires Extends(w, v)
  {
    k in w.objects && Flagged(w.objects[k].meta.annotations, f) ==>
      || Deleted(k) in News(w, v) || FlagCleared(k, f) in News(w, v)
      || (k in v.objects && Flagged(v.objects[k].meta.annotations, f))
  }

  lemma RenewedKeepsFlag(u: World, v: World, rmq: Cluster, k: Key, f: string)
    requires Clean(rmq) && OperatorKey(f) && RenewedByBuilder(u, v, rmq, k)
    requires k in u.objects && Flagged(u.objects[k].meta.annotations, f)
    ensures k in v.objects && Flagged(v.objects[k].meta.annotations, f)
  {
    hide ResourceBuilders, Clean, OperatorKey;
    var b :| b in ResourceBuilders(rmq) && b.key == k && Resources.Renewed(u, v, b);
    UpdateKeepsFlags(rmq, b, u.objects[k], f);
    assert Flagged(Restored(u.objects[k], b.update(u.objects[k]).result).meta.annotations, f);
  }

  lemma FlagStep(u: World, v: World, rmq: Cluster, k: Key, f: string)
    requires Clean(rmq) && Effect(u, v, rmq) && Extends(u, v) && OperatorKey(f)
    ensures FlagKept(u, v, k, f)
  {
    hide Effect, ResourceBuilders, Clean, OperatorKey, RenewedByBuilder, MadeByBuilder;
    ObjectAfter(u, v, rmq, k);
    if k in u.objects && Flagged(u.objects[k].meta.annotations, f) && RenewedByBuilder(u, v, rmq, k) {
      RenewedKeepsFlag(u, v, rmq, k, f);
    }
  }

  /**
    Pending work is not dropped: a flag survives every pass unless its object or the flag itself is
    removed on purpose.
  */
  lemma FlagsSurvive(w: World, cfg: Settings, sch: Schedule, k: Key, f: string)
    requires Live(w) && OperatorKey(f)
    ensures Extends(w, After(w, cfg, sch)) && FlagKept(w, After(w, cfg, sch), k, f)
  {
    hide ReconcileSpec, Effect, Clean, OperatorKey, Commanded, FlagsGone, Undeleted, PastDeletion;
    var rmq, v := w.cluster.value, After(w, cfg, sch);
    var u := ChildrenAfter(w, cfg, sch);
    EventsSplit(w, u, v, rmq);
    FlagStep(u, v.(cluster := u.cluster), rmq, k, f);
    if k in w.objects {
      DeletionOfObject(w, u, rmq, k);
      hide AfterDeletion;
      if k !in u.objects {
        var n :| 0 <= n < |News(w, u)| && News(w, u)[n] == Deleted(k);
        assert Deleted(k) in News(w, v);
      }
    }
  }

  /** The plugins file that the ConfigMap holds. */
  ghost predicate StoresPlugins(w: World, plugins: seq<string>) {
    var k := Cli.PluginsKey(w.name);
    && k in w.objects && w.objects[k].ConfigMap? && PLUGINS_FILE in w.objects[k].files
    && w.objects[k].files[PLUGINS_FILE] == Text(Plugins.EnabledPluginsFile(plugins))
  }

  /** In a complete cluster the plugins ConfigMap holds the cluster's plugin list. */
  lemma PluginsStored(u: World, rmq: Cluster)
    requires AllInPlace(u, rmq) && rmq.name == u.name
    ensures StoresPlugins(u, rmq.spec.plugins)
  {
    hide Plugins.EnabledPluginsFile, PLUGINS_FILE, ChildResourceName, Touched;
    var b, bs := PluginsBuilder(rmq), ResourceBuilders(rmq);
    PluginsAt(rmq);
    hide ResourceBuilders;
    var m :| 0 <= m < |bs| && bs[m] == b;
    assert InPlace(b, u);
    var o := u.objects[b.key];
    assert b.update(o).result == PluginsBody(rmq, WithMeta(o, Touched(rmq, map[], o.meta)));
  }

  lemma PluginsAt(rmq: Cluster)
    ensures PluginsBuilder(rmq) in ResourceBuilders(rmq)
  {
    hide PluginsBuilder, HeadlessBuilder, ClientBuilder, CookieBuilder, UserBuilder, ServerConfBuilder;
    hide AccountBuilder, RoleBuilder, BindingBuilder, NodeBuilder;
    var base := BaseBuilders(rmq);
    var i := if HasUserSecret(rmq) then 4 else 3;
    assert base[i] == PluginsBuilder(rmq);
    assert ResourceBuilders(rmq)[i] == base[i];
  }

  lemma NoClearing(u: World, v: World, rmq: Cluster, e: Event)
    requires Clearing(e) && (v == u || Built(u, v, rmq) || Rolled(u, v, rmq))
    ensures Extends(u, v) && e !in News(u, v)
  {
    hide ResourceBuilders, AllInPlace, NoneStale, Quiet, MineSet, OwnWrite, InPlace;
    if v == u {
      assert News(u, v) == [];
    } else if Built(u, v, rmq) {
      var j: nat :| StoppedAt(u, v, ResourceBuilders(rmq), 0, j);
      assert forall e :: e in News(u, v) ==> BuilderEvent(e, ResourceBuilders(rmq)[j].key);
    } else {
      var since := Restart.ConfChangedAt(u).value;
      var key, now :| Restart.Restarted(u, v, key, since, now);
      RestartEvents(u, v, key, since, now);
    }
  }

  lemma ClearingIsCommanded(u: World, v: World, rmq: Cluster, e: Event)
    requires Effect(u, v, rmq) && Extends(u, v) && e in News(u, v) && Clearing(e)
    ensures Commanded(u, v, rmq)
  {
    hide Built, Rolled, Commanded;
    if !Commanded(u, v, rmq) {
      NoClearing(u, v, rmq, e);
    }
  }

  /** The event is not the clearing of a flag or of the mark, or its command is among the earlier events. */
  ghost predicate AfterCommand(ev: seq<Event>, n: nat, rmq: Cluster)
    requires n < |ev|
  {
    match ev[n]
    case FlagCleared(k, f) => Cli.CommandRan(ev[..n], rmq, k, f)
    case RebalanceCleared => Ran(Cli.Node(rmq, 0), Cli.REBALANCE) in ev[..n]
    case _ => true
  }

  /** The event clears a flag or the mark. */
  predicate Clearing(e: Event) { e.FlagCleared? || e.RebalanceCleared? }

  /**
    A flag or the mark is cleared only in a pass that found the cluster complete, quiet and
    fully restarted, and only after the command it stands for went through in that very pass:
    for the plugins flag, setting exactly the plugins the ConfigMap stores, on every node.
  */
  lemma ClearedAfterCommand(w: World, cfg: Settings, sch: Schedule, n: nat) returns (u: World)
    requires Live(w)
    requires Extends(w, After(w, cfg, sch)) && n < |News(w, After(w, cfg, sch))|
    requires Clearing(News(w, After(w, cfg, sch))[n])
    ensures var rmq, v := w.cluster.value, After(w, cfg, sch);
            && AfterDeletion(w, u, rmq) && Quiet(u) && AllInPlace(u, rmq) && NoneStale(u)
            && |MineSet(u)| == rmq.spec.replicas
            && StoresPlugins(u, rmq.spec.plugins)
            && AfterCommand(News(w, v), n, rmq)
  {
    hide ReconcileSpec, Effect, Clean, Quiet, AllInPlace, NoneStale, MineSet, StoresPlugins, AfterDeletion, FlagsGone;
    hide Undeleted;
    hide PastDeletion;
    var rmq, v := w.cluster.value, After(w, cfg, sch);
    u := ChildrenAfter(w, cfg, sch);
    EventsSplit(w, u, v, rmq);
    NameAfterDeletion(w, u, rmq);
    var v' := v.(cluster := u.cluster);
    var a, b := News(w, u), News(u, v');
    forall m | 0 <= m < |a| ensures !Clearing(a[m]) {
      assert Finalizer.DeleteEvent(a[m]);
    }
    ClearingIsCommanded(u, v', rmq, (a + b)[n]);
    PluginsStored(u, rmq);
    JustifiedLater(a, b, rmq, n);
  }

  lemma JustifiedLater(a: seq<Event>, b: seq<Event>, rmq: Cluster, n: nat)
    requires Cli.Justified(b, rmq) && |a| <= n < |a + b|
    ensures AfterCommand(a + b, n, rmq)
  {
    hide Cli.CommandRan, Cli.Node;
    var m := n - |a|;
    assert Cli.JustifiedAt(b, m, rmq);
    assert (a + b)[..n] == a + b[..m];
    if b[m].FlagCleared? {
      Cli.RanMonotone(b[..m], a + b[..m], rmq, b[m].key, b[m].flag);
    }
  }

  // ----------------------------------------------------------------- the mark

  /** The mark went after the rebalance command, in a pass that found the cluster quiet, complete and counted. */
  ghost predicate MarkClearedAt(w: World, u: World, v: World, rmq: Cluster, n: nat)
    requires Extends(w, v)
  {
    && n < |News(w, v)| && News(w, v)[n] == RebalanceCleared
    && Ran(Cli.Node(rmq, 0), Cli.REBALANCE) in News(w, v)[..n]
    && AfterDeletion(w, u, rmq) && Quiet(u) && AllInPlace(u, rmq) && |MineSet(u)| == rmq.spec.replicas
  }

  ghost predicate MarkCleared(w: World, v: World, rmq: Cluster)
    requires Extends(w, v)
  {
    exists u, n :: MarkClearedAt(w, u, v, rmq, n)
  }

  /** A rebalance mark survives every pass, value and all, unless the queues were rebalanced in that pass. */
  lemma MarkSurvives(w: World, cfg: Settings, sch: Schedule)
    requires Live(w)
    ensures var rmq, v := w.cluster.value, After(w, cfg, sch);
            && Extends(w, v)
            && (v.cluster.Some? ==> MarkKept(rmq, v.cluster.value) || MarkCleared(w, v, rmq))
  {
    hide ReconcileSpec, Clean, Quiet, AllInPlace, NoneStale, MineSet, StoresPlugins, AfterDeletion, MarkKept;
    hide ClusterLeft;
    var rmq, v := w.cluster.value, After(w, cfg, sch);
    PassExtends(w, cfg, sch);
    ClusterAfter(w, cfg, sch);
    LeftMark(w, rmq, v, ReconcileSpec(w, cfg, sch).1.Continue?, Quiet(v) && AllInPlace(v, rmq));
    hide After;
    if v.cluster.Some? && !MarkKept(rmq, v.cluster.value) {
      var n :| 0 <= n < |News(w, v)| && News(w, v)[n] == RebalanceCleared;
      var u := ClearedAfterCommand(w, cfg, sch, n);
      assert AfterCommand(News(w, v), n, rmq);
      assert MarkClearedAt(w, u, v, rmq, n);
    }
  }

  lemma LeftMark(w: World, c: Cluster, v: World, passed: bool, complete: bool)
    requires ClusterLeft(w, c, v, passed, complete)
    ensures MarkEnd(w, c, v)
  {
  }
}
