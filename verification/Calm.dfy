/** Full passes in which no call fails: which stage decides each, and what it does. */
module Calm {
  import opened Basics
  import opened Objects
  import opened Store
  import opened Names
  import opened Conditions
  import opened Resources
  import opened Stages
  import opened Builders
  import opened Reconcile
  import opened Passes
  import Convergence
  import Desired
  import Finalizer
  import Merge
  import Metadata
  import Restart

  // ------------------------------------------------------ the deciding stage

  /** Whenever it is reached, the stage lets the pass go on and changes nothing. */
  ghost predicate Idle(i: nat, w: World, rmq: Cluster, cfg: Settings, sch: Schedule)
    requires i < |PIPELINE|
  {
    forall c: nat :: IdleAt(i, Sys(w, rmq, c), cfg, sch)
  }

  ghost predicate IdleAt(i: nat, s: Sys, cfg: Settings, sch: Schedule)
    requires i < |PIPELINE|
  {
    var t := RunStage(PIPELINE[i], s, cfg, sch);
    t.outcome.Continue? && t.sys.world == s.world && t.sys.rmq == s.rmq
  }

  lemma {:induction false} SkipIdle(s: Sys, i: nat, j: nat, cfg: Settings, sch: Schedule) returns (c: nat)
    requires i <= j < |PIPELINE| && forall k :: i <= k < j ==> Idle(k, s.world, s.rmq, cfg, sch)
    ensures RunFrom(s, i, cfg, sch) == RunFrom(Sys(s.world, s.rmq, c), j, cfg, sch)
    decreases j - i
  {
    hide RunStage, RunFrom, PIPELINE;
    if i == j {
      c := s.calls;
    } else {
      assert Idle(i, s.world, s.rmq, cfg, sch);
      assert s == Sys(s.world, s.rmq, s.calls) && IdleAt(i, Sys(s.world, s.rmq, s.calls), cfg, sch);
      Advance(s, i, cfg, sch);
      c := SkipIdle(RunStage(PIPELINE[i], s, cfg, sch).sys, i + 1, j, cfg, sch);
    }
  }

  /** When all stages before stage j are idle, a pass is what stage j makes of it. */
  ghost predicate PassIs(w: World, j: nat, c: nat, cfg: Settings, sch: Schedule)
    requires w.cluster.Some? && j < |PIPELINE|
  {
    var t := RunStage(PIPELINE[j], Sys(w, w.cluster.value, c), cfg, sch);
    t.outcome.Completed() || j == 10 ==>
      ReconcileSpec(w, cfg, sch) == (Deferred(w.cluster.value.status, t.sys, sch).world, t.outcome)
  }

  lemma StageDecides(w: World, j: nat, cfg: Settings, sch: Schedule) returns (c: nat)
    requires w.cluster.Some? && !sch.fails(0) && j < |PIPELINE|
    requires forall k :: 0 <= k < j ==> Idle(k, w, w.cluster.value, cfg, sch)
    ensures PassIs(w, j, c, cfg, sch)
  {
    hide RunStage, RunFrom, PIPELINE, Idle;
    var s := Sys(w, w.cluster.value, 1);
    c := SkipIdle(s, 0, j, cfg, sch);
    var s1 := Sys(w, w.cluster.value, c);
    if RunStage(PIPELINE[j], s1, cfg, sch).outcome.Completed() || j == 10 {
      LastStage(s1, j, cfg, sch);
    }
  }

  // -------------------------------------------------------------- calm passes

  /**
    No call fails, nothing is too recent, the sets are always listed in the order that is
    usual for them, and the clock is past the last configuration change.
  */
  ghost predicate CalmPass(w: World, sch: Schedule, order: set<Key> -> seq<Key>) {
    && NoFaults(sch) && (forall at :: !sch.recent(at))
    && (forall at :: sch.listing(at) == order(MineSet(w))) && IsListing(w, order(MineSet(w)))
    && ClockPast(w, sch)
  }

  ghost predicate ClockPast(w: World, sch: Schedule) {
    Restart.ConfChangedAt(w).Some? ==> forall at :: StringLess(Restart.ConfChangedAt(w).value, sch.now(at))
  }

  // ---------------------------------------------- when each stage has no work

  lemma DeletionIdle(w: World, rmq: Cluster, cfg: Settings, sch: Schedule, order: set<Key> -> seq<Key>)
    requires CalmPass(w, sch, order) && PastDeletion(rmq) && (rmq.deleting ==> MineSet(w) == {})
    ensures |PIPELINE| == 11 && Idle(0, w, rmq, cfg, sch)
  {
    hide RunStage, PIPELINE, MineSet, IsListing, Finalizer.DeleteOneSpec, Finalizer.FINALIZER;
    PipelineLength();
    ListingIsMine(w, order(MineSet(w)));
    forall c: nat ensures IdleAt(0, Sys(w, rmq, c), cfg, sch) {
      DeletionIs(Sys(w, rmq, c), cfg, sch);
    }
  }

  predicate Unpaused(rmq: Cluster) { Lookup(rmq.labels, PAUSE_LABEL) != "true" }

  lemma PausedIdle(w: World, rmq: Cluster, cfg: Settings, sch: Schedule)
    requires Unpaused(rmq)
    ensures |PIPELINE| == 11 && Idle(1, w, rmq, cfg, sch)
  {
    hide RunStage, PIPELINE, SetConditionSpec;
    PipelineLength();
    forall c: nat ensures IdleAt(1, Sys(w, rmq, c), cfg, sch) {
      PausedIs(Sys(w, rmq, c), cfg, sch);
    }
  }

  lemma DefaultsIdle(w: World, rmq: Cluster, cfg: Settings, sch: Schedule)
    requires !NeedsDefaults(rmq.spec, cfg)
    ensures |PIPELINE| == 11 && Idle(2, w, rmq, cfg, sch)
  {
    hide RunStage, PIPELINE, NeedsDefaults, Defaulted;
    PipelineLength();
    forall c: nat ensures IdleAt(2, Sys(w, rmq, c), cfg, sch) {
      DefaultsIs(Sys(w, rmq, c), cfg, sch);
    }
  }

  /** Recomputing the conditions from the sets as usually listed changes nothing. */
  ghost predicate UpToDate(w: World, rmq: Cluster, order: set<Key> -> seq<Key>) {
    var keys := order(MineSet(w));
    && AllMine(w, keys) && |keys| <= rmq.spec.replicas + 1
    && forall now: string ::
         SetConditionsSpec(ChildResources(w, keys, rmq.spec.replicas).value, rmq.status.conditions, now) ==
           rmq.status.conditions
  }

  lemma ConditionsIdle(w: World, rmq: Cluster, cfg: Settings, sch: Schedule, order: set<Key> -> seq<Key>)
    requires CalmPass(w, sch, order) && UpToDate(w, rmq, order)
    ensures |PIPELINE| == 11 && Idle(3, w, rmq, cfg, sch)
  {
    hide RunStage, PIPELINE, SetConditionsSpec, MineSet, ChildResources;
    PipelineLength();
    forall c: nat ensures IdleAt(3, Sys(w, rmq, c), cfg, sch) {
      ConditionsIs(Sys(w, rmq, c), cfg, sch);
    }
  }

  predicate TLSFine(rmq: Cluster) { rmq.spec.disableNonTLS ==> rmq.TLSEnabled() }

  lemma TLSIdle(w: World, rmq: Cluster, cfg: Settings, sch: Schedule)
    requires NoFaults(sch) && TLSFine(rmq)
    ensures |PIPELINE| == 11 && Idle(4, w, rmq, cfg, sch)
  {
    hide RunStage, PIPELINE, SetConditionSpec;
    PipelineLength();
    forall c: nat ensures IdleAt(4, Sys(w, rmq, c), cfg, sch) {
      TLSIs(Sys(w, rmq, c), cfg, sch);
    }
  }

  /** Some set is being updated in a way that calls for a rebalance afterwards. */
  ghost predicate Rebalancing(w: World, rmq: Cluster) {
    exists k :: k in w.objects && Mine(w, k) && NeedsRebalance(w.objects[k], rmq)
  }

  lemma MarkIdle(w: World, rmq: Cluster, cfg: Settings, sch: Schedule, order: set<Key> -> seq<Key>)
    requires CalmPass(w, sch, order) && (Rebalancing(w, rmq) ==> Flagged(rmq.annotations, REBALANCE_NEEDED))
    ensures |PIPELINE| == 11 && Idle(5, w, rmq, cfg, sch)
  {
    hide RunStage, PIPELINE, MineSet, NeedsRebalance, Flagged;
    PipelineLength();
    forall c: nat ensures IdleAt(5, Sys(w, rmq, c), cfg, sch) {
      MarkIs(Sys(w, rmq, c), cfg, sch);
    }
  }

  lemma QuietNeedsNoRebalance(w: World, rmq: Cluster)
    requires Quiet(w)
    ensures !Rebalancing(w, rmq)
  {
  }

  lemma ScaleDownIdle(w: World, rmq: Cluster, cfg: Settings, sch: Schedule)
    requires rmq.status.replicas <= rmq.spec.replicas
    ensures |PIPELINE| == 11 && Idle(6, w, rmq, cfg, sch)
  {
    hide RunStage, PIPELINE, SetConditionSpec, Itoa;
    PipelineLength();
    forall c: nat ensures IdleAt(6, Sys(w, rmq, c), cfg, sch) {
      ScaleDownIs(Sys(w, rmq, c), cfg, sch);
    }
  }

  /** Every object is in place and every set asks for the wanted storage. */
  ghost predicate Complete(w: World, rmq: Cluster) {
    && AllInPlace(w, rmq)
    && forall i: nat :: i < rmq.spec.replicas ==> NodeSized(w, rmq, i)
  }

  ghost predicate NodeSized(w: World, rmq: Cluster, i: nat) {
    var k := NodeKey(rmq.name, i);
    k in w.objects && w.objects[k].StatefulSet? && Capacity(w.objects[k].spec.claims, PVC_NAME) == rmq.spec.storage
  }

  lemma CompleteBuilders(w: World, rmq: Cluster)
    requires Clean(rmq) && Complete(w, rmq)
    ensures forall b :: b in ResourceBuilders(rmq) ==> WellBehaved(b) && InPlace(b, w) && Convergence.Sized(b, w)
  {
    hide ResourceBuilders, WellBehaved, InPlace, Clean, SetBody, PlainUpdate, Capacity, Wanted;
    AllWellBehaved(rmq);
    var bs := ResourceBuilders(rmq);
    forall b | b in bs ensures InPlace(b, w) && Convergence.Sized(b, w) {
      var m :| 0 <= m < |bs| && bs[m] == b;
      if b.key.kind == KindStatefulSet {
        BuilderKinds(rmq, b);
        var i: nat :| i < rmq.spec.replicas && b == NodeBuilder(rmq, i);
        assert NodeSized(w, rmq, i);
        forall r ensures Wanted(b, r) == rmq.spec.storage {
          Convergence.NodeWanted(rmq, i, r);
        }
      }
    }
  }

  lemma BuildersIdle(w: World, rmq: Cluster, cfg: Settings, sch: Schedule, order: set<Key> -> seq<Key>)
    requires CalmPass(w, sch, order) && Clean(rmq) && Complete(w, rmq) && Quiet(w)
    ensures |PIPELINE| == 11 && Idle(7, w, rmq, cfg, sch)
  {
    hide RunStage, PIPELINE, MineSet, ReconcileResourcesSpec, ResourceBuilders, WellBehaved, InPlace, Clean, Quiet;
    hide Convergence.Sized;
    PipelineLength();
    CompleteBuilders(w, rmq);
    hide Complete;
    forall c: nat ensures IdleAt(7, Sys(w, rmq, c), cfg, sch) {
      ResourcesIs(Sys(w, rmq, c), cfg, sch);
      Convergence.ResourcesIdle(Sys(w, rmq, c), ResourceBuilders(rmq), sch);
    }
  }

  lemma RestartIdle(w: World, rmq: Cluster, cfg: Settings, sch: Schedule, order: set<Key> -> seq<Key>)
    requires CalmPass(w, sch, order) && rmq.name == w.name && NoneStale(w)
    ensures |PIPELINE| == 11 && Idle(8, w, rmq, cfg, sch)
  {
    hide RunStage, PIPELINE, MineSet, Restart.RestartSpec, IsListing, Restart.ServerConfKey;
    PipelineLength();
    forall c: nat ensures IdleAt(8, Sys(w, rmq, c), cfg, sch) {
      var s := Sys(w, rmq, c);
      RestartIs(s, cfg, sch);
      Restart.RestartCalm(s, sch);
      Restart.RestartEffect(s, sch);
      if Restart.RestartSpec(s, sch).outcome.Done? {
        StampsOnlyStale(s, sch);
      }
    }
  }

  lemma StampsOnlyStale(s: Sys, sch: Schedule)
    requires s.rmq.name == s.world.name && Restart.RestartSpec(s, sch).outcome.Done?
    ensures !NoneStale(s.world)
  {
    hide Restart.RestartSpec, Restart.ConfChangedAt;
    Restart.RestartEffect(s, sch);
    var since := Restart.ConfChangedAt(s.world).value;
    var k, at :| Restart.Restarted(s.world, Restart.RestartSpec(s, sch).sys.world, k, since, sch.now(at));
    assert k in Restart.StaleSet(s.world, since);
  }

  lemma StatusIdle(w: World, rmq: Cluster, cfg: Settings, sch: Schedule)
    requires Published(rmq) == rmq.status
    ensures |PIPELINE| == 11 && Idle(9, w, rmq, cfg, sch)
  {
    hide RunStage, PIPELINE, Published;
    PipelineLength();
    forall c: nat ensures IdleAt(9, Sys(w, rmq, c), cfg, sch) {
      StatusIs(Sys(w, rmq, c), cfg, sch);
    }
  }

  // --------------------------------------------------- what a stamp leaves alone

  lemma StampedTemplate(rmq: Cluster, pod: PodTemplate, now: string)
    requires Clean(rmq) && Desired.TemplateInPlace(rmq, pod)
    ensures Desired.TemplateInPlace(rmq, pod.(annotations := pod.annotations[LAST_RESTART := now]))
  {
    NoVaultStamp(rmq);
    hide VaultAnnotations, Volumes, Containers, SetupContainer, DefaultConstraintsDisabled, PodContent, Clean;
    hide Merge.Taken, Metadata.Label;
  }

  /** A restart stamp disturbs no builder's fixpoint. */
  lemma StampFixed(rmq: Cluster, i: nat, o: Object, now: string)
    requires Clean(rmq) && o.StatefulSet? && Fixed(NodeBuilder(rmq, i), o)
    ensures Fixed(NodeBuilder(rmq, i), Restored(o, Restart.Stamp(o, now)))
  {
    hide Fixed, NodeBuilder, Desired.MetaInPlace, Desired.TemplateInPlace, Merge.Taken, Clean, ROLLING;
    Desired.NodeFixedIff(rmq, i, o);
    Desired.NodeFixedIff(rmq, i, Restored(o, Restart.Stamp(o, now)));
    StampedTemplate(rmq, o.spec.template, now);
  }

  lemma StampKeepsPlace(w: World, v: World, k: Key, since: string, now: string, rmq: Cluster)
    requires Clean(rmq) && AllInPlace(w, rmq) && Restart.Restarted(w, v, k, since, now)
    ensures AllInPlace(v, rmq)
  {
    hide ResourceBuilders, Clean, SetBody, PlainUpdate, Restart.Stamp;
    var bs := ResourceBuilders(rmq);
    forall m | 0 <= m < |bs| ensures InPlace(bs[m], v) {
      assert InPlace(bs[m], w);
      if bs[m].key == k {
        BuilderKinds(rmq, bs[m]);
        var i: nat :| i < rmq.spec.replicas && bs[m] == NodeBuilder(rmq, i);
        StampFixed(rmq, i, w.objects[k], now);
      }
    }
  }
}
