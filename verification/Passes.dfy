/** What one pass does to the children and to the cluster, whatever calls fail. */
module Passes {
  import opened Basics
  import opened Objects
  import opened Store
  import opened Conditions
  import opened Resources
  import opened Stages
  import opened Builders
  import opened Reconcile
  import Finalizer
  import Restart
  import Cli

  /** The store holds a cluster of the expected name whose annotations are clean. */
  ghost predicate Live(w: World) {
    w.cluster.Some? && w.cluster.value.name == w.name && Clean(w.cluster.value)
  }

  ghost predicate AllInPlace(w: World, rmq: Cluster) {
    var bs := ResourceBuilders(rmq);
    forall m :: 0 <= m < |bs| ==> InPlace(bs[m], w)
  }

  /** Every set is stamped later than the configuration change noted last. */
  ghost predicate NoneStale(w: World) { Restart.StaleSets(w) == {} }

  // ------------------------------------------------------------ the children

  /** One builder acted on a quiet cluster that is not to shrink. */
  ghost predicate Built(w: World, v: World, rmq: Cluster) {
    && Quiet(w) && rmq.status.replicas <= rmq.spec.replicas
    && exists j :: StoppedAt(w, v, ResourceBuilders(rmq), 0, j)
  }

  /** One stale set was stamped, on a quiet cluster with every object in place. */
  ghost predicate Rolled(w: World, v: World, rmq: Cluster) {
    && Quiet(w) && rmq.status.replicas <= rmq.spec.replicas && AllInPlace(w, rmq)
    && Restart.ConfChangedAt(w).Some?
    && exists k, now :: Restart.Restarted(w, v, k, Restart.ConfChangedAt(w).value, now)
  }

  /** Commands ran and flags went, on a quiet, complete cluster that needs no restart. */
  ghost predicate Commanded(w: World, v: World, rmq: Cluster) {
    && Quiet(w) && rmq.status.replicas <= rmq.spec.replicas && AllInPlace(w, rmq) && NoneStale(w)
    && |MineSet(w)| == rmq.spec.replicas
    && Cli.CliEffect(w, v, rmq)
  }

  /** No plugins flag and no created flag is left. */
  ghost predicate FlagsGone(v: World) {
    var plugins := Cli.PluginsKey(v.name);
    && plugins in v.objects && !Flagged(v.objects[plugins].meta.annotations, PLUGINS_UPDATED)
    && forall k :: k in v.objects && Mine(v, k) ==> !Flagged(v.objects[k].meta.annotations, SET_CREATED)
  }

  ghost predicate Effect(w: World, v: World, rmq: Cluster) {
    v == w || Built(w, v, rmq) || Rolled(w, v, rmq) || Commanded(w, v, rmq)
  }

  /** The pass goes past its deletion stage: the finalizer is there, or already gone from a cluster being deleted. */
  predicate PastDeletion(rmq: Cluster) {
    if rmq.deleting then Finalizer.FINALIZER !in rmq.finalizers else Finalizer.FINALIZER in rmq.finalizers
  }

  /** What the deletion stage leaves: the sets of a live cluster are not touched. */
  ghost predicate AfterDeletion(w: World, u: World, rmq: Cluster) {
    Finalizer.DeletionEffect(w, u, rmq) && u.cluster == w.cluster && (!rmq.deleting ==> u == w)
  }

  /** The store as the deletion stage leaves it to the rest of the pass, with the cluster as it was read. */
  function Undeleted(w: World, cfg: Settings, sch: Schedule): World {
    if sch.fails(0) || w.cluster.None? then w
    else RunStage(DeleteStage, Sys(w, w.cluster.value, 1), cfg, sch).sys.world.(cluster := w.cluster)
  }

  /** A stage that decided the pass: what it did to the children of store u. */
  lemma StageActs(u: World, rmq: Cluster, j: nat, c: nat, cfg: Settings, sch: Schedule)
    requires 1 <= j <= 10 && u.cluster == Some(rmq) && Clean(rmq) && rmq.name == u.name
    requires forall k :: 1 <= k < j ==> Passed(k, u, rmq, cfg, sch)
    ensures var v := RunStage(PIPELINE[j], Sys(u, rmq, c), cfg, sch).sys.world;
            Effect(u, v.(cluster := u.cluster), rmq)
  {
    hide Clean, Built, Rolled, Commanded, RunStage, ClusterEffect, StatusSpec, Passed;
    PipelineLength();
    hide PIPELINE;
    var s := Sys(u, rmq, c);
    if j == 7 {
      BuilderActs(u, rmq, c, cfg, sch);
    } else if j == 8 {
      RestartActs(u, rmq, c, cfg, sch);
    } else if j == 10 {
      CommandsAct(u, rmq, c, cfg, sch);
    } else if j == 9 {
      StatusActs(s, cfg, sch);
    } else {
      ClusterStageActs(s, j, cfg, sch);
    }
  }

  lemma ClusterStageActs(s: Sys, j: nat, cfg: Settings, sch: Schedule)
    requires 1 <= j <= 6 && s.world.cluster == Some(s.rmq)
    ensures StageEffect(s, RunStage(PIPELINE[j], s, cfg, sch))
  {
    hide RunStage, PIPELINE, StageEffect, PausedSpec, DefaultsSpec, ConditionsSpec, TLSSpec, MarkSpec, ScaleDownSpec;
    hide StatusSpec;
    match j
    case 1 => PausedIs(s, cfg, sch); PausedEffect(s, sch);
    case 2 => DefaultsIs(s, cfg, sch); DefaultsEffect(s, cfg, sch);
    case 3 => ConditionsIs(s, cfg, sch); ConditionsEffect(s, sch);
    case 4 => TLSIs(s, cfg, sch); TLSEffect(s, sch);
    case 5 => MarkIs(s, cfg, sch); MarkEffect(s, sch);
    case 6 => ScaleDownIs(s, cfg, sch); ScaleDownEffect(s, sch);
    case _ =>
  }

  lemma StatusActs(s: Sys, cfg: Settings, sch: Schedule)
    requires s.world.cluster == Some(s.rmq)
    ensures RunStage(PIPELINE[9], s, cfg, sch) == StatusSpec(s, sch)
    ensures ClusterOnly(s.world, StatusSpec(s, sch).sys.world)
  {
    hide RunStage, PIPELINE, StatusSpec, Published;
    StatusIs(s, cfg, sch);
    StatusEffect(s, sch);
  }

  lemma NotShrinking(u: World, rmq: Cluster, cfg: Settings, sch: Schedule)
    requires u.cluster == Some(rmq) && Passed(6, u, rmq, cfg, sch)
    ensures rmq.status.replicas <= rmq.spec.replicas
  {
    hide RunStage, PIPELINE, ScaleDownSpec, StageEffect;
    PipelineLength();
    var c: nat :| RunStage(PIPELINE[6], Sys(u, rmq, c), cfg, sch).outcome.Continue?;
    ScaleDownIs(Sys(u, rmq, c), cfg, sch);
    ScaleDownEffect(Sys(u, rmq, c), sch);
  }

  lemma EverythingInPlace(u: World, rmq: Cluster, cfg: Settings, sch: Schedule)
    requires Clean(rmq) && Passed(7, u, rmq, cfg, sch)
    ensures Quiet(u) && AllInPlace(u, rmq)
  {
    hide RunStage, PIPELINE, ReconcileResourcesSpec, ResourceBuilders, Clean, InPlace, Quiet, StatusAfter;
    PipelineLength();
    var c: nat :| RunStage(PIPELINE[7], Sys(u, rmq, c), cfg, sch).outcome.Continue?;
    ResourcesIs(Sys(u, rmq, c), cfg, sch);
    AllWellBehaved(rmq);
    ResourcesEffect(Sys(u, rmq, c), ResourceBuilders(rmq), sch);
  }

  lemma BuilderActs(u: World, rmq: Cluster, c: nat, cfg: Settings, sch: Schedule)
    requires u.cluster == Some(rmq) && Clean(rmq) && Passed(6, u, rmq, cfg, sch)
    ensures var v := RunStage(PIPELINE[7], Sys(u, rmq, c), cfg, sch).sys.world;
            v.cluster == u.cluster && Effect(u, v, rmq)
  {
    hide RunStage, PIPELINE, ReconcileResourcesSpec, ResourceBuilders, Clean, StoppedAt, AllInPlace, InPlace, Quiet;
    hide Rolled, Commanded, Passed;
    ResourcesIs(Sys(u, rmq, c), cfg, sch);
    NotShrinking(u, rmq, cfg, sch);
    AllWellBehaved(rmq);
    ResourcesEffect(Sys(u, rmq, c), ResourceBuilders(rmq), sch);
  }

  lemma RestartActs(u: World, rmq: Cluster, c: nat, cfg: Settings, sch: Schedule)
    requires u.cluster == Some(rmq) && Clean(rmq) && rmq.name == u.name
    requires Passed(6, u, rmq, cfg, sch) && Passed(7, u, rmq, cfg, sch)
    ensures var v := RunStage(PIPELINE[8], Sys(u, rmq, c), cfg, sch).sys.world;
            v.cluster == u.cluster && Effect(u, v, rmq)
  {
    hide RunStage, PIPELINE, Clean, AllInPlace, Restart.RestartSpec, Restart.StaleSet, NoneStale, Quiet, Built;
    hide Commanded, Passed;
    RestartIs(Sys(u, rmq, c), cfg, sch);
    NotShrinking(u, rmq, cfg, sch);
    EverythingInPlace(u, rmq, cfg, sch);
    Restart.RestartEffect(Sys(u, rmq, c), sch);
    var t := Restart.RestartSpec(Sys(u, rmq, c), sch);
    if t.outcome.Done? {
      var since := Restart.ConfChangedAt(u).value;
      var k, at :| Restart.Restarted(u, t.sys.world, k, since, sch.now(at));
      assert Restart.Restarted(u, t.sys.world, k, since, sch.now(at));
    }
  }

  lemma NothingStale(u: World, rmq: Cluster, cfg: Settings, sch: Schedule)
    requires rmq.name == u.name && Passed(8, u, rmq, cfg, sch)
    ensures NoneStale(u)
  {
    hide RunStage, PIPELINE, Restart.RestartSpec, Restart.StaleSet;
    PipelineLength();
    var c: nat :| RunStage(PIPELINE[8], Sys(u, rmq, c), cfg, sch).outcome.Continue?;
    RestartIs(Sys(u, rmq, c), cfg, sch);
    Restart.RestartEffect(Sys(u, rmq, c), sch);
  }

  /** What is declared afterwards does not touch the store. */
  lemma FinalStore(s: Sys, sch: Schedule)
    ensures FinalSpec(s, sch).sys.world == Cli.CliSpec(s, sch).sys.world
    ensures FinalSpec(s, sch).outcome == Cli.CliSpec(s, sch).outcome
  {
    hide Cli.CliSpec, SetConditionSpec;
  }

  /** The commands stage, between stores that differ only in children. */
  lemma CliActs(s: Sys, sch: Schedule)
    requires s.world.cluster == Some(s.rmq) && s.rmq.name == s.world.name
    ensures var t, u := Cli.CliSpec(s, sch), s.world;
            var v := t.sys.world.(cluster := u.cluster);
            && Cli.CliEffect(u, v, s.rmq)
            && (v == u || (Quiet(u) && |MineSet(u)| == s.rmq.spec.replicas))
            && (t.outcome.Continue? ==> Quiet(u) && |MineSet(u)| == s.rmq.spec.replicas && FlagsGone(v))
  {
    hide Cli.CliSpec, Cli.Justified, Quiet, MineSet, Flagged;
    Cli.CliStageEffect(s, sch);
    var t, u := Cli.CliSpec(s, sch), s.world;
    var v := t.sys.world.(cluster := u.cluster);
    assert News(u, v) == News(u, t.sys.world);
    CliKeepsMine(u, v, s.rmq);
    if News(u, v) == [] {
      CliIdle(u, v, s.rmq);
    }
  }

  lemma CommandsAct(u: World, rmq: Cluster, c: nat, cfg: Settings, sch: Schedule)
    requires u.cluster == Some(rmq) && Clean(rmq) && rmq.name == u.name
    requires Passed(6, u, rmq, cfg, sch) && Passed(7, u, rmq, cfg, sch) && Passed(8, u, rmq, cfg, sch)
    ensures var t := RunStage(PIPELINE[10], Sys(u, rmq, c), cfg, sch);
            var v := t.sys.world.(cluster := u.cluster);
            && Effect(u, v, rmq)
            && (t.outcome.Continue? ==> Commanded(u, v, rmq) && FlagsGone(v))
  {
    hide Clean, AllInPlace, NoneStale, FlagsGone, FinalSpec, Cli.CliSpec, Cli.CliEffect, Built, Rolled, Quiet, MineSet;
    hide Passed, RunStage, PIPELINE;
    NotShrinking(u, rmq, cfg, sch);
    EverythingInPlace(u, rmq, cfg, sch);
    NothingStale(u, rmq, cfg, sch);
    FinalIs(Sys(u, rmq, c), cfg, sch);
    CliActs(Sys(u, rmq, c), sch);
    FinalStore(Sys(u, rmq, c), sch);
  }

  lemma CliKeepsMine(u: World, v: World, rmq: Cluster)
    requires Cli.CliEffect(u, v, rmq)
    ensures forall k :: k in v.objects ==> (Mine(v, k) <==> Mine(u, k))
  {
    hide Cli.Justified;
    forall k | k in v.objects ensures Mine(v, k) <==> Mine(u, k) {
      assert Cli.Unflagged(u.objects[k], v.objects[k], k, News(u, v));
    }
  }

  /** Without events the commands stage did nothing. */
  lemma CliIdle(u: World, v: World, rmq: Cluster)
    requires Cli.CliEffect(u, v, rmq) && News(u, v) == [] && v.cluster == u.cluster
    ensures v == u
  {
    forall k | k in u.objects ensures v.objects[k] == u.objects[k] {
      assert Cli.Unflagged(u.objects[k], v.objects[k], k, []);
      assert v.objects[k].meta.annotations == u.objects[k].meta.annotations;
    }
    assert v.objects == u.objects;
    assert v.log == u.log;
  }

  /** One pass over a live cluster: deletion work, then at most one stage's work on the children. */
  lemma ChildrenAfter(w: World, cfg: Settings, sch: Schedule) returns (u: World)
    requires Live(w)
    ensures var rmq, v := w.cluster.value, ReconcileSpec(w, cfg, sch).0;
            && u == Undeleted(w, cfg, sch) && AfterDeletion(w, u, rmq)
            && Effect(u, v.(cluster := u.cluster), rmq)
            && (v.(cluster := u.cluster) != u ==> PastDeletion(rmq))
            && (ReconcileSpec(w, cfg, sch).1.Continue? ==>
              PastDeletion(rmq) && Commanded(u, v.(cluster := u.cluster), rmq) && FlagsGone(v))
  {
    hide Clean, Effect, Commanded, FlagsGone, RunStage, Finalizer.DeletionEffect;
    var rmq, s := w.cluster.value, Sys(w, w.cluster.value, 1);
    u := w;
    NoDeletion(w, rmq);
    if !sch.fails(0) {
      var t := RunFrom(s, 0, cfg, sch);
      DeferredOnly(rmq.status, t.sys, sch);
      u := DeletionActs(s, cfg, sch);
      Advance(s, 0, cfg, sch);
      hide RunFrom;
      var d := RunStage(PIPELINE[0], s, cfg, sch);
      if !d.outcome.Completed() {
        OneStageActs(d.sys, 1, cfg, sch);
        var j, c :| ActedAt(d.sys, 1, j, c, cfg, sch);
        StageActs(u, rmq, j, c, cfg, sch);
        if t.outcome.Continue? {
          CommandsAct(u, rmq, c, cfg, sch);
          FlagsGoneAnyCluster(ReconcileSpec(w, cfg, sch).0.(cluster := u.cluster), ReconcileSpec(w, cfg, sch).0);
        }
      }
    }
  }

  /** The stage that decided a pass, and the store and cluster it worked on. */
  ghost predicate Decided(w: World, u: World, j: nat, c: nat, cfg: Settings, sch: Schedule)
    requires w.cluster.Some?
  {
    var rmq := w.cluster.value;
    && j < |PIPELINE| && u == Undeleted(w, cfg, sch) && AfterDeletion(w, u, rmq) && u.cluster == w.cluster
    && (forall k :: 1 <= k < j ==> Passed(k, u, rmq, cfg, sch))
    && var t := RunStage(PIPELINE[j], if j == 0 then Sys(w, rmq, 1) else Sys(u, rmq, c), cfg, sch);
       && ReconcileSpec(w, cfg, sch) == (Deferred(rmq.status, t.sys, sch).world, t.outcome)
       && (j == 0 ==> t.sys.world.(cluster := w.cluster) == u && t.outcome.Completed())
       && (j > 0 ==> PastDeletion(rmq) && Sys(u, rmq, c) == Reached(Sys(w, rmq, 1), 0, j, cfg, sch))
       && (t.outcome.Continue? ==> j == 10)
  }

  /** Every pass that can read its cluster is decided by one stage. */
  lemma OneStageDecides(w: World, cfg: Settings, sch: Schedule) returns (u: World, j: nat, c: nat)
    requires Live(w) && !sch.fails(0)
    ensures Decided(w, u, j, c, cfg, sch)
  {
    hide Clean, Effect, RunStage, Finalizer.DeletionEffect;
    var rmq, s := w.cluster.value, Sys(w, w.cluster.value, 1);
    u := DeletionActs(s, cfg, sch);
    j, c := 0, 1;
    Advance(s, 0, cfg, sch);
    hide RunFrom;
    var d := RunStage(PIPELINE[0], s, cfg, sch);
    if !d.outcome.Completed() {
      OneStageActs(d.sys, 1, cfg, sch);
      j, c :| ActedAt(d.sys, 1, j, c, cfg, sch);
    }
  }

  lemma FlagsGoneAnyCluster(a: World, b: World)
    requires FlagsGone(a) && b == a.(cluster := b.cluster)
    ensures FlagsGone(b)
  {
    hide Flagged;
    assert forall k :: k in b.objects ==> (Mine(b, k) <==> Mine(a, k));
  }

  lemma NoDeletion(w: World, rmq: Cluster)
    ensures AfterDeletion(w, w, rmq) && Effect(w, w, rmq)
  {
    assert News(w, w) == [];
  }

  lemma DeferredOnly(before: ClusterStatus, s: Sys, sch: Schedule)
    ensures ClusterOnly(s.world, Deferred(before, s, sch).world)
  {
  }

  lemma FirstIsDeletion()
    ensures |PIPELINE| == 11 && PIPELINE[0] == DeleteStage
  {
  }

  lemma DeletionActs(s: Sys, cfg: Settings, sch: Schedule) returns (u: World)
    requires s.world.cluster == Some(s.rmq)
    ensures var d := RunStage(PIPELINE[0], s, cfg, sch);
            && AfterDeletion(s.world, u, s.rmq) && d.sys.world.(cluster := u.cluster) == u
            && Effect(u, d.sys.world.(cluster := u.cluster), s.rmq)
            && (d.outcome.Continue? ==> d.sys.world == u && d.sys.rmq == s.rmq && PastDeletion(s.rmq))
            && u.name == s.world.name && u == RunStage(DeleteStage, s, cfg, sch).sys.world.(cluster := s.world.cluster)
  {
    hide RunStage, PIPELINE, Finalizer.ReconcileDeleteSpec, Built, Rolled, Commanded;
    DeletionIs(s, cfg, sch);
    Finalizer.DeleteStageEffect(s, sch);
    u := RunStage(PIPELINE[0], s, cfg, sch).sys.world.(cluster := s.world.cluster);
    FirstIsDeletion();
  }

  // ------------------------------------------------------------- the cluster

  /** Success is not claimed anew and no generation is recorded. */
  ghost predicate NothingDeclared(a: ClusterStatus, b: ClusterStatus) {
    && (InShape(a.conditions) && Successful(b.conditions) ==> Successful(a.conditions))
    && b.observedGeneration == a.observedGeneration
  }

  /**
    A status a pass over cluster c may leave; `passed` when the pass went through, `complete` when
    all objects were in place.
  */
  ghost predicate StatusEnd(c: Cluster, b: ClusterStatus, passed: bool, complete: bool) {
    && (InShape(c.status.conditions) ==> InShape(b.conditions))
    && (!passed ==> NothingDeclared(c.status, b))
    && (b.observedGeneration == c.status.observedGeneration || b.observedGeneration == c.generation)
    && (b.replicas == c.status.replicas || (complete && c.status.replicas < b.replicas == c.spec.replicas))
  }

  /** The rebalance mark is kept, or its clearing is in the log. */
  ghost predicate MarkEnd(before: World, c: Cluster, v: World) {
    v.cluster.Some? ==>
      MarkKept(c, v.cluster.value) || (Extends(before, v) && RebalanceCleared in News(before, v))
  }

  /** The cached and the stored cluster at the end of a pass. */
  ghost predicate ClusterEnd(c: Cluster, t: Sys, passed: bool, complete: bool) {
    && StatusEnd(c, t.rmq.status, passed, complete)
    && (t.world.cluster.None? ==> c.deleting)
    && (t.world.cluster.Some? ==>
          && SameIdentity(c, t.world.cluster.value) && StatusEnd(c, t.world.cluster.value.status, passed, complete)
          && (passed ==> !Flagged(t.world.cluster.value.annotations, REBALANCE_NEEDED)))
  }

  /** The cached and the stored cluster when a stage other than the last two has decided the pass. */
  lemma ClusterActs(u: World, rmq: Cluster, j: nat, c: nat, cfg: Settings, sch: Schedule)
    requires 0 <= j <= 8 && u.cluster == Some(rmq) && Clean(rmq) && rmq.name == u.name
    ensures ClusterEffect(rmq, RunStage(PIPELINE[j], Sys(u, rmq, c), cfg, sch).sys)
  {
    hide StatusAfter, Clean;
    var s := Sys(u, rmq, c);
    StatusRefl(rmq.status);
    if j == 0 {
      DeletionKeepsCluster(s, cfg, sch);
    } else if j == 7 {
      BuildersKeepCluster(s, cfg, sch);
    } else if j == 8 {
      RestartKeepsCluster(s, cfg, sch);
    } else {
      ClusterStageActs(s, j, cfg, sch);
    }
  }

  lemma StatusRefl(a: ClusterStatus)
    ensures StatusAfter(a, a)
  {
  }

  lemma DeletionKeepsCluster(s: Sys, cfg: Settings, sch: Schedule)
    requires s.world.cluster == Some(s.rmq)
    ensures ClusterEffect(s.rmq, RunStage(PIPELINE[0], s, cfg, sch).sys)
  {
    hide RunStage, PIPELINE, Finalizer.ReconcileDeleteSpec, Finalizer.DeletionEffect, InShape, Successful;
    DeletionIs(s, cfg, sch);
    Finalizer.DeleteStageEffect(s, sch);
  }

  lemma BuildersKeepCluster(s: Sys, cfg: Settings, sch: Schedule)
    requires s.world.cluster == Some(s.rmq) && Clean(s.rmq)
    ensures ClusterEffect(s.rmq, RunStage(PIPELINE[7], s, cfg, sch).sys)
  {
    hide RunStage, PIPELINE, ReconcileResourcesSpec, ResourceBuilders, InShape, Successful, StoppedAt, InPlace;
    ResourcesIs(s, cfg, sch);
    AllWellBehaved(s.rmq);
    ResourcesEffect(s, ResourceBuilders(s.rmq), sch);
  }

  lemma RestartKeepsCluster(s: Sys, cfg: Settings, sch: Schedule)
    requires s.world.cluster == Some(s.rmq) && s.rmq.name == s.world.name
    ensures ClusterEffect(s.rmq, RunStage(PIPELINE[8], s, cfg, sch).sys)
  {
    hide RunStage, PIPELINE, Restart.RestartSpec, InShape, Successful;
    RestartIs(s, cfg, sch);
    Restart.RestartEffect(s, sch);
  }

  /** The last stage: it alone may declare success, and only when it passes. */
  lemma FinalKeepsCluster(s: Sys, sch: Schedule)
    requires s.world.cluster == Some(s.rmq)
    ensures var t := FinalSpec(s, sch);
            && (t.sys.world.cluster.Some? ==>
                  && SameIdentity(s.rmq, t.sys.world.cluster.value) && t.sys.world.cluster.value.status == s.rmq.status
                  && (t.outcome.Continue? ==> !Flagged(t.sys.world.cluster.value.annotations, REBALANCE_NEEDED)))
            && (t.sys.world.cluster.None? ==> s.rmq.deleting)
            && MarkEnd(s.world, s.rmq, t.sys.world)
            && t.sys.rmq.status.replicas == s.rmq.status.replicas
            && (t.sys.rmq.status.observedGeneration == s.rmq.status.observedGeneration
                || t.sys.rmq.status.observedGeneration == s.rmq.generation)
            && (InShape(s.rmq.status.conditions) ==> InShape(t.sys.rmq.status.conditions))
            && (!t.outcome.Continue? ==> StatusAfter(s.rmq.status, t.sys.rmq.status))
  {
    hide Cli.CliSpec, Cli.Justified, Cli.OnlyFlagsCleared, MineSet, Quiet, Clean, Mine, InShape, Successful;
    hide SetConditionSpec, Flagged;
    Cli.CliStageEffect(s, sch);
    var t := Cli.CliSpec(s, sch);
    UnmarkedKeepsIdentity(s.rmq);
    MarkRefl(s.rmq);
    StatusRefl(s.rmq.status);
    assert t.sys.rmq.status == s.rmq.status && t.sys.rmq.generation == s.rmq.generation;
    ConditionKeeps(t.sys, ReconcileSuccess, ConditionFalse, "FailedCLICommand", "", sch);
    if InShape(s.rmq.status.conditions) && t.outcome.Continue? {
      SetConditionLocal(s.rmq.status.conditions, ReconcileSuccess, ConditionTrue, "Success", "Finish reconciling",
        sch.now(t.sys.calls), ReconcileSuccess);
    }
  }

  lemma MarkRefl(c: Cluster)
    ensures MarkKept(c, c)
  {
  }

  lemma UnmarkedKeepsIdentity(rmq: Cluster)
    ensures SameIdentity(rmq, Cli.Unmarked(rmq)) && !Flagged(Cli.Unmarked(rmq).annotations, REBALANCE_NEEDED)
  {
  }

  lemma EffectIsEnd(before: World, c: Cluster, t: Sys)
    requires ClusterEffect(c, t)
    ensures ClusterEnd(c, t, false, false) && MarkEnd(before, c, t.world)
  {
    hide SameIdentity, InShape, Successful;
  }

  lemma StatusStageEnd(s: Sys, sch: Schedule)
    requires s.world.cluster == Some(s.rmq)
    ensures ClusterEnd(s.rmq, StatusSpec(s, sch).sys, false, true)
    ensures MarkEnd(s.world, s.rmq, StatusSpec(s, sch).sys.world)
  {
    hide StatusSpec, InShape, Successful;
    StatusEffect(s, sch);
  }

  lemma FinalStageEnd(s: Sys, sch: Schedule, complete: bool)
    requires s.world.cluster == Some(s.rmq)
    ensures ClusterEnd(s.rmq, FinalSpec(s, sch).sys, FinalSpec(s, sch).outcome.Continue?, complete)
    ensures MarkEnd(s.world, s.rmq, FinalSpec(s, sch).sys.world)
  {
    hide FinalSpec, SameIdentity, InShape, Successful;
    FinalKeepsCluster(s, sch);
  }

  lemma DeferredEnd(before: World, c: Cluster, t: Sys, sch: Schedule, passed: bool, complete: bool)
    requires ClusterEnd(c, t, passed, complete) && MarkEnd(before, c, t.world)
    ensures ClusterEnd(c, Deferred(c.status, t, sch), passed, complete)
    ensures MarkEnd(before, c, Deferred(c.status, t, sch).world)
  {
    hide StatusEnd, Flagged;
  }

  /** Which of the two claims the deciding stage j can make. */
  lemma PipelineEnd(u: World, rmq: Cluster, j: nat, c: nat, cfg: Settings, sch: Schedule)
    requires 0 <= j <= 10 && u.cluster == Some(rmq) && Clean(rmq) && rmq.name == u.name
    ensures var t := RunStage(PIPELINE[j], Sys(u, rmq, c), cfg, sch);
            ClusterEnd(rmq, t.sys, j == 10 && t.outcome.Continue?, j == 9) && MarkEnd(u, rmq, t.sys.world)
  {
    hide ClusterEnd, MarkEnd, ClusterEffect, Clean, RunStage;
    var s := Sys(u, rmq, c);
    var t := RunStage(PIPELINE[j], s, cfg, sch);
    if j == 9 {
      StatusActs(s, cfg, sch);
      StatusStageEnd(s, sch);
    } else if j == 10 {
      FinalIs(s, cfg, sch);
      FinalStageEnd(s, sch, false);
    } else {
      ClusterActs(u, rmq, j, c, cfg, sch);
      EffectIsEnd(u, rmq, t.sys);
    }
  }

  lemma CompleteStays(u: World, v: World, rmq: Cluster)
    requires Quiet(u) && AllInPlace(u, rmq) && v.objects == u.objects && v.name == u.name
    ensures Quiet(v) && AllInPlace(v, rmq)
  {
    hide ResourceBuilders;
    assert forall k :: Mine(v, k) <==> Mine(u, k);
  }

  /** When the status stage decides a pass, every object is in place and stays there. */
  lemma PublishedComplete(u: World, rmq: Cluster, c: nat, v: World, cfg: Settings, sch: Schedule)
    requires u.cluster == Some(rmq) && Clean(rmq) && Passed(7, u, rmq, cfg, sch)
    requires ClusterOnly(RunStage(PIPELINE[9], Sys(u, rmq, c), cfg, sch).sys.world, v)
    ensures Quiet(v) && AllInPlace(v, rmq)
  {
    hide RunStage, Clean, Quiet, AllInPlace, Passed;
    StatusActs(Sys(u, rmq, c), cfg, sch);
    EverythingInPlace(u, rmq, cfg, sch);
    CompleteStays(u, v, rmq);
  }

  /** What a pass that began with cluster c and ended this way may leave of it. */
  ghost predicate ClusterLeft(w: World, c: Cluster, v: World, passed: bool, complete: bool) {
    && (v.cluster.None? ==> c.deleting)
    && (v.cluster.Some? ==>
          && SameIdentity(c, v.cluster.value) && StatusEnd(c, v.cluster.value.status, passed, complete)
          && (passed ==> !Flagged(v.cluster.value.annotations, REBALANCE_NEEDED)))
    && MarkEnd(w, c, v)
  }

  lemma LeftFromEnd(w: World, u: World, c: Cluster, t: Sys, sch: Schedule, passed: bool, complete: bool)
    requires ClusterEnd(c, t, passed, complete) && MarkEnd(u, c, t.world) && Extends(w, u)
    ensures ClusterLeft(w, c, Deferred(c.status, t, sch).world, passed, complete)
  {
    DeferredEnd(u, c, t, sch, passed, complete);
    hide StatusEnd, Flagged, SameIdentity;
    var v := Deferred(c.status, t, sch).world;
    if Extends(u, v) {
      NewsCompose(w, u, v);
    }
  }

  /** The deletion stage ended the pass. */
  lemma LeftByDeletion(w: World, cfg: Settings, sch: Schedule)
    requires Live(w)
    ensures var rmq := w.cluster.value;
            var t := RunStage(PIPELINE[0], Sys(w, rmq, 1), cfg, sch);
            ClusterLeft(w, rmq, Deferred(rmq.status, t.sys, sch).world, false, false)
  {
    hide RunStage, Clean, ClusterEnd, MarkEnd, ClusterLeft;
    var rmq := w.cluster.value;
    PipelineEnd(w, rmq, 0, 1, cfg, sch);
    LeftFromEnd(w, w, rmq, RunStage(PIPELINE[0], Sys(w, rmq, 1), cfg, sch).sys, sch, false, false);
  }

  /** Stage j ended the pass, on the store u that deletion left. */
  lemma LeftByStage(w: World, u: World, rmq: Cluster, j: nat, c: nat, cfg: Settings, sch: Schedule)
    requires 1 <= j <= 10 && u.cluster == Some(rmq) && Clean(rmq) && rmq.name == u.name && Extends(w, u)
    requires forall k :: 1 <= k < j ==> Passed(k, u, rmq, cfg, sch)
    ensures var t := RunStage(PIPELINE[j], Sys(u, rmq, c), cfg, sch);
            var v := Deferred(rmq.status, t.sys, sch).world;
            ClusterLeft(w, rmq, v, j == 10 && t.outcome.Continue?, Quiet(v) && AllInPlace(v, rmq))
  {
    hide RunStage, Clean, Quiet, AllInPlace, Passed, ClusterEnd, MarkEnd, NothingDeclared, SameIdentity, Flagged;
    var t := RunStage(PIPELINE[j], Sys(u, rmq, c), cfg, sch);
    PipelineEnd(u, rmq, j, c, cfg, sch);
    LeftFromEnd(w, u, rmq, t.sys, sch, j == 10 && t.outcome.Continue?, j == 9);
    DeferredOnly(rmq.status, t.sys, sch);
    if j == 9 {
      PublishedComplete(u, rmq, c, Deferred(rmq.status, t.sys, sch).world, cfg, sch);
    }
  }

  /**
    The cluster after a pass, whatever calls fail: it keeps its identity, goes away only
    when it is being deleted, claims success only after a pass that went through, raises its
    replicas only to the wanted number and only with every object in place, and keeps a
    rebalance mark unless its clearing is on record.
  */
  lemma ClusterAfter(w: World, cfg: Settings, sch: Schedule)
    requires Live(w)
    ensures var c, (v, o) := w.cluster.value, ReconcileSpec(w, cfg, sch);
            ClusterLeft(w, c, v, o.Continue?, Quiet(v) && AllInPlace(v, c))
  {
    hide RunStage, Clean, Quiet, AllInPlace, Passed, ClusterLeft;
    var rmq, s := w.cluster.value, Sys(w, w.cluster.value, 1);
    NothingHappened(w);
    if !sch.fails(0) {
      var t := RunFrom(s, 0, cfg, sch);
      var u := DeletionActs(s, cfg, sch);
      DeletionExtends(w, u, rmq);
      Advance(s, 0, cfg, sch);
      hide RunFrom, Effect, AfterDeletion;
      var d := RunStage(PIPELINE[0], s, cfg, sch);
      if d.outcome.Completed() {
        LeftByDeletion(w, cfg, sch);
        var v := ReconcileSpec(w, cfg, sch).0;
        LeftWeaken(w, rmq, v, Quiet(v) && AllInPlace(v, rmq));
      } else {
        OneStageActs(d.sys, 1, cfg, sch);
        var j, c :| ActedAt(d.sys, 1, j, c, cfg, sch);
        LeftByStage(w, u, rmq, j, c, cfg, sch);
      }
    }
  }

  lemma LeftWeaken(w: World, c: Cluster, v: World, complete: bool)
    requires ClusterLeft(w, c, v, false, false)
    ensures ClusterLeft(w, c, v, false, complete)
  {
    hide SameIdentity, NothingDeclared, MarkEnd, InShape;
  }

  lemma DeletionExtends(w: World, u: World, rmq: Cluster)
    requires AfterDeletion(w, u, rmq)
    ensures Extends(w, u)
  {
  }

  lemma NothingHappened(w: World)
    requires Live(w)
    ensures ClusterLeft(w, w.cluster.value, w, false, Quiet(w) && AllInPlace(w, w.cluster.value))
  {
    hide Clean, Quiet, AllInPlace;
  }
}
