/** Reconcile (controllers/rabbitmqcluster_controller.go): eleven stages and a deferred status write. */
module Reconcile {
  import opened Basics
  import opened Objects
  import opened Store
  import opened Client
  import opened Conditions
  import opened Resources
  import opened Stages
  import opened Builders
  import Finalizer
  import Restart
  import Cli

  datatype Stage =
    | DeleteStage | PausedStage | DefaultsStage | ConditionsStage | TLSStage | MarkStage
    | ScaleDownStage | ResourcesStage | RestartStage | StatusStage | FinalStage

  const PIPELINE: seq<Stage> := [
    DeleteStage, PausedStage, DefaultsStage, ConditionsStage, TLSStage, MarkStage,
    ScaleDownStage, ResourcesStage, RestartStage, StatusStage, FinalStage]

  // ------------------------------------------------------------ specification

  /** The generation is recorded and success declared once every stage has passed. */
  function Declared(s: Sys, sch: Schedule): Sys {
    WithCondition(
      s.(rmq := s.rmq.(status := s.rmq.status.(observedGeneration := s.rmq.generation))),
      ReconcileSuccess, ConditionTrue, "Success", "Finish reconciling", sch)
  }

  /** The commands, and what is declared after them. */
  function FinalSpec(s: Sys, sch: Schedule): Step {
    var t := Cli.CliSpec(s, sch);
    if t.outcome.IsError() then
      Step(WithCondition(t.sys, ReconcileSuccess, ConditionFalse, "FailedCLICommand", "", sch), t.outcome)
    else if t.outcome.Completed() then t
    else Step(Declared(t.sys, sch), Continue)
  }

  function RunStage(stage: Stage, s: Sys, cfg: Settings, sch: Schedule): Step {
    match stage
    case DeleteStage => Finalizer.ReconcileDeleteSpec(s, sch)
    case PausedStage => PausedSpec(s, sch)
    case DefaultsStage => DefaultsSpec(s, cfg, sch)
    case ConditionsStage => ConditionsSpec(s, sch)
    case TLSStage => TLSSpec(s, sch)
    case MarkStage => MarkSpec(s, sch)
    case ScaleDownStage => ScaleDownSpec(s, sch)
    case ResourcesStage => ReconcileResourcesSpec(s, ResourceBuilders(s.rmq), sch)
    case RestartStage => Restart.RestartSpec(s, sch)
    case StatusStage => StatusSpec(s, sch)
    case FinalStage => FinalSpec(s, sch)
  }

  function RunFrom(s: Sys, i: nat, cfg: Settings, sch: Schedule): Step
    requires i <= |PIPELINE|
    decreases |PIPELINE| - i
  {
    if i == |PIPELINE| then Step(s, Continue)
    else
      var t := RunStage(PIPELINE[i], s, cfg, sch);
      if t.outcome.Completed() then t else RunFrom(t.sys, i + 1, cfg, sch)
  }

  /** The deferred write: the status goes to the store when it differs from the one read. */
  function Deferred(before: ClusterStatus, s: Sys, sch: Schedule): Sys {
    if s.rmq.status == before then s
    else if sch.fails(s.calls) then Called(s)
    else Called(UpdateStatus(s))
  }

  /** One pass: the store afterwards and how the pass ended. */
  function ReconcileSpec(w: World, cfg: Settings, sch: Schedule): (World, Outcome) {
    if sch.fails(0) then (w, Error)
    else if w.cluster.None? then (w, Done)
    else
      var t := RunFrom(Sys(w, w.cluster.value, 1), 0, cfg, sch);
      (Deferred(w.cluster.value.status, t.sys, sch).world, t.outcome)
  }

  // ------------------------------------------------------- one acting stage

  /** The stage, run on this store and cluster, lets the pass go on. */
  ghost predicate Passed(i: nat, w: World, rmq: Cluster, cfg: Settings, sch: Schedule)
    requires i < |PIPELINE|
  {
    exists c: nat :: RunStage(PIPELINE[i], Sys(w, rmq, c), cfg, sch).outcome.Continue?
  }

  lemma PipelineLength()
    ensures |PIPELINE| == 11
  {
  }

  lemma DeletionIs(s: Sys, cfg: Settings, sch: Schedule)
    ensures |PIPELINE| == 11 && RunStage(PIPELINE[0], s, cfg, sch) == Finalizer.ReconcileDeleteSpec(s, sch)
  {
    hide Finalizer.ReconcileDeleteSpec, PausedSpec, DefaultsSpec, ConditionsSpec, TLSSpec, MarkSpec, ScaleDownSpec;
    hide ReconcileResourcesSpec, ResourceBuilders, Restart.RestartSpec, StatusSpec, FinalSpec;
  }

  lemma PausedIs(s: Sys, cfg: Settings, sch: Schedule)
    ensures |PIPELINE| == 11 && RunStage(PIPELINE[1], s, cfg, sch) == PausedSpec(s, sch)
  {
    hide Finalizer.ReconcileDeleteSpec, PausedSpec, DefaultsSpec, ConditionsSpec, TLSSpec, MarkSpec, ScaleDownSpec;
    hide ReconcileResourcesSpec, ResourceBuilders, Restart.RestartSpec, StatusSpec, FinalSpec;
  }

  lemma DefaultsIs(s: Sys, cfg: Settings, sch: Schedule)
    ensures |PIPELINE| == 11 && RunStage(PIPELINE[2], s, cfg, sch) == DefaultsSpec(s, cfg, sch)
  {
    hide Finalizer.ReconcileDeleteSpec, PausedSpec, DefaultsSpec, ConditionsSpec, TLSSpec, MarkSpec, ScaleDownSpec;
    hide ReconcileResourcesSpec, ResourceBuilders, Restart.RestartSpec, StatusSpec, FinalSpec;
  }

  lemma ConditionsIs(s: Sys, cfg: Settings, sch: Schedule)
    ensures |PIPELINE| == 11 && RunStage(PIPELINE[3], s, cfg, sch) == ConditionsSpec(s, sch)
  {
    hide Finalizer.ReconcileDeleteSpec, PausedSpec, DefaultsSpec, ConditionsSpec, TLSSpec, MarkSpec, ScaleDownSpec;
    hide ReconcileResourcesSpec, ResourceBuilders, Restart.RestartSpec, StatusSpec, FinalSpec;
  }

  lemma TLSIs(s: Sys, cfg: Settings, sch: Schedule)
    ensures |PIPELINE| == 11 && RunStage(PIPELINE[4], s, cfg, sch) == TLSSpec(s, sch)
  {
    hide Finalizer.ReconcileDeleteSpec, PausedSpec, DefaultsSpec, ConditionsSpec, TLSSpec, MarkSpec, ScaleDownSpec;
    hide ReconcileResourcesSpec, ResourceBuilders, Restart.RestartSpec, StatusSpec, FinalSpec;
  }

  lemma MarkIs(s: Sys, cfg: Settings, sch: Schedule)
    ensures |PIPELINE| == 11 && RunStage(PIPELINE[5], s, cfg, sch) == MarkSpec(s, sch)
  {
    hide Finalizer.ReconcileDeleteSpec, PausedSpec, DefaultsSpec, ConditionsSpec, TLSSpec, MarkSpec, ScaleDownSpec;
    hide ReconcileResourcesSpec, ResourceBuilders, Restart.RestartSpec, StatusSpec, FinalSpec;
  }

  lemma ScaleDownIs(s: Sys, cfg: Settings, sch: Schedule)
    ensures |PIPELINE| == 11 && RunStage(PIPELINE[6], s, cfg, sch) == ScaleDownSpec(s, sch)
  {
    hide Finalizer.ReconcileDeleteSpec, PausedSpec, DefaultsSpec, ConditionsSpec, TLSSpec, MarkSpec, ScaleDownSpec;
    hide ReconcileResourcesSpec, ResourceBuilders, Restart.RestartSpec, StatusSpec, FinalSpec;
  }

  lemma ResourcesIs(s: Sys, cfg: Settings, sch: Schedule)
    ensures |PIPELINE| == 11
    ensures RunStage(PIPELINE[7], s, cfg, sch) == ReconcileResourcesSpec(s, ResourceBuilders(s.rmq), sch)
  {
    hide Finalizer.ReconcileDeleteSpec, PausedSpec, DefaultsSpec, ConditionsSpec, TLSSpec, MarkSpec, ScaleDownSpec;
    hide ReconcileResourcesSpec, ResourceBuilders, Restart.RestartSpec, StatusSpec, FinalSpec;
  }

  lemma RestartIs(s: Sys, cfg: Settings, sch: Schedule)
    ensures |PIPELINE| == 11 && RunStage(PIPELINE[8], s, cfg, sch) == Restart.RestartSpec(s, sch)
  {
    hide Finalizer.ReconcileDeleteSpec, PausedSpec, DefaultsSpec, ConditionsSpec, TLSSpec, MarkSpec, ScaleDownSpec;
    hide ReconcileResourcesSpec, ResourceBuilders, Restart.RestartSpec, StatusSpec, FinalSpec;
  }

  lemma StatusIs(s: Sys, cfg: Settings, sch: Schedule)
    ensures |PIPELINE| == 11 && RunStage(PIPELINE[9], s, cfg, sch) == StatusSpec(s, sch)
  {
    hide Finalizer.ReconcileDeleteSpec, PausedSpec, DefaultsSpec, ConditionsSpec, TLSSpec, MarkSpec, ScaleDownSpec;
    hide ReconcileResourcesSpec, ResourceBuilders, Restart.RestartSpec, StatusSpec, FinalSpec;
  }

  lemma FinalIs(s: Sys, cfg: Settings, sch: Schedule)
    ensures |PIPELINE| == 11 && RunStage(PIPELINE[10], s, cfg, sch) == FinalSpec(s, sch)
  {
    hide Finalizer.ReconcileDeleteSpec, PausedSpec, DefaultsSpec, ConditionsSpec, TLSSpec, MarkSpec, ScaleDownSpec;
    hide ReconcileResourcesSpec, ResourceBuilders, Restart.RestartSpec, StatusSpec, FinalSpec;
  }

  /** Between deletion and the commands, a stage that passes leaves store and cluster as they were. */
  lemma PassingChangesNothing(s: Sys, i: nat, cfg: Settings, sch: Schedule)
    requires 1 <= i < 10 && s.world.cluster == Some(s.rmq) && Clean(s.rmq) && s.rmq.name == s.world.name
    ensures var t := RunStage(PIPELINE[i], s, cfg, sch);
            t.outcome.Continue? ==> t.sys.world == s.world && t.sys.rmq == s.rmq
  {
    hide RunStage, PIPELINE, ReconcileResourcesSpec, Restart.RestartSpec, PausedSpec, DefaultsSpec, ConditionsSpec;
    hide TLSSpec, MarkSpec;
    hide ScaleDownSpec, StatusSpec, Clean, ResourceBuilders, Quiet, InPlace, StatusAfter, SameIdentity;
    match i
    case 1 => PausedIs(s, cfg, sch); PausedEffect(s, sch);
    case 2 => DefaultsIs(s, cfg, sch); DefaultsEffect(s, cfg, sch);
    case 3 => ConditionsIs(s, cfg, sch); ConditionsEffect(s, sch);
    case 4 => TLSIs(s, cfg, sch); TLSEffect(s, sch);
    case 5 => MarkIs(s, cfg, sch); MarkEffect(s, sch);
    case 6 => ScaleDownIs(s, cfg, sch); ScaleDownEffect(s, sch);
    case 7 =>
      ResourcesIs(s, cfg, sch);
      AllWellBehaved(s.rmq);
      ResourcesEffect(s, ResourceBuilders(s.rmq), sch);
    case 8 => RestartIs(s, cfg, sch); Restart.RestartEffect(s, sch);
    case 9 => StatusIs(s, cfg, sch); StatusEffect(s, sch);
    case _ =>
  }

  /** The pass in flight when it comes to stage j, if the stages from stage i on let it. */
  function Reached(s: Sys, i: nat, j: nat, cfg: Settings, sch: Schedule): Sys
    requires i <= j <= |PIPELINE|
    decreases j - i
  {
    if i == j then s else Reached(RunStage(PIPELINE[i], s, cfg, sch).sys, i + 1, j, cfg, sch)
  }

  /** Stage j is the one that decided the pass from stage i on; the stages between all passed. */
  ghost predicate ActedAt(s: Sys, i: nat, j: nat, c: nat, cfg: Settings, sch: Schedule)
    requires i <= |PIPELINE|
  {
    && i <= j < |PIPELINE| && Sys(s.world, s.rmq, c) == Reached(s, i, j, cfg, sch)
    && RunFrom(s, i, cfg, sch) == RunStage(PIPELINE[j], Sys(s.world, s.rmq, c), cfg, sch)
    && (RunFrom(s, i, cfg, sch).outcome.Continue? ==> PIPELINE[j] == FinalStage)
    && forall k :: i <= k < j ==> Passed(k, s.world, s.rmq, cfg, sch)
  }

  lemma {:induction false} OneStageActs(s: Sys, i: nat, cfg: Settings, sch: Schedule)
    requires 1 <= i <= 10 && s.world.cluster == Some(s.rmq) && Clean(s.rmq) && s.rmq.name == s.world.name
    ensures exists j, c :: ActedAt(s, i, j, c, cfg, sch)
    decreases 10 - i
  {
    hide RunStage, Clean;
    var t := RunStage(PIPELINE[i], s, cfg, sch);
    assert s == Sys(s.world, s.rmq, s.calls);
    if t.outcome.Completed() || i == 10 {
      LastStage(s, i, cfg, sch);
      assert ActedAt(s, i, i, s.calls, cfg, sch);
    } else {
      PassingChangesNothing(s, i, cfg, sch);
      OneStageActs(t.sys, i + 1, cfg, sch);
      var j, c :| ActedAt(t.sys, i + 1, j, c, cfg, sch);
      assert Passed(i, s.world, s.rmq, cfg, sch);
      assert ActedAt(s, i, j, c, cfg, sch);
    }
  }

  lemma LastStage(s: Sys, i: nat, cfg: Settings, sch: Schedule)
    requires i < |PIPELINE| && (RunStage(PIPELINE[i], s, cfg, sch).outcome.Completed() || i == 10)
    ensures RunFrom(s, i, cfg, sch) == RunStage(PIPELINE[i], s, cfg, sch)
  {
    hide RunStage;
    var t := RunStage(PIPELINE[i], s, cfg, sch);
    assert RunFrom(t.sys, |PIPELINE|, cfg, sch) == Step(t.sys, Continue);
  }

  // ------------------------------------------------------------- the pass

  method ReconcileResources(api: Api) returns (res: Outcome)
    modifies api
    ensures Step(api.State(), res) == ReconcileResourcesSpec(old(api.State()), ResourceBuilders(old(api.rmq)), api.sch)
  {
    var builders := MakeResourceBuilders(api.rmq);
    res := ReconcileBuilders(api, builders);
  }

  method RunCommands(api: Api) returns (res: Outcome)
    modifies api
    ensures Step(api.State(), res) == FinalSpec(old(api.State()), api.sch)
  {
    hide Cli.CliSpec;
    res := Cli.ReconcileRabbitmqCLI(api);
    if res.Completed() {
      if res.IsError() {
        SetCondition(api, ReconcileSuccess, ConditionFalse, "FailedCLICommand", "");
      }
      return res;
    }
    api.rmq := api.rmq.(status := api.rmq.status.(observedGeneration := api.rmq.generation));
    SetCondition(api, ReconcileSuccess, ConditionTrue, "Success", "Finish reconciling");
    return Continue;
  }

  /** The pass from stage i on is that stage and, if it passes, the pass from the next stage on. */
  lemma Advance(s: Sys, i: nat, cfg: Settings, sch: Schedule)
    requires i < |PIPELINE|
    ensures var t := RunStage(PIPELINE[i], s, cfg, sch);
            RunFrom(s, i, cfg, sch) == if t.outcome.Completed() then t else RunFrom(t.sys, i + 1, cfg, sch)
    ensures RunFrom(s, |PIPELINE|, cfg, sch) == Step(s, Continue)
  {
    hide RunStage;
  }

  /** Deletion, pause, defaults and conditions. */
  method CheckCluster(api: Api, cfg: Settings) returns (res: Outcome)
    modifies api
    ensures RunFrom(old(api.State()), 0, cfg, api.sch)
         == if res.Completed() then Step(api.State(), res) else RunFrom(api.State(), 4, cfg, api.sch)
  {
    hide ReconcileResourcesSpec, Restart.RestartSpec, PausedSpec, DefaultsSpec, ConditionsSpec, TLSSpec, MarkSpec;
    hide ScaleDownSpec, StatusSpec, FinalSpec, ResourceBuilders, Finalizer.ReconcileDeleteSpec, RunFrom;
    Advance(api.State(), 0, cfg, api.sch);
    res := Finalizer.ReconcileDelete(api);
    if res.Completed() { return res; }
    Advance(api.State(), 1, cfg, api.sch);
    res := ReconcilePaused(api);
    if res.Completed() { return res; }
    Advance(api.State(), 2, cfg, api.sch);
    res := ReconcileOperatorDefaults(api, cfg);
    if res.Completed() { return res; }
    Advance(api.State(), 3, cfg, api.sch);
    res := ReconcileStatusConditions(api);
    if res.Completed() { return res; }
    return Continue;
  }

  /** TLS secrets, the rebalance mark and the scale-down check. */
  method PrepareRollout(api: Api, cfg: Settings) returns (res: Outcome)
    modifies api
    ensures RunFrom(old(api.State()), 4, cfg, api.sch)
         == if res.Completed() then Step(api.State(), res) else RunFrom(api.State(), 7, cfg, api.sch)
  {
    hide ReconcileResourcesSpec, Restart.RestartSpec, PausedSpec, DefaultsSpec, ConditionsSpec, TLSSpec, MarkSpec;
    hide ScaleDownSpec, StatusSpec, FinalSpec, ResourceBuilders, Finalizer.ReconcileDeleteSpec, RunFrom;
    Advance(api.State(), 4, cfg, api.sch);
    res := ReconcileTLS(api);
    if res.Completed() { return res; }
    Advance(api.State(), 5, cfg, api.sch);
    res := ReconcileQueueRebalanced(api);
    if res.Completed() { return res; }
    Advance(api.State(), 6, cfg, api.sch);
    res := ReconcileScaleDown(api);
    if res.Completed() { return res; }
    return Continue;
  }

  /** Children, restarts, status and commands. */
  method RollOut(api: Api, cfg: Settings) returns (res: Outcome)
    modifies api
    ensures RunFrom(old(api.State()), 7, cfg, api.sch)
         == if res.Completed() then Step(api.State(), res) else RunFrom(api.State(), 11, cfg, api.sch)
  {
    hide ReconcileResourcesSpec, Restart.RestartSpec, PausedSpec, DefaultsSpec, ConditionsSpec, TLSSpec, MarkSpec;
    hide ScaleDownSpec, StatusSpec, FinalSpec, ResourceBuilders, Finalizer.ReconcileDeleteSpec, RunFrom;
    Advance(api.State(), 7, cfg, api.sch);
    res := ReconcileResources(api);
    if res.Completed() { return res; }
    Advance(api.State(), 8, cfg, api.sch);
    res := Restart.RestartStatefulSetIfNeeded(api);
    if res.Completed() { return res; }
    Advance(api.State(), 9, cfg, api.sch);
    res := ReconcileStatus(api);
    if res.Completed() { return res; }
    Advance(api.State(), 10, cfg, api.sch);
    res := RunCommands(api);
    if res.Completed() { return res; }
    return Continue;
  }

  /** The stages in order, each ending the pass when it is completed. */
  method RunPipeline(api: Api, cfg: Settings) returns (res: Outcome)
    modifies api
    ensures Step(api.State(), res) == RunFrom(old(api.State()), 0, cfg, api.sch)
  {
    hide RunStage;
    res := CheckCluster(api, cfg);
    if res.Completed() { return res; }
    res := PrepareRollout(api, cfg);
    if res.Completed() { return res; }
    res := RollOut(api, cfg);
    if res.Completed() { return res; }
    return Continue;
  }

  method Reconcile(api: Api, cfg: Settings) returns (res: Outcome)
    requires api.calls == 0
    modifies api
    ensures (api.world, res) == ReconcileSpec(old(api.world), cfg, api.sch)
  {
    hide RunFrom;
    var ok := api.Call();
    if !ok { return Error; }
    if api.world.cluster.None? { return Done; }
    api.rmq := api.world.cluster.value;
    var before := api.rmq.status;
    res := RunPipeline(api, cfg);
    if before != api.rmq.status {
      ok := api.Call();
      if ok {
        api.world := UpdateStatus(Sys(api.world, api.rmq, api.calls)).world;
      }
    }
  }
}
