/** Pending work over runs: which writes leave a flag, and that no flag goes before its command went through. */
module Pending {
  import opened Basics
  import opened Objects
  import opened Store
  import opened Names
  import opened Conditions
  import opened Resources
  import opened Stages
  import opened Builders
  import opened Reconcile
  import opened Passes
  import opened Protocol
  import opened Safety
  import opened Restart
  import opened Traces
  import opened Convergence
  import opened Runs
  import Cli
  import Finalizer
  import Plugins

  // ------------------------------------------------- which write sets which flag

  /** The stored object carries this annotation with this value. */
  predicate Annotated(w: World, k: Key, annotation: string, value: string) {
    && k in w.objects && annotation in w.objects[k].meta.annotations
    && w.objects[k].meta.annotations[annotation] == value
  }

  /**
    After the write of a builder's object, with the clock at the first call of the annotation:
    an updated plugins ConfigMap, an updated server ConfigMap that asks for a restart and a
    created node are flagged, each under its own key, when both calls of the annotation work;
    no other write is followed by a flag.
  */
  lemma FlagsByRole(s: Sys, b: Builder, built: Object, sch: Schedule)
    requires WellBehaved(b) && Fits(b.key.kind, built)
    requires b.key in s.world.objects ==> Fits(b.key.kind, s.world.objects[b.key])
    ensures var (s1, op, restart) := CreateOrUpdateSpec(s, b, built, sch);
            var v := ApplyStep(s, b, built, sch).sys.world;
            var works, now := BothWork(sch, s1.calls), sch.now(s1.calls);
            && (b.role == PluginsConfigMap && op.UpdatedObject? && works ==>
                  Annotated(v, b.key, "rabbitmq.com/pluginsUpdatedAt", now))
            && (b.role == ServerConfigMap && op.UpdatedObject? && restart && works ==>
                  Annotated(v, b.key, "rabbitmq.com/serverConfUpdatedAt", now))
            && (b.role.Node? && op.CreatedObject? && works ==> Annotated(v, b.key, "rabbitmq.com/createdAt", now))
            && (|| (b.role == PluginsConfigMap && op.UpdatedObject?)
                || (b.role == ServerConfigMap && op.UpdatedObject? && restart)
                || (b.role.Node? && op.CreatedObject?)
                || v.objects == s1.world.objects)
  {
    hide CreateOrUpdateSpec, WellBehaved, Fixed;
    var (s1, op, restart) := CreateOrUpdateSpec(s, b, built, sch);
    if FlagFor(b, op, restart).Some? {
      FlagSetIffAnnotated(s, b, built, sch);
    }
  }

  // --------------------------------------------------------- which node, which command

  /** The operator's one pod for commands that need only one node: pod 0 of node 0. */
  lemma FirstNode(rmq: Cluster)
    ensures Cli.Node(rmq, 0) == rmq.name + "-server-0-0"
  {
    assert "0"[..0] == [] && Value("0") == 0;
    NodeNamesRead(rmq.name, 0, "0");
    assert rmq.name + "-server-0-0" == rmq.name + "-server-" + "0" + "-0";
    hide PodName;
  }

  /**
    In every pass a created flag goes only after all feature flags were enabled, and the cluster's mark only
    after its queues were rebalanced, in both cases in pod 0 of node 0.
  */
  lemma ClearedByText(w: World, cfg: Settings, sch: Schedule, n: nat)
    requires Live(w)
    ensures Extends(w, After(w, cfg, sch))
    ensures var ev, c := News(w, After(w, cfg, sch)), w.cluster.value;
            && (n < |ev| && ev[n].FlagCleared? && ev[n].flag == "rabbitmq.com/createdAt" ==>
                  ev[n].key.kind == KindStatefulSet
                  && Ran(c.name + "-server-0-0", "rabbitmqctl enable_feature_flag all") in ev[..n])
            && (n < |ev| && ev[n].RebalanceCleared? ==>
                  Ran(c.name + "-server-0-0", "rabbitmq-queues rebalance all") in ev[..n])
  {
    hide ReconcileSpec, Clean, AllInPlace, Quiet, NoneStale, StoresPlugins, Cli.RanOnAll, Cli.Node, Cli.PluginsKey;
    PassExtends(w, cfg, sch);
    FirstNode(w.cluster.value);
    FlagsApart();
    var ev := News(w, After(w, cfg, sch));
    if n < |ev| && Clearing(ev[n]) {
      var u := ClearedAfterCommand(w, cfg, sch, n);
    }
  }

  lemma FlagsApart()
    ensures SET_CREATED == "rabbitmq.com/createdAt" && PLUGINS_UPDATED != SET_CREATED
  {
    assert |PLUGINS_UPDATED| == 29 && |SET_CREATED| == 22;
  }

  // ------------------------------------------------------- the plugins ConfigMap

  /** Where the plugins ConfigMap's builder stands among the builders. */
  function PluginsIndex(rmq: Cluster): nat { if HasUserSecret(rmq) then 4 else 3 }

  function PluginsCallFrom(s: Sys, sch: Schedule): nat {
    LoopReached(Called(s), ResourceBuilders(s.rmq), 0, PluginsIndex(s.rmq), sch).calls + 3
  }

  /** The call with which a pass would start to annotate the plugins ConfigMap. */
  function PluginsCall(w: World, cfg: Settings, sch: Schedule): nat
    requires w.cluster.Some?
  {
    PluginsCallFrom(Reached(Sys(w, w.cluster.value, 1), 0, 7, cfg, sch), sch)
  }

  /** The files of this ConfigMap are others than before. */
  ghost predicate FilesChanged(u: World, v: World, k: Key) {
    && k in u.objects && k in v.objects && u.objects[k].ConfigMap? && v.objects[k].ConfigMap?
    && v.objects[k].files != u.objects[k].files
  }

  /** Changed plugins are flagged when both calls of the annotation work; otherwise the pass ends in error. */
  ghost predicate PluginsFlagged(u: World, v: World, o: Outcome, sch: Schedule, c: nat) {
    FilesChanged(u, v, Cli.PluginsKey(u.name)) ==>
      if BothWork(sch, c) then
        o.Done? && Annotated(v, Cli.PluginsKey(u.name), "rabbitmq.com/pluginsUpdatedAt", sch.now(c))
      else o.Error?
  }

  lemma PluginsBuilderIs(rmq: Cluster)
    ensures PluginsIndex(rmq) < |ResourceBuilders(rmq)|
    ensures ResourceBuilders(rmq)[PluginsIndex(rmq)] == PluginsBuilder(rmq)
    ensures PluginsBuilder(rmq).key == Cli.PluginsKey(rmq.name) && PluginsBuilder(rmq).role == PluginsConfigMap
    ensures forall j :: 0 <= j < |ResourceBuilders(rmq)| && ResourceBuilders(rmq)[j].key == Cli.PluginsKey(rmq.name) ==>
              j == PluginsIndex(rmq)
  {
    KeysDistinct(rmq);
    var base := BaseBuilders(rmq);
    hide HeadlessBuilder, ClientBuilder, CookieBuilder, UserBuilder, ServerConfBuilder, AccountBuilder, RoleBuilder;
    hide BindingBuilder, NodeBuilder, HasUserSecret, ChildResourceName, Plugins.EnabledPluginsFile;
    assert base[PluginsIndex(rmq)] == PluginsBuilder(rmq);
    assert ResourceBuilders(rmq)[PluginsIndex(rmq)] == base[PluginsIndex(rmq)];
  }

  lemma PluginsBuilt(rmq: Cluster, r: string)
    requires Clean(rmq)
    ensures WellBehaved(PluginsBuilder(rmq)) && PluginsBuilder(rmq).build(r).ConfigMap?
    ensures Cli.PluginsKey(rmq.name).kind == KindConfigMap
  {
    PluginsBuilderIs(rmq);
    AllWellBehaved(rmq);
    hide WellBehaved, ResourceBuilders, Clean, Plugins.EnabledPluginsFile;
    assert PluginsBuilder(rmq) in ResourceBuilders(rmq);
  }

  lemma PluginsApplied(s: Sys, b: Builder, built: Object, sch: Schedule)
    requires WellBehaved(b) && b.role == PluginsConfigMap && b.key.kind == KindConfigMap && Fits(b.key.kind, built)
    requires b.key in s.world.objects && s.world.objects[b.key].ConfigMap?
    ensures var t := ApplyStep(s, b, built, sch);
            FilesChanged(s.world, t.sys.world, b.key) ==>
              if BothWork(sch, s.calls + 2) then
                t.outcome.Done? && Annotated(t.sys.world, b.key, "rabbitmq.com/pluginsUpdatedAt", sch.now(s.calls + 2))
              else t.outcome.Error?
  {
    hide CreateOrUpdateSpec, WellBehaved, Fixed, UpdateAnnotationSpec, SetConditionSpec, TouchesOnly, BuilderEvents;
    UpdateCalls(s, b, built, sch);
    CreateOrUpdateEffect(s, b, built, sch);
    FlagsByRole(s, b, built, sch);
    var (s1, op, restart) := CreateOrUpdateSpec(s, b, built, sch);
    if op.UpdatedObject? {
      FlagSetIffAnnotated(s, b, built, sch);
    }
  }

  lemma PluginsTurn(s: Sys, sch: Schedule)
    requires Clean(s.rmq) && s.rmq.name == s.world.name
    ensures var t := BuilderStep(s, PluginsBuilder(s.rmq), sch);
            PluginsFlagged(s.world, t.sys.world, t.outcome, sch, s.calls + 3)
  {
    hide BuilderStep, ApplyStep, PluginsBuilder, WellBehaved, Clean, ResourceBuilders, Annotated;
    var b, key := PluginsBuilder(s.rmq), Cli.PluginsKey(s.world.name);
    PluginsBuilderIs(s.rmq);
    PluginsBuilt(s.rmq, sch.random(s.calls));
    PlainTurn(s, b, sch);
    if !sch.fails(s.calls) && key in s.world.objects && s.world.objects[key].ConfigMap? {
      PluginsApplied(Called(s), b, b.build(sch.random(s.calls)), sch);
    }
  }

  lemma BuildersFlagPlugins(s: Sys, sch: Schedule)
    requires Clean(s.rmq) && s.rmq.name == s.world.name
    ensures var t := ReconcileResourcesSpec(s, ResourceBuilders(s.rmq), sch);
            PluginsFlagged(s.world, t.sys.world, t.outcome, sch, PluginsCallFrom(s, sch))
  {
    hide BuilderStep, WellBehaved, ResourceBuilders, ReconcileResourcesSpec, Clean, PluginsBuilder, Cli.PluginsKey;
    hide OwnWrite, ClaimsBy, StatusAfter, InPlace, Annotated, BuilderEvents;
    var bs, w := ResourceBuilders(s.rmq), s.world;
    var t := ReconcileResourcesSpec(s, bs, sch);
    if t.sys.world != w {
      AllWellBehaved(s.rmq);
      PluginsBuilderIs(s.rmq);
      var j, c := ResourcesStopAt(s, bs, sch);
      assert bs[j] in bs;
      var key := Cli.PluginsKey(w.name);
      if bs[j].key == key {
        PluginsTurn(Sys(w, s.rmq, c), sch);
      } else {
        BuilderStepEffect(Sys(w, s.rmq, c), bs[j], sch);
        var v := t.sys.world;
        assert key in w.objects ==> key in w.objects - {bs[j].key};
        assert key in w.objects && key in v.objects ==> v.objects[key] == (v.objects - {bs[j].key})[key];
      }
    }
  }

  /** The stages besides the builders' change no ConfigMap's files. */
  lemma OthersKeepFiles(u: World, rmq: Cluster, j: nat, c: nat, cfg: Settings, sch: Schedule, k: Key)
    requires 1 <= j <= 10 && j != 7 && u.cluster == Some(rmq) && rmq.name == u.name
    ensures !FilesChanged(u, RunStage(PIPELINE[j], Sys(u, rmq, c), cfg, sch).sys.world, k)
  {
    hide RunStage, PIPELINE, RestartSpec, FinalSpec, Cli.CliSpec, StatusSpec, ClusterEffect, Cli.Justified;
    hide Quiet, FlagsGone, MineSet, ConfChangedAt;
    PipelineLength();
    var s := Sys(u, rmq, c);
    var v := RunStage(PIPELINE[j], s, cfg, sch).sys.world;
    if j == 8 {
      RestartIs(s, cfg, sch);
      RestartEffect(s, sch);
    } else if j == 10 {
      FinalIs(s, cfg, sch);
      FinalStore(s, sch);
      CliActs(s, sch);
      if k in u.objects && k in v.objects {
        assert Cli.Unflagged(u.objects[k], v.objects[k], k, News(u, v.(cluster := u.cluster)));
      }
    } else if j == 9 {
      StatusActs(s, cfg, sch);
    } else {
      ClusterStageActs(s, j, cfg, sch);
    }
  }

  /**
    A pass that changes the plugins file leaves the flag for it, with the time of the
    annotation's first call, if both calls of the annotation work, and otherwise ends in error.
  */
  lemma PassFlagsPlugins(w: World, cfg: Settings, sch: Schedule)
    requires Live(w)
    ensures PluginsFlagged(w, After(w, cfg, sch), ReconcileSpec(w, cfg, sch).1, sch, PluginsCall(w, cfg, sch))
  {
    hide RunStage, PIPELINE, ReconcileSpec, Clean, Passed, Undeleted, PastDeletion, Cli.PluginsKey, PluginsCallFrom;
    hide Finalizer.DeletionEffect, ReconcileResourcesSpec, ResourceBuilders, Annotated, FilesChanged, Reached;
    var rmq, v, k := w.cluster.value, After(w, cfg, sch), Cli.PluginsKey(w.name);
    if sch.fails(0) {
      UnreadPass(w, cfg, sch);
      SameFilesStay(w, w, v, k);
    } else {
      var u, j, c := OneStageDecides(w, cfg, sch);
      PipelineLength();
      DeletionKeepsObjects(w, u, rmq, k);
      var t := RunStage(PIPELINE[j], if j == 0 then Sys(w, rmq, 1) else Sys(u, rmq, c), cfg, sch);
      DeferredOnly(rmq.status, t.sys, sch);
      if j == 0 {
        SameFilesStay(w, u, v, k);
      } else if j == 7 {
        ResourcesIs(Sys(u, rmq, c), cfg, sch);
        BuildersFlagPlugins(Sys(u, rmq, c), sch);
        FlaggedFrom(w, u, t.sys.world, v, k, ReconcileSpec(w, cfg, sch).1, sch, PluginsCall(w, cfg, sch));
      } else {
        OthersKeepFiles(u, rmq, j, c, cfg, sch, k);
        KeptFrom(w, u, t.sys.world, v, k);
      }
    }
  }

  lemma DeletionKeepsObjects(w: World, u: World, rmq: Cluster, k: Key)
    requires AfterDeletion(w, u, rmq)
    ensures u.name == w.name && forall k :: k in u.objects ==> k in w.objects && u.objects[k] == w.objects[k]
    ensures k in w.objects && k !in u.objects ==> k.kind == KindStatefulSet
  {
    hide Finalizer.PodsAccounted;
    if k in w.objects {
      DeletionOfObject(w, u, rmq, k);
    }
  }

  lemma SameFilesStay(w: World, u: World, v: World, k: Key)
    requires forall k :: k in u.objects ==> k in w.objects && u.objects[k] == w.objects[k]
    requires v.objects == u.objects
    ensures !FilesChanged(w, v, k)
  {
  }

  lemma FlaggedFrom(w: World, u: World, t: World, v: World, k: Key, o: Outcome, sch: Schedule, c: nat)
    requires k == Cli.PluginsKey(w.name) && u.name == w.name && v.objects == t.objects
    requires (forall k :: k in u.objects ==> k in w.objects && u.objects[k] == w.objects[k])
    requires k in w.objects && k !in u.objects ==> k.kind == KindStatefulSet
    requires PluginsFlagged(u, t, o, sch, c)
    ensures PluginsFlagged(w, v, o, sch, c)
  {
    assert k.kind == KindConfigMap;
  }

  lemma KeptFrom(w: World, u: World, t: World, v: World, k: Key)
    requires k == Cli.PluginsKey(w.name) && v.objects == t.objects && !FilesChanged(u, t, k)
    requires (forall k :: k in u.objects ==> k in w.objects && u.objects[k] == w.objects[k])
    requires k in w.objects && k !in u.objects ==> k.kind == KindStatefulSet
    ensures !FilesChanged(w, v, k)
  {
    assert k.kind == KindConfigMap;
  }

  // ----------------------------------------------------------------------- runs

  /** The object is there with this flag set. */
  predicate FlagSet(w: World, k: Key, f: string) { k in w.objects && Flagged(w.objects[k].meta.annotations, f) }

  /** A pass from r to v cleared the flag after the command it stands for had gone through in that pass. */
  ghost predicate ClearedBy(r: World, v: World, k: Key, f: string) {
    && r.cluster.Some? && Extends(r, v)
    && exists n: nat :: n < |News(r, v)| && News(r, v)[n] == FlagCleared(k, f)
         && Cli.CommandRan(News(r, v)[..n], r.cluster.value, k, f)
  }

  /** The object went away, or was asked to go. */
  ghost predicate WentAway(r: World, v: World, k: Key) {
    k !in v.objects || (Extends(r, v) && Deleted(k) in News(r, v))
  }

  /** Move m of the run dealt with the flag. */
  ghost predicate DealtWith(w: World, moves: seq<Move>, cfg: Settings, m: nat, k: Key, f: string) {
    && m < |moves|
    && var r, v := Run(w, moves[..m], cfg), Run(w, moves[..m + 1], cfg);
       WentAway(r, v, k) || (moves[m].Pass? && ClearedBy(r, v, k, f))
  }

  lemma PassDealsWith(r: World, cfg: Settings, sch: Schedule, k: Key, f: string)
    requires Inv(r) && OperatorKey(f) && FlagSet(r, k, f)
    ensures var v := After(r, cfg, sch); FlagSet(v, k, f) || WentAway(r, v, k) || ClearedBy(r, v, k, f)
  {
    hide ReconcileSpec, OperatorKey, Clean, Tidy, RollingSet, SecretAgrees, FinalizerFirst, Cli.CommandRan, Flagged;
    hide AllInPlace, Quiet, NoneStale, StoresPlugins;
    if r.cluster.None? {
      AbsentCluster(r, cfg, sch);
    } else {
      var v := After(r, cfg, sch);
      FlagsSurvive(r, cfg, sch, k, f);
      if FlagCleared(k, f) in News(r, v) {
        var n: nat :| n < |News(r, v)| && News(r, v)[n] == FlagCleared(k, f);
        var u := ClearedAfterCommand(r, cfg, sch, n);
      }
    }
  }

  lemma EnvDealsWith(r: World, e: Env, k: Key, f: string)
    requires FlagSet(r, k, f)
    ensures FlagSet(EnvStep(r, e), k, f) || (k !in EnvStep(r, e).objects && k.kind == KindStatefulSet)
  {
    hide Clean, Flagged;
  }

  /**
    Pending work is not dropped over runs: a flag is set until, in some pass, the command it
    stands for went through before the flag was cleared, or its object went away.
  */
  lemma {:induction false} FlagRun(w: World, moves: seq<Move>, cfg: Settings, k: Key, f: string)
    requires Inv(w) && OperatorKey(f) && FlagSet(w, k, f)
    ensures FlagSet(Run(w, moves, cfg), k, f) || exists m :: DealtWith(w, moves, cfg, m, k, f)
  {
    hide Inv, OperatorKey, FlagSet, ClearedBy, WentAway, EnvStep, After;
    if moves == [] {
    } else {
      var n := |moves| - 1;
      var front, r := moves[..n], Run(w, moves[..n], cfg);
      FlagRun(w, front, cfg, k, f);
      RunKeepsInv(w, front, cfg);
      assert moves[..n + 1] == moves;
      if FlagSet(r, k, f) {
        match moves[n] {
          case Pass(sch) => PassDealsWith(r, cfg, sch, k, f);
          case Act(env) => EnvDealsWith(r, env, k, f); GoneIsAway(r, EnvStep(r, env), k);
        }
        assert !FlagSet(Run(w, moves, cfg), k, f) ==> DealtWith(w, moves, cfg, n, k, f);
      } else {
        var m: nat :| DealtWith(w, front, cfg, m, k, f);
        assert moves[..m] == front[..m] && moves[..m + 1] == front[..m + 1] && moves[m] == front[m];
        assert DealtWith(w, moves, cfg, m, k, f);
      }
    }
  }

  lemma GoneIsAway(r: World, v: World, k: Key)
    ensures k !in v.objects ==> WentAway(r, v, k)
  {
  }

  // ------------------------------------------------------ the plugins ConfigMap

  /** No pass and nothing else removes a ConfigMap. */
  lemma PassKeepsConfigMap(r: World, cfg: Settings, sch: Schedule, k: Key)
    requires Inv(r) && k.kind == KindConfigMap && k in r.objects
    ensures !WentAway(r, After(r, cfg, sch), k)
  {
    hide ReconcileSpec, Clean, Tidy, RollingSet, SecretAgrees, FinalizerFirst, Undeleted, Commanded, FlagsGone;
    hide PastDeletion, Effect;
    var v := After(r, cfg, sch);
    if r.cluster.None? {
      AbsentCluster(r, cfg, sch);
      assert News(r, r) == [];
    } else {
      var rmq := r.cluster.value;
      var u := ChildrenAfter(r, cfg, sch);
      EventsSplit(r, u, v, rmq);
      DeletionKeepsObjects(r, u, rmq, k);
      DeletionSpares(r, u, rmq, k);
      StageSpares(u, v.(cluster := u.cluster), rmq, k);
    }
  }

  lemma DeletionSpares(r: World, u: World, rmq: Cluster, k: Key)
    requires AfterDeletion(r, u, rmq) && k.kind == KindConfigMap && k in r.objects
    ensures Extends(r, u) && Deleted(k) !in News(r, u) && k in u.objects
  {
    DeletionOfObject(r, u, rmq, k);
    hide Finalizer.PodsAccounted, Finalizer.DeletedProperly;
  }

  lemma StageSpares(u: World, v: World, rmq: Cluster, k: Key)
    requires Effect(u, v, rmq) && Extends(u, v) && k.kind == KindConfigMap && k in u.objects
    ensures k in v.objects && Deleted(k) !in News(u, v)
  {
    hide ResourceBuilders, AllInPlace, NoneStale, Quiet, MineSet, OwnWrite, InPlace, Cli.CommandRan, ClaimsBy;
    ObjectAfter(u, v, rmq, k);
    if Built(u, v, rmq) {
      var j: nat :| StoppedAt(u, v, ResourceBuilders(rmq), 0, j);
      assert forall e :: e in News(u, v) ==> BuilderEvent(e, ResourceBuilders(rmq)[j].key);
    } else if Rolled(u, v, rmq) {
      var since := ConfChangedAt(u).value;
      var l, now :| Restarted(u, v, l, since, now);
      RestartEvents(u, v, l, since, now);
    } else if Commanded(u, v, rmq) {
      Cli.ClearedMeansRan(News(u, v), rmq, k, "");
    } else {
      assert News(u, v) == [];
    }
  }

  lemma {:induction false} RunKeepsConfigMap(w: World, moves: seq<Move>, cfg: Settings, k: Key)
    requires Inv(w) && k.kind == KindConfigMap && k in w.objects
    ensures k in Run(w, moves, cfg).objects && Run(w, moves, cfg).name == w.name
  {
    hide Inv, EnvStep, After;
    if moves != [] {
      var n := |moves| - 1;
      var r := Run(w, moves[..n], cfg);
      RunKeepsConfigMap(w, moves[..n], cfg, k);
      RunKeepsInv(w, moves[..n], cfg);
      RunsOnlyMoveOn(w, moves, cfg);
      match moves[n]
      case Pass(sch) => PassKeepsConfigMap(r, cfg, sch, k);
      case Act(env) => EnvKeepsConfigMap(r, env, k);
    }
  }

  lemma EnvKeepsConfigMap(r: World, e: Env, k: Key)
    requires k.kind == KindConfigMap && k in r.objects
    ensures k in EnvStep(r, e).objects && EnvStep(r, e).log == r.log
  {
    hide Clean;
  }

  /** The command for the cluster's plugin list went through on every node, and then the flag went. */
  ghost predicate PluginsSet(r: World, v: World) {
    && r.cluster.Some? && Extends(r, v)
    && exists n: nat :: n < |News(r, v)|
         && News(r, v)[n] == FlagCleared(Cli.PluginsKey(r.name), "rabbitmq.com/pluginsUpdatedAt")
         && forall i: nat :: i < r.cluster.value.spec.replicas ==>
              Ran(PodName(r.cluster.value.name, "server", i), Plugins.SetCommand(r.cluster.value.spec.plugins))
                in News(r, v)[..n]
  }

  lemma ClearedSetsPlugins(r: World, v: World, k: Key)
    requires k == Cli.PluginsKey(r.name) && ClearedBy(r, v, k, PLUGINS_UPDATED)
    ensures PluginsSet(r, v)
  {
    hide Plugins.SetCommand, PodName;
    var n: nat :| n < |News(r, v)| && News(r, v)[n] == FlagCleared(k, PLUGINS_UPDATED)
      && Cli.CommandRan(News(r, v)[..n], r.cluster.value, k, PLUGINS_UPDATED);
    assert k.kind == KindConfigMap;
    forall i: nat | i < r.cluster.value.spec.replicas
      ensures Ran(PodName(r.cluster.value.name, "server", i), Plugins.SetCommand(r.cluster.value.spec.plugins))
        in News(r, v)[..n]
    {
      assert Cli.Node(r.cluster.value, i) == PodName(r.cluster.value.name, "server", i);
    }
  }

  /** A pass that goes through leaves the plugins flag cleared. */
  lemma PassedUnflagged(r: World, cfg: Settings, sch: Schedule)
    requires Live(r) && ReconcileSpec(r, cfg, sch).1.Continue?
    ensures !FlagSet(After(r, cfg, sch), Cli.PluginsKey(r.name), PLUGINS_UPDATED)
  {
    hide ReconcileSpec, Clean, Effect, Commanded, AfterDeletion, Undeleted, PastDeletion, Flagged;
    var u := ChildrenAfter(r, cfg, sch);
    PassExtends(r, cfg, sch);
  }

  /**
    Changed plugins reach the nodes before success: when a pass changed the plugins file and both
    calls of the annotation worked, and later, after any moves of the user, the cluster and the
    operator, with any calls failing, a pass goes through, then some pass in between ran the
    command for the cluster's plugin list on every node and cleared the flag after it.
  */
  lemma PluginsReachNodes(w: World, cfg: Settings, first: Schedule, moves: seq<Move>, last: Schedule) returns (m: nat)
    requires Inv(w) && w.cluster.Some? && FilesChanged(w, After(w, cfg, first), Cli.PluginsKey(w.name))
    requires BothWork(first, PluginsCall(w, cfg, first))
    requires var r := Run(After(w, cfg, first), moves, cfg);
             r.cluster.Some? && ReconcileSpec(r, cfg, last).1.Continue?
    ensures var u, all := After(w, cfg, first), moves + [Pass(last)];
            m <= |moves| && all[m].Pass? && PluginsSet(Run(u, all[..m], cfg), Run(u, all[..m + 1], cfg))
  {
    hide ReconcileSpec, PluginsCall, Inv, FilesChanged, ClearedBy, PluginsSet, Cli.PluginsKey, WentAway, Run, Flagged;
    var u, all, k := After(w, cfg, first), moves + [Pass(last)], Cli.PluginsKey(w.name);
    InvLive(w);
    PassFlagsPlugins(w, cfg, first);
    PassExtends(w, cfg, first);
    PassKeepsInv(w, cfg, first);
    StampFlags(u, k, first.now(PluginsCall(w, cfg, first)));
    PluginsKind(w.name);
    FlagRun(u, all, cfg, k, PLUGINS_UPDATED);
    LastMove(u, moves, last, cfg);
    RunKeepsInv(u, moves, cfg);
    RunKeepsConfigMap(u, moves, cfg, k);
    InvLive(Run(u, moves, cfg));
    PassedUnflagged(Run(u, moves, cfg), cfg, last);
    var m' :| DealtWith(u, all, cfg, m', k, PLUGINS_UPDATED);
    m := m';
    RunKeepsConfigMap(u, all[..m], cfg, k);
    RunKeepsInv(u, all[..m], cfg);
    StepKeeps(u, all, cfg, m, k);
    ClearedSetsPlugins(Run(u, all[..m], cfg), Run(u, all[..m + 1], cfg), k);
  }

  lemma InvLive(r: World)
    requires Inv(r) && r.cluster.Some?
    ensures Live(r)
  {
    hide Tidy, RollingSet, SecretAgrees, FinalizerFirst, Clean, InShape;
  }

  lemma StampFlags(u: World, k: Key, now: Stamp)
    requires Annotated(u, k, "rabbitmq.com/pluginsUpdatedAt", now)
    ensures FlagSet(u, k, PLUGINS_UPDATED) && OperatorKey(PLUGINS_UPDATED)
  {
  }

  lemma PluginsKind(cluster: string)
    ensures Cli.PluginsKey(cluster).kind == KindConfigMap
  {
  }

  lemma LastMove(u: World, moves: seq<Move>, last: Schedule, cfg: Settings)
    ensures Run(u, moves + [Pass(last)], cfg) == After(Run(u, moves, cfg), cfg, last)
  {
    hide After;
    var all := moves + [Pass(last)];
    assert all[..|all| - 1] == moves;
  }

  lemma StepKeeps(u: World, all: seq<Move>, cfg: Settings, m: nat, k: Key)
    requires m < |all| && k.kind == KindConfigMap && Inv(Run(u, all[..m], cfg)) && k in Run(u, all[..m], cfg).objects
    ensures !WentAway(Run(u, all[..m], cfg), Run(u, all[..m + 1], cfg), k)
  {
    hide Inv, After, EnvStep;
    var r := Run(u, all[..m], cfg);
    assert all[..m + 1][..m] == all[..m] && all[..m + 1][m] == all[m];
    match all[m]
    case Pass(sch) => PassKeepsConfigMap(r, cfg, sch, k);
    case Act(env) => EnvKeepsConfigMap(r, env, k); assert News(r, EnvStep(r, env)) == [];
  }
}
