/** A configuration change restarts every stale set exactly once, as long as no pass marks the cluster meanwhile. */
module Rolling {
  import opened Basics
  import opened Objects
  import opened Store
  import opened Names
  import opened Conditions
  import opened Resources
  import opened Stages
  import opened Builders
  import opened Reconcile
  import opened Passes
  import opened Protocol
  import opened Success
  import opened Restart
  import opened Runs
  import opened Inputs
  import opened Calm
  import opened Traces
  import Cli
  import Convergence
  import Finalizer
  import Progress

  // ------------------------------------------------ a pass over a complete cluster

  /** What a pass over a complete cluster does to the children: nothing, one stamp, or commands. */
  ghost predicate Quietly(w: World, v: World, rmq: Cluster, sch: Schedule) {
    || v == w
    || (ConfChangedAt(w).Some? && exists k, at :: Restarted(w, v, k, ConfChangedAt(w).value, sch.now(at)))
    || Cli.CliEffect(w, v, rmq)
  }

  lemma StageQuietly(w: World, rmq: Cluster, j: nat, c: nat, cfg: Settings, sch: Schedule)
    requires 1 <= j <= 10 && w.cluster == Some(rmq) && Clean(rmq) && rmq.name == w.name && Complete(w, rmq)
    ensures Quietly(w, RunStage(PIPELINE[j], Sys(w, rmq, c), cfg, sch).sys.world.(cluster := w.cluster), rmq, sch)
  {
    hide RunStage, PIPELINE, ReconcileResourcesSpec, RestartSpec, FinalSpec, Cli.CliSpec, StatusSpec, Clean;
    hide ResourceBuilders, Complete;
    hide ClusterEffect, Cli.CliEffect, Quiet, FlagsGone, MineSet, ConfChangedAt, WellBehaved, InPlace;
    hide Convergence.Sized;
    PipelineLength();
    var s := Sys(w, rmq, c);
    var t := RunStage(PIPELINE[j], s, cfg, sch);
    if j == 7 {
      ResourcesIs(s, cfg, sch);
      CompleteBuilders(w, rmq);
      Convergence.ResourcesIdle(s, ResourceBuilders(rmq), sch);
    } else if j == 8 {
      RestartIs(s, cfg, sch);
      RestartEffect(s, sch);
      if t.sys.world != w {
        var k, at :| Restarted(w, t.sys.world, k, ConfChangedAt(w).value, sch.now(at));
      }
    } else if j == 10 {
      FinalIs(s, cfg, sch);
      FinalStore(s, sch);
      CliActs(s, sch);
    } else if j == 9 {
      StatusActs(s, cfg, sch);
    } else {
      ClusterStageActs(s, j, cfg, sch);
    }
  }

  /** Whatever calls fail, a pass over a complete cluster leaves all but stamps and flags alone. */
  lemma PassQuietly(w: World, cfg: Settings, sch: Schedule)
    requires Live(w) && !w.cluster.value.deleting && Complete(w, w.cluster.value)
    ensures Quietly(w, After(w, cfg, sch).(cluster := w.cluster), w.cluster.value, sch)
  {
    hide RunStage, PIPELINE, ReconcileSpec, Clean, Passed, Undeleted, PastDeletion, Finalizer.DeletionEffect, Complete;
    hide Cli.CliEffect;
    var rmq, v := w.cluster.value, After(w, cfg, sch);
    if sch.fails(0) {
      UnreadPass(w, cfg, sch);
    } else {
      var u, j, c := OneStageDecides(w, cfg, sch);
      PipelineLength();
      if j == 0 {
        DeferredOnly(rmq.status, RunStage(PIPELINE[0], Sys(w, rmq, 1), cfg, sch).sys, sch);
      } else {
        StageQuietly(w, rmq, j, c, cfg, sch);
        DeferredOnly(rmq.status, RunStage(PIPELINE[j], Sys(u, rmq, c), cfg, sch).sys, sch);
      }
    }
  }

  // ----------------------------------------------------- what it makes of the cluster

  /** A pass at this point would mark the cluster for a rebalance. */
  ghost predicate WouldMark(w: World, rmq: Cluster) {
    Rebalancing(w, rmq) && !Flagged(rmq.annotations, REBALANCE_NEEDED)
  }

  ghost predicate AsksNoMore(c: Cluster, d: Option<Cluster>) { d.Some? ==> FewerAnnotations(c, d.value) }

  lemma MarkAsksNoMore(s: Sys, sch: Schedule)
    requires s.world.cluster == Some(s.rmq) && !WouldMark(s.world, s.rmq)
    ensures AsksNoMore(s.rmq, MarkSpec(s, sch).sys.world.cluster)
  {
    hide NeedsRebalance, Flagged;
  }

  lemma EarlyAsksNoMore(s: Sys, cfg: Settings, sch: Schedule)
    requires s.world.cluster == Some(s.rmq)
    ensures AsksNoMore(s.rmq, PausedSpec(s, sch).sys.world.cluster)
    ensures !NeedsDefaults(s.rmq.spec, cfg) ==> AsksNoMore(s.rmq, DefaultsSpec(s, cfg, sch).sys.world.cluster)
    ensures AsksNoMore(s.rmq, ConditionsSpec(s, sch).sys.world.cluster)
    ensures AsksNoMore(s.rmq, TLSSpec(s, sch).sys.world.cluster)
    ensures AsksNoMore(s.rmq, ScaleDownSpec(s, sch).sys.world.cluster)
  {
    hide SetConditionSpec, SetConditionsSpec, ChildResources, NeedsDefaults, Defaulted, Itoa;
  }

  lemma DeletionAsksNoMore(s: Sys, sch: Schedule)
    requires s.world.cluster == Some(s.rmq)
    ensures AsksNoMore(s.rmq, Finalizer.ReconcileDeleteSpec(s, sch).sys.world.cluster)
  {
    hide Finalizer.ReconcileDeleteSpec, Finalizer.DeletionEffect, Finalizer.FINALIZER, Finalizer.Without;
    Finalizer.DeleteStageEffect(s, sch);
  }

  lemma StatusAsksNoMore(s: Sys, sch: Schedule)
    requires s.world.cluster == Some(s.rmq)
    ensures AsksNoMore(s.rmq, StatusSpec(s, sch).sys.world.cluster)
  {
    hide StatusSpec, Published;
    StatusEffect(s, sch);
  }

  lemma FinalAsksNoMore(s: Sys, sch: Schedule)
    requires s.world.cluster == Some(s.rmq)
    ensures AsksNoMore(s.rmq, FinalSpec(s, sch).sys.world.cluster)
  {
    hide FinalSpec, Cli.CliSpec, Cli.CliEffect, MineSet, Quiet, Flagged, Mine;
    Cli.CliStageEffect(s, sch);
    FinalStore(s, sch);
  }

  lemma StageAsksNoMore(u: World, rmq: Cluster, j: nat, c: nat, cfg: Settings, sch: Schedule)
    requires 0 <= j <= 10 && u.cluster == Some(rmq) && Clean(rmq) && rmq.name == u.name
    requires !NeedsDefaults(rmq.spec, cfg) && !WouldMark(u, rmq)
    ensures AsksNoMore(rmq, RunStage(PIPELINE[j], Sys(u, rmq, c), cfg, sch).sys.world.cluster)
  {
    hide RunStage, PIPELINE, PausedSpec, DefaultsSpec, ConditionsSpec, TLSSpec, MarkSpec, ScaleDownSpec, StatusSpec;
    hide FinalSpec, RestartSpec;
    hide ReconcileResourcesSpec, ResourceBuilders, Finalizer.ReconcileDeleteSpec, Clean, WouldMark, NeedsDefaults;
    hide WellBehaved, InPlace;
    hide StatusAfter, StoppedAt, Quiet, ConfChangedAt;
    PipelineLength();
    var s := Sys(u, rmq, c);
    EarlyAsksNoMore(s, cfg, sch);
    match j
    case 0 => DeletionIs(s, cfg, sch); DeletionAsksNoMore(s, sch);
    case 1 => PausedIs(s, cfg, sch);
    case 2 => DefaultsIs(s, cfg, sch);
    case 3 => ConditionsIs(s, cfg, sch);
    case 4 => TLSIs(s, cfg, sch);
    case 5 => MarkIs(s, cfg, sch); MarkAsksNoMore(s, sch);
    case 6 => ScaleDownIs(s, cfg, sch);
    case 7 =>
      ResourcesIs(s, cfg, sch);
      AllWellBehaved(rmq);
      ResourcesEffect(s, ResourceBuilders(rmq), sch);
    case 8 => RestartIs(s, cfg, sch); RestartEffect(s, sch);
    case 9 => StatusIs(s, cfg, sch); StatusAsksNoMore(s, sch);
    case _ => FinalIs(s, cfg, sch); FinalAsksNoMore(s, sch);
  }

  /** A pass that neither fills in defaults nor marks the cluster asks for no more afterwards. */
  lemma PassAsksNoMore(w: World, cfg: Settings, sch: Schedule)
    requires Live(w) && !w.cluster.value.deleting && !NeedsDefaults(w.cluster.value.spec, cfg)
    requires !WouldMark(w, w.cluster.value)
    ensures After(w, cfg, sch).cluster.Some? && FewerAnnotations(w.cluster.value, After(w, cfg, sch).cluster.value)
    ensures !After(w, cfg, sch).cluster.value.deleting && Clean(After(w, cfg, sch).cluster.value)
  {
    hide RunStage, PIPELINE, ReconcileSpec, Clean, Passed, Undeleted, PastDeletion, Finalizer.DeletionEffect;
    hide NeedsDefaults, WouldMark;
    hide StatusEnd, MarkEnd, Quiet, AllInPlace, Flagged;
    var rmq, v := w.cluster.value, After(w, cfg, sch);
    ClusterAfter(w, cfg, sch);
    if sch.fails(0) {
      UnreadPass(w, cfg, sch);
    } else {
      var u, j, c := OneStageDecides(w, cfg, sch);
      PipelineLength();
      var c' := if j == 0 then 1 else c;
      StageAsksNoMore(w, rmq, j, c', cfg, sch);
      DeferredAsks(rmq, RunStage(PIPELINE[j], Sys(w, rmq, c'), cfg, sch).sys, sch);
    }
  }

  lemma DeferredAsks(c: Cluster, t: Sys, sch: Schedule)
    requires AsksNoMore(c, t.world.cluster)
    ensures AsksNoMore(c, Deferred(c.status, t, sch).world.cluster)
  {
  }

  // ------------------------------------------------------------- conservation

  /** Between w and v each set was rolled out once if it stopped being stale, and otherwise not at all. */
  ghost predicate Conserved(w: World, v: World) {
    Extends(w, v) && forall k :: Rollouts(News(w, v), k) + Bit(k in StaleSets(v)) == Bit(k in StaleSets(w))
  }

  /**
    The configuration changed at this time, if at all, and the cluster has all it asks for but
    the restarts.
  */
  ghost predicate Restarting(w: World, cfg: Settings, since: Option<string>) {
    && Live(w) && !w.cluster.value.deleting && !NeedsDefaults(w.cluster.value.spec, cfg)
    && Complete(w, w.cluster.value) && ConfChangedAt(w) == since
  }

  ghost predicate LaterThan(sch: Schedule, since: Option<string>) {
    since.Some? ==> forall at :: StringLess(since.value, sch.now(at))
  }

  lemma StampConserves(w: World, v: World, l: Key, since: string, now: string)
    requires Restarted(w, v, l, since, now) && StringLess(since, now) && ConfChangedAt(w) == Some(since)
    ensures Conserved(w, v)
  {
    StampEndsStaleness(w, v, l, since, now);
    assert l in StaleSet(w, since);
    hide StaleSet, Rollouts, Restarted, ConfChangedAt;
    forall k ensures Rollouts(News(w, v), k) + Bit(k in StaleSets(v)) == Bit(k in StaleSets(w)) {
      StampEvents(w, v, l, since, now, k);
    }
  }

  lemma CommandsConserve(w: World, v: World, rmq: Cluster)
    requires Cli.CliEffect(w, v, rmq) && ConfChangedAt(v) == ConfChangedAt(w)
    ensures Conserved(w, v)
  {
    hide Cli.Justified, Rollouts, OperatorKey, ConfChangedAt;
    CliKeepsMine(w, v, rmq);
    forall k ensures Rollouts(News(w, v), k) == 0 && (k in StaleSets(v) <==> k in StaleSets(w)) {
      Cli.ClearedMeansRan(News(w, v), rmq, k, "");
      NoRollouts(News(w, v), k);
      if k in w.objects {
        assert Cli.Unflagged(w.objects[k], v.objects[k], k, News(w, v));
      }
    }
  }

  lemma NothingConserves(w: World, v: World)
    requires v.log == w.log && StaleSets(v) == StaleSets(w)
    ensures Conserved(w, v)
  {
    assert News(w, v) == [];
  }

  lemma QuietlyConserves(w: World, v: World, rmq: Cluster, sch: Schedule)
    requires Quietly(w, v, rmq, sch) && LaterThan(sch, ConfChangedAt(w))
    ensures Conserved(w, v) && ConfChangedAt(v) == ConfChangedAt(w)
  {
    hide Conserved, Cli.CliEffect, ConfChangedAt, Restarted;
    if v == w {
      NothingConserves(w, v);
    } else if Cli.CliEffect(w, v, rmq) {
      ConfStampSurvives(w, v, rmq);
      CommandsConserve(w, v, rmq);
    } else {
      var since := ConfChangedAt(w).value;
      var l, at :| Restarted(w, v, l, since, sch.now(at));
      StampConserves(w, v, l, since, sch.now(at));
      StampEndsStaleness(w, v, l, since, sch.now(at));
    }
  }

  lemma StampSized(w: World, v: World, l: Key, since: string, now: string, rmq: Cluster)
    requires Restarted(w, v, l, since, now) && Complete(w, rmq)
    ensures forall i: nat :: i < rmq.spec.replicas ==> NodeSized(v, rmq, i)
  {
    hide AllInPlace, NodeKey, Capacity;
    forall i: nat | i < rmq.spec.replicas ensures NodeSized(v, rmq, i) {
      assert NodeSized(w, rmq, i);
    }
  }

  lemma CommandsSized(w: World, v: World, rmq: Cluster)
    requires Cli.CliEffect(w, v, rmq) && Complete(w, rmq)
    ensures forall i: nat :: i < rmq.spec.replicas ==> NodeSized(v, rmq, i)
  {
    hide AllInPlace, NodeKey, Capacity, Cli.Justified, OperatorKey;
    forall i: nat | i < rmq.spec.replicas ensures NodeSized(v, rmq, i) {
      assert NodeSized(w, rmq, i);
      var k := NodeKey(rmq.name, i);
      assert Cli.Unflagged(w.objects[k], v.objects[k], k, News(w, v));
    }
  }

  lemma QuietlyComplete(w: World, v: World, rmq: Cluster, sch: Schedule)
    requires Quietly(w, v, rmq, sch) && Clean(rmq) && Complete(w, rmq)
    ensures Complete(v, rmq)
  {
    hide Cli.CliEffect, ConfChangedAt, Restarted, AllInPlace, NodeSized, Clean;
    if Cli.CliEffect(w, v, rmq) {
      AllInPlaceSurvives(w, v, rmq);
      CommandsSized(w, v, rmq);
    } else if v != w {
      var since := ConfChangedAt(w).value;
      var l, at :| Restarted(w, v, l, since, sch.now(at));
      StampKeepsPlace(w, v, l, since, sch.now(at), rmq);
      StampSized(w, v, l, since, sch.now(at), rmq);
    }
  }

  /** Completeness carries over to a cluster that asks for no more. */
  lemma CompleteFewer(w: World, v: World, c: Cluster, d: Cluster)
    requires Complete(w, c) && FewerAnnotations(c, d) && v.objects == w.objects
    ensures Complete(v, d)
  {
    hide AllInPlace, NodeKey, Capacity;
    Progress.FewerInPlace(c, d, w);
    Progress.AnyInPlace(w, v, d);
    forall i: nat | i < d.spec.replicas ensures NodeSized(v, d, i) {
      assert NodeSized(w, c, i);
    }
  }

  lemma AnyConserved(w: World, v: World, u: World)
    requires Conserved(w, v) && u == v.(cluster := u.cluster)
    ensures Conserved(w, u) && ConfChangedAt(u) == ConfChangedAt(v)
  {
    hide Rollouts;
    assert StaleSets(u) == StaleSets(v) by {
      assert forall k :: Mine(u, k) <==> Mine(v, k);
    }
    assert News(w, u) == News(w, v);
  }

  /** One pass, whichever calls fail. */
  lemma PassConserves(w: World, cfg: Settings, sch: Schedule, since: Option<string>)
    requires Restarting(w, cfg, since) && LaterThan(sch, since) && !WouldMark(w, w.cluster.value)
    ensures Restarting(After(w, cfg, sch), cfg, since) && Conserved(w, After(w, cfg, sch))
  {
    hide ReconcileSpec, Clean, Complete, Conserved, ConfChangedAt, WouldMark, Quietly, FewerAnnotations, NeedsDefaults;
    var c, v := w.cluster.value, After(w, cfg, sch);
    var v' := v.(cluster := w.cluster);
    PassQuietly(w, cfg, sch);
    PassAsksNoMore(w, cfg, sch);
    QuietlyConserves(w, v', c, sch);
    QuietlyComplete(w, v', c, sch);
    CompleteFewer(v', v, c, v.cluster.value);
    AnyConserved(w, v', v);
    PassExtends(w, cfg, sch);
    FewerIsSame(c, v.cluster.value);
  }

  // --------------------------------------------------------------------- runs

  /** What happens to pods, rollouts, endpoints and claims by themselves. */
  predicate Harmless(e: Env) {
    e.FinishRollout? || e.Readiness? || e.PodsChange? || e.EndpointsChange? || e.ClaimAppears?
  }

  lemma StatusComplete(w: World, k: Key, status: SetStatus, rmq: Cluster)
    requires Clean(rmq) && Complete(w, rmq) && HasSet(w, k)
    ensures Complete(WithStatus(w, k, status), rmq)
  {
    hide ResourceBuilders, Clean, SameButFlags, NodeKey, Capacity, Fixed;
    var v, bs := WithStatus(w, k, status), ResourceBuilders(rmq);
    AllWellBehaved(rmq);
    forall m | 0 <= m < |bs| ensures InPlace(bs[m], v) {
      assert bs[m] in bs && InPlace(bs[m], w);
    }
    forall i: nat | i < rmq.spec.replicas ensures NodeSized(v, rmq, i) {
      assert NodeSized(w, rmq, i);
    }
  }

  lemma EnvSame(w: World, e: Env)
    requires Harmless(e)
    ensures var v := EnvStep(w, e);
            v.log == w.log && v.name == w.name && v.cluster == w.cluster && forall since ::
              StaleSet(v, since) == StaleSet(w, since)
  {
    hide Clean;
    var v := EnvStep(w, e);
    assert forall k, since :: Stale(v, k, since) <==> Stale(w, k, since);
  }

  lemma EnvSameConf(w: World, e: Env)
    requires Harmless(e)
    ensures ConfChangedAt(EnvStep(w, e)) == ConfChangedAt(w)
  {
    hide Clean, ServerConfKey;
  }

  lemma EnvComplete(w: World, e: Env, rmq: Cluster)
    requires Harmless(e) && Clean(rmq) && Complete(w, rmq)
    ensures Complete(EnvStep(w, e), rmq)
  {
    hide Clean, Complete;
    match e
    case FinishRollout(k) =>
      if HasSet(w, k) {
        var o := w.objects[k];
        StatusComplete(w, k, SetStatus(o.status.updateRevision, o.status.updateRevision, o.spec.replicas), rmq);
      }
    case Readiness(k, ready) =>
      if HasSet(w, k) {
        StatusComplete(w, k, w.objects[k].status.(readyReplicas := ready), rmq);
      }
    case _ => SameComplete(w, EnvStep(w, e), rmq);
  }

  lemma SameComplete(w: World, v: World, rmq: Cluster)
    requires v.objects == w.objects && Complete(w, rmq)
    ensures Complete(v, rmq)
  {
    hide AllInPlace, NodeKey, Capacity;
    Progress.AnyInPlace(w, v, rmq);
    forall i: nat | i < rmq.spec.replicas ensures NodeSized(v, rmq, i) {
      assert NodeSized(w, rmq, i);
    }
  }

  lemma EnvConserves(w: World, e: Env, cfg: Settings, since: Option<string>)
    requires Restarting(w, cfg, since) && Harmless(e)
    ensures Restarting(EnvStep(w, e), cfg, since) && Conserved(w, EnvStep(w, e))
  {
    hide EnvStep, Clean, Complete, Conserved, ConfChangedAt, NeedsDefaults;
    EnvSame(w, e);
    EnvSameConf(w, e);
    EnvComplete(w, e, w.cluster.value);
    NothingConserves(w, EnvStep(w, e));
  }

  lemma ConservedTrans(u: World, w: World, v: World)
    requires Conserved(u, w) && Conserved(w, v)
    ensures Conserved(u, v)
  {
    hide Rollouts, StaleSets;
    NewsCompose(u, w, v);
    forall k ensures Rollouts(News(u, v), k) + Bit(k in StaleSets(v)) == Bit(k in StaleSets(u)) {
      RolloutsAppend(News(u, w), News(w, v), k);
    }
  }

  /** Every pass runs after the change, and none of them would mark the cluster; the user does nothing meanwhile. */
  ghost predicate Undisturbed(w: World, moves: seq<Move>, cfg: Settings, since: Option<string>) {
    forall i :: 0 <= i < |moves| ==> Calmly(Run(w, moves[..i], cfg), moves[i], since)
  }

  ghost predicate Calmly(r: World, m: Move, since: Option<string>) {
    match m
    case Pass(sch) => LaterThan(sch, since) && (r.cluster.Some? ==> !WouldMark(r, r.cluster.value))
    case Act(e) => Harmless(e)
  }

  /**
    In every run after a configuration change, with any calls failing and rollouts finishing
    when they do, a set that was stale is restarted exactly once by the time it no longer is,
    and no other set is restarted: as long as no pass runs that would mark the cluster. If no
    change was ever noted, no set is stale and none is restarted.
  */
  lemma {:induction false} EverySetRestartsOnce(w: World, moves: seq<Move>, cfg: Settings, since: Option<string>)
    requires Restarting(w, cfg, since) && Undisturbed(w, moves, cfg, since)
    ensures Restarting(Run(w, moves, cfg), cfg, since) && Conserved(w, Run(w, moves, cfg))
  {
    hide Restarting, Conserved, EnvStep, After, WouldMark, LaterThan;
    if moves == [] {
      NothingConserves(w, w);
    } else {
      var n := |moves| - 1;
      var front, m, r := moves[..n], moves[n], Run(w, moves[..n], cfg);
      forall i | 0 <= i < |front| ensures Calmly(Run(w, front[..i], cfg), front[i], since) {
        assert front[..i] == moves[..i] && front[i] == moves[i];
        assert Calmly(Run(w, moves[..i], cfg), moves[i], since);
      }
      EverySetRestartsOnce(w, front, cfg, since);
      assert Calmly(r, m, since);
      StillThere(r, cfg, since);
      match m {
        case Pass(sch) => PassConserves(r, cfg, sch, since);
        case Act(e) => EnvConserves(r, e, cfg, since);
      }
      ConservedTrans(w, r, Run(w, moves, cfg));
    }
  }

  lemma StillThere(r: World, cfg: Settings, since: Option<string>)
    requires Restarting(r, cfg, since)
    ensures r.cluster.Some?
  {
  }
}
