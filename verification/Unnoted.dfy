/**
  A restart that was asked for but could not be noted is lost, except for the sets that were waiting
  for an earlier restart: success follows without it.
*/
module Unnoted {
  import opened Basics
  import opened Objects
  import opened Store
  import opened Conditions
  import opened Resources
  import opened Stages
  import opened Builders
  import opened Reconcile
  import opened Passes
  import opened Protocol
  import opened Safety
  import opened Success
  import opened Restart
  import opened Traces
  import opened Restarts
  import opened Convergence
  import opened Calm
  import opened Progress
  import opened Reconfiguring
  import opened Rolling
  import opened Runs
  import Cli
  import Finalizer

  // ---------------------------------------------------- the pass that asks

  /** The ConfigMap was out of place and is in place now; nothing else changed. */
  ghost predicate ConfReplaced(w: World, v: World, rmq: Cluster) {
    var b := ServerConfBuilder(rmq);
    !InPlace(b, w) && InPlace(b, v) && OnlyAt(w, v, b.key) && v.endpoints == w.endpoints && v.name == w.name
  }

  /** Only an update that goes through asks for a restart. */
  lemma AskedIsUpdate(s: Sys, b: Builder, built: Object, sch: Schedule)
    requires WellBehaved(b)
    ensures var t := ApplyStep(s, b, built, sch);
            var (s1, op, restart) := CreateOrUpdateSpec(s, b, built, sch);
            Extends(s.world, t.sys.world) && RestartAsked(b.key) in News(s.world, t.sys.world) ==>
              op.UpdatedObject? && Asks(b, restart) && t.sys.rmq == s.rmq
  {
    hide WellBehaved, SetConditionSpec, AnnotateIfNeededSpec, CreateOrUpdateSpec, InPlace, Restored, Stored;
    hide MaybeFlagged, BuilderEvent;
    hide TouchesOnly;
    CreateOrUpdateEffect(s, b, built, sch);
    var (s1, op, restart) := CreateOrUpdateSpec(s, b, built, sch);
    AnnotateEffect(s1, b, op, restart, sch);
    NewsCompose(s.world, s1.world, AnnotateIfNeededSpec(s1, b, op, restart, sch).sys.world);
  }

  lemma UpdatedNotInPlace(s: Sys, b: Builder, built: Object, sch: Schedule)
    ensures CreateOrUpdateSpec(s, b, built, sch).1.UpdatedObject? ==> !InPlace(b, s.world)
  {
  }

  lemma AskedApplied(s: Sys, b: Builder, built: Object, sch: Schedule)
    requires WellBehaved(b) && Fits(b.key.kind, built) && WellTyped(s.world)
    requires var t := ApplyStep(s, b, built, sch);
              Extends(s.world, t.sys.world) && RestartAsked(b.key) in News(s.world, t.sys.world)
    ensures var t := ApplyStep(s, b, built, sch);
            && !InPlace(b, s.world) && InPlace(b, t.sys.world) && TouchesOnly(s.world, t.sys.world, b.key)
            && t.sys.rmq == s.rmq
  {
    hide WellBehaved, ApplyStep, CreateOrUpdateSpec, InPlace, BuilderEvents, MaybeFlagged, Restored, Stored;
    hide TouchesOnly, StatusAfter;
    AskedIsUpdate(s, b, built, sch);
    UpdatedNotInPlace(s, b, built, sch);
    FlagSetIffAnnotated(s, b, built, sch);
    ApplyEffect(s, b, built, sch);
  }

  lemma AskedTurn(s: Sys, sch: Schedule)
    requires Clean(s.rmq) && s.rmq.name == s.world.name && WellTyped(s.world)
    requires var t := BuilderStep(s, ServerConfBuilder(s.rmq), sch);
             Extends(s.world, t.sys.world) && RestartAsked(ServerConfKey(s.world.name)) in News(s.world, t.sys.world)
    ensures var t := BuilderStep(s, ServerConfBuilder(s.rmq), sch);
            ConfReplaced(s.world, t.sys.world, s.rmq) && t.sys.rmq == s.rmq
  {
    hide Clean, ServerConfBuilder, ServerConfKey, ApplyStep, WellTyped, WellBehaved, InPlace;
    assert !sch.fails(s.calls);
    ConfBuilderIs(s.rmq);
    ServerConfWellBehaved(s.rmq);
    ConfBuilt(s.rmq, sch.random(s.calls));
    assert ServerConfKey(s.rmq.name).kind == KindConfigMap by { ConfKind(s.rmq.name); }
    AskedApplied(Called(s), ServerConfBuilder(s.rmq), ServerConfBuilder(s.rmq).build(sch.random(s.calls)), sch);
  }

  lemma BuildersAsked(s: Sys, sch: Schedule)
    requires Clean(s.rmq) && s.rmq.name == s.world.name && WellTyped(s.world)
    requires var t := ReconcileResourcesSpec(s, ResourceBuilders(s.rmq), sch);
             Extends(s.world, t.sys.world) && RestartAsked(ServerConfKey(s.world.name)) in News(s.world, t.sys.world)
    ensures var t := ReconcileResourcesSpec(s, ResourceBuilders(s.rmq), sch);
            ConfReplaced(s.world, t.sys.world, s.rmq) && t.sys.rmq == s.rmq
  {
    hide BuilderStep, WellBehaved, ServerConfKey, ResourceBuilders, ReconcileResourcesSpec, Clean, ServerConfBuilder;
    hide ConfReplaced;
    hide OwnWrite, ClaimsBy, TouchesOnly, StatusAfter, InPlace;
    var bs, w := ResourceBuilders(s.rmq), s.world;
    var t := ReconcileResourcesSpec(s, bs, sch);
    AllWellBehaved(s.rmq);
    var j, c := ResourcesStopAt(s, bs, sch);
    assert bs[j] in bs;
    BuilderStepEffect(Sys(w, s.rmq, c), bs[j], sch);
    assert BuilderEvent(RestartAsked(ServerConfKey(w.name)), bs[j].key);
    ConfBuilderIs(s.rmq);
    AskedTurn(Sys(w, s.rmq, c), sch);
  }

  /** Only the builders' stage asks for restarts. */
  lemma OthersDoNotAsk(u: World, rmq: Cluster, j: nat, c: nat, cfg: Settings, sch: Schedule, k: Key)
    requires 1 <= j <= 10 && j != 7 && u.cluster == Some(rmq) && rmq.name == u.name
    ensures var v := RunStage(PIPELINE[j], Sys(u, rmq, c), cfg, sch).sys.world;
              Extends(u, v) && RestartAsked(k) !in News(u, v)
  {
    hide RunStage, PIPELINE, RestartSpec, FinalSpec, Cli.CliSpec, StatusSpec, ClusterEffect, Cli.Justified;
    hide Cli.OnlyFlagsCleared;
    hide Quiet, FlagsGone, MineSet, ConfChangedAt;
    PipelineLength();
    var s := Sys(u, rmq, c);
    var v := RunStage(PIPELINE[j], s, cfg, sch).sys.world;
    if j == 8 {
      RestartIs(s, cfg, sch);
      RestartEffect(s, sch);
      if v != u {
        var since := ConfChangedAt(u).value;
        var l, at :| Restarted(u, v, l, since, sch.now(at));
        RestartEvents(u, v, l, since, sch.now(at));
      }
    } else if j == 10 {
      FinalIs(s, cfg, sch);
      FinalStore(s, sch);
      CliActs(s, sch);
      Cli.ClearedMeansRan(News(u, v.(cluster := u.cluster)), rmq, k, "");
    } else if j == 9 {
      StatusActs(s, cfg, sch);
    } else {
      ClusterStageActs(s, j, cfg, sch);
    }
  }

  /** A pass that asked for a restart put the ConfigMap in place and did nothing else. */
  lemma AskedPass(w: World, cfg: Settings, sch: Schedule)
    requires Live(w) && !w.cluster.value.deleting && WellTyped(w)
    requires Extends(w, After(w, cfg, sch)) && RestartAsked(ServerConfKey(w.name)) in News(w, After(w, cfg, sch))
    ensures ConfReplaced(w, After(w, cfg, sch), w.cluster.value) && After(w, cfg, sch).cluster == w.cluster
  {
    hide RunStage, PIPELINE, ReconcileSpec, Clean, ConfReplaced, Passed, Undeleted, PastDeletion, ServerConfKey;
    hide Finalizer.DeletionEffect, WellTyped;
    hide ReconcileResourcesSpec, ResourceBuilders, InPlace, StoppedAt, Quiet, StatusAfter;
    var rmq, v := w.cluster.value, After(w, cfg, sch);
    if sch.fails(0) {
      UnreadPass(w, cfg, sch);
      assert false;
    }
    var u, j, c := OneStageDecides(w, cfg, sch);
    PipelineLength();
    var t := RunStage(PIPELINE[j], if j == 0 then Sys(w, rmq, 1) else Sys(u, rmq, c), cfg, sch);
    DeferredOnly(rmq.status, t.sys, sch);
    if j == 0 {
      assert false;
    } else if j != 7 {
      OthersDoNotAsk(u, rmq, j, c, cfg, sch, ServerConfKey(w.name));
      assert false;
    }
    ResourcesIs(Sys(w, rmq, c), cfg, sch);
    assert News(w, v) == News(w, t.sys.world);
    BuildersAsked(Sys(w, rmq, c), sch);
    AllWellBehaved(rmq);
    ResourcesEffect(Sys(w, rmq, c), ResourceBuilders(rmq), sch);
    NothingDeferred(w, t.sys, sch);
  }

  // -------------------------------------------------------------- the exact rule

  /** No set was restarted later than this time. */
  ghost predicate NotAhead(w: World, now: string) {
    forall k: Key :: k.kind == KindStatefulSet && LastRestart(w, k).Some? ==> AtMost(LastRestart(w, k).value, now)
  }

  lemma AllStale(w: World, now: string)
    requires NotAhead(w, now)
    ensures StaleSet(w, now) == MineSet(w)
  {
    forall k | k in MineSet(w) ensures k in StaleSet(w, now) {
      assert LastRestart(w, k).Some? ==> AtMost(LastRestart(w, k).value, now);
    }
  }

  /**
    The sets that are stale after a pass that asked for a restart: those not restarted since the
    annotation began, if both its calls worked, and otherwise those that were stale before.
  */
  lemma AskedStale(w: World, cfg: Settings, sch: Schedule)
    requires Live(w) && !w.cluster.value.deleting && WellTyped(w)
    requires Extends(w, After(w, cfg, sch)) && RestartAsked(ServerConfKey(w.name)) in News(w, After(w, cfg, sch))
    ensures var n := NoteCall(w, cfg, sch);
            StaleSets(After(w, cfg, sch)) == if BothWork(sch, n) then StaleSet(w, sch.now(n)) else StaleSets(w)
  {
    hide ReconcileSpec, NoteCall, Clean, ConfReplaced, ConfChangedAt, StaleSet, ServerConfKey, WellTyped, MineSet;
    hide Quiet;
    AskedPass(w, cfg, sch);
    PassOnRecord(w, cfg, sch);
    ReplacedSets(w, After(w, cfg, sch), w.cluster.value);
  }

  /** In an undisturbed run that leaves no set stale, exactly the sets stale at its beginning are restarted. */
  lemma StaleAreRestarted(u: World, moves: seq<Move>, cfg: Settings, since: Option<string>, k: Key)
    requires Restarting(u, cfg, since) && Undisturbed(u, moves, cfg, since) && NoneStale(Run(u, moves, cfg))
    ensures Extends(u, Run(u, moves, cfg))
    ensures TemplateWritten(k) in News(u, Run(u, moves, cfg)) <==> k in StaleSets(u)
  {
    hide Restarting, Undisturbed, Run, StaleSets, Rollouts;
    EverySetRestartsOnce(u, moves, cfg, since);
    var v := Run(u, moves, cfg);
    if TemplateWritten(k) in News(u, v) {
      SomeRollout(News(u, v), k);
    } else {
      NoRollouts(News(u, v), k);
    }
  }

  /**
    The exact rule for a restart that was asked for. A pass updates the server ConfigMap, asks
    for a restart and leaves nothing else to put in place. Once a run in which no pass marks
    the cluster has left no set stale, as every pass that goes through has, a set was restarted
    after the request if and only if both calls of the annotation worked or the set was
    still waiting for an earlier restart. A set stamped later than the annotation began, which
    takes a clock that was put back, counts as restarted already.
  */
  lemma RestartedIff(w: World, cfg: Settings, sch: Schedule, moves: seq<Move>, k: Key)
    requires Live(w) && !w.cluster.value.deleting && WellTyped(w) && !NeedsDefaults(w.cluster.value.spec, cfg)
    requires Extends(w, After(w, cfg, sch)) && RestartAsked(ServerConfKey(w.name)) in News(w, After(w, cfg, sch))
    requires Complete(After(w, cfg, sch), w.cluster.value) && k in MineSet(w)
    requires var u := After(w, cfg, sch);
             Undisturbed(u, moves, cfg, ConfChangedAt(u)) && NoneStale(Run(u, moves, cfg))
    ensures var u, n := After(w, cfg, sch), NoteCall(w, cfg, sch);
            var v := Run(u, moves, cfg);
            && Extends(u, v)
            && (NotAhead(w, sch.now(n)) ==>
                  (TemplateWritten(k) in News(u, v) <==> BothWork(sch, n) || k in StaleSets(w)))
            && (TemplateWritten(k) in News(u, v) <==>
                  k in if BothWork(sch, n) then StaleSet(w, sch.now(n)) else StaleSets(w))
  {
    hide ReconcileSpec, NoteCall, Clean, ConfReplaced, ConfChangedAt, StaleSet, StaleSets, ServerConfKey, WellTyped;
    hide Complete, NeedsDefaults, Undisturbed, Run, NoneStale, NotAhead, MineSet;
    var u := After(w, cfg, sch);
    AskedStale(w, cfg, sch);
    AskedPass(w, cfg, sch);
    PassExtends(w, cfg, sch);
    StaleAreRestarted(u, moves, cfg, ConfChangedAt(u), k);
    var now := sch.now(NoteCall(w, cfg, sch));
    if NotAhead(w, now) {
      AllStale(w, now);
    }
  }

  // ------------------------------------------------------------ what follows it

  /**
    Everything but the sets' restart is there once the ConfigMap is: the store is steady and has
    nothing left to do.
  */
  lemma ReplacedIsReady(w: World, v: World, cfg: Settings, order: set<Key> -> seq<Key>)
    requires Steady(w, cfg) && Prepared(w, cfg, order) && Tidy(v)
    requires var bs := ResourceBuilders(w.cluster.value); Unfinished(bs, w, |bs|) == 1
    requires v.cluster == w.cluster && ConfReplaced(w, v, w.cluster.value)
    ensures Steady(v, cfg) && Prepared(v, cfg, order) && Complete(v, v.cluster.value)
    ensures ConfChangedAt(v) == ConfChangedAt(w) ==> StaleSets(v) == StaleSets(w)
  {
    hide ResourceBuilders, Serviceable, Clean, Defaulted, NeedsDefaults, PastDeletion, UpToDate, Quiet, TidyObject;
    hide Complete, Tidy;
    hide InPlace, OnlyAt, NodeKeys, ConfChangedAt, StaleSet, TLSFine, MineSet, SameView, ServerConfBuilder, OwnSets;
    var c := w.cluster.value;
    FullFacts(c, cfg);
    ReplacedSets(w, v, c);
    forall k | k in MineSet(w) ensures k in v.objects && SameView(w.objects[k], v.objects[k]) {
      MineIsSet(w, k);
      SameViewFrom(w.objects[k], v.objects[k]);
    }
    SeenUpToDate(w, v, c, order);
    ReplacedServiceable(w, v, c);
    AllFinished(v, c);
  }

  lemma MineIsSet(w: World, k: Key)
    requires k in MineSet(w)
    ensures k in w.objects && w.objects[k].StatefulSet?
  {
  }

  lemma ReplacedSets(w: World, v: World, c: Cluster)
    requires c.name == w.name && ConfReplaced(w, v, c)
    ensures MineSet(v) == MineSet(w) && (Quiet(w) ==> Quiet(v))
    ensures forall since :: StaleSet(v, since) == StaleSet(w, since)
    ensures forall k :: k in MineSet(w) ==> k in w.objects && k in v.objects && v.objects[k] == w.objects[k]
    ensures forall n :: OwnSets(w, n) ==> OwnSets(v, n)
  {
    ConfBuilderIs(c);
    ConfKind(c.name);
    hide InPlace, TidyObject, ServerConfBuilder, ConfChangedAt, ResourceBuilders, NodeKeys, ServerConfKey;
    var key := ServerConfKey(c.name);
    forall k: Key | k.kind == KindStatefulSet
      ensures (k in v.objects <==> k in w.objects) && (k in w.objects ==> v.objects[k] == w.objects[k])
    {
      assert k in v.objects <==> k in v.objects - {key};
      assert k in w.objects <==> k in w.objects - {key};
      assert k in w.objects ==> v.objects[k] == (v.objects - {key})[k] == (w.objects - {key})[k];
    }
    assert forall since :: StaleSet(v, since) == StaleSet(w, since);
  }

  lemma ReplacedServiceable(w: World, v: World, c: Cluster)
    requires Serviceable(c, w) && ConfReplaced(w, v, c) && Tidy(v)
    requires var bs := ResourceBuilders(c); Unfinished(bs, w, |bs|) == 1
    ensures Serviceable(c, v) && var bs := ResourceBuilders(c); Unfinished(bs, v, |bs|) == 0
  {
    hide ResourceBuilders, Clean, Clear, InPlace, OnlyAt, ServerConfBuilder, Tidy;
    var b, bs := ServerConfBuilder(c), ResourceBuilders(c);
    ConfBuilderIs(c);
    ConfKind(c.name);
    KeysDistinct(c);
    var j: nat :| j < |bs| && bs[j] == b;
    MeasureDrops(bs, w, v, j, |bs|);
    forall x | x in bs ensures Clear(c, v, x) {
      if x.key == b.key {
        InPlaceFits(b, v);
        FitsIsClear(c, v, b);
      } else {
        OthersClear(c, w, v, b.key, x);
      }
    }
  }

  lemma NotFollowed(before: seq<Event>, log: seq<Event>, conf: Key, k: Key)
    requires before <= log && RestartAsked(conf) in log[|before|..] && TemplateWritten(k) !in log[|before|..]
    ensures !Followed(log, conf, k)
  {
    var rest := log[|before|..];
    var m :| 0 <= m < |rest| && rest[m] == RestartAsked(conf);
    var i := |before| + m;
    assert log[i] == RestartAsked(conf) && log[i..] == rest[m..];
    assert forall e :: e in rest[m..] ==> e in rest;
  }

  /** A calm pass that goes through writes no template. */
  lemma PassedRollsNone(w: World, cfg: Settings, sch: Schedule, k: Key)
    requires Live(w) && !w.cluster.value.deleting && ReconcileSpec(w, cfg, sch).1.Continue?
    ensures Extends(w, After(w, cfg, sch)) && TemplateWritten(k) !in News(w, After(w, cfg, sch))
  {
    hide ReconcileSpec, Clean, Cli.Justified, Cli.OnlyFlagsCleared;
    PassedCommands(w, cfg, sch);
    var v := After(w, cfg, sch);
    Cli.ClearedMeansRan(News(w, v.(cluster := w.cluster)), w.cluster.value, k, "");
  }

  /**
    The lost restart. On a steady store in which only the server ConfigMap is out of place, a
    pass updates it and asks for a restart, but one of the two calls of the annotation fails.
    The stamp stays where it was, and the next calm pass declares success although no set was
    restarted after the change.
  */
  lemma LostRestart(w: World, cfg: Settings, bad: Schedule, good: Schedule, order: set<Key> -> seq<Key>)
    requires Steady(w, cfg) && Prepared(w, cfg, order) && NoneStale(w)
    requires Published(w.cluster.value) == w.cluster.value.status && Asking(w, w.cluster.value)
    requires var n := FirstNote(w.cluster.value); CalmUntil(w, bad, order, n) && !BothWork(bad, n)
    requires CalmPass(After(w, cfg, bad), good, order)
    ensures var u := After(w, cfg, bad);
            var v := After(u, cfg, good);
            && ConfChangedAt(u) == ConfChangedAt(w) && AtRest(v, cfg, order) && v.name == w.name
            && MineSet(v) == MineSet(w) && forall k :: k in MineSet(v) ==> !Followed(v.log, ServerConfKey(w.name), k)
  {
    hide ReconcileSpec, NoteCall, FirstNote, ResourceBuilders, Serviceable, Clean, Defaulted, NeedsDefaults;
    hide PastDeletion, UpToDate, Published, Quiet, Tidy, Asking, CalmUntil;
    hide CalmPass, StaleSets, Complete, ConfReplaced, ConfChangedAt, ServerConfKey, OwnSets, TLSFine, Followed;
    hide FlagsGone, Declares, Flagged, MineSet;
    var u := After(w, cfg, bad);
    AskingPass(w, cfg, bad, order);
    AskingUnfinished(w, w.cluster.value);
    PassOnRecord(w, cfg, bad);
    PassTidy(w, cfg, bad);
    TidyIsTyped(w);
    AskedPass(w, cfg, bad);
    ReplacedIsReady(w, u, cfg, order);
    SuccessStep(u, cfg, good, order);
    var now := FinalPass(u, cfg, good, order);
    var v := After(u, cfg, good);
    PassExtends(u, cfg, good);
    ReplacedSets(w, u, w.cluster.value);
    PassedSets(u, cfg, good);
    forall k | k in MineSet(v) ensures !Followed(v.log, ServerConfKey(w.name), k) {
      MineKind(v, k);
      AskedNotRolled(w, cfg, bad, ServerConfKey(w.name), k);
      PassedRollsNone(u, cfg, good, k);
      NewsCompose(w, u, v);
      NotFollowed(w.log, v.log, ServerConfKey(w.name), k);
    }
  }

  lemma AskingUnfinished(w: World, c: Cluster)
    requires Asking(w, c)
    ensures var bs := ResourceBuilders(c); Unfinished(bs, w, |bs|) == 1
  {
    hide ResourceBuilders, ServerConfBuilder, ServerConfKey, ConfIndex;
    ConfBuilderIs(c);
    OneUnfinished(ResourceBuilders(c), w, ConfIndex(c), |ResourceBuilders(c)|);
  }

  /** A pass that goes through leaves the sets there are. */
  lemma PassedSets(w: World, cfg: Settings, sch: Schedule)
    requires Live(w) && !w.cluster.value.deleting && ReconcileSpec(w, cfg, sch).1.Continue?
    ensures MineSet(After(w, cfg, sch)) == MineSet(w)
  {
    hide ReconcileSpec, Clean, Cli.CliEffect;
    PassedCommands(w, cfg, sch);
    var v := After(w, cfg, sch);
    SetsSurvive(w, v.(cluster := w.cluster), w.cluster.value);
    AnySets(v.(cluster := w.cluster), v);
  }

  lemma MineKind(w: World, k: Key)
    requires k in MineSet(w)
    ensures k.kind == KindStatefulSet
  {
  }
}
