/** A new setting on a store at rest: what it puts out of place, and which calls of the next pass note the change. */
module Reconfiguring {
  import opened Basics
  import opened Objects
  import opened Store
  import opened Names
  import opened Conditions
  import opened Resources
  import opened Stages
  import opened Builders
  import opened Reconcile
  import opened Passes
  import opened Protocol
  import opened Safety
  import opened Restart
  import opened Traces
  import opened Inputs
  import opened Convergence
  import opened Calm
  import opened Progress
  import Finalizer
  import ServerConfig

  // ---------------------------------------------------------------- the change

  /** The cluster after one entry was appended to its additional configuration. */
  function WithSetting(c: Cluster, e: Entry): Cluster
    requires c.spec.additionalConfig.Some?
  {
    c.(spec := c.spec.(additionalConfig := Some(c.spec.additionalConfig.value + [e])), generation := c.generation + 1)
  }

  /** Only the server ConfigMap is out of place, and putting it in place asks for a restart. */
  ghost predicate Asking(w: World, c: Cluster) {
    var bs, key := ResourceBuilders(c), ServerConfKey(c.name);
    && (forall m :: 0 <= m < |bs| && m != ConfIndex(c) ==> InPlace(bs[m], w))
    && key in w.objects && w.objects[key].ConfigMap?
    && var m := ServerConfBuilder(c).update(w.objects[key]); m.Accepted? && m.restart && m.result != w.objects[key]
  }

  lemma SettingAsks(w: World, c: Cluster, e: Entry)
    requires Clean(c) && AllInPlace(w, c) && Tidy(w) && c.name == w.name && c.spec.additionalConfig.Some?
    requires e !in ServerConfig.UserFile(c, c.spec.additionalConfig.value)
    ensures Asking(w, WithSetting(c, e))
  {
    hide Clean, ServerConfBuilder, ResourceBuilders, ServerConfKey, ServerConfig.UserFile, TidyObject, HasUserSecret;
    var d, bs := WithSetting(c, e), ResourceBuilders(c);
    ConfBuilderIs(c);
    ConfBuilderIs(d);
    ConfInPlace(w, c);
    SettingSame(c, e);
    OthersSameBuilders(c, d);
    var es := ResourceBuilders(d);
    forall m | 0 <= m < |es| && m != ConfIndex(d) ensures InPlace(es[m], w) {
      assert SameOther(bs[m], es[m]) && InPlace(bs[m], w);
      if bs[m].role == ServerConfigMap {
        OnlyConf(c, m);
        ConfIsAt(c, m);
      }
    }
    ConfSettingAsks(w.objects[ServerConfKey(c.name)], c, e);
  }

  lemma SettingSame(c: Cluster, e: Entry)
    requires c.spec.additionalConfig.Some?
    ensures Reconfigured(c, WithSetting(c, e)) && HasUserSecret(WithSetting(c, e)) == HasUserSecret(c)
    ensures Clean(WithSetting(c, e)) == Clean(c) && TLSFine(WithSetting(c, e)) == TLSFine(c)
  {
  }

  lemma ConfInPlace(w: World, c: Cluster)
    requires AllInPlace(w, c) && Tidy(w) && c.name == w.name
    ensures var key := ServerConfKey(c.name);
            key in w.objects && w.objects[key].ConfigMap? && Fixed(ServerConfBuilder(c), w.objects[key])
  {
    hide ServerConfBuilder, ResourceBuilders, ServerConfKey, ConfIndex;
    ConfBuilderIs(c);
    ConfKind(c.name);
    assert InPlace(ResourceBuilders(c)[ConfIndex(c)], w);
    assert TidyObject(w.name, ServerConfKey(c.name), w.objects[ServerConfKey(c.name)]);
  }

  lemma ConfSettingAsks(o: Object, c: Cluster, e: Entry)
    requires Fixed(ServerConfBuilder(c), o) && c.spec.additionalConfig.Some?
    requires e !in ServerConfig.UserFile(c, c.spec.additionalConfig.value)
    ensures var m := ServerConfBuilder(WithSetting(c, e)).update(o); m.Accepted? && m.restart && m.result != o
  {
    hide ServerConfig.UpdateServerConfig, ServerConfig.UserFile;
    ServerConfig.NewSettingRestarts(c, WithSetting(c, e), o, e);
  }

  lemma {:induction false} OneUnfinished(bs: seq<Builder>, w: World, j: nat, n: nat)
    requires n <= |bs| && j < |bs| && !InPlace(bs[j], w)
    requires forall m :: 0 <= m < |bs| && m != j ==> InPlace(bs[m], w)
    ensures Unfinished(bs, w, n) == Bit(j < n)
  {
    hide InPlace;
    if n > 0 {
      OneUnfinished(bs, w, j, n - 1);
    }
  }

  /** Exactly one builder has work to do, and nothing stands in the way of any. */
  lemma AskingServiceable(w: World, c: Cluster, e: Entry)
    requires Serviceable(c, w) && AllInPlace(w, c) && Tidy(w) && c.name == w.name
    requires e !in ServerConfig.UserFile(c, c.spec.additionalConfig.value)
    ensures var d := WithSetting(c, e);
            var es := ResourceBuilders(d);
            Asking(w, d) && Serviceable(d, w) && Unfinished(es, w, |es|) == 1
  {
    hide Clean, ServerConfBuilder, ResourceBuilders, ServerConfKey, ServerConfig.UserFile, Tidy, HasUserSecret;
    hide ClaimsReady, AllInPlace;
    var d, bs := WithSetting(c, e), ResourceBuilders(c);
    SettingAsks(w, c, e);
    SettingSame(c, e);
    OthersSameBuilders(c, d);
    ConfBuilderIs(d);
    ConfKind(c.name);
    var es := ResourceBuilders(d);
    OneUnfinished(es, w, ConfIndex(d), |es|);
    forall b | b in es ensures Clear(d, w, b) {
      var m :| 0 <= m < |es| && es[m] == b;
      assert SameOther(bs[m], es[m]) && Clear(c, w, bs[m]);
      if b.role == ServerConfigMap {
        OnlyConf(d, m);
      }
    }
  }

  /** A new setting leaves a store at rest steady, with one object to put in place. */
  lemma SettingReady(v: World, cfg: Settings, order: set<Key> -> seq<Key>, e: Entry)
    requires AtRest(v, cfg, order) && v.cluster.value.spec.additionalConfig.Some?
    requires var c := v.cluster.value; e !in ServerConfig.UserFile(c, c.spec.additionalConfig.value)
    ensures var d := WithSetting(v.cluster.value, e);
            var w, es := v.(cluster := Some(d)), ResourceBuilders(d);
            && Steady(w, cfg) && Prepared(w, cfg, order) && NoneStale(w) && Published(d) == d.status
            && Asking(w, d) && Unfinished(es, w, |es|) == 1
  {
    hide Clean, ResourceBuilders, ServerConfig.UserFile, Tidy, Quiet, OwnSets, Serviceable, AllInPlace, NodeSized;
    hide UpToDate, TLSFine, StaleSets, MineSet, DefaultPullSecrets, FlagsGone, Flagged, Declares;
    var c := v.cluster.value;
    var d := WithSetting(c, e);
    var w := v.(cluster := Some(d));
    FullFacts(c, cfg);
    FullFacts(d, cfg);
    SettingSame(c, e);
    AskingServiceable(v, c, e);
    AnyServiceable(d, v, w);
    AnyUnfinished(ResourceBuilders(d), v, w, |ResourceBuilders(d)|);
    AnyAsking(v, w, d);
    AnySets(v, w);
    AnyUpToDate(v, w, c, d, order);
  }

  lemma AnyAsking(w: World, v: World, c: Cluster)
    requires Asking(w, c) && v.objects == w.objects
    ensures Asking(v, c)
  {
    hide ResourceBuilders, ServerConfBuilder, ServerConfKey, Fixed, ConfIndex;
    var bs := ResourceBuilders(c);
    forall m | 0 <= m < |bs| && m != ConfIndex(c) ensures InPlace(bs[m], v) {
      assert InPlace(bs[m], w);
    }
  }

  // -------------------------------------------------- the pass that takes it up

  /** The calls of reconcileTLS that passes. */
  function TLSCalls(c: Cluster): nat {
    if !c.SecretTLSEnabled() then 0
    else if c.MutualTLSEnabled() && c.spec.caSecret != c.spec.tlsSecret then 2
    else 1
  }

  /** The calls of each of the first seven stages when it passes over a cluster that is not being deleted. */
  function StageCalls(i: nat, c: Cluster): nat {
    match i
    case 3 => 2
    case 4 => TLSCalls(c)
    case 5 => 1
    case _ => 0
  }

  function CallsFrom(i: nat, c: Cluster): nat
    requires i <= 7
    decreases 7 - i
  {
    if i == 7 then 0 else StageCalls(i, c) + CallsFrom(i + 1, c)
  }

  /** No call before call n fails, and the sets are always listed in the usual order. */
  ghost predicate CalmUntil(w: World, sch: Schedule, order: set<Key> -> seq<Key>, n: nat) {
    && (forall at :: 0 <= at < n ==> !sch.fails(at))
    && (forall at :: sch.listing(at) == order(MineSet(w))) && IsListing(w, order(MineSet(w)))
  }

  lemma StagePasses(s: Sys, i: nat, cfg: Settings, sch: Schedule, order: set<Key> -> seq<Key>)
    requires i < 7 && s.world.cluster == Some(s.rmq) && Steady(s.world, cfg) && Prepared(s.world, cfg, order)
    requires CalmUntil(s.world, sch, order, s.calls + StageCalls(i, s.rmq))
    ensures |PIPELINE| == 11
    ensures RunStage(PIPELINE[i], s, cfg, sch) == Step(s.(calls := s.calls + StageCalls(i, s.rmq)), Continue)
  {
    hide RunStage, PIPELINE, NeedsDefaults, SetConditionsSpec, MineSet, ChildResources, Serviceable, Clean, Tidy;
    hide NeedsRebalance, Flagged, Finalizer.FINALIZER, SetConditionSpec, Itoa, OwnSets, Quiet, Defaulted, IsListing;
    match i
    case 0 => DeletionIs(s, cfg, sch);
    case 1 => PausedIs(s, cfg, sch);
    case 2 => DefaultsIs(s, cfg, sch);
    case 3 => ConditionsIs(s, cfg, sch);
    case 4 => TLSIs(s, cfg, sch);
    case 5 => MarkIs(s, cfg, sch); QuietIsNotMarked(s, sch, order);
    case _ => ScaleDownIs(s, cfg, sch);
  }

  lemma QuietIsNotMarked(s: Sys, sch: Schedule, order: set<Key> -> seq<Key>)
    requires Quiet(s.world) && CalmUntil(s.world, sch, order, s.calls + 1)
    ensures MarkSpec(s, sch) == Step(Called(s), Continue)
  {
    hide Flagged, MineSet;
    QuietNeedsNoRebalance(s.world, s.rmq);
  }

  lemma {:induction false} StagesPass(s: Sys, i: nat, cfg: Settings, sch: Schedule, order: set<Key> -> seq<Key>)
    requires i <= 7 && s.world.cluster == Some(s.rmq) && Steady(s.world, cfg) && Prepared(s.world, cfg, order)
    requires CalmUntil(s.world, sch, order, s.calls + CallsFrom(i, s.rmq))
    ensures |PIPELINE| == 11
    ensures var t := s.(calls := s.calls + CallsFrom(i, s.rmq));
            Reached(s, i, 7, cfg, sch) == t && RunFrom(s, i, cfg, sch) == RunFrom(t, 7, cfg, sch)
    decreases 7 - i
  {
    hide RunStage, PIPELINE, Steady, Prepared, RunFrom, TLSCalls, MineSet, IsListing;
    PipelineLength();
    if i < 7 {
      StagePasses(s, i, cfg, sch, order);
      Advance(s, i, cfg, sch);
      StagesPass(s.(calls := s.calls + StageCalls(i, s.rmq)), i + 1, cfg, sch, order);
    }
  }

  /** A builder of another kind than the sets' passes over its object with two calls. */
  lemma PlainPasses(s: Sys, b: Builder, sch: Schedule)
    requires WellBehaved(b) && InPlace(b, s.world) && b.key.kind != KindStatefulSet && BothWork(sch, s.calls)
    ensures BuilderStep(s, b, sch) == Step(s.(calls := s.calls + 2), Continue)
  {
    hide BuilderStep, UpdateAnnotationSpec;
    PlainTurn(s, b, sch);
    assert Fits(b.key.kind, b.build(sch.random(s.calls)));
  }

  lemma {:induction false} LoopComesTo(s: Sys, bs: seq<Builder>, i: nat, j: nat, sch: Schedule)
    requires i <= j <= |bs| && forall at :: 0 <= at < s.calls + 2 * (j - i) ==> !sch.fails(at)
    requires forall m :: i <= m < j ==>
               WellBehaved(bs[m]) && InPlace(bs[m], s.world) && bs[m].key.kind != KindStatefulSet
    ensures var t := s.(calls := s.calls + 2 * (j - i));
            LoopReached(s, bs, i, j, sch) == t && BuilderLoop(s, bs, i, sch) == BuilderLoop(t, bs, j, sch)
    decreases j - i
  {
    hide BuilderStep, WellBehaved, InPlace;
    if i < j {
      PlainPasses(s, bs[i], sch);
      LoopComesTo(s.(calls := s.calls + 2), bs, i + 1, j, sch);
    }
  }

  /** The call with which a calm pass begins to annotate the server ConfigMap. */
  function FirstNote(c: Cluster): nat { 8 + TLSCalls(c) + 2 * ConfIndex(c) }

  lemma BeforeConf(c: Cluster, m: nat)
    requires Clean(c) && m < ConfIndex(c)
    ensures m < |ResourceBuilders(c)|
    ensures var b := ResourceBuilders(c)[m]; WellBehaved(b) && b.key.kind != KindStatefulSet
  {
    AllWellBehaved(c);
    BaseKeysDistinct(c);
    hide WellBehaved, Clean, DistinctKeys, HeadlessBuilder, ClientBuilder, CookieBuilder, UserBuilder, PluginsBuilder;
    hide ServerConfBuilder, AccountBuilder, RoleBuilder, BindingBuilder, NodeBuilder, HasUserSecret;
    var bs, base := ResourceBuilders(c), BaseBuilders(c);
    assert bs[m] == base[m] && bs[m] in bs && base[m] in base;
  }

  /** The stage that runs the builders comes to the server ConfigMap's. */
  lemma ConfTurnComes(s: Sys, sch: Schedule, order: set<Key> -> seq<Key>)
    requires Clean(s.rmq) && Asking(s.world, s.rmq) && Quiet(s.world)
    requires CalmUntil(s.world, sch, order, s.calls + 4 + 2 * ConfIndex(s.rmq))
    ensures var t := s.(calls := s.calls + 1 + 2 * ConfIndex(s.rmq));
            var step := BuilderStep(t, ServerConfBuilder(s.rmq), sch);
            && ConfCall(s, sch) == t.calls + 3
            && (step.outcome.Completed() ==> ReconcileResourcesSpec(s, ResourceBuilders(s.rmq), sch) == step)
  {
    hide ResourceBuilders, ServerConfBuilder, Clean, BuilderStep, WellBehaved, InPlace, Quiet, ServerConfKey, ConfIndex;
    hide MineSet;
    var bs, j := ResourceBuilders(s.rmq), ConfIndex(s.rmq);
    ConfBuilderIs(s.rmq);
    ListingIsMine(s.world, order(MineSet(s.world)));
    forall m | 0 <= m < j ensures WellBehaved(bs[m]) && InPlace(bs[m], s.world) && bs[m].key.kind != KindStatefulSet {
      BeforeConf(s.rmq, m);
    }
    LoopComesTo(Called(s), bs, 0, j, sch);
  }

  /**
    A pass over a steady store that only has the server ConfigMap to put in place, in which no
    call fails before the annotation: it asks for a restart, and the annotation is the two
    calls from FirstNote on.
  */
  lemma AskingPass(w: World, cfg: Settings, sch: Schedule, order: set<Key> -> seq<Key>)
    requires Steady(w, cfg) && Prepared(w, cfg, order) && Asking(w, w.cluster.value)
    requires CalmUntil(w, sch, order, FirstNote(w.cluster.value))
    ensures NoteCall(w, cfg, sch) == FirstNote(w.cluster.value)
    ensures Extends(w, After(w, cfg, sch)) && RestartAsked(ServerConfKey(w.name)) in News(w, After(w, cfg, sch))
  {
    hide RunStage, PIPELINE, RunFrom, Reached, ConfCall, Serviceable, Clean, Tidy, Quiet, OwnSets, TLSCalls, ConfIndex;
    hide Prepared, Asking, MineSet, IsListing, Deferred, BuilderStep, ResourceBuilders, ServerConfBuilder;
    hide ServerConfKey;
    hide ReconcileResourcesSpec, NeedsDefaults;
    var c := w.cluster.value;
    var s := Sys(w, c, 1);
    PipelineLength();
    StagesPass(s, 0, cfg, sch, order);
    var s7 := Sys(w, c, 4 + TLSCalls(c));
    assert CallsFrom(0, c) == 3 + TLSCalls(c) by { CallsAre(c); }
    ConfTurnComes(s7, sch, order);
    var t := Sys(w, c, 5 + TLSCalls(c) + 2 * ConfIndex(c));
    AskingMeans(w, c);
    ConfAsks(t, sch);
    ResourcesIs(s7, cfg, sch);
    Advance(s7, 7, cfg, sch);
    DeferredOnly(c.status, RunFrom(s, 0, cfg, sch).sys, sch);
  }

  lemma CallsAre(c: Cluster)
    ensures CallsFrom(0, c) == 3 + TLSCalls(c)
  {
    hide TLSCalls;
    assert CallsFrom(4, c) == TLSCalls(c) + 1;
    assert CallsFrom(2, c) == CallsFrom(3, c) == 2 + CallsFrom(4, c);
  }

  lemma AskingMeans(w: World, c: Cluster)
    requires Asking(w, c)
    ensures var key := ServerConfKey(c.name);
            && key in w.objects
            && var m := ServerConfBuilder(c).update(w.objects[key]);
              m.Accepted? && m.restart && m.result != w.objects[key]
  {
    hide ResourceBuilders, ServerConfKey;
  }
}
