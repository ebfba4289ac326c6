/**
  Rolling restarts in full passes: one per pass when rollouts finish between them, and again when
  the cluster is marked.
*/
module DoubleRestart {
  import opened Basics
  import opened Objects
  import opened Store
  import opened Conditions
  import opened Resources
  import opened Stages
  import opened Builders
  import opened Reconcile
  import opened Passes
  import opened Protocol
  import opened Safety
  import opened Success
  import opened Restart
  import opened Convergence
  import opened Inputs
  import opened Calm
  import opened Progress
  import opened Traces
  import Metadata
  import Rolling
  import ServerConfig

  // ------------------------------------------------------- one restart per pass

  /** Stamping and then settling a set changes nothing the conditions look at. */
  lemma StampUnseen(w: World, u: World, l: Key, since: string, now: string, k: Key)
    requires Restarted(w, u, l, since, now) && Quiet(w) && k in MineSet(w)
    ensures k in u.objects && SameView(w.objects[k], u.objects[k])
    ensures k in Settle(u).objects && SameView(w.objects[k], Settle(u).objects[k])
  {
    assert Mine(w, k);
  }

  lemma StampKeepsSets(w: World, u: World, l: Key, since: string, now: string)
    requires Restarted(w, u, l, since, now)
    ensures u.objects.Keys == w.objects.Keys && u.name == w.name && u.cluster == w.cluster && u.endpoints == w.endpoints
    ensures forall n :: OwnSets(w, n) ==> OwnSets(u, n)
  {
    hide NodeKeys;
  }

  /** The store after one calm pass that found a stale set, once its rollout has finished. */
  ghost predicate OneLess(w: World, v: World, k: Key) {
    && k in StaleSets(w) && StaleSets(v) == StaleSets(w) - {k} && ConfChangedAt(v) == ConfChangedAt(w)
    && v.cluster == w.cluster && Extends(w, v) && forall j :: Rollouts(News(w, v), j) == Bit(j == k)
  }

  lemma RestartRound(w: World, cfg: Settings, sch: Schedule, order: set<Key> -> seq<Key>) returns (k: Key)
    requires Steady(w, cfg) && CalmPass(w, sch, order) && Prepared(w, cfg, order)
    requires Complete(w, w.cluster.value) && StaleSets(w) != {}
    ensures var v := FullRound(w, cfg, sch);
            OneLess(w, v, k) && Steady(v, cfg) && Prepared(v, cfg, order) && Complete(v, w.cluster.value)
  {
    hide ReconcileSpec, ResourceBuilders, Defaulted, NeedsDefaults, Serviceable, Clean, Tidy, Quiet, PastDeletion;
    hide OwnSets, SameView;
    hide UpToDate, TLSFine, NodeSized, InPlace, NodeKeys, Restarted, CalmPass, MineSet, Rollouts, StaleSet;
    var c, u := w.cluster.value, After(w, cfg, sch);
    var now;
    k, now := RestartPass(w, cfg, sch, order);
    var since := ConfChangedAt(w).value;
    hide ConfChangedAt;
    FullFacts(c, cfg);
    PassTidy(w, cfg, sch);
    StampKeepsSets(w, u, k, since, now);
    StampServiceable(w, u, k, since, now, c);
    StampEndsStaleness(w, u, k, since, now);
    SteadyAfter(w, u, cfg);
    AllFinished(u, c);
    var v := Settle(u);
    AllFinished(v, c);
    SettleTidy(u);
    forall j | j in MineSet(w) ensures j in v.objects && SameView(w.objects[j], v.objects[j]) {
      StampUnseen(w, u, k, since, now, j);
    }
    SeenUpToDate(w, v, c, order);
    RestartedIsStale(w, u, k, since, now);
    forall j ensures Rollouts(News(w, v), j) == Bit(j == k) {
      StampEvents(w, u, k, since, now, j);
    }
  }

  lemma RestartedIsStale(w: World, u: World, k: Key, since: string, now: string)
    requires Restarted(w, u, k, since, now)
    ensures k in StaleSet(w, since)
  {
  }

  /**
    As many calm passes as there are stale sets, with rollouts finishing between them, leave
    none stale, and restart each of the stale sets exactly once and no other set.
  */
  lemma {:induction false} RestartsTake(w: World, cfg: Settings, scheds: seq<Schedule>, order: set<Key> -> seq<Key>)
    requires Steady(w, cfg) && Prepared(w, cfg, order) && Complete(w, w.cluster.value)
    requires CalmRun(w, cfg, scheds, order) && |scheds| == |StaleSets(w)|
    ensures var v := FullRounds(w, cfg, scheds);
            StaleSets(v) == {} && Extends(w, v) && forall k :: Rollouts(News(w, v), k) == Bit(k in StaleSets(w))
    decreases |scheds|
  {
    hide FullRound, Steady, Prepared, Complete, CalmPass, StaleSets, Rollouts;
    if scheds == [] {
      NothingRolled(w);
    } else {
      var k := RestartRound(w, cfg, scheds[0], order);
      var u := FullRound(w, cfg, scheds[0]);
      RestartsTake(u, cfg, scheds[1..], order);
      var v := FullRounds(w, cfg, scheds);
      NewsCompose(w, u, v);
      forall j ensures Rollouts(News(w, v), j) == Bit(j in StaleSets(w)) {
        RolloutsAppend(News(w, u), News(u, v), j);
      }
    }
  }

  lemma NothingRolled(w: World)
    ensures Extends(w, w) && forall k :: Rollouts(News(w, w), k) == 0
  {
    assert News(w, w) == [];
  }

  // ------------------------------------------------------------ the mark is set

  function Marked(c: Cluster, now: string): Cluster {
    c.(annotations := c.annotations[REBALANCE_NEEDED := now])
  }

  /** A calm pass while a set rolls marks the cluster, if that calls for a rebalance and no mark is set. */
  lemma MarkPass(w: World, cfg: Settings, sch: Schedule, order: set<Key> -> seq<Key>) returns (now: string)
    requires w.cluster.Some? && !w.cluster.value.deleting && CalmPass(w, sch, order) && Prepared(w, cfg, order)
    requires Unpaused(w.cluster.value) && TLSFine(w.cluster.value) && Rolling.WouldMark(w, w.cluster.value)
    ensures After(w, cfg, sch) == w.(cluster := Some(Marked(w.cluster.value, now))) && exists at :: now == sch.now(at)
  {
    hide RunStage, PIPELINE, ReconcileSpec, WriteClusterSpec, Deferred, NeedsDefaults, Idle, PastDeletion, UpToDate;
    hide MineSet, TLSFine;
    hide NeedsRebalance, Flagged;
    var rmq := w.cluster.value;
    DeletionIdle(w, rmq, cfg, sch, order);
    PausedIdle(w, rmq, cfg, sch);
    DefaultsIdle(w, rmq, cfg, sch);
    ConditionsIdle(w, rmq, cfg, sch, order);
    TLSIdle(w, rmq, cfg, sch);
    var c := StageDecides(w, 5, cfg, sch);
    MarkIs(Sys(w, rmq, c), cfg, sch);
    now := sch.now(c + 1);
    ClusterWritten(w, Marked(rmq, now), c + 1, sch);
    var k :| k in w.objects && Mine(w, k) && NeedsRebalance(w.objects[k], rmq);
    assert k in sch.listing(c);
  }

  /** A set that was just stamped is rolling. */
  lemma StampRolls(w: World, u: World, k: Key, since: string, now: string, rmq: Cluster)
    requires Restarted(w, u, k, since, now) && StringLess(since, now)
    requires !rmq.spec.skipPostDeploySteps && rmq.spec.replicas > 1
    ensures Rebalancing(u, rmq)
  {
    var o := w.objects[k];
    assert Restart.Stamp(o, now).spec.template.annotations == o.spec.template.annotations[LAST_RESTART := now];
    assert o.spec.template != Restart.Stamp(o, now).spec.template;
    assert Mine(u, k) && NeedsRebalance(u.objects[k], rmq);
  }

  lemma MarkedServiceable(w: World, c: Cluster, d: Cluster)
    requires Serviceable(c, w) && SameSpec(c, d) && Clean(d)
    ensures Serviceable(d, w)
  {
    AllAccepting(c, d);
    hide ResourceBuilders, Clean, ClaimsReady;
    var x, y := ResourceBuilders(c), ResourceBuilders(d);
    forall b | b in y ensures Clear(d, w, b) {
      var m :| 0 <= m < |y| && y[m] == b;
      assert Accepting(x[m], y[m]) && Clear(c, w, x[m]);
    }
  }

  lemma MarkedSame(c: Cluster, now: string)
    ensures SameSpec(c, Marked(c, now)) && (Clean(c) ==> Clean(Marked(c, now)))
  {
    assert |NO_SPREAD| != |REBALANCE_NEEDED|;
    MarkKeepsIdentity(c, now);
  }

  /** The marked store, once rollouts have finished, is steady. */
  lemma MarkedSteady(w: World, u: World, k: Key, since: string, at: string, cfg: Settings, now: string)
    requires Steady(w, cfg) && !NeedsDefaults(w.cluster.value.spec, cfg) && AllInPlace(w, w.cluster.value)
    requires Restarted(w, u, k, since, at) && Tidy(u)
    ensures var v := Settle(u.(cluster := Some(Marked(w.cluster.value, now))));
              Steady(v, cfg) && v.name == w.name && v.log == u.log
    ensures ConfChangedAt(Settle(u.(cluster := Some(Marked(w.cluster.value, now))))) == ConfChangedAt(u)
  {
    hide ResourceBuilders, Defaulted, NeedsDefaults, Serviceable, Clean, TidyObject, Quiet, OwnSets, TLSFine;
    hide AllInPlace, Restarted, ConfChangedAt;
    hide Tidy, SameSpec;
    var c := w.cluster.value;
    var d := Marked(c, now);
    var v := u.(cluster := Some(d));
    FullFacts(c, cfg);
    FullFacts(d, cfg);
    StampKeepsSets(w, u, k, since, at);
    StampServiceable(w, u, k, since, at, c);
    MarkedSame(c, now);
    MarkedServiceable(u, c, d);
    AnyServiceable(d, u, v);
    SettleServiceable(d, v);
    AnySets(u, v);
    SettleIsQuiet(v);
    SettleTidy(v);
    AnyConf(u, v);
    TLSReads(c, d);
  }

  lemma TLSReads(c: Cluster, d: Cluster)
    requires d.spec == c.spec
    ensures TLSFine(d) == TLSFine(c)
  {
  }

  lemma AnyConf(u: World, v: World)
    requires v.objects == u.objects && v.name == u.name
    ensures ConfChangedAt(v) == ConfChangedAt(u)
  {
  }

  // ------------------------------------------------------- the mark is copied

  /** The cluster is marked, and the server ConfigMap does not carry that mark. */
  ghost predicate MarkAhead(w: World) {
    && w.cluster.Some? && Flagged(w.cluster.value.annotations, REBALANCE_NEEDED)
    && Lacks(w, w.cluster.value.annotations)
  }

  ghost predicate Lacks(w: World, annotations: StrMap) {
    var conf := ServerConfKey(w.name);
    && REBALANCE_NEEDED in annotations && conf in w.objects && w.objects[conf].ConfigMap?
    && (REBALANCE_NEEDED in w.objects[conf].meta.annotations ==>
          w.objects[conf].meta.annotations[REBALANCE_NEEDED] != annotations[REBALANCE_NEEDED])
  }

  /** The configuration counts as changed no earlier than this time. */
  ghost predicate ChangedSince(w: World, t: string) {
    ConfChangedAt(w).Some? && !StringLess(ConfChangedAt(w).value, t)
  }

  ghost predicate NotBefore(sch: Schedule, t: string) { forall at :: !StringLess(sch.now(at), t) }

  /** Copying the mark asks for a restart, and a calm pass notes it. */
  lemma CopiedMark(s: Sys, sch: Schedule)
    requires NoFaults(sch) && Clean(s.rmq) && s.rmq.name == s.world.name && Lacks(s.world, s.rmq.annotations)
    requires ServerConfBuilder(s.rmq).update(s.world.objects[ServerConfKey(s.world.name)]).Accepted?
    ensures exists at :: ConfChangedAt(BuilderStep(s, ServerConfBuilder(s.rmq), sch).sys.world) == Some(sch.now(at))
  {
    hide BuilderStep, ServerConfig.UpdateServerConfig, Clean, ConfChangedAt;
    var b, w, conf := ServerConfBuilder(s.rmq), s.world, ServerConfKey(s.world.name);
    var o := w.objects[conf];
    ConfBuilderIs(s.rmq);
    ServerConfig.RebalanceMarkRestarts(s.rmq, o);
    RestartChanges(s.rmq, o);
    ConfTurn(s, sch);
    ConfAsks(s, sch);
  }

  lemma RestartChanges(rmq: Cluster, o: Object)
    ensures var m := ServerConfig.UpdateServerConfig(rmq, o); m.Accepted? && m.restart ==> m.result != o
  {
    hide ServerConfig.UpdatedFiles, ServerConfig.Erased, Metadata.Renewed;
  }

  lemma AheadElsewhere(x: World, d: Cluster)
    requires MarkAhead(x) && d.annotations == x.cluster.value.annotations
    ensures MarkAhead(Settle(x.(cluster := Some(d))))
  {
    hide Flagged, ServerConfKey;
  }

  lemma AheadNotInPlace(x: World)
    requires MarkAhead(x) && x.cluster.value.name == x.name && Clean(x.cluster.value)
    ensures var bs := ResourceBuilders(x.cluster.value); Unfinished(bs, x, |bs|) > 0
  {
    hide ResourceBuilders, ServerConfig.UpdateServerConfig, Clean, Flagged, ServerConfKey;
    var c := x.cluster.value;
    var b, bs, o := ServerConfBuilder(c), ResourceBuilders(c), x.objects[ServerConfKey(x.name)];
    ConfBuilderIs(c);
    if b.update(o).Accepted? {
      ServerConfig.RebalanceMarkRestarts(c, o);
      RestartChanges(c, o);
    }
    assert !InPlace(b, x);
    var m :| 0 <= m < |bs| && bs[m] == b;
    UnfinishedBound(bs, x, |bs|);
  }

  /** The builders' turn while the mark is still to be copied. */
  lemma AheadBuilt(x: World, c: nat, j: nat, sch: Schedule, t: string)
    requires Live(x) && MarkAhead(x) && NoFaults(sch) && NotBefore(sch, t) && Serviceable(x.cluster.value, x)
    requires j < |ResourceBuilders(x.cluster.value)|
    ensures var v := BuilderStep(Sys(x, x.cluster.value, c), ResourceBuilders(x.cluster.value)[j], sch).sys.world;
            MarkAhead(v) || ChangedSince(v, t)
  {
    hide ResourceBuilders, Clean, Flagged, BuilderStep, ServerConfKey, WellBehaved, InPlace, ClaimsReady, OwnWrite;
    hide BuilderEvents, ClaimsBy;
    hide StatusAfter, ConfChangedAt, ServerConfBuilder;
    var rmq := x.cluster.value;
    var s, b, conf := Sys(x, rmq, c), ResourceBuilders(rmq)[j], ServerConfKey(x.name);
    assert b in ResourceBuilders(rmq);
    ConfBuilderIs(rmq);
    AllWellBehaved(rmq);
    var v := BuilderStep(s, b, sch).sys.world;
    if b.key == conf {
      assert Clear(rmq, x, b);
      CopiedMark(s, sch);
      var at :| ConfChangedAt(v) == Some(sch.now(at));
    } else {
      BuilderStepEffect(s, b, sch);
      assert conf in v.objects - {b.key}
        && v.objects[conf] == (v.objects - {b.key})[conf] == (x.objects - {b.key})[conf];
    }
  }

  lemma SettleKeepsPhase(v: World, t: string)
    requires Tidy(v) && (MarkAhead(v) || ChangedSince(v, t))
    ensures MarkAhead(Settle(v)) || ChangedSince(Settle(v), t)
  {
    SettleTidy(v);
    hide Tidy, ServerConfKey, ConfChangedAt, Flagged;
  }

  /** A calm pass keeps the mark ahead of the ConfigMap, or copies it and notes the change. */
  lemma AheadStep(x: World, cfg: Settings, sch: Schedule, order: set<Key> -> seq<Key>, t: string)
    requires Steady(x, cfg) && CalmPass(x, sch, order) && MarkAhead(x) && NotBefore(sch, t)
    ensures var y := FullRound(x, cfg, sch); MarkAhead(y) || ChangedSince(y, t)
  {
    hide ReconcileSpec, ResourceBuilders, Defaulted, NeedsDefaults, Serviceable, Clean, Tidy, Quiet, PastDeletion;
    hide OwnSets, UpToDate, TLSFine;
    hide MarkAhead, ChangedSince, Settle, SetConditionsSpec, ChildResources, MineSet, CalmPass, BuilderStep;
    var c, v := x.cluster.value, After(x, cfg, sch);
    FullFacts(c, cfg);
    CalmIsFaultless(x, sch, order);
    if !PastDeletion(c) {
      FinalizerPass(x, cfg, sch);
      AheadElsewhere(x, v.cluster.value);
    } else if NeedsDefaults(c.spec, cfg) {
      DefaultsPass(x, cfg, sch, order);
      AheadElsewhere(x, v.cluster.value);
    } else if !UpToDate(x, c, order) {
      FewSets(x, c.spec.replicas);
      var now := ConditionsPass(x, cfg, sch, order);
      AheadElsewhere(x, v.cluster.value);
    } else {
      AheadNotInPlace(x);
      var j, n := BuildersPassAt(x, cfg, sch, order);
      AheadBuilt(x, n, j, sch, t);
      PassTidy(x, cfg, sch);
      SettleKeepsPhase(v, t);
    }
  }

  /** Once noted, the change is only ever noted again later. */
  lemma ChangedStep(x: World, cfg: Settings, sch: Schedule, t: string)
    requires Live(x) && Tidy(x) && Quiet(x) && ChangedSince(x, t) && NotBefore(sch, t)
    ensures ChangedSince(FullRound(x, cfg, sch), t)
  {
    hide ReconcileSpec, NoteCall, Clean, Tidy, Quiet, ConfChangedAt, ServerConfKey, Settle;
    PassOnRecord(x, cfg, sch);
    PassTidy(x, cfg, sch);
    SettleTidy(After(x, cfg, sch));
  }

  /** The set carries this stamp or none. */
  ghost predicate NotAgain(w: World, k: Key, t: string) {
    LastRestart(w, k) == None || LastRestart(w, k) == Some(t)
  }

  /** What every calm round keeps, and how it shows that a set was restarted. */
  ghost predicate Onward(x: World, y: World, k: Key, t: string) {
    && Extends(x, y) && y.name == x.name && x.cluster.Some? && y.cluster.Some?
    && y.cluster.value.spec.replicas == x.cluster.value.spec.replicas
    && (NotAgain(x, k, t) ==> NotAgain(y, k, t) || TemplateWritten(k) in News(x, y))
  }

  lemma RoundOnward(x: World, cfg: Settings, sch: Schedule, k: Key, t: string)
    requires Live(x) && Tidy(x) && Quiet(x) && !x.cluster.value.deleting && k.kind == KindStatefulSet
    ensures Onward(x, FullRound(x, cfg, sch), k, t)
  {
    hide ReconcileSpec, Clean, Tidy, Quiet, LastRestart, StatusEnd, MarkEnd, Flagged, AllInPlace;
    var v := After(x, cfg, sch);
    PassStamp(x, cfg, sch, k);
    PassExtends(x, cfg, sch);
    ClusterAfter(x, cfg, sch);
    SettledStamp(v, k);
    assert News(x, Settle(v)) == News(x, v);
  }

  lemma SettledStamp(v: World, k: Key)
    ensures LastRestart(Settle(v), k) == LastRestart(v, k)
  {
  }

  lemma OnwardTrans(x: World, y: World, z: World, k: Key, t: string)
    requires Onward(x, y, k, t) && Onward(y, z, k, t)
    ensures Onward(x, z, k, t)
  {
    hide NotAgain;
    NewsCompose(x, y, z);
  }

  lemma {:induction false} MarkedRun(x: World, cfg: Settings, scheds: seq<Schedule>, order: set<Key> -> seq<Key>,
      k: Key, t: string)
    requires Steady(x, cfg) && CalmRun(x, cfg, scheds, order) && (MarkAhead(x) || ChangedSince(x, t))
    requires k.kind == KindStatefulSet && forall sch :: sch in scheds ==> NotBefore(sch, t)
    ensures var y := FullRounds(x, cfg, scheds); (MarkAhead(y) || ChangedSince(y, t)) && Onward(x, y, k, t)
    decreases |scheds|
  {
    hide FullRound, MarkAhead, ChangedSince, Onward, CalmPass, Rank, AtRest, NotBefore, Serviceable, Clean, Tidy, Quiet;
    hide OwnSets, TLSFine;
    if scheds == [] {
      OnwardRefl(x, k, t);
    } else {
      var sch := scheds[0];
      if MarkAhead(x) {
        AheadStep(x, cfg, sch, order, t);
      } else {
        ChangedStep(x, cfg, sch, t);
      }
      Advances(x, cfg, sch, order);
      RoundOnward(x, cfg, sch, k, t);
      MarkedRun(FullRound(x, cfg, sch), cfg, scheds[1..], order, k, t);
      OnwardTrans(x, FullRound(x, cfg, sch), FullRounds(x, cfg, scheds), k, t);
    }
  }

  lemma OnwardRefl(x: World, k: Key, t: string)
    requires x.cluster.Some?
    ensures Onward(x, x, k, t)
  {
  }

  // --------------------------------------------------------------- the theorem

  /** The server ConfigMap does not carry a mark of this pass's time already. */
  ghost predicate NewMark(w: World, sch: Schedule) {
    var conf := ServerConfKey(w.name);
    conf in w.objects ==> forall at :: Lookup(w.objects[conf].meta.annotations, REBALANCE_NEEDED) != sch.now(at)
  }

  /** No reading of the later pass is before any of the earlier. */
  ghost predicate Later(sch: Schedule, earlier: Schedule) {
    forall at, before :: !StringLess(sch.now(at), earlier.now(before))
  }

  lemma ConfThere(w: World, c: Cluster)
    requires AllInPlace(w, c) && Tidy(w) && c.name == w.name
    ensures var conf := ServerConfKey(w.name); conf in w.objects && w.objects[conf].ConfigMap?
  {
    hide ResourceBuilders, ServerConfBuilder, ServerConfKey;
    var bs := ResourceBuilders(c);
    ConfBuilderIs(c);
    var m :| 0 <= m < |bs| && bs[m] == ServerConfBuilder(c);
    assert InPlace(bs[m], w);
    assert TidyObject(w.name, ServerConfKey(w.name), w.objects[ServerConfKey(w.name)]);
    assert ServerConfKey(w.name).kind == KindConfigMap by { ConfKind(w.name); }
  }

  /** The first restart, and the mark a pass sets while it rolls. */
  lemma StampAndMark(w: World, cfg: Settings, first: Schedule, second: Schedule, order: set<Key> -> seq<Key>)
    returns (k: Key, t: string, now: string)
    requires Steady(w, cfg) && Prepared(w, cfg, order) && Complete(w, w.cluster.value) && StaleSets(w) != {}
    requires var c := w.cluster.value;
             !Flagged(c.annotations, REBALANCE_NEEDED) && !c.spec.skipPostDeploySteps && c.spec.replicas > 1
    requires CalmPass(w, first, order) && CalmPass(After(w, cfg, first), second, order)
    ensures var u := After(w, cfg, first);
            && ConfChangedAt(w).Some? && Restarted(w, u, k, ConfChangedAt(w).value, t)
            && StringLess(ConfChangedAt(w).value, t)
            && After(u, cfg, second) == u.(cluster := Some(Marked(w.cluster.value, now))) && Tidy(u)
            && (exists at :: t == first.now(at)) && (exists at :: now == second.now(at))
  {
    hide ReconcileSpec, ResourceBuilders, Serviceable, Clean, Tidy, Quiet, OwnSets, TLSFine, NeedsDefaults;
    hide PastDeletion, UpToDate, MineSet;
    hide Flagged, SameView, Complete, Restarted, CalmPass, ConfChangedAt, StaleSet, Rebalancing;
    var c, u := w.cluster.value, After(w, cfg, first);
    k, t := RestartPass(w, cfg, first, order);
    var since := ConfChangedAt(w).value;
    PassTidy(w, cfg, first);
    StampKeepsSets(w, u, k, since, t);
    StampEndsStaleness(w, u, k, since, t);
    forall j | j in MineSet(w) ensures j in u.objects && SameView(w.objects[j], u.objects[j]) {
      StampUnseen(w, u, k, since, t, j);
    }
    SeenUpToDate(w, u, c, order);
    StampRolls(w, u, k, since, t, c);
    now := MarkPass(u, cfg, second, order);
  }

  lemma MarkIsAhead(w: World, u: World, k: Key, since: string, t: string, c: Cluster, now: string, second: Schedule)
    requires AllInPlace(w, c) && Tidy(w) && c.name == w.name && Restarted(w, u, k, since, t)
    requires NewMark(w, second) && exists at :: now == second.now(at)
    ensures var v := Settle(u.(cluster := Some(Marked(c, now)))); MarkAhead(v) && LastRestart(v, k) == Some(t)
  {
    hide AllInPlace, Tidy, ServerConfKey;
    ConfThere(w, c);
    var conf := ServerConfKey(w.name);
    assert k != conf && u.objects[conf] == w.objects[conf];
    var at :| now == second.now(at);
    assert Lookup(w.objects[conf].meta.annotations, REBALANCE_NEEDED) != now;
  }

  /** After the second round of restarts the set carries a later stamp. */
  lemma RestartedAgain(x: World, y: World, cfg: Settings, order: set<Key> -> seq<Key>, k: Key, t: string)
    requires AtRest(y, cfg, order) && (MarkAhead(y) || ChangedSince(y, t)) && Onward(x, y, k, t)
    requires LastRestart(x, k) == Some(t)
    requires k in MineSet(y)
    ensures TemplateWritten(k) in News(x, y)
  {
    hide Steady, Prepared, Complete, Published, FlagsGone, Flagged, Declares, ConfChangedAt;
    var since := ConfChangedAt(y).value;
    assert k !in StaleSet(y, since);
    assert LastRestart(y, k).Some? && StringLess(since, LastRestart(y, k).value);
  }

  /**
    A stale set, calm passes, and the second of them before the first one's rollout is over, on a
    cluster with several nodes that is neither marked nor told to skip the steps after a
    deployment; then enough calm passes for the operator to declare success.
  */
  ghost predicate Hasty(
    w: World, cfg: Settings, first: Schedule, second: Schedule, scheds: seq<Schedule>, order: set<Key> -> seq<Key>)
  {
    && Steady(w, cfg) && Prepared(w, cfg, order) && Complete(w, w.cluster.value) && StaleSets(w) != {}
    && var c := w.cluster.value;
       && !Flagged(c.annotations, REBALANCE_NEEDED) && !c.spec.skipPostDeploySteps && c.spec.replicas > 1
       && CalmPass(w, first, order) && CalmPass(After(w, cfg, first), second, order) && NewMark(w, second)
       && CalmRun(FullRound(After(w, cfg, first), cfg, second), cfg, scheds, order)
       && |scheds| >= 23 + 4 * c.spec.replicas && forall sch :: sch in scheds ==> Later(sch, first)
  }

  /**
    The double restart. A configuration change made a set stale; a pass restarts it, and the
    next pass runs before the rollout is over, on a cluster with several nodes that is neither
    marked nor told to skip the steps after a deployment. That pass marks the cluster, the mark
    is copied to the server ConfigMap, which asks for a restart of its own, and by the time
    the operator declares success the set has been restarted at least twice.
  */
  lemma RestartedTwice(
    w: World, cfg: Settings, first: Schedule, second: Schedule, scheds: seq<Schedule>, order: set<Key> -> seq<Key>)
    returns (k: Key)
    requires Hasty(w, cfg, first, second, scheds, order)
    ensures var y := FullRounds(FullRound(After(w, cfg, first), cfg, second), cfg, scheds);
            k in StaleSets(w) && Extends(w, y) && Rollouts(News(w, y), k) >= 2 && AtRest(y, cfg, order)
  {
    hide ReconcileSpec, ResourceBuilders, Serviceable, Clean, Quiet, TLSFine, NeedsDefaults, PastDeletion, UpToDate;
    hide MineSet, StaleSet;
    hide Flagged, InPlace, NodeSized, Restarted, CalmPass, ConfChangedAt, CalmRun, FullRounds, MarkAhead, ChangedSince;
    hide NewMark, Rollouts;
    hide Tidy, OwnSets, NodeKeys, LastRestart, AllInPlace, Rank, Published, FlagsGone, Declares, NoneStale, Settle;
    hide Onward;
    var c, u := w.cluster.value, After(w, cfg, first);
    var t, now;
    k, t, now := StampAndMark(w, cfg, first, second, order);
    var since := ConfChangedAt(w).value;
    var x := Settle(u.(cluster := Some(Marked(c, now))));
    MarkedSteady(w, u, k, since, t, cfg, now);
    MarkIsAhead(w, u, k, since, t, c, now, second);
    SettledCluster(u.(cluster := Some(Marked(c, now))));
    ReachesSuccess(x, cfg, scheds, order);
    var y := FullRounds(x, cfg, scheds);
    forall sch | sch in scheds ensures NotBefore(sch, t) {
      assert Later(sch, first);
    }
    RestartedIsStale(w, u, k, since, t);
    StaleIsMine(w, k, since);
    MarkedRun(x, cfg, scheds, order, k, t);
    StillMine(w, x, y, k, t);
    RestartedAgain(x, y, cfg, order, k, t);
    StampEvents(w, u, k, since, t, k);
    CountTwo(w, u, x, y, k, t);
  }

  lemma SettledCluster(v: World)
    ensures Settle(v).cluster == v.cluster
  {
  }

  lemma StaleIsMine(w: World, k: Key, since: string)
    requires k in StaleSet(w, since)
    ensures k in w.objects && k.kind == KindStatefulSet
  {
  }

  lemma StillMine(w: World, x: World, y: World, k: Key, t: string)
    requires w.cluster.Some? && OwnSets(w, w.cluster.value.spec.replicas) && k in w.objects && k.kind == KindStatefulSet
    requires x.cluster.Some? && x.cluster.value.spec.replicas == w.cluster.value.spec.replicas && x.name == w.name
    requires Onward(x, y, k, t) && y.cluster.value.name == y.name && Reconciled(y, y.cluster.value)
    ensures k in MineSet(y)
  {
    hide AllInPlace, NoneStale, FlagsGone, Quiet, MineSet, NodeKeys, NotAgain;
  }

  lemma CountTwo(w: World, u: World, x: World, y: World, k: Key, t: string)
    requires Extends(w, u) && x.log == u.log && Onward(x, y, k, t)
    requires Rollouts(News(w, u), k) == 1 && TemplateWritten(k) in News(x, y)
    ensures Extends(w, y) && Rollouts(News(w, y), k) >= 2
  {
    hide Rollouts, NotAgain;
    assert News(w, y) == News(w, u) + News(x, y);
    RolloutsAppend(News(w, u), News(x, y), k);
    SomeRollout(News(x, y), k);
  }
}
