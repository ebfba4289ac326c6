/** With calm full passes and rollouts that finish, a bounded number of passes ends in success. */
module Progress {
  import opened Basics
  import opened Objects
  import opened Store
  import opened Names
  import opened Conditions
  import opened Resources
  import opened Stages
  import opened Builders
  import opened Reconcile
  import opened Passes
  import opened Protocol
  import opened Safety
  import opened Success
  import opened Convergence
  import opened Inputs
  import opened Calm
  import Cli
  import Finalizer
  import Restart

  // -------------------------------------------------------------- steady stores

  /** The cluster with the operator's defaults filled in. */
  function Full(c: Cluster, cfg: Settings): Cluster { c.(spec := Defaulted(c.spec, cfg)) }

  /** The operator supplies a default image and does not insist on it. */
  predicate Supplies(cfg: Settings) { !cfg.controlImage && cfg.defaultImage != "" }

  /** Only nodes of the cluster have sets. */
  ghost predicate OwnSets(w: World, replicas: nat) {
    forall k :: k in w.objects && k.kind == KindStatefulSet ==> k in NodeKeys(w.name, replicas)
  }

  /**
    Nothing the user or the store holds stands in the way of reconciling this cluster, and all
    sets are settled. A cluster that is being deleted has no sets left.
  */
  ghost predicate Fit(w: World, cfg: Settings) {
    && Live(w) && Tidy(w) && Quiet(w) && Supplies(cfg)
    && var c := w.cluster.value;
       && (c.deleting ==> MineSet(w) == {}) && Unpaused(c) && TLSFine(c) && c.status.replicas <= c.spec.replicas
       && OwnSets(w, c.spec.replicas) && Serviceable(Full(c, cfg), w)
  }

  /** The cluster is not being deleted either. */
  ghost predicate Steady(w: World, cfg: Settings) { Fit(w, cfg) && !w.cluster.value.deleting }

  lemma FullFacts(c: Cluster, cfg: Settings)
    ensures var d := Full(c, cfg);
            && d.spec.replicas == c.spec.replicas && d.spec.storage == c.spec.storage
            && Clean(d) == Clean(c) && TLSFine(d) == TLSFine(c)
            && (!NeedsDefaults(c.spec, cfg) ==> d == c)
            && (Supplies(cfg) ==> !NeedsDefaults(d.spec, cfg))
  {
    DefaultsFill(c.spec, cfg);
    DefaultsKeep(c.spec, cfg);
    CleanReads(c, Full(c, cfg));
    hide Defaulted, NeedsDefaults, Clean;
  }

  lemma DefaultsFill(spec: Spec, cfg: Settings)
    ensures !NeedsDefaults(spec, cfg) ==> Defaulted(spec, cfg) == spec
    ensures Supplies(cfg) ==> !NeedsDefaults(Defaulted(spec, cfg), cfg)
  {
    hide DefaultPullSecrets;
  }

  /** The vault with another updater image. */
  predicate SameVaultBut(a: Option<Vault>, b: Option<Vault>) {
    a.Some? == b.Some? && (a.Some? ==> b.value == a.value.(updaterImage := b.value.updaterImage))
  }

  lemma DefaultsKeep(spec: Spec, cfg: Settings)
    ensures var d := Defaulted(spec, cfg);
            && d == spec.(image := d.image, vault := d.vault, pullSecrets := d.pullSecrets)
            && SameVaultBut(spec.vault, d.vault)
  {
    hide DefaultPullSecrets;
  }

  lemma CleanReads(c: Cluster, d: Cluster)
    requires d.annotations == c.annotations && d.spec.serviceAnnotations == c.spec.serviceAnnotations
    requires SameVaultBut(c.spec.vault, d.spec.vault)
    ensures Clean(d) == Clean(c)
  {
  }

  lemma SettleQuiet(w: World)
    requires Tidy(w) && Quiet(w)
    ensures Settle(w) == w
  {
    forall k | k in w.objects ensures SettledObject(w.objects[k]) == w.objects[k] {
      assert TidyObject(w.name, k, w.objects[k]);
      if w.objects[k].StatefulSet? {
        assert Mine(w, k);
      }
    }
    assert Settle(w).objects == w.objects;
  }

  // ----------------------------------------------------------------- the rank

  /** Objects still to be put in place, and sets that may have to restart afterwards. */
  ghost function Tasks(w: World, cfg: Settings): nat
    requires w.cluster.Some?
  {
    var bs := ResourceBuilders(Full(w.cluster.value, cfg));
    var n := Unfinished(bs, w, |bs|);
    if n > 0 then n + w.cluster.value.spec.replicas else |Restart.StaleSets(w)|
  }

  /** How many calm passes may still be needed before one goes through. */
  ghost function Rank(w: World, cfg: Settings, order: set<Key> -> seq<Key>): nat
    requires w.cluster.Some?
  {
    var c := w.cluster.value;
    Bit(!PastDeletion(c)) + Bit(NeedsDefaults(c.spec, cfg)) + Bit(!UpToDate(w, c, order))
      + Bit(Published(c) != c.status)
    + 2 * Tasks(w, cfg)
  }

  lemma {:induction false} SameUnfinished(x: seq<Builder>, y: seq<Builder>, w: World, n: nat)
    requires n <= |x| == |y| && forall m :: 0 <= m < |x| ==> SameBuilder(x[m], y[m])
    ensures Unfinished(x, w, n) == Unfinished(y, w, n)
  {
    if n > 0 {
      SameUnfinished(x, y, w, n - 1);
      assert SameBuilder(x[n - 1], y[n - 1]);
    }
  }

  /** Clusters with the same inputs have the same work to do. */
  lemma SameWork(a: Cluster, b: Cluster, w: World)
    requires SameInputs(a, b)
    ensures var x, y := ResourceBuilders(a), ResourceBuilders(b);
            |x| == |y| && Unfinished(x, w, |x|) == Unfinished(y, w, |y|)
    ensures Serviceable(a, w) ==> Serviceable(b, w)
  {
    SameBuilders(a, b);
    hide ResourceBuilders, SameInputs;
    var x, y := ResourceBuilders(a), ResourceBuilders(b);
    SameUnfinished(x, y, w, |x|);
    if Serviceable(a, w) {
      SameServiceable(a, b, w);
    }
  }

  lemma SameServiceable(a: Cluster, b: Cluster, w: World)
    requires SameInputs(a, b) && Serviceable(a, w)
    requires var x, y := ResourceBuilders(a), ResourceBuilders(b);
             |x| == |y| && forall m :: 0 <= m < |x| ==> SameBuilder(x[m], y[m])
    ensures Serviceable(b, w)
  {
    hide ResourceBuilders, ClaimsReady;
    var x, y := ResourceBuilders(a), ResourceBuilders(b);
    forall t | t in y ensures Clear(b, w, t) {
      var m :| 0 <= m < |y| && y[m] == t;
      assert SameBuilder(x[m], y[m]);
      assert Clear(a, w, x[m]);
    }
  }

  /** A cluster that asks for the same keeps the store steady, with the same tasks. */
  lemma SteadyWith(w: World, d: Cluster, cfg: Settings)
    requires Steady(w, cfg) && SameInputs(Full(w.cluster.value, cfg), Full(d, cfg))
    requires !d.deleting && d.status.replicas <= d.spec.replicas
    ensures var v := w.(cluster := Some(d)); Steady(v, cfg) && Tasks(v, cfg) == Tasks(w, cfg) && Settle(v) == v
  {
    hide ResourceBuilders, Defaulted, Serviceable, Clean, TidyObject, NodeKeys, TLSFine, Settle;
    var c, v := w.cluster.value, w.(cluster := Some(d));
    FullFacts(c, cfg);
    FullFacts(d, cfg);
    SameWork(Full(c, cfg), Full(d, cfg), w);
    SameInputsClean(Full(c, cfg), Full(d, cfg));
    AnyServiceable(Full(d, cfg), w, v);
    AnyUnfinished(ResourceBuilders(Full(d, cfg)), w, v, |ResourceBuilders(Full(d, cfg))|);
    AnySets(w, v);
    SettleQuiet(v);
  }

  lemma SameInputsClean(a: Cluster, b: Cluster)
    requires SameInputs(a, b)
    ensures Clean(a) == Clean(b) && TLSFine(a) == TLSFine(b) && a.spec == b.spec && a.labels == b.labels
    ensures a.name == b.name
  {
  }

  lemma AnySets(w: World, v: World)
    requires v.objects == w.objects && v.name == w.name
    ensures (Quiet(w) ==> Quiet(v)) && Restart.StaleSets(v) == Restart.StaleSets(w) && MineSet(v) == MineSet(w)
    ensures (Tidy(w) ==> Tidy(v))
    ensures forall n :: OwnSets(w, n) ==> OwnSets(v, n)
  {
    hide TidyObject, NodeKeys;
    assert forall k :: Mine(v, k) <==> Mine(w, k);
    assert forall since :: Restart.StaleSet(v, since) == Restart.StaleSet(w, since);
  }

  lemma AnyServiceable(rmq: Cluster, w: World, v: World)
    requires v.objects == w.objects && Serviceable(rmq, w)
    ensures Serviceable(rmq, v)
  {
    hide ResourceBuilders, Clean, ClaimsReady;
    forall b | b in ResourceBuilders(rmq) ensures Clear(rmq, v, b) {
      assert Clear(rmq, w, b);
    }
  }

  lemma {:induction false} AnyUnfinished(bs: seq<Builder>, w: World, v: World, n: nat)
    requires v.objects == w.objects && n <= |bs|
    ensures Unfinished(bs, v, n) == Unfinished(bs, w, n)
  {
    if n > 0 {
      AnyUnfinished(bs, w, v, n - 1);
    }
  }

  lemma AnyUpToDate(w: World, v: World, c: Cluster, d: Cluster, order: set<Key> -> seq<Key>)
    requires v.objects == w.objects && v.name == w.name && v.endpoints == w.endpoints
    requires d.spec.replicas == c.spec.replicas && d.status.conditions == c.status.conditions
    ensures UpToDate(v, d, order) <==> UpToDate(w, c, order)
  {
    hide SetConditionsSpec;
    AnySets(w, v);
    var keys := order(MineSet(w));
    assert AllMine(v, keys) <==> AllMine(w, keys);
    if AllMine(w, keys) {
      assert ChildResources(v, keys, d.spec.replicas) == ChildResources(w, keys, c.spec.replicas);
    }
  }

  // ------------------------------------------------- passes that write the cluster

  lemma ClusterWritten(w: World, x: Cluster, c: nat, sch: Schedule)
    requires NoFaults(sch) && w.cluster.Some? && !w.cluster.value.deleting
    ensures var t := WriteClusterSpec(Sys(w, x, c), sch);
            && t.outcome.Done?
            && Deferred(w.cluster.value.status, t.sys, sch).world == w.(cluster := Some(Answered(w.cluster, x)))
  {
  }

  lemma StatusWritten(w: World, st: ClusterStatus, c: nat, sch: Schedule)
    requires NoFaults(sch) && w.cluster.Some?
    ensures var x := w.cluster.value.(status := st);
            var t := WriteStatusSpec(Sys(w, x, c), sch);
            t.outcome.Done? && Deferred(w.cluster.value.status, t.sys, sch).world == w.(cluster := Some(x))
  {
  }

  lemma FinalizerPass(w: World, cfg: Settings, sch: Schedule)
    requires NoFaults(sch) && w.cluster.Some? && !w.cluster.value.deleting && !PastDeletion(w.cluster.value)
    ensures var c := w.cluster.value;
            After(w, cfg, sch) == w.(cluster := Some(c.(finalizers := c.finalizers + [Finalizer.FINALIZER])))
  {
    hide RunStage, PIPELINE, ReconcileSpec, WriteClusterSpec, Deferred, Finalizer.FINALIZER;
    PipelineLength();
    var c := StageDecides(w, 0, cfg, sch);
    DeletionIs(Sys(w, w.cluster.value, c), cfg, sch);
    var x := w.cluster.value;
    ClusterWritten(w, x.(finalizers := x.finalizers + [Finalizer.FINALIZER]), c, sch);
  }

  lemma DefaultsPass(w: World, cfg: Settings, sch: Schedule, order: set<Key> -> seq<Key>)
    requires Steady(w, cfg) && CalmPass(w, sch, order) && PastDeletion(w.cluster.value)
    requires NeedsDefaults(w.cluster.value.spec, cfg)
    ensures After(w, cfg, sch) == w.(cluster := Some(Answered(w.cluster, Full(w.cluster.value, cfg))))
  {
    hide RunStage, PIPELINE, ReconcileSpec, WriteClusterSpec, Deferred, NeedsDefaults, Defaulted, Idle, Serviceable;
    hide Clean, Tidy, Quiet;
    hide MineSet, PastDeletion;
    var rmq := w.cluster.value;
    DeletionIdle(w, rmq, cfg, sch, order);
    PausedIdle(w, rmq, cfg, sch);
    var c := StageDecides(w, 2, cfg, sch);
    DefaultsIs(Sys(w, rmq, c), cfg, sch);
    ClusterWritten(w, Full(rmq, cfg), c, sch);
  }

  /** Whether the conditions change does not depend on the time. */
  lemma NowIrrelevant(resources: seq<Resource>, conditions: seq<Condition>, a: string, b: string)
    requires WellFormed(resources) && SetConditionsSpec(resources, conditions, a) == conditions
    ensures SetConditionsSpec(resources, conditions, b) == conditions
  {
    SetConditionsShape(resources, conditions, a);
    LatestInShape(conditions);
  }

  lemma ConditionsPass(w: World, cfg: Settings, sch: Schedule, order: set<Key> -> seq<Key>) returns (now: string)
    requires Steady(w, cfg) && CalmPass(w, sch, order)
    requires var c := w.cluster.value;
             PastDeletion(c) && !NeedsDefaults(c.spec, cfg) && !UpToDate(w, c, order) && |MineSet(w)| <= c.spec.replicas
    ensures var c, keys := w.cluster.value, order(MineSet(w));
            && AllMine(w, keys) && |keys| <= c.spec.replicas
            && var resources := ChildResources(w, keys, c.spec.replicas).value;
               var conditions := SetConditionsSpec(resources, c.status.conditions, now);
               After(w, cfg, sch) == w.(cluster := Some(c.(status := c.status.(conditions := conditions))))
  {
    hide RunStage, PIPELINE, ReconcileSpec, WriteStatusSpec, Deferred, NeedsDefaults, Idle, Serviceable, Clean, Tidy;
    hide Quiet, MineSet;
    hide PastDeletion, SetConditionsSpec, ChildResources;
    var rmq, keys := w.cluster.value, order(MineSet(w));
    DeletionIdle(w, rmq, cfg, sch, order);
    PausedIdle(w, rmq, cfg, sch);
    DefaultsIdle(w, rmq, cfg, sch);
    ListingIsMine(w, keys);
    var c := StageDecides(w, 3, cfg, sch);
    ConditionsIs(Sys(w, rmq, c), cfg, sch);
    now := sch.now(c + 2);
    var resources := ChildResources(w, keys, rmq.spec.replicas).value;
    var conditions := SetConditionsSpec(resources, rmq.status.conditions, now);
    if conditions == rmq.status.conditions {
      forall later: string ensures SetConditionsSpec(resources, rmq.status.conditions, later) == rmq.status.conditions {
        NowIrrelevant(resources, rmq.status.conditions, now, later);
      }
      assert false;
    }
    StatusWritten(w, rmq.status.(conditions := conditions), c + 2, sch);
  }

  // ---------------------------------------------------- passes past the conditions

  /** The finalizer is stored, the defaults are filled in and the conditions are up to date. */
  ghost predicate Prepared(w: World, cfg: Settings, order: set<Key> -> seq<Key>)
    requires w.cluster.Some?
  {
    PastDeletion(w.cluster.value) && !NeedsDefaults(w.cluster.value.spec, cfg) && UpToDate(w, w.cluster.value, order)
  }

  lemma EarlyIdle(w: World, cfg: Settings, sch: Schedule, order: set<Key> -> seq<Key>)
    requires Fit(w, cfg) && CalmPass(w, sch, order) && Prepared(w, cfg, order)
    ensures |PIPELINE| == 11 && forall k :: 0 <= k < 7 ==> Idle(k, w, w.cluster.value, cfg, sch)
  {
    hide PIPELINE, NeedsDefaults, Idle, Serviceable, Clean, Tidy, Quiet, MineSet, PastDeletion, UpToDate, Rebalancing;
    hide CalmPass;
    var rmq := w.cluster.value;
    DeletionIdle(w, rmq, cfg, sch, order);
    PausedIdle(w, rmq, cfg, sch);
    DefaultsIdle(w, rmq, cfg, sch);
    ConditionsIdle(w, rmq, cfg, sch, order);
    CalmIsFaultless(w, sch, order);
    TLSIdle(w, rmq, cfg, sch);
    QuietNeedsNoRebalance(w, rmq);
    MarkIdle(w, rmq, cfg, sch, order);
    ScaleDownIdle(w, rmq, cfg, sch);
  }

  lemma CalmIsFaultless(w: World, sch: Schedule, order: set<Key> -> seq<Key>)
    requires CalmPass(w, sch, order)
    ensures NoFaults(sch)
  {
  }

  lemma NothingDeferred(w: World, t: Sys, sch: Schedule)
    requires w.cluster.Some? && t.rmq == w.cluster.value
    ensures Deferred(w.cluster.value.status, t, sch) == t
  {
  }

  /** A pass with an object out of place puts the first such object in place. */
  lemma BuildersPass(w: World, cfg: Settings, sch: Schedule, order: set<Key> -> seq<Key>) returns (j: nat)
    requires Fit(w, cfg) && CalmPass(w, sch, order) && Prepared(w, cfg, order)
    requires var bs := ResourceBuilders(w.cluster.value); Unfinished(bs, w, |bs|) > 0
    ensures var bs, v := ResourceBuilders(w.cluster.value), After(w, cfg, sch);
            && FirstDone(bs, w, v, 0, j) && Unfinished(bs, v, |bs|) == Unfinished(bs, w, |bs|) - 1
            && v.cluster == w.cluster && Serviceable(w.cluster.value, v)
  {
    hide RunStage, PIPELINE, ReconcileSpec, ResourceBuilders, ReconcileResourcesSpec, Deferred, NeedsDefaults, Idle;
    hide Clear, Clean;
    hide Tidy, Quiet, MineSet, PastDeletion, UpToDate, Defaulted, FirstDone, WellBehaved, Workable, DistinctKeys;
    hide IsListing, InPlace;
    var rmq := w.cluster.value;
    FullFacts(rmq, cfg);
    EarlyIdle(w, cfg, sch, order);
    var bs := ResourceBuilders(rmq);
    var c := StageDecides(w, 7, cfg, sch);
    ResourcesIs(Sys(w, rmq, c), cfg, sch);
    KeysDistinct(rmq);
    AllWellBehaved(rmq);
    forall b | b in bs ensures WellBehaved(b) && Workable(b, w) {
      ClearIsWorkable(rmq, w, b);
    }
    PassCalm(w, rmq, c, bs, sch);
    ResourcesEffect(Sys(w, rmq, c), bs, sch);
    var t := ReconcileResourcesSpec(Sys(w, rmq, c), bs, sch);
    NothingDeferred(w, t.sys, sch);
    j :| FirstDone(bs, w, t.sys.world, 0, j);
    StepServiceable(rmq, w, t.sys.world, j);
  }

  /** Such a pass is one builder's turn on the store as it was. */
  lemma BuildersPassAt(w: World, cfg: Settings, sch: Schedule, order: set<Key> -> seq<Key>) returns (j: nat, c: nat)
    requires Fit(w, cfg) && CalmPass(w, sch, order) && Prepared(w, cfg, order)
    requires var bs := ResourceBuilders(w.cluster.value); Unfinished(bs, w, |bs|) > 0
    ensures var bs := ResourceBuilders(w.cluster.value);
            j < |bs| && After(w, cfg, sch) == BuilderStep(Sys(w, w.cluster.value, c), bs[j], sch).sys.world
  {
    hide RunStage, PIPELINE, ReconcileSpec, ResourceBuilders, ReconcileResourcesSpec, Deferred, NeedsDefaults, Idle;
    hide Clear, Clean;
    hide Tidy, Quiet, MineSet, PastDeletion, UpToDate, Defaulted, FirstDone, WellBehaved, Workable, DistinctKeys;
    hide IsListing, InPlace;
    hide BuilderStep;
    var rmq := w.cluster.value;
    FullFacts(rmq, cfg);
    EarlyIdle(w, cfg, sch, order);
    var bs := ResourceBuilders(rmq);
    var c0 := StageDecides(w, 7, cfg, sch);
    var s := Sys(w, rmq, c0);
    ResourcesIs(s, cfg, sch);
    KeysDistinct(rmq);
    AllWellBehaved(rmq);
    forall b | b in bs ensures WellBehaved(b) && Workable(b, w) {
      ClearIsWorkable(rmq, w, b);
    }
    PassCalm(w, rmq, c0, bs, sch);
    NothingDeferred(w, ReconcileResourcesSpec(s, bs, sch).sys, sch);
    j, c := ResourcesStopAt(s, bs, sch);
  }

  lemma AllFinished(w: World, rmq: Cluster)
    requires Serviceable(rmq, w)
    ensures var bs := ResourceBuilders(rmq); Unfinished(bs, w, |bs|) == 0 ==> Complete(w, rmq)
    ensures var bs := ResourceBuilders(rmq); AllInPlace(w, rmq) ==> Unfinished(bs, w, |bs|) == 0
  {
    hide ResourceBuilders, Clean, Clear, InPlace, NodeSized;
    var bs := ResourceBuilders(rmq);
    UnfinishedBound(bs, w, |bs|);
    if Unfinished(bs, w, |bs|) == 0 {
      forall i: nat | i < rmq.spec.replicas ensures NodeSized(w, rmq, i) {
        NodeAtSize(w, rmq, i);
      }
    }
  }

  lemma NodeAtSize(w: World, rmq: Cluster, i: nat)
    requires Serviceable(rmq, w) && AllInPlace(w, rmq) && i < rmq.spec.replicas
    ensures NodeSized(w, rmq, i)
  {
    var b, bs := NodeBuilder(rmq, i), ResourceBuilders(rmq);
    hide BaseBuilders, Clean, SetBody, PlainUpdate, ClaimsReady, StatefulsetName;
    assert bs[|BaseBuilders(rmq)| + i] == b;
    assert InPlace(b, w) && Clear(rmq, w, b);
    FixedCapacity(rmq, i, w.objects[b.key]);
  }

  /** A pass over a complete cluster with a stale set stamps one. */
  lemma RestartPass(w: World, cfg: Settings, sch: Schedule, order: set<Key> -> seq<Key>) returns (k: Key, now: string)
    requires Steady(w, cfg) && CalmPass(w, sch, order) && Prepared(w, cfg, order)
    requires Complete(w, w.cluster.value) && Restart.StaleSets(w) != {}
    ensures Restart.ConfChangedAt(w).Some?
    ensures var since := Restart.ConfChangedAt(w).value;
            Restart.Restarted(w, After(w, cfg, sch), k, since, now) && StringLess(since, now) && exists at ::
              now == sch.now(at)
  {
    hide RunStage, PIPELINE, ReconcileSpec, Deferred, NeedsDefaults, Idle, Serviceable, Clean, Restart.RestartSpec;
    hide Complete, Restart.ConfChangedAt;
    hide Tidy, Quiet, MineSet, PastDeletion, UpToDate, Restart.Restarted, IsListing;
    var rmq := w.cluster.value;
    EarlyIdle(w, cfg, sch, order);
    BuildersIdle(w, rmq, cfg, sch, order);
    var c := StageDecides(w, 8, cfg, sch);
    var s := Sys(w, rmq, c);
    RestartIs(s, cfg, sch);
    Restart.RestartEffect(s, sch);
    Restart.RestartCalm(s, sch);
    var t := Restart.RestartSpec(s, sch);
    NothingDeferred(w, t.sys, sch);
    var since := Restart.ConfChangedAt(w).value;
    var k', at :| Restart.Restarted(w, t.sys.world, k', since, sch.now(at));
    k, now := k', sch.now(at);
  }

  lemma LateIdle(w: World, cfg: Settings, sch: Schedule, order: set<Key> -> seq<Key>)
    requires Steady(w, cfg) && CalmPass(w, sch, order) && Prepared(w, cfg, order) && Complete(w, w.cluster.value)
    requires NoneStale(w)
    ensures |PIPELINE| == 11 && forall k :: 0 <= k < 9 ==> Idle(k, w, w.cluster.value, cfg, sch)
  {
    hide PIPELINE, NeedsDefaults, Idle, Serviceable, Clean, Complete, Tidy, Quiet, MineSet, PastDeletion, UpToDate;
    hide CalmPass, NoneStale;
    EarlyIdle(w, cfg, sch, order);
    BuildersIdle(w, w.cluster.value, cfg, sch, order);
    RestartIdle(w, w.cluster.value, cfg, sch, order);
  }

  /** A pass over a complete, restarted cluster with an outdated status publishes it. */
  lemma StatusPass(w: World, cfg: Settings, sch: Schedule, order: set<Key> -> seq<Key>)
    requires Steady(w, cfg) && CalmPass(w, sch, order) && Prepared(w, cfg, order) && Complete(w, w.cluster.value)
    requires NoneStale(w)
    requires Published(w.cluster.value) != w.cluster.value.status
    ensures After(w, cfg, sch) == w.(cluster := Some(w.cluster.value.(status := Published(w.cluster.value))))
  {
    hide RunStage, PIPELINE, ReconcileSpec, Deferred, WriteStatusSpec, NeedsDefaults, Idle, Serviceable, Clean;
    hide Complete, Published;
    hide Tidy, Quiet, MineSet, PastDeletion, UpToDate, NoneStale, CalmPass;
    var rmq := w.cluster.value;
    LateIdle(w, cfg, sch, order);
    CalmIsFaultless(w, sch, order);
    var c := StageDecides(w, 9, cfg, sch);
    StatusIs(Sys(w, rmq, c), cfg, sch);
    StatusWritten(w, Published(rmq), c, sch);
  }

  // --------------------------------------------------------- the rank goes down

  /** A full pass, after which the rollouts it started finish. */
  function FullRound(w: World, cfg: Settings, sch: Schedule): World { Settle(After(w, cfg, sch)) }

  lemma FewSets(w: World, replicas: nat)
    requires Tidy(w) && OwnSets(w, replicas)
    ensures |MineSet(w)| <= replicas && Restart.StaleSets(w) <= MineSet(w) && |Restart.StaleSets(w)| <= replicas
  {
    hide TidyObject, NodeKeys, Restart.ConfChangedAt;
    NodeKeysSize(w.name, replicas);
    assert MineSet(w) <= NodeKeys(w.name, replicas);
    Subsets(MineSet(w), NodeKeys(w.name, replicas));
    Subsets(Restart.StaleSets(w), MineSet(w));
  }

  lemma FinalizerStep(w: World, cfg: Settings, sch: Schedule, order: set<Key> -> seq<Key>)
    requires Steady(w, cfg) && CalmPass(w, sch, order) && !PastDeletion(w.cluster.value)
    ensures var v := FullRound(w, cfg, sch); Steady(v, cfg) && Rank(v, cfg, order) < Rank(w, cfg, order)
  {
    hide ReconcileSpec, ResourceBuilders, Defaulted, NeedsDefaults, Serviceable, Clean, Tidy, Quiet, Tasks, UpToDate;
    hide Settle;
    CalmIsFaultless(w, sch, order);
    FinalizerPass(w, cfg, sch);
    var c := w.cluster.value;
    var d := c.(finalizers := c.finalizers + [Finalizer.FINALIZER]);
    SteadyWith(w, d, cfg);
    AnyUpToDate(w, w.(cluster := Some(d)), c, d, order);
    assert PastDeletion(d);
    assert Published(d) == Published(c);
  }

  lemma DefaultsStep(w: World, cfg: Settings, sch: Schedule, order: set<Key> -> seq<Key>)
    requires Steady(w, cfg) && CalmPass(w, sch, order) && PastDeletion(w.cluster.value)
    requires NeedsDefaults(w.cluster.value.spec, cfg)
    ensures var v := FullRound(w, cfg, sch); Steady(v, cfg) && Rank(v, cfg, order) < Rank(w, cfg, order)
  {
    hide ReconcileSpec, ResourceBuilders, Defaulted, NeedsDefaults, Serviceable, Clean, Tidy, Quiet, Tasks, UpToDate;
    hide Settle;
    DefaultsPass(w, cfg, sch, order);
    var c := w.cluster.value;
    var d := Answered(w.cluster, Full(c, cfg));
    FullFacts(c, cfg);
    FullFacts(d, cfg);
    SteadyWith(w, d, cfg);
    AnyUpToDate(w, w.(cluster := Some(d)), c, d, order);
    DefaultsKeep(c.spec, cfg);
    assert Published(d) == Published(c);
  }

  lemma ConditionsStep(w: World, cfg: Settings, sch: Schedule, order: set<Key> -> seq<Key>)
    requires Steady(w, cfg) && CalmPass(w, sch, order)
    requires var c := w.cluster.value; PastDeletion(c) && !NeedsDefaults(c.spec, cfg) && !UpToDate(w, c, order)
    ensures var v := FullRound(w, cfg, sch); Steady(v, cfg) && Rank(v, cfg, order) < Rank(w, cfg, order)
  {
    hide ReconcileSpec, ResourceBuilders, Defaulted, NeedsDefaults, Serviceable, Clean, Tidy, Quiet, Tasks, Settle;
    hide SetConditionsSpec;
    hide ChildResources, MineSet;
    var c, keys := w.cluster.value, order(MineSet(w));
    FewSets(w, c.spec.replicas);
    var now := ConditionsPass(w, cfg, sch, order);
    var resources := ChildResources(w, keys, c.spec.replicas).value;
    var conditions := SetConditionsSpec(resources, c.status.conditions, now);
    var d := c.(status := c.status.(conditions := conditions));
    SteadyWith(w, d, cfg);
    forall later: string ensures SetConditionsSpec(resources, conditions, later) == conditions {
      SetConditionsTwice(resources, c.status.conditions, now, later);
    }
    assert UpToDate(w, d, order);
    AnyUpToDate(w, w.(cluster := Some(d)), d, d, order);
    assert Published(d) == d.status <==> Published(c) == c.status;
  }

  lemma StatusStep(w: World, cfg: Settings, sch: Schedule, order: set<Key> -> seq<Key>)
    requires Steady(w, cfg) && CalmPass(w, sch, order) && Prepared(w, cfg, order) && Complete(w, w.cluster.value)
    requires NoneStale(w)
    requires Published(w.cluster.value) != w.cluster.value.status
    ensures var v := FullRound(w, cfg, sch); Steady(v, cfg) && Rank(v, cfg, order) < Rank(w, cfg, order)
  {
    hide ReconcileSpec, ResourceBuilders, Defaulted, NeedsDefaults, Serviceable, Clean, Tidy, Quiet, Tasks, Settle;
    hide Complete, NoneStale;
    hide UpToDate;
    StatusPass(w, cfg, sch, order);
    var c := w.cluster.value;
    var d := c.(status := Published(c));
    SteadyWith(w, d, cfg);
    AnyUpToDate(w, w.(cluster := Some(d)), c, d, order);
    assert Published(d) == d.status;
  }

  lemma SettleTidy(w: World)
    requires Tidy(w)
    ensures Tidy(Settle(w)) && MineSet(Settle(w)) == MineSet(w) && Restart.StaleSets(Settle(w)) == Restart.StaleSets(w)
    ensures Restart.ConfChangedAt(Settle(w)) == Restart.ConfChangedAt(w)
    ensures forall n :: OwnSets(w, n) ==> OwnSets(Settle(w), n)
  {
    hide NodeKeys, Restart.ServerConfKey;
    var v := Settle(w);
    forall k | k in w.objects ensures TidyObject(w.name, k, v.objects[k]) && (Mine(v, k) <==> Mine(w, k)) {
      assert TidyObject(w.name, k, w.objects[k]);
    }
    assert forall since, k :: Restart.Stale(v, k, since) <==> Restart.Stale(w, k, since);
  }

  lemma PassTidy(w: World, cfg: Settings, sch: Schedule)
    requires Live(w) && Tidy(w) && Quiet(w)
    ensures var v := After(w, cfg, sch); Tidy(v) && v.name == w.name && Extends(w, v)
  {
    hide ReconcileSpec, Clean, Quiet, TidyObject, RollingSet, OneTemplate, AfterDeletion;
    QuietNotRolling(w);
    PassExtends(w, cfg, sch);
    var u := OneRolloutAtATime(w, cfg, sch);
  }

  /** After the objects changed under an unchanged cluster, the store is steady again once rollouts finish. */
  lemma SteadyAfter(w: World, v: World, cfg: Settings)
    requires Steady(w, cfg) && !NeedsDefaults(w.cluster.value.spec, cfg)
    requires v.cluster == w.cluster && v.name == w.name && Tidy(v) && OwnSets(v, w.cluster.value.spec.replicas)
    requires Serviceable(w.cluster.value, v)
    ensures var u, bs := Settle(v), ResourceBuilders(w.cluster.value);
            && Steady(u, cfg) && u.cluster == w.cluster
            && Unfinished(bs, u, |bs|) == Unfinished(bs, v, |bs|) && Restart.StaleSets(u) == Restart.StaleSets(v)
  {
    hide ResourceBuilders, Defaulted, NeedsDefaults, Clean, Clear, TidyObject, NodeKeys, Quiet, TLSFine;
    var c := w.cluster.value;
    FullFacts(c, cfg);
    AllWellBehaved(c);
    SettleUnfinished(ResourceBuilders(c), v, |ResourceBuilders(c)|);
    SettleServiceable(c, v);
    SettleIsQuiet(v);
    SettleTidy(v);
  }

  lemma NodeKeyOwn(rmq: Cluster, b: Builder)
    requires Clean(rmq) && b in ResourceBuilders(rmq) && b.key.kind == KindStatefulSet
    ensures b.key in NodeKeys(rmq.name, rmq.spec.replicas)
  {
    hide Clean, ResourceBuilders, NodeKey, NodeKeys;
    var i := NodeIndex(rmq, b);
    NodeKeysAre(rmq.name, rmq.spec.replicas, b.key);
  }

  lemma BuiltOwn(w: World, v: World, rmq: Cluster, j: nat)
    requires Clean(rmq) && rmq.name == w.name && v.name == w.name && OwnSets(w, rmq.spec.replicas)
    requires FirstDone(ResourceBuilders(rmq), w, v, 0, j)
    ensures OwnSets(v, rmq.spec.replicas)
  {
    hide Clean, ResourceBuilders, InPlace, Rewritten, NodeKeys;
    var b := ResourceBuilders(rmq)[j];
    assert b in ResourceBuilders(rmq);
    forall k | k in v.objects && k.kind == KindStatefulSet ensures k in NodeKeys(v.name, rmq.spec.replicas) {
      if k == b.key {
        NodeKeyOwn(rmq, b);
      } else {
        assert k in v.objects - {b.key};
        assert k in w.objects - {b.key};
      }
    }
  }

  lemma BuildersStep(w: World, cfg: Settings, sch: Schedule, order: set<Key> -> seq<Key>)
    requires Steady(w, cfg) && CalmPass(w, sch, order) && Prepared(w, cfg, order)
    requires var bs := ResourceBuilders(w.cluster.value); Unfinished(bs, w, |bs|) > 0
    ensures var v := FullRound(w, cfg, sch); Steady(v, cfg) && Rank(v, cfg, order) < Rank(w, cfg, order)
  {
    hide ReconcileSpec, ResourceBuilders, Defaulted, NeedsDefaults, Serviceable, Clean, Tidy, Quiet, Settle, OwnSets;
    hide PastDeletion;
    hide UpToDate, Published, Restart.StaleSets, TLSFine;
    var rmq, v := w.cluster.value, After(w, cfg, sch);
    FullFacts(rmq, cfg);
    var j := BuildersPass(w, cfg, sch, order);
    PassTidy(w, cfg, sch);
    BuiltOwn(w, v, rmq, j);
    SteadyAfter(w, v, cfg);
    FewSets(Settle(v), rmq.spec.replicas);
  }

  /** A stamp leaves the cluster serviceable. */
  lemma StampServiceable(w: World, v: World, k: Key, since: string, now: string, rmq: Cluster)
    requires Serviceable(rmq, w) && AllInPlace(w, rmq) && Restart.Restarted(w, v, k, since, now)
    ensures Serviceable(rmq, v) && AllInPlace(v, rmq)
  {
    hide ResourceBuilders, Clean, ClaimsReady, InPlace;
    StampKeepsPlace(w, v, k, since, now, rmq);
    var bs := ResourceBuilders(rmq);
    forall b | b in bs ensures Clear(rmq, v, b) {
      var m :| 0 <= m < |bs| && bs[m] == b;
      assert InPlace(bs[m], v) && Clear(rmq, w, b);
      StampClear(w, v, k, since, now, rmq, b);
    }
  }

  lemma StampClear(w: World, v: World, k: Key, since: string, now: string, rmq: Cluster, b: Builder)
    requires Clear(rmq, w, b) && InPlace(b, v) && Restart.Restarted(w, v, k, since, now)
    ensures Clear(rmq, v, b)
  {
    hide ClaimsReady;
  }

  lemma RestartStep(w: World, cfg: Settings, sch: Schedule, order: set<Key> -> seq<Key>)
    requires Steady(w, cfg) && CalmPass(w, sch, order) && Prepared(w, cfg, order)
    requires Complete(w, w.cluster.value) && Restart.StaleSets(w) != {}
    ensures var v := FullRound(w, cfg, sch); Steady(v, cfg) && Rank(v, cfg, order) < Rank(w, cfg, order)
  {
    hide ReconcileSpec, ResourceBuilders, Defaulted, NeedsDefaults, Serviceable, Clean, Tidy, Quiet, Settle;
    hide PastDeletion;
    hide UpToDate, Published, TLSFine, NodeSized, InPlace, NodeKeys;
    var rmq, v := w.cluster.value, After(w, cfg, sch);
    FullFacts(rmq, cfg);
    var k, now := RestartPass(w, cfg, sch, order);
    var since := Restart.ConfChangedAt(w).value;
    hide Restart.ConfChangedAt, CalmPass;
    PassTidy(w, cfg, sch);
    StampServiceable(w, v, k, since, now, rmq);
    Restart.StampEndsStaleness(w, v, k, since, now);
    SteadyAfter(w, v, cfg);
    AllFinished(w, rmq);
    AllFinished(v, rmq);
    assert k in Restart.StaleSets(w);
  }

  // ------------------------------------------------------------------- success

  /** The status after a pass over cluster c that went through. */
  function DeclaredStatus(c: Cluster, now: string): ClusterStatus {
    c.status.(
      observedGeneration := c.generation,
      conditions := SetConditionSpec(c.status.conditions, ReconcileSuccess, ConditionTrue, "Success",
        "Finish reconciling", now))
  }

  /** The status says that this generation was reconciled. */
  predicate Declares(d: Cluster) {
    && d.status.observedGeneration == d.generation && InShape(d.status.conditions)
    && var success := Latest(d.status.conditions, ReconcileSuccess);
       && success.Some? && success.value.status == ConditionTrue
       && success.value.reason == "Success" && success.value.message == "Finish reconciling"
  }

  lemma AllCounted(w: World, rmq: Cluster)
    requires Tidy(w) && rmq.name == w.name && OwnSets(w, rmq.spec.replicas) && AllInPlace(w, rmq) && Clean(rmq)
    ensures MineSet(w) == NodeKeys(w.name, rmq.spec.replicas) && |MineSet(w)| == rmq.spec.replicas
    ensures Cli.PluginsKey(rmq.name) in w.objects
  {
    hide AllInPlace, Clean, NodeKeys, NodeKey, TidyObject;
    var n := rmq.spec.replicas;
    NodeKeysSize(w.name, n);
    forall k | k in NodeKeys(w.name, n) ensures k in MineSet(w) {
      NodeKeysAre(w.name, n, k);
      var i: nat :| i < n && k == NodeKey(w.name, i);
      NodeIsMine(w, rmq, i);
    }
    PluginsStored(w, rmq);
    hide PLUGINS_FILE;
    assert MineSet(w) <= NodeKeys(w.name, n);
  }

  /** What is stored when the last stage passes: at most the mark has gone, and success is declared. */
  lemma FinalStored(w: World, c: nat, sch: Schedule) returns (now: string)
    requires NoFaults(sch) && w.cluster.Some? && !w.cluster.value.deleting
    requires Cli.CliSpec(Sys(w, w.cluster.value, c), sch).outcome.Continue?
    ensures var rmq := w.cluster.value;
            var t := FinalSpec(Sys(w, rmq, c), sch);
            var v := Deferred(rmq.status, t.sys, sch).world;
            && t.outcome.Continue?
            && (|| v.cluster == Some(rmq.(status := DeclaredStatus(rmq, now)))
                || v.cluster == Some(Cli.Unmarked(rmq).(status := DeclaredStatus(rmq, now))))
  {
    hide Cli.CliSpec, Cli.CliEffect, SetConditionSpec, Flagged, Quiet, MineSet, Mine;
    var s := Sys(w, w.cluster.value, c);
    Cli.CliStageEffect(s, sch);
    now := sch.now(Cli.CliSpec(s, sch).sys.calls);
  }

  /** A pass over a store with nothing left to write goes through. */
  lemma FinalPass(w: World, cfg: Settings, sch: Schedule, order: set<Key> -> seq<Key>) returns (now: string)
    requires Steady(w, cfg) && CalmPass(w, sch, order) && Prepared(w, cfg, order) && Complete(w, w.cluster.value)
    requires NoneStale(w)
    requires Published(w.cluster.value) == w.cluster.value.status
    ensures ReconcileSpec(w, cfg, sch).1.Continue?
    ensures var c, v := w.cluster.value, After(w, cfg, sch);
            || v.cluster == Some(c.(status := DeclaredStatus(c, now)))
            || v.cluster == Some(Cli.Unmarked(c).(status := DeclaredStatus(c, now)))
  {
    hide RunStage, PIPELINE, ReconcileSpec, Deferred, FinalSpec, NeedsDefaults, Idle, Serviceable, Clean, NodeSized;
    hide Published;
    hide Tidy, Quiet, MineSet, PastDeletion, UpToDate, NoneStale, AllInPlace, OwnSets, DeclaredStatus, Cli.Unmarked;
    hide IsListing, ClockPast;
    var rmq := w.cluster.value;
    LateIdle(w, cfg, sch, order);
    StatusIdle(w, rmq, cfg, sch);
    var c := StageDecides(w, 10, cfg, sch);
    FullFacts(rmq, cfg);
    AllCounted(w, rmq);
    Cli.CliCalm(Sys(w, rmq, c), sch);
    FinalIs(Sys(w, rmq, c), cfg, sch);
    now := FinalStored(w, c, sch);
  }

  /** Success is declared, and nothing is left to do. */
  ghost predicate AtRest(w: World, cfg: Settings, order: set<Key> -> seq<Key>) {
    && Steady(w, cfg) && Prepared(w, cfg, order)
    && var c := w.cluster.value;
       && Complete(w, c) && NoneStale(w) && Published(c) == c.status
       && FlagsGone(w) && !Flagged(c.annotations, REBALANCE_NEEDED) && Declares(c)
  }

  /** From such a store, a calm pass changes nothing at all. */
  lemma Fixpoint(w: World, cfg: Settings, sch: Schedule, order: set<Key> -> seq<Key>)
    requires AtRest(w, cfg, order) && CalmPass(w, sch, order)
    ensures After(w, cfg, sch) == w && ReconcileSpec(w, cfg, sch).1.Continue? && FullRound(w, cfg, sch) == w
  {
    hide RunStage, PIPELINE, ReconcileSpec, NeedsDefaults, Idle, Serviceable, Clean, NodeSized, Published;
    hide SetConditionSpec;
    hide Tidy, Quiet, MineSet, PastDeletion, UpToDate, NoneStale, AllInPlace, OwnSets, IsListing, ClockPast, Settle;
    hide Cli.CliSpec;
    hide InShape, Latest, Flagged;
    var rmq := w.cluster.value;
    LateIdle(w, cfg, sch, order);
    StatusIdle(w, rmq, cfg, sch);
    var c := StageDecides(w, 10, cfg, sch);
    AllCounted(w, rmq);
    Cli.NothingPending(Sys(w, rmq, c), sch);
    FinalIs(Sys(w, rmq, c), cfg, sch);
    DeclaredTwice(rmq.status.conditions, "Success", "Finish reconciling", sch.now(c + 2));
    SettleQuiet(w);
  }

  /** The cluster stored by a pass that went through asks for no more than before. */
  lemma StoredAsksFewer(c: Cluster, d: Cluster, now: string)
    requires d == c.(status := DeclaredStatus(c, now)) || d == Cli.Unmarked(c).(status := DeclaredStatus(c, now))
    ensures FewerAnnotations(c, d) && (Clean(c) ==> Clean(d)) && PastDeletion(d) == PastDeletion(c)
    ensures d.name == c.name && d.spec == c.spec && d.labels == c.labels && d.deleting == c.deleting
    ensures d.status == DeclaredStatus(c, now) && d.generation == c.generation
  {
    hide SetConditionSpec;
  }

  /** The conditions stay up to date while they see no difference in the sets. */
  lemma SeenUpToDate(w: World, v: World, c: Cluster, order: set<Key> -> seq<Key>)
    requires UpToDate(w, c, order) && MineSet(v) == MineSet(w) && v.endpoints == w.endpoints
    requires forall k :: k in MineSet(w) ==> k in v.objects && SameView(w.objects[k], v.objects[k])
    ensures UpToDate(v, c, order)
  {
    hide Latest, SameView, AllReplicasReadyFrom, ClusterAvailableFrom, NoWarningsFrom, Fresh;
    var keys, n := order(MineSet(w)), c.spec.replicas;
    forall i | 0 <= i < |keys| ensures Mine(v, keys[i]) && SameView(w.objects[keys[i]], v.objects[keys[i]]) {
      assert keys[i] in MineSet(w) && keys[i] in MineSet(v);
    }
    var a, b := ChildResources(w, keys, n).value, ChildResources(v, keys, n).value;
    assert SameViews(a, b);
    forall now: string
      ensures SetConditionsSpec(b, c.status.conditions, now) == SetConditionsSpec(a, c.status.conditions, now)
    {
      ViewsDecide(a, b, Fresh(AllReplicasReady, Latest(c.status.conditions, AllReplicasReady)));
      ViewsDecide(a, b, Fresh(ClusterAvailable, Latest(c.status.conditions, ClusterAvailable)));
      ViewsDecide(a, b, Fresh(NoWarnings, Latest(c.status.conditions, NoWarnings)));
    }
  }

  lemma CliUpToDate(w: World, v: World, c: Cluster, order: set<Key> -> seq<Key>)
    requires UpToDate(w, c, order) && MineSet(v) == MineSet(w) && Cli.CliEffect(w, v, c)
    ensures UpToDate(v, c, order)
  {
    hide UpToDate, Cli.Justified, SameView, OperatorKey;
    forall k | k in MineSet(w) ensures k in v.objects && SameView(w.objects[k], v.objects[k]) {
      assert Cli.Unflagged(w.objects[k], v.objects[k], k, News(w, v));
      SameViewFrom(w.objects[k], v.objects[k]);
    }
    SeenUpToDate(w, v, c, order);
  }

  lemma SameViewFrom(o: Object, p: Object)
    requires o.StatefulSet? && p.StatefulSet? && p.spec == o.spec && p.status == o.status
    ensures SameView(o, p)
  {
  }

  lemma DeclaredStays(v: World, c: Cluster, d: Cluster, now: string, order: set<Key> -> seq<Key>)
    requires UpToDate(v, c, order) && d.spec == c.spec && d.status == DeclaredStatus(c, now)
    requires d.generation == c.generation
    ensures UpToDate(v, d, order) && Declares(d)
  {
    hide SetConditionsSpec, SetConditionSpec, MineSet, ChildResources, Latest, InShape;
    var resources := ChildResources(v, order(MineSet(v)), c.spec.replicas).value;
    forall later: string ensures SetConditionsSpec(resources, d.status.conditions, later) == d.status.conditions {
      DeclaredUpToDate(resources, c.status.conditions, now, "Success", "Finish reconciling", later);
    }
    DeclaredUpToDate(resources, c.status.conditions, now, "Success", "Finish reconciling", now);
  }

  /** The claims of a node's set are not touched by commands. */
  lemma CliServiceable(w: World, v: World, c: Cluster, d: Cluster)
    requires Serviceable(c, w) && Cli.CliEffect(w, v, c) && AllInPlace(v, d) && Clean(d) && Tidy(v)
    requires d.spec == c.spec && d.name == c.name
    ensures Serviceable(d, v)
  {
    hide ResourceBuilders, Clean, Clear, Cli.CliEffect, InPlace, Tidy;
    var bs := ResourceBuilders(d);
    forall b | b in bs ensures Clear(d, v, b) {
      var m :| 0 <= m < |bs| && bs[m] == b;
      assert InPlace(bs[m], v);
      InPlaceFits(b, v);
      if b.key.kind == KindStatefulSet {
        ClaimsAfterCommands(w, v, c, d, b);
      }
      assert Clear(d, v, b) by {
        FitsIsClear(d, v, b);
      }
    }
    AcceptsConfiguration(c, w);
  }

  lemma AcceptsConfiguration(c: Cluster, w: World)
    requires Serviceable(c, w)
    ensures c.spec.additionalConfig.Some?
  {
  }

  lemma FitsIsClear(d: Cluster, v: World, b: Builder)
    requires b.key in v.objects && Fits(b.key.kind, v.objects[b.key]) && b.update(v.objects[b.key]).Accepted?
    requires b.key.kind == KindStatefulSet ==>
               v.objects[b.key].StatefulSet? && ClaimsReady(v.objects[b.key].spec.claims, d.spec.storage)
    ensures Clear(d, v, b)
  {
    hide ClaimsReady;
  }

  lemma ClaimsAfterCommands(w: World, v: World, c: Cluster, d: Cluster, b: Builder)
    requires Serviceable(c, w) && Cli.CliEffect(w, v, c) && Clean(d) && d.spec == c.spec && d.name == c.name
    requires b in ResourceBuilders(d) && b.key.kind == KindStatefulSet && b.key in v.objects
    ensures v.objects[b.key].StatefulSet? && ClaimsReady(v.objects[b.key].spec.claims, d.spec.storage)
  {
    hide ResourceBuilders, Clean, ClaimsReady, Cli.Justified, Clear, NodeKey, OperatorKey;
    var i := NodeIndex(d, b);
    NodeClear(c, w, i);
    assert Cli.Unflagged(w.objects[b.key], v.objects[b.key], b.key, News(w, v));
  }

  lemma InPlaceFits(b: Builder, v: World)
    requires InPlace(b, v) && Tidy(v)
    ensures b.key in v.objects && Fits(b.key.kind, v.objects[b.key]) && b.update(v.objects[b.key]).Accepted?
  {
    assert TidyObject(v.name, b.key, v.objects[b.key]);
  }

  lemma NodeClear(c: Cluster, w: World, i: nat)
    requires Serviceable(c, w) && i < c.spec.replicas
    ensures var k := NodeKey(c.name, i);
            k in w.objects ==> w.objects[k].StatefulSet? && ClaimsReady(w.objects[k].spec.claims, c.spec.storage)
  {
    hide BaseBuilders, Clean, SetBody, PlainUpdate, ClaimsReady, StatefulsetName;
    assert ResourceBuilders(c)[|BaseBuilders(c)| + i] == NodeBuilder(c, i);
    assert Clear(c, w, NodeBuilder(c, i));
  }

  lemma FewerInPlace(a: Cluster, b: Cluster, w: World)
    requires FewerAnnotations(a, b) && AllInPlace(w, a)
    ensures AllInPlace(w, b)
  {
    FewerBuilders(a, b);
    hide ResourceBuilders, Fixed, FewerAnnotations;
    var x, y := ResourceBuilders(a), ResourceBuilders(b);
    forall m | 0 <= m < |y| ensures InPlace(y[m], w) {
      assert FewerBuilder(x[m], y[m]) && InPlace(x[m], w);
    }
  }

  /** What a pass that went through did to the children: commands ran and flags went. */
  lemma PassedCommands(w: World, cfg: Settings, sch: Schedule)
    requires Live(w) && !w.cluster.value.deleting && ReconcileSpec(w, cfg, sch).1.Continue?
    ensures Cli.CliEffect(w, After(w, cfg, sch).(cluster := w.cluster), w.cluster.value)
  {
    hide ReconcileSpec, Clean, Effect, Quiet, AllInPlace, NoneStale, FlagsGone, MineSet, Cli.CliEffect, PastDeletion;
    hide Undeleted;
    var u := ChildrenAfter(w, cfg, sch);
  }

  /** A pass with nothing left to write declares success and leaves the store at rest. */
  lemma SuccessStep(w: World, cfg: Settings, sch: Schedule, order: set<Key> -> seq<Key>)
    requires Steady(w, cfg) && CalmPass(w, sch, order) && Prepared(w, cfg, order) && Complete(w, w.cluster.value)
    requires NoneStale(w)
    requires Published(w.cluster.value) == w.cluster.value.status
    ensures AtRest(FullRound(w, cfg, sch), cfg, order) && FullRound(w, cfg, sch) == After(w, cfg, sch)
  {
    hide ReconcileSpec, NeedsDefaults, Defaulted, Serviceable, Clean, NodeSized, Quiet, MineSet, PastDeletion, UpToDate;
    hide NoneStale, FlagsGone;
    hide AllInPlace, OwnSets, DeclaredStatus, Cli.Unmarked, CalmPass, Tidy, Cli.CliEffect, NodeKeys, Flagged, Declares;
    hide FewerAnnotations, Settle;
    var c, v := w.cluster.value, After(w, cfg, sch);
    FullFacts(c, cfg);
    var now := FinalPass(w, cfg, sch, order);
    var d := v.cluster.value;
    StoredAsksFewer(c, d, now);
    PublishedOnce(c, d, now);
    PassMeansReconciled(w, cfg, sch);
    PassedCommands(w, cfg, sch);
    PassTidy(w, cfg, sch);
    ClusterAfter(w, cfg, sch);
    FewerInPlace(c, d, v);
    RestingSets(w, v, c, d, now, order);
    SettleQuiet(v);
  }

  lemma PublishedOnce(c: Cluster, d: Cluster, now: string)
    requires Published(c) == c.status && d.name == c.name && d.spec == c.spec && d.status == DeclaredStatus(c, now)
    ensures Published(d) == d.status && d.status.replicas == c.status.replicas
  {
    hide SetConditionSpec;
  }

  /** The store of a pass that went through is serviceable, complete, owned and up to date. */
  lemma RestingSets(w: World, v: World, c: Cluster, d: Cluster, now: string, order: set<Key> -> seq<Key>)
    requires Serviceable(c, w) && UpToDate(w, c, order) && Cli.CliEffect(w, v.(cluster := w.cluster), c)
    requires AllInPlace(v, d) && Clean(d) && Tidy(v) && MineSet(v) == NodeKeys(c.name, c.spec.replicas)
    requires c.name == v.name == w.name
    requires d.spec == c.spec && d.name == c.name && d.status == DeclaredStatus(c, now) && d.generation == c.generation
    ensures Serviceable(d, v) && Complete(v, d) && OwnSets(v, c.spec.replicas) && UpToDate(v, d, order) && Declares(d)
  {
    hide Serviceable, UpToDate, Cli.CliEffect, AllInPlace, Clean, NodeKeys, DeclaredStatus, Declares, Complete;
    var v' := v.(cluster := w.cluster);
    SetsSurvive(w, v', c);
    AnySets(v', v);
    TidyMine(v);
    CliUpToDate(w, v', c, order);
    AnyUpToDate(v', v, c, c, order);
    DeclaredStays(v, c, d, now, order);
    AnyInPlace(v, v', d);
    CliServiceable(w, v', c, d);
    AnyServiceable(d, v', v);
    AllFinished(v, d);
  }

  lemma AnyInPlace(w: World, v: World, rmq: Cluster)
    requires v.objects == w.objects && AllInPlace(w, rmq)
    ensures AllInPlace(v, rmq)
  {
    hide ResourceBuilders, Fixed;
    var bs := ResourceBuilders(rmq);
    forall m | 0 <= m < |bs| ensures InPlace(bs[m], v) {
      assert InPlace(bs[m], w);
    }
  }

  lemma TidyMine(v: World)
    requires Tidy(v)
    ensures forall k :: k in v.objects && k.kind == KindStatefulSet ==> k in MineSet(v)
  {
    forall k | k in v.objects && k.kind == KindStatefulSet ensures Mine(v, k) {
      assert TidyObject(v.name, k, v.objects[k]);
    }
  }

  // --------------------------------------------------------------- the theorem

  function FullRounds(w: World, cfg: Settings, scheds: seq<Schedule>): World
    decreases |scheds|
  {
    if scheds == [] then w else FullRounds(FullRound(w, cfg, scheds[0]), cfg, scheds[1..])
  }

  ghost predicate CalmRun(w: World, cfg: Settings, scheds: seq<Schedule>, order: set<Key> -> seq<Key>)
    decreases |scheds|
  {
    scheds == [] || (CalmPass(w, scheds[0], order) && CalmRun(FullRound(w, cfg, scheds[0]), cfg, scheds[1..], order))
  }

  lemma RankZero(w: World, cfg: Settings, order: set<Key> -> seq<Key>)
    requires Steady(w, cfg) && Rank(w, cfg, order) == 0
    ensures Prepared(w, cfg, order) && Complete(w, w.cluster.value) && NoneStale(w)
    ensures Published(w.cluster.value) == w.cluster.value.status
  {
    hide ResourceBuilders, Clean, Clear, Defaulted, NeedsDefaults, PastDeletion, UpToDate, Published, Tidy, Quiet;
    hide NodeSized, InPlace;
    FullFacts(w.cluster.value, cfg);
    AllFinished(w, w.cluster.value);
  }

  lemma RankPositive(w: World, cfg: Settings, order: set<Key> -> seq<Key>)
    requires Steady(w, cfg) && Prepared(w, cfg, order) && Rank(w, cfg, order) > 0
    requires var bs := ResourceBuilders(w.cluster.value); Unfinished(bs, w, |bs|) == 0
    ensures Complete(w, w.cluster.value)
    ensures Restart.StaleSets(w) != {} || (NoneStale(w) && Published(w.cluster.value) != w.cluster.value.status)
  {
    hide ResourceBuilders, Clean, Clear, Defaulted, NeedsDefaults, PastDeletion, UpToDate, Published, Tidy, Quiet;
    hide NodeSized, InPlace;
    FullFacts(w.cluster.value, cfg);
    AllFinished(w, w.cluster.value);
  }

  /** Every calm pass lowers the rank, and at rank zero it goes through. */
  lemma Advances(w: World, cfg: Settings, sch: Schedule, order: set<Key> -> seq<Key>)
    requires Steady(w, cfg) && CalmPass(w, sch, order)
    ensures var v := FullRound(w, cfg, sch);
            && Steady(v, cfg)
            && (Rank(w, cfg, order) > 0 ==> Rank(v, cfg, order) < Rank(w, cfg, order))
            && (Rank(w, cfg, order) == 0 ==> AtRest(v, cfg, order))
  {
    hide After, Settle, CalmPass, Rank, ResourceBuilders, NeedsDefaults, PastDeletion, UpToDate, Published, Complete;
    hide Restart.StaleSets, NoneStale;
    hide Tidy, Quiet, Serviceable, OwnSets, Clean, TLSFine, Unpaused, Defaulted, Complete, FlagsGone, Flagged, Declares;
    var c := w.cluster.value;
    var bs := ResourceBuilders(c);
    if Rank(w, cfg, order) == 0 {
      RankZero(w, cfg, order);
      SuccessStep(w, cfg, sch, order);
    } else if !PastDeletion(c) {
      FinalizerStep(w, cfg, sch, order);
    } else if NeedsDefaults(c.spec, cfg) {
      DefaultsStep(w, cfg, sch, order);
    } else if !UpToDate(w, c, order) {
      ConditionsStep(w, cfg, sch, order);
    } else if Unfinished(bs, w, |bs|) > 0 {
      BuildersStep(w, cfg, sch, order);
    } else {
      RankPositive(w, cfg, order);
      if Restart.StaleSets(w) != {} {
        RestartStep(w, cfg, sch, order);
      } else {
        StatusStep(w, cfg, sch, order);
      }
    }
  }

  lemma {:induction false} SuccessWithin(w: World, cfg: Settings, scheds: seq<Schedule>, order: set<Key> -> seq<Key>)
    requires Steady(w, cfg) && CalmRun(w, cfg, scheds, order)
    requires AtRest(w, cfg, order) || |scheds| > Rank(w, cfg, order)
    ensures AtRest(FullRounds(w, cfg, scheds), cfg, order)
    decreases |scheds|
  {
    hide FullRound, Steady, CalmPass, AtRest, Rank;
    if scheds != [] {
      Advances(w, cfg, scheds[0], order);
      if AtRest(w, cfg, order) {
        Fixpoint(w, cfg, scheds[0], order);
      }
      SuccessWithin(FullRound(w, cfg, scheds[0]), cfg, scheds[1..], order);
    }
  }

  /** The finalizer, the defaults, the conditions and the status, and two passes for every object and every restart. */
  lemma RankBound(w: World, cfg: Settings, order: set<Key> -> seq<Key>)
    requires Steady(w, cfg)
    ensures Rank(w, cfg, order) <= 22 + 4 * w.cluster.value.spec.replicas
  {
    hide ResourceBuilders, Serviceable, Clean, Defaulted, NeedsDefaults, PastDeletion, UpToDate, Published, Quiet, Tidy;
    hide Restart.StaleSets, OwnSets;
    var c := w.cluster.value;
    FullFacts(c, cfg);
    FewSets(w, c.spec.replicas);
    BuilderCount(Full(c, cfg));
    UnfinishedBound(ResourceBuilders(Full(c, cfg)), w, |ResourceBuilders(Full(c, cfg))|);
  }

  /** A new cluster without children is such a store. */
  lemma EmptySteady(w: World, cfg: Settings)
    requires Live(w) && w.objects == map[] && Supplies(cfg)
    requires var c := w.cluster.value;
             !c.deleting && Unpaused(c) && TLSFine(c) && c.status.replicas <= c.spec.replicas
               && c.spec.additionalConfig.Some?
    ensures Steady(w, cfg)
  {
    hide ResourceBuilders, Clean, Defaulted, NeedsDefaults, NodeKeys, TLSFine;
    FullFacts(w.cluster.value, cfg);
    DefaultsKeep(w.cluster.value.spec, cfg);
  }

  /**
    From every store in which nothing stands in the way, a bounded number of calm full passes
    with rollouts finishing between them leads to a store that has all the cluster asks for,
    says so for the current generation, and that no further calm pass changes. A rebalance
    mark that is still to be copied to the children is part of the work that is counted.
  */
  lemma ReachesSuccess(w: World, cfg: Settings, scheds: seq<Schedule>, order: set<Key> -> seq<Key>)
    requires Steady(w, cfg) && CalmRun(w, cfg, scheds, order) && |scheds| >= 23 + 4 * w.cluster.value.spec.replicas
    ensures var v := FullRounds(w, cfg, scheds);
            && v.cluster.Some? && AtRest(v, cfg, order) && Reconciled(v, v.cluster.value)
            && Successful(v.cluster.value.status.conditions)
            && v.cluster.value.status.observedGeneration == v.cluster.value.generation
            && forall sch :: CalmPass(v, sch, order) ==> After(v, cfg, sch) == v
  {
    hide FullRounds, CalmRun, CalmPass, After, Rank, Complete, FlagsGone, NoneStale, Serviceable, Clean, Prepared;
    hide Flagged, Quiet, MineSet, NodeKeys;
    RankBound(w, cfg, order);
    SuccessWithin(w, cfg, scheds, order);
    var v := FullRounds(w, cfg, scheds);
    RestIsReconciled(v, cfg, order);
    forall sch | CalmPass(v, sch, order) ensures After(v, cfg, sch) == v {
      Fixpoint(v, cfg, sch, order);
    }
  }

  lemma RestIsReconciled(v: World, cfg: Settings, order: set<Key> -> seq<Key>)
    requires AtRest(v, cfg, order)
    ensures Reconciled(v, v.cluster.value)
  {
    hide FlagsGone, NoneStale, Serviceable, Clean, NodeSized, Prepared, Flagged, Quiet, MineSet, NodeKeys, AllInPlace;
    hide OwnSets, Declares;
    hide Published, Tidy;
    AllCounted(v, v.cluster.value);
  }
}
