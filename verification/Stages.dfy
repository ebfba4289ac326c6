/** The pipeline stages that write only the cluster object (controllers/reconcile_*.go). */
module Stages {
  import opened Basics
  import opened Objects
  import opened Store
  import opened Names
  import opened Client
  import opened Conditions

  /** The reconciler's own settings. */
  datatype Settings = Settings(controlImage: bool, defaultImage: string, updaterImage: string, pullSecrets: string)

  const PAUSE_LABEL := "rabbitmq.com/pauseReconciliation"

  // ------------------------------------------------------------ specification

  /** Update of the cluster object, answering Done or Error. */
  function WriteClusterSpec(s: Sys, sch: Schedule): Step {
    if sch.fails(s.calls) then Step(Called(s), Error) else Step(Called(UpdateCluster(s)), Done)
  }

  /** updateStatus */
  function WriteStatusSpec(s: Sys, sch: Schedule): Step {
    if sch.fails(s.calls) then Step(Called(s), Error) else Step(Called(UpdateStatus(s)), Done)
  }

  function PausedSpec(s: Sys, sch: Schedule): Step {
    if Lookup(s.rmq.labels, PAUSE_LABEL) != "true" then Step(s, Continue)
    else Step(WithCondition(s, NoWarnings, ConditionFalse, "reconciliation paused", "", sch), Done)
  }

  /** The references of a comma-separated list that are not empty. */
  function NonEmpty(parts: seq<string>): (r: seq<string>)
    ensures forall p :: p in r <==> p in parts && p != ""
  {
    if parts == [] then []
    else
      var rest, last := parts[..|parts| - 1], parts[|parts| - 1];
      assert parts == rest + [last];
      NonEmpty(rest) + if last == "" then [] else [last]
  }

  function DefaultPullSecrets(cfg: Settings): seq<string> { NonEmpty(Split(cfg.pullSecrets, ',')) }

  function WithPullSecrets(spec: Spec, cfg: Settings): Spec {
    if spec.pullSecrets.None? && DefaultPullSecrets(cfg) != []
    then spec.(pullSecrets := Some(DefaultPullSecrets(cfg))) else spec
  }

  /** The image, the updater image and the pull secrets that reconcileOperatorDefaults fills in. */
  function Defaulted(spec: Spec, cfg: Settings): Spec {
    var spec1 := if cfg.controlImage || spec.image == "" then spec.(image := cfg.defaultImage) else spec;
    var spec2 := if spec1.vault.Some? && (cfg.controlImage || spec1.vault.value.updaterImage.None?)
                 then spec1.(vault := Some(spec1.vault.value.(updaterImage := Some(cfg.updaterImage))))
                 else spec1;
    WithPullSecrets(spec2, cfg)
  }

  predicate NeedsDefaults(spec: Spec, cfg: Settings) {
    || cfg.controlImage || spec.image == ""
    || (spec.vault.Some? && spec.vault.value.updaterImage.None?)
    || (spec.pullSecrets.None? && DefaultPullSecrets(cfg) != [])
  }

  function DefaultsSpec(s: Sys, cfg: Settings, sch: Schedule): Step {
    if !NeedsDefaults(s.rmq.spec, cfg) then Step(s, Continue)
    else WriteClusterSpec(s.(rmq := s.rmq.(spec := Defaulted(s.rmq.spec, cfg))), sch)
  }

  /** getChildResources; None when there are more sets than the slice has room for. */
  function ChildResources(w: World, keys: seq<Key>, replicas: nat): (r: Option<seq<Resource>>)
    requires AllMine(w, keys)
    ensures r.Some? <==> |keys| <= replicas + 1
    ensures r.Some? ==> WellFormed(r.value)
  {
    if |keys| > replicas + 1 then None
    else Some(seq(replicas + 1, i requires 0 <= i < replicas + 1 =>
      if i < |keys| then SetResource(Some(w.objects[keys[i]]))
      else if i < replicas then SetResource(None)
      else EndpointsResource(w.endpoints)))
  }

  function WithConditions(s: Sys, conditions: seq<Condition>): Sys {
    s.(rmq := s.rmq.(status := s.rmq.status.(conditions := conditions)))
  }

  function ConditionsSpec(s: Sys, sch: Schedule): Step {
    var keys := ListSets(s, sch);
    if keys.None? then Step(Called(s), Error)
    else if sch.fails(s.calls + 1) then Step(Called(Called(s)), Error)
    else
      var s1 := Called(Called(s));
      match ChildResources(s.world, keys.value, s.rmq.spec.replicas)
      case None => Step(s1, Panic)
      case Some(resources) =>
        var conditions := SetConditionsSpec(resources, s.rmq.status.conditions, sch.now(s1.calls));
        if conditions == s.rmq.status.conditions then Step(s1, Continue)
        else WriteStatusSpec(WithConditions(s1, conditions), sch)
  }

  function TLSError(s: Sys, sch: Schedule): Sys {
    WithCondition(s, ReconcileSuccess, ConditionFalse, "TLSError", "", sch)
  }

  /** reconcileTLS; a failed call stands for a missing secret or a missing field as well. */
  function TLSSpec(s: Sys, sch: Schedule): Step {
    if s.rmq.spec.disableNonTLS && !s.rmq.TLSEnabled() then Step(TLSError(s, sch), Done)
    else if !s.rmq.SecretTLSEnabled() then Step(s, Continue)
    else if sch.fails(s.calls) then Step(TLSError(Called(s), sch), Error)
    else if s.rmq.MutualTLSEnabled() && s.rmq.spec.caSecret != s.rmq.spec.tlsSecret then
      if sch.fails(s.calls + 1) then Step(TLSError(Called(Called(s)), sch), Error)
        else Step(Called(Called(s)), Continue)
    else Step(Called(s), Continue)
  }

  /** statefulSetNeedsQueueRebalance */
  predicate NeedsRebalance(o: Object, rmq: Cluster)
    requires o.StatefulSet?
  {
    BeingUpdated(o) && !rmq.spec.skipPostDeploySteps && rmq.spec.replicas > 1
  }

  function MarkSpec(s: Sys, sch: Schedule): Step {
    var keys := ListSets(s, sch);
    if keys.None? then Step(Called(s), Error)
    else if forall i :: 0 <= i < |keys.value| ==> !NeedsRebalance(s.world.objects[keys.value[i]], s.rmq) then
      Step(Called(s), Continue)
    else if Flagged(s.rmq.annotations, REBALANCE_NEEDED) then Step(Called(s), Continue)
    else
      var s1 := Called(s);
      WriteClusterSpec(s1.(rmq := s1.rmq.(annotations := s1.rmq.annotations[REBALANCE_NEEDED := sch.now(s1.calls)])),
        sch)
  }

  function ScaleDownSpec(s: Sys, sch: Schedule): Step {
    if s.rmq.status.replicas <= s.rmq.spec.replicas then Step(s, Continue)
    else Step(WithCondition(s, ReconcileSuccess, ConditionFalse, "UnsupportedOperation",
      "cluster Scale down not supported; tried to scale cluster from " + Itoa(s.rmq.status.replicas)
      + " nodes to " + Itoa(s.rmq.spec.replicas) + " nodes", sch), Done)
  }

  /** The status fields reconcileStatus keeps. */
  function Published(rmq: Cluster): ClusterStatus {
    var user := ChildResourceName(rmq.name, "default-user");
    rmq.status.(
      replicas := if rmq.spec.replicas > rmq.status.replicas then rmq.spec.replicas else rmq.status.replicas,
      defaultUser := Some(DefaultUser(
        ChildResourceName(rmq.name, ""), if rmq.VaultDefaultUserSecretEnabled() then None else Some(user))),
      binding := if rmq.VaultDefaultUserSecretEnabled() then rmq.status.binding
                 else if rmq.ExternalSecretEnabled() then Some(rmq.spec.externalSecret) else Some(user))
  }

  function StatusSpec(s: Sys, sch: Schedule): Step {
    var status := Published(s.rmq);
    if status == s.rmq.status then Step(s, Continue)
    else WriteStatusSpec(s.(rmq := s.rmq.(status := status)), sch)
  }

  // ------------------------------------------- what the specification promises

  ghost predicate ClusterOnly(w: World, v: World) { v == w.(cluster := v.cluster) }

  /** What one pass may make of the rest of the cluster. */
  ghost predicate SameIdentity(c: Cluster, d: Cluster) {
    && d.name == c.name && d.namespace == c.namespace && d.uid == c.uid && d.labels == c.labels
    && d.deleting == c.deleting && d.spec.replicas == c.spec.replicas && d.spec.storage == c.spec.storage
    && d.spec.skipPostDeploySteps == c.spec.skipPostDeploySteps
    && (Clean(c) ==> Clean(d))
    && (c.deleting && c.finalizers != [] ==> d.finalizers != [])
    && (!c.deleting ==> forall f :: f in c.finalizers ==> f in d.finalizers)
  }

  /** A rebalance mark is still there, with the same value. */
  ghost predicate MarkKept(c: Cluster, d: Cluster) {
    Flagged(c.annotations, REBALANCE_NEEDED) ==>
      REBALANCE_NEEDED in d.annotations && d.annotations[REBALANCE_NEEDED] == c.annotations[REBALANCE_NEEDED]
  }

  /** The cluster and its cached copy after a stage, when both agreed before it. */
  ghost predicate ClusterEffect(c: Cluster, t: Sys) {
    && StatusAfter(c.status, t.rmq.status)
    && (t.world.cluster.Some? ==>
          && SameIdentity(c, t.world.cluster.value) && MarkKept(c, t.world.cluster.value)
          && StatusAfter(c.status, t.world.cluster.value.status))
    && (t.world.cluster.None? ==> c.deleting)
  }

  lemma WriteClusterEffect(c: Cluster, s: Sys, sch: Schedule)
    requires s.world.cluster == Some(c) && SameIdentity(c, s.rmq) && MarkKept(c, s.rmq) && s.rmq.status == c.status
    ensures var t := WriteClusterSpec(s, sch);
            ClusterOnly(s.world, t.sys.world) && ClusterEffect(c, t.sys) && t.outcome.Completed()
  {
    hide InShape, Successful;
  }

  lemma WriteStatusEffect(c: Cluster, s: Sys, sch: Schedule)
    requires s.world.cluster == Some(c) && StatusAfter(c.status, s.rmq.status)
    ensures var t := WriteStatusSpec(s, sch);
            ClusterOnly(s.world, t.sys.world) && ClusterEffect(c, t.sys) && t.outcome.Completed()
  {
    hide InShape, Successful;
  }

  lemma DefaultsKeepIdentity(c: Cluster, cfg: Settings)
    ensures SameIdentity(c, c.(spec := Defaulted(c.spec, cfg)))
  {
  }

  lemma MarkKeepsIdentity(c: Cluster, now: string)
    ensures SameIdentity(c, c.(annotations := c.annotations[REBALANCE_NEEDED := now]))
  {
  }

  /** A stage that passes changes nothing; one that does not changes at most the cluster. */
  ghost predicate StageEffect(s: Sys, t: Step) {
    && ClusterOnly(s.world, t.sys.world) && ClusterEffect(s.rmq, t.sys)
    && (t.outcome.Continue? ==> t.sys.world == s.world && t.sys.rmq == s.rmq)
  }

  lemma PausedEffect(s: Sys, sch: Schedule)
    requires s.world.cluster == Some(s.rmq)
    ensures StageEffect(s, PausedSpec(s, sch))
  {
    ConditionKeeps(s, NoWarnings, ConditionFalse, "reconciliation paused", "", sch);
    hide WithCondition, InShape, Successful, Clean;
  }

  lemma DefaultsEffect(s: Sys, cfg: Settings, sch: Schedule)
    requires s.world.cluster == Some(s.rmq)
    ensures StageEffect(s, DefaultsSpec(s, cfg, sch))
  {
    var s1 := s.(rmq := s.rmq.(spec := Defaulted(s.rmq.spec, cfg)));
    DefaultsKeepIdentity(s.rmq, cfg);
    WriteClusterEffect(s.rmq, s1, sch);
    hide Clean, InShape, Successful, WriteClusterSpec, Defaulted;
  }

  lemma ConditionsEffect(s: Sys, sch: Schedule)
    requires s.world.cluster == Some(s.rmq)
    ensures StageEffect(s, ConditionsSpec(s, sch))
    ensures ConditionsSpec(s, sch).outcome.Panic? <==>
              && ListSets(s, sch).Some? && !sch.fails(s.calls + 1)
              && |MineSet(s.world)| > s.rmq.spec.replicas + 1
  {
    hide Clean, SetConditionsSpec, InShape, Successful;
    var keys := ListSets(s, sch);
    if keys.Some? {
      ListingIsMine(s.world, keys.value);
      if !sch.fails(s.calls + 1) && |keys.value| <= s.rmq.spec.replicas + 1 {
        var s1 := Called(Called(s));
        var resources := ChildResources(s.world, keys.value, s.rmq.spec.replicas).value;
        SetConditionsKeeps(resources, s.rmq.status, sch.now(s1.calls));
        WriteStatusEffect(s.rmq,
          WithConditions(s1, SetConditionsSpec(resources, s.rmq.status.conditions, sch.now(s1.calls))), sch);
      }
    }
  }

  /**
    AllReplicasReady, as the code computes it: True exactly when no set is missing and the
    last listed set is ready, whatever the others report.
  */
  lemma AllReplicasReadyIff(w: World, keys: seq<Key>, replicas: nat, conditions: seq<Condition>, now: string)
    requires AllMine(w, keys) && |keys| <= replicas + 1
    ensures var c := SetConditionsSpec(ChildResources(w, keys, replicas).value, conditions, now)[0];
            c.status == ConditionTrue <==>
              && keys != [] && |keys| >= replicas
              && var last := w.objects[keys[|keys| - 1]]; last.spec.replicas == last.status.readyReplicas
  {
    hide NoWarningsFrom, ClusterAvailableFrom, Latest, MemoryAgrees, Itoa;
    var r := ChildResources(w, keys, replicas).value;
    var prior := Fresh(AllReplicasReady, Latest(conditions, AllReplicasReady));
    var sets := if |keys| > replicas then |keys| else replicas;
    if sets == 0 {
      NoSets(r, prior);
    } else {
      LastSetDecides(r, sets - 1, prior, prior);
    }
  }

  /** The first container of the set may use more memory than it asks for. */
  ghost predicate Overcommits(o: Object) {
    && o.StatefulSet? && o.spec.template.containers != []
    && o.spec.template.containers[0].memoryLimit != o.spec.template.containers[0].memoryRequest
  }

  /**
    NoWarnings, as the code computes it: True exactly when no set is missing and the last listed set
    does not overcommit, and False with a reason only because of that set.
  */
  lemma NoWarningsIff(w: World, keys: seq<Key>, replicas: nat, conditions: seq<Condition>, now: string)
    requires AllMine(w, keys) && |keys| <= replicas + 1 && |keys| + replicas > 0
    ensures var c := SetConditionsSpec(ChildResources(w, keys, replicas).value, conditions, now)[2];
            if |keys| < replicas then c.status == ConditionUnknown && c.reason == "MissingStatefulSet"
            else if Overcommits(w.objects[keys[|keys| - 1]]) then
              c.status == ConditionFalse && c.reason == "MemoryRequestAndLimitDifferent"
            else c.status == ConditionTrue && c.reason == "NoWarnings"
  {
    hide ClusterAvailableFrom, AllReplicasReadyFrom, NoWarningsFrom, Latest, Itoa;
    var r := ChildResources(w, keys, replicas).value;
    var prior := Fresh(NoWarnings, Latest(conditions, NoWarnings));
    LastSetDecides(r, (if |keys| > replicas then |keys| else replicas) - 1, prior, prior);
  }

  /**
    ClusterAvailable, as the code computes it: never True. It is False exactly when endpoints
    exist and their slot is not taken by one set too many.
  */
  lemma ClusterAvailableIff(w: World, keys: seq<Key>, replicas: nat, conditions: seq<Condition>, now: string)
    requires AllMine(w, keys) && |keys| <= replicas + 1
    ensures var c := SetConditionsSpec(ChildResources(w, keys, replicas).value, conditions, now)[1];
            c.status == if |keys| <= replicas && w.endpoints.Some? then ConditionFalse else ConditionUnknown
  {
    var r := ChildResources(w, keys, replicas).value;
    var prior := Fresh(ClusterAvailable, Latest(conditions, ClusterAvailable));
    if |keys| <= replicas {
      LastEndpointsDecide(r, replicas, prior);
    } else {
      NoEndpoints(r, prior);
    }
  }

  /** Once written, the conditions are not rewritten by a later pass that sees the same resources, whatever the time. */
  lemma ConditionsWrittenOnce(s: Sys, sch: Schedule, c: nat, later: Schedule)
    requires s.world.cluster == Some(s.rmq) && ConditionsSpec(s, sch).outcome.Done?
    requires !later.fails(c) && !later.fails(c + 1) && later.listing(c) == sch.listing(s.calls)
    ensures var v := ConditionsSpec(s, sch).sys.world;
            && v.cluster.Some?
            && var again := ConditionsSpec(Sys(v, v.cluster.value, c), later);
               again.outcome.Continue? && again.sys.world == v && again.sys.rmq == v.cluster.value
  {
    var keys := sch.listing(s.calls);
    var s1 := Called(Called(s));
    var resources := ChildResources(s.world, keys, s.rmq.spec.replicas).value;
    var before := s.rmq.status.conditions;
    SetConditionsTwice(resources, before, sch.now(s1.calls), later.now(c + 2));
    hide SetConditionsSpec;
    var v := ConditionsSpec(s, sch).sys.world;
    SameListing(s.world, v, keys);
    assert ChildResources(v, keys, s.rmq.spec.replicas) == Some(resources);
  }

  lemma SameListing(w: World, v: World, keys: seq<Key>)
    requires ClusterOnly(w, v)
    ensures IsListing(v, keys) <==> IsListing(w, keys)
    ensures AllMine(v, keys) <==> AllMine(w, keys)
  {
    assert forall k :: Mine(v, k) <==> Mine(w, k);
  }

  lemma TLSEffect(s: Sys, sch: Schedule)
    requires s.world.cluster == Some(s.rmq)
    ensures StageEffect(s, TLSSpec(s, sch))
    ensures TLSSpec(s, sch).outcome.Continue? ==> (s.rmq.spec.disableNonTLS ==> s.rmq.TLSEnabled())
  {
    ConditionKeeps(s, ReconcileSuccess, ConditionFalse, "TLSError", "", sch);
    ConditionKeeps(Called(s), ReconcileSuccess, ConditionFalse, "TLSError", "", sch);
    ConditionKeeps(Called(Called(s)), ReconcileSuccess, ConditionFalse, "TLSError", "", sch);
    hide WithCondition, InShape, Successful, Clean;
  }

  lemma MarkEffect(s: Sys, sch: Schedule)
    requires s.world.cluster == Some(s.rmq)
    ensures StageEffect(s, MarkSpec(s, sch))
    ensures MarkSpec(s, sch).outcome.Continue? && !Flagged(s.rmq.annotations, REBALANCE_NEEDED) ==>
              forall k :: k in s.world.objects && Mine(s.world, k) ==> !NeedsRebalance(s.world.objects[k], s.rmq)
  {
    var s1 := Called(s);
    var now := sch.now(s1.calls);
    MarkKeepsIdentity(s.rmq, now);
    if !Flagged(s.rmq.annotations, REBALANCE_NEEDED) {
      WriteClusterEffect(s.rmq, s1.(rmq := s1.rmq.(annotations := s1.rmq.annotations[REBALANCE_NEEDED := now])), sch);
    }
    hide Clean, InShape, Successful, WriteClusterSpec, SameIdentity;
    var keys := ListSets(s, sch);
    if keys.Some? {
      forall k | k in s.world.objects && Mine(s.world, k) ensures k in keys.value {
      }
    }
  }

  lemma ScaleDownEffect(s: Sys, sch: Schedule)
    requires s.world.cluster == Some(s.rmq)
    ensures StageEffect(s, ScaleDownSpec(s, sch))
    ensures ScaleDownSpec(s, sch).outcome.Continue? <==> s.rmq.status.replicas <= s.rmq.spec.replicas
  {
    hide InShape, Successful, Clean;
    if s.rmq.status.replicas > s.rmq.spec.replicas {
      ConditionKeeps(s, ReconcileSuccess, ConditionFalse, "UnsupportedOperation",
        "cluster Scale down not supported; tried to scale cluster from " + Itoa(s.rmq.status.replicas)
        + " nodes to " + Itoa(s.rmq.spec.replicas) + " nodes", sch);
    }
    hide WithCondition;
  }

  /** The status after the stage: as before, or as published. */
  predicate MaybePublished(rmq: Cluster, status: ClusterStatus) {
    status == rmq.status || status == Published(rmq)
  }

  /** The stage that publishes the status, and alone raises its replicas. */
  lemma StatusEffect(s: Sys, sch: Schedule)
    requires s.world.cluster == Some(s.rmq)
    ensures var t := StatusSpec(s, sch);
            && ClusterOnly(s.world, t.sys.world)
            && t.sys.rmq == s.rmq.(status := t.sys.rmq.status) && MaybePublished(s.rmq, t.sys.rmq.status)
            && t.sys.world.cluster.Some?
            && t.sys.world.cluster.value == s.rmq.(status := t.sys.world.cluster.value.status)
            && MaybePublished(s.rmq, t.sys.world.cluster.value.status)
            && (t.outcome.Continue? ==> t.sys.world == s.world && t.sys.rmq == s.rmq)
            && (t.outcome.Continue? <==> Published(s.rmq) == s.rmq.status)
  {
    hide Published;
  }

  /**
    An operator that controls the image rewrites it in every pass: the stage never
    passes, so nothing after it ever runs. Without that setting it passes exactly when
    the defaults are already there, and one write puts them there.
  */
  lemma ControlNeverPasses(s: Sys, cfg: Settings, sch: Schedule)
    ensures cfg.controlImage ==> !DefaultsSpec(s, cfg, sch).outcome.Continue?
    ensures !cfg.controlImage && cfg.defaultImage != "" ==> !NeedsDefaults(Defaulted(s.rmq.spec, cfg), cfg)
    ensures DefaultsSpec(s, cfg, sch).outcome.Continue? <==> !NeedsDefaults(s.rmq.spec, cfg)
  {
  }

  // --------------------------------------------------------------- the stages

  method WriteCluster(api: Api) returns (res: Outcome)
    modifies api
    ensures Step(api.State(), res) == WriteClusterSpec(old(api.State()), api.sch)
  {
    var ok := api.Call();
    if !ok { return Error; }
    var updated := UpdateCluster(Sys(api.world, api.rmq, api.calls));
    api.world, api.rmq := updated.world, updated.rmq;
    return Done;
  }

  method WriteStatus(api: Api) returns (res: Outcome)
    modifies api
    ensures Step(api.State(), res) == WriteStatusSpec(old(api.State()), api.sch)
  {
    var ok := api.Call();
    if !ok { return Error; }
    api.world := UpdateStatus(Sys(api.world, api.rmq, api.calls)).world;
    return Done;
  }

  method ReconcilePaused(api: Api) returns (res: Outcome)
    modifies api
    ensures Step(api.State(), res) == PausedSpec(old(api.State()), api.sch)
  {
    if PAUSE_LABEL !in api.rmq.labels || api.rmq.labels[PAUSE_LABEL] != "true" { return Continue; }
    SetCondition(api, NoWarnings, ConditionFalse, "reconciliation paused", "");
    return Done;
  }

  method ReconcileOperatorDefaults(api: Api, cfg: Settings) returns (res: Outcome)
    modifies api
    ensures Step(api.State(), res) == DefaultsSpec(old(api.State()), cfg, api.sch)
  {
    var updated := false;
    var spec := api.rmq.spec;
    if cfg.controlImage || spec.image == "" {
      updated := true;
      spec := spec.(image := cfg.defaultImage);
    }
    if spec.vault.Some? {
      if cfg.controlImage || spec.vault.value.updaterImage.None? {
        updated := true;
        spec := spec.(vault := Some(spec.vault.value.(updaterImage := Some(cfg.updaterImage))));
      }
    }
    if spec.pullSecrets.None? {
      var references := Split(cfg.pullSecrets, ',');
      var found: seq<string> := [];
      for i := 0 to |references|
        invariant found == NonEmpty(references[..i])
      {
        assert references[..i + 1][..i] == references[..i];
        if |references[i]| > 0 {
          found := found + [references[i]];
        }
      }
      assert references[..|references|] == references;
      if found != [] {
        updated := true;
        spec := spec.(pullSecrets := Some(found));
      }
    }
    if !updated { return Continue; }
    api.rmq := api.rmq.(spec := spec);
    res := WriteCluster(api);
  }

  method GetChildResources(w: World, keys: seq<Key>, replicas: nat) returns (res: Option<seq<Resource>>)
    requires AllMine(w, keys)
    ensures res == ChildResources(w, keys, replicas)
  {
    var found: seq<Resource> := [];
    for i := 0 to replicas
      invariant |found| == i && forall j :: 0 <= j < i ==> found[j] == SetResource(None)
    {
      found := found + [SetResource(None)];
    }
    found := found + [EndpointsResource(w.endpoints)];
    for i := 0 to |keys|
      invariant |found| == replicas + 1 && i <= replicas + 1
      invariant forall j :: 0 <= j < |found| ==>
                  found[j] == if j < i then SetResource(Some(w.objects[keys[j]]))
                              else if j < replicas then SetResource(None) else EndpointsResource(w.endpoints)
    {
      if i >= |found| { return None; }
      found := found[i := SetResource(Some(w.objects[keys[i]]))];
    }
    ghost var spec := ChildResources(w, keys, replicas);
    assert spec.Some? && found == spec.value;
    return Some(found);
  }

  method ReconcileStatusConditions(api: Api) returns (res: Outcome)
    modifies api
    ensures Step(api.State(), res) == ConditionsSpec(old(api.State()), api.sch)
  {
    hide SetConditionsSpec, ChildResources;
    var listed := api.List();
    if listed.None? { return Error; }
    var ok := api.Call();
    if !ok { return Error; }
    var resources := GetChildResources(api.world, listed.value, api.rmq.spec.replicas);
    if resources.None? { return Panic; }
    var before := api.rmq.status.conditions;
    var conditions := Conditions.SetConditions(resources.value, before, api.sch.now(api.calls));
    if conditions == before { return Continue; }
    api.rmq := api.rmq.(status := api.rmq.status.(conditions := conditions));
    res := WriteStatus(api);
  }

  method ReconcileTLS(api: Api) returns (res: Outcome)
    modifies api
    ensures Step(api.State(), res) == TLSSpec(old(api.State()), api.sch)
  {
    if api.rmq.spec.disableNonTLS && !api.rmq.TLSEnabled() {
      SetCondition(api, ReconcileSuccess, ConditionFalse, "TLSError", "");
      return Done;
    }
    if api.rmq.SecretTLSEnabled() {
      var ok := CheckTLSSecrets(api);
      if !ok {
        SetCondition(api, ReconcileSuccess, ConditionFalse, "TLSError", "");
        return Error;
      }
    }
    return Continue;
  }

  method CheckTLSSecrets(api: Api) returns (ok: bool)
    modifies api`calls
    ensures ok <==>
              !api.sch.fails(old(api.calls)) && (api.calls == old(api.calls) + 2 ==> !api.sch.fails(old(api.calls) + 1))
    ensures api.calls == old(api.calls) + if && !api.sch.fails(old(api.calls)) && api.rmq.MutualTLSEnabled()
                                             && api.rmq.spec.caSecret != api.rmq.spec.tlsSecret then 2 else 1
  {
    ok := api.Call();
    if !ok { return; }
    if api.rmq.MutualTLSEnabled() && api.rmq.spec.caSecret != api.rmq.spec.tlsSecret {
      ok := api.Call();
    }
  }

  method ReconcileQueueRebalanced(api: Api) returns (res: Outcome)
    modifies api
    ensures Step(api.State(), res) == MarkSpec(old(api.State()), api.sch)
  {
    var listed := api.List();
    if listed.None? { return Error; }
    var keys := listed.value;
    var needRebalance := false;
    for i := 0 to |keys|
      invariant !needRebalance && forall j :: 0 <= j < i ==> !NeedsRebalance(api.world.objects[keys[j]], api.rmq)
    {
      if NeedsRebalance(api.world.objects[keys[i]], api.rmq) {
        needRebalance := true;
        break;
      }
    }
    if !needRebalance { return Continue; }
    if Flagged(api.rmq.annotations, REBALANCE_NEEDED) { return Continue; }
    api.rmq := api.rmq.(annotations := api.rmq.annotations[REBALANCE_NEEDED := api.sch.now(api.calls)]);
    res := WriteCluster(api);
  }

  method ReconcileScaleDown(api: Api) returns (res: Outcome)
    modifies api
    ensures Step(api.State(), res) == ScaleDownSpec(old(api.State()), api.sch)
  {
    var next, curr := api.rmq.spec.replicas, api.rmq.status.replicas;
    if curr <= next { return Continue; }
    SetCondition(api, ReconcileSuccess, ConditionFalse, "UnsupportedOperation",
      "cluster Scale down not supported; tried to scale cluster from " + Itoa(curr) + " nodes to " + Itoa(next)
        + " nodes");
    return Done;
  }

  method ReconcileStatus(api: Api) returns (res: Outcome)
    modifies api
    ensures Step(api.State(), res) == StatusSpec(old(api.State()), api.sch)
  {
    var before := api.rmq.status;
    var status := before;
    if api.rmq.spec.replicas > status.replicas {
      status := status.(replicas := api.rmq.spec.replicas);
    }
    status := status.(defaultUser := Some(DefaultUser(ChildResourceName(api.rmq.name, ""), None)));
    if !api.rmq.VaultDefaultUserSecretEnabled() {
      var user := ChildResourceName(api.rmq.name, "default-user");
      status := status.(defaultUser := Some(status.defaultUser.value.(secretName := Some(user))));
      status := status.(binding := Some(if api.rmq.ExternalSecretEnabled() then api.rmq.spec.externalSecret else user));
    }
    if before.replicas == status.replicas && before.binding == status.binding
      && before.defaultUser == status.defaultUser {
      return Continue;
    }
    api.rmq := api.rmq.(status := status);
    res := WriteStatus(api);
  }
}
