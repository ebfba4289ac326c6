/**
  The gates of a pass: on the fields of the cluster itself, what each early stage lets through,
  what it writes otherwise, and the reason it leaves in the status.
*/
module Gates {
  import opened Basics
  import opened Objects
  import opened Store
  import opened Names
  import opened Conditions
  import opened Stages
  import opened Reconcile
  import opened Passes
  import opened Protocol
  import Cli
  import Finalizer
  import Resources
  import Scaling
  import Traces

  // -------------------------------------------------------------- what is recorded

  /** The status says that the last reconciliation failed, and why. */
  ghost predicate Blames(conditions: seq<Condition>, reason: string) {
    exists i :: 0 <= i < |conditions| && conditions[i].ctype == ReconcileSuccess
      && conditions[i].status == ConditionFalse && conditions[i].reason == reason
  }

  lemma FailureRecorded(s: Sys, reason: string, message: string, sch: Schedule)
    requires InShape(s.rmq.status.conditions) && s.rmq.status.conditions != []
    ensures var t := WithCondition(s, ReconcileSuccess, ConditionFalse, reason, message, sch);
            && Blames(t.rmq.status.conditions, reason)
            && forall i :: 0 <= i < 3 ==> t.rmq.status.conditions[i] == s.rmq.status.conditions[i]
  {
    var c := s.rmq.status.conditions;
    var t := WithCondition(s, ReconcileSuccess, ConditionFalse, reason, message, sch);
    assert FirstOf(c, ReconcileSuccess, 0) == 3;
    assert t.rmq.status.conditions[3].ctype == ReconcileSuccess;
  }

  // ------------------------------------------------------------------- the gates

  /** The user has paused the cluster. */
  predicate Paused(c: Cluster) {
    "rabbitmq.com/pauseReconciliation" in c.labels && c.labels["rabbitmq.com/pauseReconciliation"] == "true"
  }

  /** Something the operator fills in is missing, or the operator controls the image. */
  ghost predicate Incomplete(c: Cluster, cfg: Settings) {
    || cfg.controlImage || c.spec.image == ""
    || (c.spec.vault.Some? && c.spec.vault.value.updaterImage.None?)
    || (c.spec.pullSecrets.None? && exists p :: p in Split(cfg.pullSecrets, ',') && p != "")
  }

  /** Plain listeners are off, and nothing brings certificates. */
  predicate Unreachable(c: Cluster) {
    && c.spec.disableNonTLS && c.spec.tlsSecret == ""
    && !(c.spec.vault.Some? && c.spec.vault.value.pkiIssuerPath != "")
  }

  predicate Shrinking(c: Cluster) { c.spec.replicas < c.status.replicas }

  /** A paused cluster gets a warning and no other change; every other cluster passes. */
  lemma PausedIff(s: Sys, sch: Schedule)
    ensures PausedSpec(s, sch).outcome.Continue? <==> !Paused(s.rmq)
    ensures var t := PausedSpec(s, sch);
            t.sys.world == s.world && (Paused(s.rmq) ==> t.outcome.Done?)
            && (Paused(s.rmq) && InShape(s.rmq.status.conditions) && s.rmq.status.conditions != [] ==>
                  && t.sys.rmq.status.conditions[2].status == ConditionFalse
                  && t.sys.rmq.status.conditions[2].reason == "reconciliation paused"
                  && t.sys.rmq.status.conditions[3] == s.rmq.status.conditions[3])
  {
    var c := s.rmq.status.conditions;
    if InShape(c) && c != [] {
      assert FirstOf(c, NoWarnings, 0) == 2;
    }
  }

  lemma MissingSecretsIff(cfg: Settings)
    ensures DefaultPullSecrets(cfg) != [] <==> exists p :: p in Split(cfg.pullSecrets, ',') && p != ""
  {
    var refs := DefaultPullSecrets(cfg);
    if refs != [] {
      assert refs[0] in refs;
    }
  }

  /** The stage that fills in defaults passes exactly when none is missing, and otherwise writes exactly those. */
  lemma DefaultsIff(s: Sys, cfg: Settings, sch: Schedule)
    requires s.world.cluster == Some(s.rmq)
    ensures var t := DefaultsSpec(s, cfg, sch);
            && (t.outcome.Continue? <==> !Incomplete(s.rmq, cfg))
            && (Incomplete(s.rmq, cfg) ==> (t.outcome.Done? <==> !sch.fails(s.calls)))
            && (t.outcome.Done? && !(s.rmq.deleting && s.rmq.finalizers == []) ==>
                  && t.sys.world.cluster.Some?
                  && FilledIn(s.rmq.spec, cfg, t.sys.world.cluster.value.spec)
                  && t.sys.world == s.world.(cluster := t.sys.world.cluster))
  {
    MissingSecretsIff(cfg);
    hide Split;
  }

  /** The old specification with the operator's defaults where it had none. */
  ghost predicate FilledIn(old_: Spec, cfg: Settings, spec: Spec) {
    && spec == old_.(image := spec.image, vault := spec.vault, pullSecrets := spec.pullSecrets)
    && spec.image == (if cfg.controlImage || old_.image == "" then cfg.defaultImage else old_.image)
    && (old_.vault.None? ==> spec.vault.None?)
    && (old_.vault.Some? ==>
          && spec.vault.Some?
          && spec.vault.value == old_.vault.value.(updaterImage := spec.vault.value.updaterImage)
          && spec.vault.value.updaterImage ==
            (if cfg.controlImage || old_.vault.value.updaterImage.None? then Some(cfg.updaterImage)
             else old_.vault.value.updaterImage))
    && (old_.pullSecrets.Some? ==> spec.pullSecrets == old_.pullSecrets)
    && (old_.pullSecrets.None? ==>
          if exists p :: p in Split(cfg.pullSecrets, ',') && p != "" then
            spec.pullSecrets.Some? && forall p :: p in spec.pullSecrets.value <==>
              p in Split(cfg.pullSecrets, ',') && p != ""
          else spec.pullSecrets.None?)
  }

  /** The CA is in a secret of its own. */
  predicate SeparateCa(c: Cluster) {
    && (c.spec.caSecret != "" || (c.spec.vault.Some? && c.spec.vault.value.pkiIssuerPath != ""))
    && c.spec.caSecret != c.spec.tlsSecret
  }

  /**
    Certificates are checked exactly when a secret is named; a cluster that could not be reached ends
    the pass, and so does a secret that cannot be read, both with the reason in the status.
  */
  lemma TLSIff(s: Sys, sch: Schedule)
    ensures var t := TLSSpec(s, sch);
            && (t.outcome.Continue? <==>
                  && !Unreachable(s.rmq)
                  && (s.rmq.spec.tlsSecret != "" ==>
                        !sch.fails(s.calls) && (SeparateCa(s.rmq) ==> !sch.fails(s.calls + 1))))
            && (t.outcome.Done? <==> Unreachable(s.rmq)) && (t.outcome.Continue? || t.outcome.Done? || t.outcome.Error?)
            && (!t.outcome.Continue? && InShape(s.rmq.status.conditions) && s.rmq.status.conditions != [] ==>
                  Blames(t.sys.rmq.status.conditions, "TLSError"))
  {
    hide Blames, WithCondition, InShape;
    if InShape(s.rmq.status.conditions) && s.rmq.status.conditions != [] {
      FailureRecorded(s, "TLSError", "", sch);
      FailureRecorded(Called(s), "TLSError", "", sch);
      FailureRecorded(Called(Called(s)), "TLSError", "", sch);
    }
  }

  /** A node is being updated in a cluster of several nodes whose queues are to be rebalanced afterwards. */
  ghost predicate Rebalances(w: World, c: Cluster) {
    && c.spec.replicas > 1 && !c.spec.skipPostDeploySteps
    && exists k :: Mine(w, k) && w.objects[k].status.currentRevision != w.objects[k].status.updateRevision
  }

  ghost predicate Marked(c: Cluster) {
    REBALANCE_NEEDED in c.annotations && c.annotations[REBALANCE_NEEDED] != ""
  }

  /**
    The stage that marks a cluster passes exactly when no rebalance is due or the mark is there, and
    otherwise sets it.
  */
  lemma MarkIff(s: Sys, sch: Schedule)
    requires s.world.cluster == Some(s.rmq) && ListSets(s, sch).Some?
    ensures var t := MarkSpec(s, sch);
            && (t.outcome.Continue? <==> !Rebalances(s.world, s.rmq) || Marked(s.rmq))
            && (t.outcome.Done? && !(s.rmq.deleting && s.rmq.finalizers == []) ==>
                  && !sch.fails(s.calls + 1) && t.sys.world.cluster.Some?
                  && t.sys.world.cluster.value.annotations ==
                    s.rmq.annotations["rabbitmq.com/queueRebalanceNeededAt" := sch.now(s.calls + 1)])
  {
    var keys := ListSets(s, sch).value;
    hide Distinct;
    if Rebalances(s.world, s.rmq) {
      var k :| Mine(s.world, k)
        && s.world.objects[k].status.currentRevision != s.world.objects[k].status.updateRevision;
      assert k in keys;
      var i :| 0 <= i < |keys| && keys[i] == k;
      assert NeedsRebalance(s.world.objects[keys[i]], s.rmq);
    } else {
      forall i | 0 <= i < |keys| ensures !NeedsRebalance(s.world.objects[keys[i]], s.rmq) {
        assert Mine(s.world, keys[i]);
      }
    }
  }

  lemma ShrinkingIff(s: Sys, sch: Schedule)
    ensures ScaleDownSpec(s, sch).outcome.Continue? <==> !Shrinking(s.rmq)
    ensures Shrinking(s.rmq) && InShape(s.rmq.status.conditions) && s.rmq.status.conditions != [] ==>
              && ScaleDownSpec(s, sch).outcome.Done?
              && Blames(ScaleDownSpec(s, sch).sys.rmq.status.conditions, "UnsupportedOperation")
  {
    hide Blames, WithCondition, InShape;
    if InShape(s.rmq.status.conditions) && s.rmq.status.conditions != [] {
      FailureRecorded(s, "UnsupportedOperation",
        "cluster Scale down not supported; tried to scale cluster from " + Itoa(s.rmq.status.replicas)
        + " nodes to " + Itoa(s.rmq.spec.replicas) + " nodes", sch);
    }
  }

  // ----------------------------------------------------------------- later stages

  /** A failed claim scaling and a failed write of a child end the pass with their reasons. */
  lemma BuilderFailureRecorded(s: Sys, key: Key, desired: nat, b: Builder, built: Object, sch: Schedule)
    requires InShape(s.rmq.status.conditions) && s.rmq.status.conditions != []
    ensures !Scaling.ScaleSpec(s, key, desired, sch).1 ==>
              var t := Resources.ReconcilePVCSpec(s, key, desired, sch);
              t.outcome.Error? && Blames(t.sys.rmq.status.conditions, "FailedReconcilePVC")
    ensures Resources.CreateOrUpdateSpec(s, b, built, sch).1.Failed? ==>
              var t := Resources.ApplyStep(s, b, built, sch);
              t.outcome.Error? && Blames(t.sys.rmq.status.conditions, "Error")
  {
    hide Blames, WithCondition, InShape, Scaling.ScaleSpec;
    var scaled := Scaling.ScaleSpec(s, key, desired, sch).0;
    Scaling.ScaleOutcomes(s, key, desired, sch);
    FailureRecorded(scaled, "FailedReconcilePVC", "", sch);
    var written := Resources.CreateOrUpdateSpec(s, b, built, sch).0;
    assert written.rmq == s.rmq;
    FailureRecorded(written, "Error", "", sch);
    hide Resources.CreateOrUpdateSpec;
  }

  /** Commands wait until the sets are complete and settled, and a failed one is recorded. */
  lemma CommandsWait(s: Sys, sch: Schedule)
    requires s.world.cluster == Some(s.rmq) && ListSets(s, sch).Some?
    ensures !Quiet(s.world) || |MineSet(s.world)| != s.rmq.spec.replicas ==>
              FinalSpec(s, sch) == Step(Called(s), Requeue(15))
    ensures FinalSpec(s, sch).outcome.IsError() && InShape(s.rmq.status.conditions) && s.rmq.status.conditions != [] ==>
              Blames(FinalSpec(s, sch).sys.rmq.status.conditions, "FailedCLICommand")
  {
    hide Blames, InShape, Quiet, MineSet, Cli.PluginsStage, Cli.CreatedStage, Cli.RebalanceStage, Cli.CliEffect;
    hide WithCondition;
    ListingIsMine(s.world, ListSets(s, sch).value);
    Cli.CliStageEffect(s, sch);
    var t := Cli.CliSpec(s, sch);
    if t.outcome.IsError() && InShape(s.rmq.status.conditions) && s.rmq.status.conditions != [] {
      FailureRecorded(t.sys, "FailedCLICommand", "", sch);
    }
  }

  // ------------------------------------------------------------------ whole passes

  /** Something on the cluster itself stands in the way of its children. */
  ghost predicate Closed(c: Cluster, cfg: Settings) {
    Paused(c) || Incomplete(c, cfg) || Unreachable(c) || Shrinking(c)
  }

  /** An early stage of a cluster with a closed gate does not pass. */
  lemma ClosedStops(u: World, rmq: Cluster, cfg: Settings, sch: Schedule)
    requires u.cluster == Some(rmq) && Closed(rmq, cfg)
    ensures |PIPELINE| == 11
    ensures !(Passed(1, u, rmq, cfg, sch) && Passed(2, u, rmq, cfg, sch) && Passed(4, u, rmq, cfg, sch)
              && Passed(6, u, rmq, cfg, sch))
  {
    hide RunStage, PIPELINE, PausedSpec, DefaultsSpec, TLSSpec, ScaleDownSpec, Incomplete, Blames, FilledIn;
    PipelineLength();
    forall c: nat
      ensures Paused(rmq) ==> !RunStage(PIPELINE[1], Sys(u, rmq, c), cfg, sch).outcome.Continue?
      ensures Incomplete(rmq, cfg) ==> !RunStage(PIPELINE[2], Sys(u, rmq, c), cfg, sch).outcome.Continue?
      ensures Unreachable(rmq) ==> !RunStage(PIPELINE[4], Sys(u, rmq, c), cfg, sch).outcome.Continue?
      ensures Shrinking(rmq) ==> !RunStage(PIPELINE[6], Sys(u, rmq, c), cfg, sch).outcome.Continue?
    {
      var s := Sys(u, rmq, c);
      PausedIs(s, cfg, sch);
      PausedIff(s, sch);
      DefaultsIs(s, cfg, sch);
      DefaultsIff(s, cfg, sch);
      TLSIs(s, cfg, sch);
      TLSIff(s, sch);
      ScaleDownIs(s, cfg, sch);
      ShrinkingIff(s, sch);
    }
  }

  /**
    While a live cluster is paused, incomplete, unreachable or asked to shrink, no pass changes
    anything but the cluster object itself, and none goes through, whichever of its calls fail.
  */
  lemma ClosedGateHolds(w: World, cfg: Settings, sch: Schedule)
    requires Live(w) && !w.cluster.value.deleting && Closed(w.cluster.value, cfg)
    ensures After(w, cfg, sch) == w.(cluster := After(w, cfg, sch).cluster)
    ensures !ReconcileSpec(w, cfg, sch).1.Continue?
  {
    hide ReconcileSpec, Clean, RunStage, Closed, Passed, PIPELINE, Undeleted, Finalizer.DeletionEffect, PastDeletion;
    hide ClusterEffect;
    if sch.fails(0) {
      Traces.UnreadPass(w, cfg, sch);
    } else {
      var u, j, c := OneStageDecides(w, cfg, sch);
      PipelineLength();
      var rmq := w.cluster.value;
      ClosedStops(u, rmq, cfg, sch);
      var t := RunStage(PIPELINE[j], if j == 0 then Sys(w, rmq, 1) else Sys(u, rmq, c), cfg, sch);
      DeferredOnly(rmq.status, t.sys, sch);
      if j > 0 {
        ClusterStageActs(Sys(u, rmq, c), j, cfg, sch);
      }
    }
  }
}
