/** When the operator declares success, the cluster is what its specification asks for. */
module Success {
  import opened Basics
  import opened Objects
  import opened Store
  import opened Names
  import opened Conditions
  import opened Resources
  import opened Stages
  import opened Builders
  import opened Reconcile
  import opened Passes
  import opened Protocol
  import Restart
  import Cli

  /** The StatefulSets a cluster should have. */
  function NodeKeys(cluster: string, n: nat): set<Key> {
    if n == 0 then {} else NodeKeys(cluster, n - 1) + {NodeKey(cluster, n - 1)}
  }

  lemma {:induction false} NodeKeysAre(cluster: string, n: nat, k: Key)
    ensures k in NodeKeys(cluster, n) <==> exists i: nat :: i < n && k == NodeKey(cluster, i)
  {
    hide NodeKey;
    if n > 0 {
      NodeKeysAre(cluster, n - 1, k);
      if k in NodeKeys(cluster, n) && k !in NodeKeys(cluster, n - 1) {
        assert n - 1 < n && k == NodeKey(cluster, n - 1);
      }
    }
  }

  lemma {:induction false} NodeKeysSize(cluster: string, n: nat)
    ensures |NodeKeys(cluster, n)| == n
  {
    hide NodeKey;
    if n > 0 {
      NodeKeysSize(cluster, n - 1);
      NodeKeysAre(cluster, n - 1, NodeKey(cluster, n - 1));
      forall i: nat | i < n - 1 ensures NodeKey(cluster, i) != NodeKey(cluster, n - 1) {
        NodeKeysApart(cluster, i, n - 1);
      }
    }
  }

  lemma NodeKeysApart(cluster: string, i: nat, j: nat)
    requires i != j
    ensures NodeKey(cluster, i) != NodeKey(cluster, j)
  {
    NodeNamesInjective(cluster, i, j);
  }

  /**
    Everything the specification asks for is there, settled, restarted after every noted change, and
    no work is pending.
  */
  ghost predicate Reconciled(v: World, rmq: Cluster) {
    && AllInPlace(v, rmq)
    && MineSet(v) == NodeKeys(rmq.name, rmq.spec.replicas)
    && Quiet(v) && NoneStale(v) && FlagsGone(v)
  }

  /** The flags the commands stage clears do not disturb any builder's fixpoint. */
  lemma InPlaceSurvives(u: World, v: World, rmq: Cluster, b: Builder)
    requires Clean(rmq) && b in ResourceBuilders(rmq) && InPlace(b, u) && Cli.CliEffect(u, v, rmq)
    ensures InPlace(b, v)
  {
    hide ResourceBuilders, Clean, Cli.Justified, OperatorKey;
    AllWellBehaved(rmq);
    var o, p := u.objects[b.key], v.objects[b.key];
    assert Cli.Unflagged(o, p, b.key, News(u, v));
    assert SameButFlags(o, p);
  }

  lemma AllInPlaceSurvives(u: World, v: World, rmq: Cluster)
    requires Clean(rmq) && AllInPlace(u, rmq) && Cli.CliEffect(u, v, rmq)
    ensures AllInPlace(v, rmq)
  {
    hide ResourceBuilders, Clean, Cli.CliEffect, InPlace;
    var bs := ResourceBuilders(rmq);
    forall m | 0 <= m < |bs| ensures InPlace(bs[m], v) {
      InPlaceSurvives(u, v, rmq, bs[m]);
    }
  }

  /** Clearing flags changes neither the settledness, the number nor the restart stamps of the sets. */
  lemma SetsSurvive(u: World, v: World, rmq: Cluster)
    requires Cli.CliEffect(u, v, rmq)
    ensures MineSet(v) == MineSet(u) && (Quiet(u) ==> Quiet(v))
  {
    hide Cli.Justified;
    CliKeepsMine(u, v, rmq);
    forall k | k in v.objects && Mine(v, k) && Quiet(u) ensures Settled(v.objects[k]) {
      assert Cli.Unflagged(u.objects[k], v.objects[k], k, News(u, v));
      assert Mine(u, k);
    }
  }

  /** The stamp of the last configuration change is not one of the flags that go. */
  lemma ConfStampSurvives(u: World, v: World, rmq: Cluster)
    requires Cli.CliEffect(u, v, rmq)
    ensures Restart.ConfChangedAt(v) == Restart.ConfChangedAt(u)
  {
    hide ChildResourceName, Cli.RanOnAll;
    var conf := Restart.ServerConfKey(u.name);
    if conf in u.objects {
      var o, p := u.objects[conf], v.objects[conf];
      assert Cli.Unflagged(o, p, conf, News(u, v));
      Cli.ClearedMeansRan(News(u, v), rmq, conf, SERVER_CONF_UPDATED);
    }
  }

  lemma NoneStaleSurvives(u: World, v: World, rmq: Cluster)
    requires Cli.CliEffect(u, v, rmq) && NoneStale(u)
    ensures NoneStale(v)
  {
    hide Cli.Justified, Restart.ConfChangedAt, OperatorKey;
    ConfStampSurvives(u, v, rmq);
    CliKeepsMine(u, v, rmq);
    if Restart.ConfChangedAt(u).Some? {
      var since := Restart.ConfChangedAt(u).value;
      forall k | k in v.objects && Mine(v, k) ensures Restart.RestartedAfter(v.objects[k], since) {
        assert Cli.Unflagged(u.objects[k], v.objects[k], k, News(u, v));
        assert k !in Restart.StaleSet(u, since);
      }
      assert Restart.StaleSet(v, since) == {};
    }
  }

  /** A complete cluster with as many sets as replicas has exactly the sets it should. */
  lemma ExactSets(v: World, rmq: Cluster)
    requires AllInPlace(v, rmq) && Clean(rmq) && rmq.name == v.name && |MineSet(v)| == rmq.spec.replicas
    ensures MineSet(v) == NodeKeys(rmq.name, rmq.spec.replicas)
  {
    hide ResourceBuilders, Clean, NodeKey;
    var n := rmq.spec.replicas;
    NodeKeysSize(rmq.name, n);
    forall k | k in NodeKeys(rmq.name, n) ensures k in MineSet(v) {
      NodeKeysAre(rmq.name, n, k);
      var i: nat :| i < n && k == NodeKey(rmq.name, i);
      NodeIsMine(v, rmq, i);
    }
    EqualSize(NodeKeys(rmq.name, n), MineSet(v));
  }

  lemma EqualSize(a: set<Key>, b: set<Key>)
    requires a <= b && |a| == |b|
    ensures a == b
  {
    assert b == a + (b - a);
  }

  lemma NodeIsMine(v: World, rmq: Cluster, i: nat)
    requires AllInPlace(v, rmq) && Clean(rmq) && rmq.name == v.name && i < rmq.spec.replicas
    ensures NodeKey(rmq.name, i) in MineSet(v)
  {
    var b, bs := NodeBuilder(rmq, i), ResourceBuilders(rmq);
    hide BaseBuilders, Clean, SetBody, StatefulsetName;
    assert bs[|BaseBuilders(rmq)| + i] == b;
    assert InPlace(b, v);
    UpdateKeepsStamp(rmq, i, v.objects[b.key]);
  }

  /** A pass that goes through leaves the cluster reconciled. */
  lemma PassMeansReconciled(w: World, cfg: Settings, sch: Schedule)
    requires Live(w) && ReconcileSpec(w, cfg, sch).1.Continue?
    ensures Reconciled(After(w, cfg, sch), w.cluster.value) && PastDeletion(w.cluster.value)
  {
    hide ReconcileSpec, Clean, Effect, Quiet, AllInPlace, NoneStale, FlagsGone, MineSet, Cli.CliEffect, NodeKeys;
    hide PastDeletion, AfterDeletion, Undeleted;
    var rmq, v := w.cluster.value, After(w, cfg, sch);
    var u := ChildrenAfter(w, cfg, sch);
    var v' := v.(cluster := u.cluster);
    NameAfterDeletion(w, u, rmq);
    AllInPlaceSurvives(u, v', rmq);
    SetsSurvive(u, v', rmq);
    NoneStaleSurvives(u, v', rmq);
    CliName(u, v', rmq);
    ExactSets(v', rmq);
    AnyCluster(v', v, rmq);
  }

  lemma CliName(u: World, v: World, rmq: Cluster)
    requires Cli.CliEffect(u, v, rmq)
    ensures v.name == u.name
  {
  }

  lemma AnyCluster(a: World, b: World, rmq: Cluster)
    requires b == a.(cluster := b.cluster)
    ensures MineSet(a) == MineSet(b) && (AllInPlace(a, rmq) ==> AllInPlace(b, rmq)) && (Quiet(a) ==> Quiet(b))
    ensures (NoneStale(a) ==> NoneStale(b))
  {
    hide ResourceBuilders, Fixed;
    assert forall k :: Mine(a, k) <==> Mine(b, k);
    assert forall since :: Restart.StaleSet(a, since) == Restart.StaleSet(b, since);
  }

  /**
    Success is sound: whenever a pass makes the stored status claim success it did not
    claim before, or record a generation, every builder's object exists and is a fixpoint
    of its Update, the sets are exactly those of the specification, all settled and stamped
    later than the last configuration change that was noted on the server ConfigMap, no flag
    remains, and the recorded generation is that of the cluster the pass read.
  */
  lemma SuccessIsSound(w: World, cfg: Settings, sch: Schedule)
    requires Live(w) && InShape(w.cluster.value.status.conditions)
    requires After(w, cfg, sch).cluster.Some?
    requires !NothingDeclared(w.cluster.value.status, After(w, cfg, sch).cluster.value.status)
    ensures var rmq, v := w.cluster.value, After(w, cfg, sch);
            && Reconciled(v, rmq) && PastDeletion(rmq)
            && !Flagged(v.cluster.value.annotations, REBALANCE_NEEDED)
            && (v.cluster.value.status.observedGeneration != rmq.status.observedGeneration ==>
                  v.cluster.value.status.observedGeneration == rmq.generation)
  {
    hide ReconcileSpec, Clean, NothingDeclared, Reconciled, Flagged, PastDeletion, Quiet, AllInPlace, InShape;
    ClusterAfter(w, cfg, sch);
    PassMeansReconciled(w, cfg, sch);
  }
}
