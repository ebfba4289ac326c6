/** Claims left behind when growing stopped half-way: no later pass at the same storage picks them up. */
module LeftBehind {
  import opened Basics
  import opened Objects
  import opened Store
  import opened Names
  import opened Conditions
  import opened Resources
  import opened Stages
  import opened Builders
  import opened Reconcile
  import opened Passes
  import opened Protocol
  import opened Safety
  import opened Runs
  import Cli
  import Convergence
  import Finalizer
  import Merge
  import Scaling

  /** Node i's set, if it exists, asks for exactly this storage. */
  ghost predicate AtSize(w: World, storage: nat, i: nat) {
    NodeKey(w.name, i) in w.objects ==> SizedSet(w.objects[NodeKey(w.name, i)], storage)
  }

  ghost predicate SizedSet(o: Object, storage: nat) {
    o.StatefulSet? && Merge.UniqueKeys(Merge.CLAIMS, o.spec.claims) && Capacity(o.spec.claims, PVC_NAME) == storage
  }

  /** The claims of node i's set are as they were. */
  ghost predicate ClaimsAlone(w: World, v: World, i: nat) {
    forall r: nat :: SameClaim(w, v, ClaimName(PVC_NAME, NodeKey(w.name, i).name, r))
  }

  /** A claim that existed has the size it had. */
  predicate SameClaim(w: World, v: World, c: string) {
    c in w.claims ==> c in v.claims && v.claims[c] == w.claims[c]
  }

  // ----------------------------------------------------------------- one turn

  lemma ApplyKeepsClaims(s: Sys, b: Builder, built: Object, sch: Schedule)
    ensures ApplyStep(s, b, built, sch).sys.world.claims == s.world.claims
  {
    hide SetConditionSpec, FlagFor;
  }

  lemma BuiltCapacity(rmq: Cluster, i: nat, r: string)
    ensures var o := NodeBuilder(rmq, i).build(r);
            o.StatefulSet? && Capacity(o.spec.claims, PVC_NAME) == rmq.spec.storage
  {
    assert Merge.UniqueKeys(Merge.CLAIMS, []);
    Convergence.NoClaims();
    Convergence.ClaimsUpdated(rmq, []);
    hide Claims, Capacity, PlainUpdate;
  }

  /**
    A node's builder gets to its set only past the scaler: a turn over a set of another size that does
    not end in error has grown each of the set's own claims that was too small to the cluster's storage,
    and has changed no other claim.
  */
  lemma TurnGrowsClaims(s: Sys, i: nat, sch: Schedule, c: string)
    requires Scaling.Found(s.world, NodeKey(s.rmq.name, i)) && c in s.world.claims
    requires Scaling.Existing(s.world, NodeKey(s.rmq.name, i)) != s.rmq.spec.storage
    ensures var w, t, key := s.world, BuilderStep(s, NodeBuilder(s.rmq, i), sch), NodeKey(s.rmq.name, i);
            !t.outcome.Error? ==>
              && c in t.sys.world.claims
              && t.sys.world.claims[c] ==
                if Scaling.OwnClaim(c, key.name, w.objects[key].spec.replicas) && w.claims[c] < s.rmq.spec.storage
                then s.rmq.spec.storage else w.claims[c]
  {
    hide Scaling.ScaleSpec, Scaling.OwnClaim, Capacity, ApplyStep, SetConditionSpec, PlainUpdate, StatefulsetName;
    hide SetBody;
    var key, b := NodeKey(s.rmq.name, i), NodeBuilder(s.rmq, i);
    assert b.key == key;
    if !sch.fails(s.calls) {
      var built := b.build(sch.random(s.calls));
      BuiltCapacity(s.rmq, i, sch.random(s.calls));
      hide NodeBuilder;
      if Scaling.ScaleSpec(Called(s), key, s.rmq.spec.storage, sch).1 {
        Scaling.NilMeansGrown(Called(s), key, s.rmq.spec.storage, sch, c);
        ApplyKeepsClaims(ReconcilePVCSpec(Called(s), key, s.rmq.spec.storage, sch).sys, b, built, sch);
      }
    }
  }

  // ---------------------------------------------------------------- one pass

  lemma UpdateSizes(rmq: Cluster, i: nat, o: Object)
    requires NodeBuilder(rmq, i).update(o).Accepted? && o.StatefulSet?
    requires Merge.UniqueKeys(Merge.CLAIMS, o.spec.claims)
    requires rmq.spec.storage == 0 ==> Capacity(o.spec.claims, PVC_NAME) == 0
    ensures SizedSet(NodeBuilder(rmq, i).update(o).result, rmq.spec.storage)
  {
    Convergence.NodeClaims(rmq, i, o);
    Convergence.ClaimsUpdated(rmq, o.spec.claims);
    hide SetBody, PlainUpdate, Claims, Capacity;
  }

  lemma BuiltSizes(rmq: Cluster, i: nat, r: string)
    requires NodeBuilder(rmq, i).update(NodeBuilder(rmq, i).build(r)).Accepted?
    ensures SizedSet(NodeBuilder(rmq, i).update(NodeBuilder(rmq, i).build(r)).result, rmq.spec.storage)
  {
    assert Merge.UniqueKeys(Merge.CLAIMS, []);
    Convergence.NoClaims();
    Convergence.ClaimsUpdated(rmq, []);
    hide SetBody, PlainUpdate, Claims, Capacity;
    UpdateSizes(rmq, i, NodeBuilder(rmq, i).build(r));
  }

  lemma FlaggedSized(o: Object, p: Object, storage: nat)
    requires MaybeFlagged(o, p) && SizedSet(o, storage)
    ensures SizedSet(p, storage)
  {
    hide Capacity, OperatorKey;
  }

  /** The builder of a node that was renewed or made leaves it at the wanted size. */
  lemma WrittenSized(u: World, v: World, rmq: Cluster, i: nat)
    requires Extends(u, v) && Clean(rmq) && rmq.name == u.name && AtSize(u, rmq.spec.storage, i)
    requires RenewedByBuilder(u, v, rmq, NodeKey(u.name, i)) || MadeByBuilder(u, v, rmq, NodeKey(u.name, i))
    ensures NodeKey(u.name, i) in v.objects && SizedSet(v.objects[NodeKey(u.name, i)], rmq.spec.storage)
  {
    hide ResourceBuilders, Clean, SetBody, PlainUpdate, Capacity, MaybeFlagged, NodeKey;
    var k, storage := NodeKey(u.name, i), rmq.spec.storage;
    if RenewedByBuilder(u, v, rmq, k) {
      var b :| b in ResourceBuilders(rmq) && b.key == k && Resources.Renewed(u, v, b);
      IsNodeBuilder(rmq, b, i);
      UpdateSizes(rmq, i, u.objects[k]);
      FlaggedSized(Restored(u.objects[k], b.update(u.objects[k]).result), v.objects[k], storage);
    } else {
      var b :| b in ResourceBuilders(rmq) && b.key == k && Made(u, v, b);
      IsNodeBuilder(rmq, b, i);
      var r: Encoded :| MadeFrom(v, b, r);
      BuiltSizes(rmq, i, r);
      FlaggedSized(Stored(b.update(b.build(r)).result), v.objects[k], storage);
    }
  }

  lemma IsNodeBuilder(rmq: Cluster, b: Builder, i: nat)
    requires Clean(rmq) && b in ResourceBuilders(rmq) && b.key == NodeKey(rmq.name, i)
    ensures b == NodeBuilder(rmq, i)
  {
    hide ResourceBuilders, Clean, SetBody, PlainUpdate;
    BuilderKinds(rmq, b);
    var j: nat :| j < rmq.spec.replicas && b == NodeBuilder(rmq, j);
    NodeNamesInjective(rmq.name, i, j);
  }

  lemma StageSized(u: World, v: World, rmq: Cluster, i: nat)
    requires Extends(u, v) && v.name == u.name && Clean(rmq) && rmq.name == u.name
    requires Effect(u, v, rmq) && AtSize(u, rmq.spec.storage, i)
    ensures AtSize(v, rmq.spec.storage, i)
  {
    hide Effect, ResourceBuilders, Clean, RenewedByBuilder, MadeByBuilder, Capacity, NodeKey;
    var k := NodeKey(u.name, i);
    ObjectAfter(u, v, rmq, k);
    if k in v.objects && (RenewedByBuilder(u, v, rmq, k) || MadeByBuilder(u, v, rmq, k)) {
      WrittenSized(u, v, rmq, i);
    }
  }

  /** A builder's step leaves the claims of a sized node alone. */
  lemma StepLeavesAlone(u: World, v: World, rmq: Cluster, j: nat, i: nat)
    requires Clean(rmq) && rmq.name == u.name && StoppedAt(u, v, ResourceBuilders(rmq), 0, j)
    requires AtSize(u, rmq.spec.storage, i)
    ensures ClaimsAlone(u, v, i)
  {
    assert NodeKey(u.name, i).kind == KindStatefulSet;
    hide ResourceBuilders, Clean, OwnWrite, BuilderEvents, InPlace, Capacity, ClaimName, NodeKey, SetBody, PlainUpdate;
    var b := ResourceBuilders(rmq)[j];
    assert b in ResourceBuilders(rmq);
    var k := NodeKey(u.name, i);
    if v.claims != u.claims {
      if b.key == k {
        IsNodeBuilder(rmq, b, i);
        var r :| Scaling.Existing(u, b.key) < Wanted(b, r);
        Convergence.NodeWanted(rmq, i, r);
      }
      forall r: nat ensures SameClaim(u, v, ClaimName(PVC_NAME, k.name, r)) {
        OthersClaim(u, v, b, k, r);
      }
    }
  }

  lemma OthersClaim(u: World, v: World, b: Builder, k: Key, r: nat)
    requires TouchesOnly(u, v, b.key) && ClaimsBy(u, v, b) && b.key != k && k.kind == KindStatefulSet
    requires b.key.kind == KindStatefulSet
    ensures SameClaim(u, v, ClaimName(PVC_NAME, k.name, r))
  {
    hide ClaimName;
    var c := ClaimName(PVC_NAME, k.name, r);
    if c in u.claims && v.claims[c] != u.claims[c] {
      var n: nat :| ClaimText(c, b.key.name, n);
      ClaimNameIff(c, b.key.name, n);
      ClaimNamesInjective(PVC_NAME, k.name, b.key.name, r, n);
    }
  }

  lemma StageLeavesAlone(u: World, v: World, rmq: Cluster, i: nat)
    requires Clean(rmq) && rmq.name == u.name && Effect(u, v, rmq) && AtSize(u, rmq.spec.storage, i)
    ensures ClaimsAlone(u, v, i)
  {
    hide ResourceBuilders, Clean, StoppedAt, AllInPlace, NoneStale, Quiet, MineSet, Cli.Justified, AtSize, ClaimName;
    if Built(u, v, rmq) {
      var j: nat :| StoppedAt(u, v, ResourceBuilders(rmq), 0, j);
      StepLeavesAlone(u, v, rmq, j, i);
    }
  }

  /** One pass leaves a sized node sized and its claims alone. */
  lemma PassLeavesAlone(w: World, cfg: Settings, sch: Schedule, i: nat)
    requires Live(w) && AtSize(w, w.cluster.value.spec.storage, i)
    ensures var storage, v := w.cluster.value.spec.storage, After(w, cfg, sch);
            && AtSize(v, storage, i) && ClaimsAlone(w, v, i) && v.name == w.name
            && (v.cluster.Some? ==> v.cluster.value.spec.storage == storage)
  {
    hide ReconcileSpec, Effect, Clean, NodeKey, SizedSet, ClaimName, Commanded, FlagsGone, Undeleted, PastDeletion;
    hide MarkEnd, Quiet, AllInPlace;
    var rmq, v := w.cluster.value, After(w, cfg, sch);
    var u := ChildrenAfter(w, cfg, sch);
    EventsSplit(w, u, v, rmq);
    var v' := v.(cluster := u.cluster);
    DeletionSized(w, u, rmq, i);
    StageSized(u, v', rmq, i);
    StageLeavesAlone(u, v', rmq, i);
    ClusterAfter(w, cfg, sch);
    hide StatusEnd;
  }

  lemma DeletionSized(w: World, u: World, rmq: Cluster, i: nat)
    requires AfterDeletion(w, u, rmq) && AtSize(w, rmq.spec.storage, i)
    ensures AtSize(u, rmq.spec.storage, i) && u.claims == w.claims && u.name == w.name
  {
    hide NodeKey;
  }

  // -------------------------------------------------------------------- runs

  /** The move does not change the storage the cluster asks for. */
  predicate KeepsStorage(m: Move, storage: nat) {
    m.Act? && m.env.Edit? ==> m.env.spec.storage == storage
  }

  ghost predicate Sized(w: World, storage: nat, i: nat) {
    AtSize(w, storage, i) && (w.cluster.Some? ==> w.cluster.value.spec.storage == storage)
  }

  lemma EnvLeavesAlone(w: World, e: Env, storage: nat, i: nat)
    requires Tidy(w) && Sized(w, storage, i) && KeepsStorage(Act(e), storage)
    ensures Sized(EnvStep(w, e), storage, i) && ClaimsAlone(w, EnvStep(w, e), i) && EnvStep(w, e).name == w.name
  {
    hide Clean, NodeKey, ClaimName, Capacity, Finalizer.FINALIZER;
  }

  lemma MoveLeavesAlone(w: World, m: Move, cfg: Settings, storage: nat, i: nat)
    requires Inv(w) && Sized(w, storage, i) && KeepsStorage(m, storage)
    ensures Sized(Apply(w, m, cfg), storage, i) && ClaimsAlone(w, Apply(w, m, cfg), i)
    ensures Apply(w, m, cfg).name == w.name
  {
    hide After, EnvStep, AtSize, ClaimsAlone, Tidy, RollingSet, SecretAgrees, FinalizerFirst, Clean;
    match m
    case Act(e) => EnvLeavesAlone(w, e, storage, i);
    case Pass(sch) =>
      if w.cluster.Some? {
        PassLeavesAlone(w, cfg, sch, i);
      } else {
        AbsentCluster(w, cfg, sch);
        AloneRefl(w, i);
      }
  }

  lemma AloneRefl(w: World, i: nat)
    ensures ClaimsAlone(w, w, i)
  {
  }

  lemma AloneTrans(u: World, w: World, v: World, i: nat)
    requires ClaimsAlone(u, w, i) && ClaimsAlone(w, v, i) && w.name == u.name
    ensures ClaimsAlone(u, v, i)
  {
    hide ClaimName, NodeKey;
    forall r: nat ensures SameClaim(u, v, ClaimName(PVC_NAME, NodeKey(u.name, i).name, r)) {
      assert SameClaim(u, w, ClaimName(PVC_NAME, NodeKey(u.name, i).name, r));
      assert SameClaim(w, v, ClaimName(PVC_NAME, NodeKey(u.name, i).name, r));
    }
  }

  /** Once a node's set is missing or at its size, no run at the same storage touches that node's claims. */
  lemma {:induction false} RunLeavesAlone(w: World, moves: seq<Move>, cfg: Settings, storage: nat, i: nat)
    requires Inv(w) && Sized(w, storage, i) && forall m :: m in moves ==> KeepsStorage(m, storage)
    ensures var v := Run(w, moves, cfg); Sized(v, storage, i) && ClaimsAlone(w, v, i) && v.name == w.name
  {
    hide Inv, Sized, ClaimsAlone, Apply, KeepsStorage;
    if moves == [] {
      AloneRefl(w, i);
    } else {
      var front, m := moves[..|moves| - 1], moves[|moves| - 1];
      RunLeavesAlone(w, front, cfg, storage, i);
      RunKeepsInv(w, front, cfg);
      MoveLeavesAlone(Run(w, front, cfg), m, cfg, storage, i);
      AloneTrans(w, Run(w, front, cfg), Run(w, moves, cfg), i);
    }
  }

  /**
    Growth that stopped half-way is never resumed: when the scaler deleted node i's set and
    grew only the first k of the claims that needed it, the others keep their old size in
    every run that leaves the cluster's storage as it is, recreation of the set included.
  */
  lemma LostGrowthIsNotResumed(w: World, v: World, i: nat, k: nat, moves: seq<Move>, cfg: Settings, m: nat)
    requires Scaling.Found(w, NodeKey(w.name, i)) && Inv(v) && v.cluster.Some?
    requires var key, storage := NodeKey(w.name, i), v.cluster.value.spec.storage;
             var needed := Scaling.Needed(w, key.name, w.objects[key].spec.replicas, storage);
             && Scaling.GrewPrefix(w, v.(cluster := w.cluster), key, needed, k, storage) && k <= m < |needed|
             && forall e :: e in moves ==> KeepsStorage(e, storage)
    ensures var key, storage := NodeKey(w.name, i), v.cluster.value.spec.storage;
            var c := Scaling.Needed(w, key.name, w.objects[key].spec.replicas, storage)[m];
            var r := Run(v, moves, cfg);
            c in w.claims && c in r.claims && r.claims[c] == w.claims[c] < storage
  {
    hide Inv, Run, NodeKey, ClaimName, KeepsStorage;
    var key, storage := NodeKey(w.name, i), v.cluster.value.spec.storage;
    var n := w.objects[key].spec.replicas;
    var needed := Scaling.Needed(w, key.name, n, storage);
    Scaling.NeededByName(w, key.name, n, storage);
    Scaling.NeededDistinct(w, key.name, n, storage);
    hide Scaling.Needed;
    var c := needed[m];
    assert c in needed;
    assert c !in needed[..k];
    RunLeavesAlone(v, moves, cfg, storage, i);
    var j :| 0 <= j < n && c == ClaimName(PVC_NAME, key.name, j);
    assert SameClaim(v, Run(v, moves, cfg), ClaimName(PVC_NAME, NodeKey(v.name, i).name, j));
  }

  // ----------------------------------------------------------------- an instance

  /** A node of a cluster that asks for twice the storage the node's set and its one claim have. */
  function GrowingStore(name: string): World {
    var spec := Spec(1, false, "image", false, 2, "", map[], "", "", false, None, "", [], Some([]), "", "", "",
                     0, 0, [], [], [], Some([]));
    var c := Cluster(name, "", "", 0, false, [Finalizer.FINALIZER], map[], map[], spec,
                     ClusterStatus(1, [], None, None, 0));
    var node := SetSpec(1, map[], "", PodTemplate(map[], map[], [], [], [], [], []), [Claim(PVC_NAME, 1, "")], "");
    World(name, Some(c), map[NodeKey(name, 0) := StatefulSet(Meta(map[NAME_LABEL := name], map[], None), node,
            SetStatus(1, 1, 1))], {}, map[OneClaim(name) := 1], map[], None, [])
  }

  function OneClaim(name: string): string { ClaimName(PVC_NAME, NodeKey(name, 0).name, 0) }

  /** Every call works but this one, and a deleted set is gone at once. */
  function FailsAt(n: nat): Schedule {
    Schedule(at => at == n, _ => "0", _ => "", _ => [], _ => [], _ => true, _ => false)
  }

  lemma OneClaimFound(w: World, rmq: Cluster, set_: string)
    requires var c := ClaimName(PVC_NAME, set_, 0); c in w.claims && w.claims[c] == 1
    ensures var c, s := ClaimName(PVC_NAME, set_, 0), Sys(w, rmq, 2);
            && Scaling.Needed(w, set_, 1, 2) == [c]
            && Scaling.GetClaimsSpec(s, set_, 1, 0, [], FailsAt(5)) == (Called(s), Some([c]))
            && Scaling.NeedingScaling([c], w.claims, 2) == [c]
  {
    hide ClaimName;
    var c, s := ClaimName(PVC_NAME, set_, 0), Sys(w, rmq, 2);
    assert Scaling.Needed(w, set_, 0, 2) == [];
    assert [] + [c] == [c] && [c][..0] == [];
    assert Scaling.GetClaimsSpec(Called(s), set_, 1, 1, [c], FailsAt(5)) == (Called(s), Some([c]));
  }

  /** The set was deleted and seen gone, and no claim grew. */
  lemma DeletedOnly(w: World, key: Key, c: string)
    requires key !in w.terminating
    ensures Scaling.GrewPrefix(w, Scaling.Confirmed(Scaling.MarkTerminating(w, key), key), key, [c], 0, 2)
  {
    var v := Scaling.Confirmed(Scaling.MarkTerminating(w, key), key);
    assert [c][..0] == [];
    assert Scaling.GrownClaims(w.claims, [], 2) == w.claims;
    assert v.terminating == Remove(w, key).terminating;
    assert v.log == w.log + [Deleted(key), ConfirmedGone(key)] + Scaling.GrowEvents([], 2);
  }

  /** The sixth call of the scaler, the read of the claim, fails after the set was deleted. */
  lemma GrowthStops(name: string)
    ensures var w, key := GrowingStore(name), NodeKey(name, 0);
            var (s, ok) := Scaling.ScaleSpec(Sys(w, w.cluster.value, 0), key, 2, FailsAt(5));
            && !ok && Scaling.Found(w, key) && Scaling.Needed(w, key.name, 1, 2) == [OneClaim(name)]
            && Scaling.GrewPrefix(w, s.world, key, [OneClaim(name)], 0, 2)
  {
    hide ClaimName, NodeKey, Scaling.GrewPrefix, Scaling.GetClaimsSpec, Scaling.Needed, Scaling.NeedingScaling;
    hide Scaling.AwaitGoneSpec;
    var w, key, sch := GrowingStore(name), NodeKey(name, 0), FailsAt(5);
    OneClaimFound(w, w.cluster.value, key.name);
    DeletedOnly(w, key, OneClaim(name));
    var s1 := Sys(Scaling.MarkTerminating(w, key), w.cluster.value, 4);
    Convergence.FirstAttempt(s1, key, Scaling.DELETE_RETRIES, sch);
  }

  lemma EmptiedInv(name: string, v: World)
    requires v.objects == map[] && v.name == name && v.cluster == GrowingStore(name).cluster
    ensures Inv(v)
  {
    hide Finalizer.FINALIZER;
    assert RollingSet(v) == {};
  }

  /**
    Such a growth leaves its claim behind: in every run at the same storage the claim keeps half the
    size asked for.
  */
  lemma ClaimLeftBehind(name: string, moves: seq<Move>, cfg: Settings)
    requires forall m :: m in moves ==> KeepsStorage(m, 2)
    ensures var w, key := GrowingStore(name), NodeKey(name, 0);
            var v := Scaling.ScaleSpec(Sys(w, w.cluster.value, 0), key, 2, FailsAt(5)).0.world;
            var r := Run(v, moves, cfg);
            key !in v.objects && OneClaim(name) in r.claims && r.claims[OneClaim(name)] == 1
  {
    hide ClaimName, NodeKey, Run, Inv, Scaling.ScaleSpec, KeepsStorage, OneClaim, Scaling.Needed;
    var w, key := GrowingStore(name), NodeKey(name, 0);
    var v := Scaling.ScaleSpec(Sys(w, w.cluster.value, 0), key, 2, FailsAt(5)).0.world;
    GrowthStops(name);
    assert v.objects == map[];
    EmptiedInv(name, v);
    assert v.(cluster := w.cluster) == v;
    LostGrowthIsNotResumed(w, v, 0, 0, moves, cfg, 0);
  }
}
