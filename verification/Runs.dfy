/** Whole runs: passes with any failures, interleaved with a user and a cluster that act between them. */
module Runs {
  import opened Basics
  import opened Objects
  import opened Store
  import opened Conditions
  import opened Resources
  import opened Stages
  import opened Builders
  import opened Reconcile
  import opened Passes
  import opened Protocol
  import opened Safety
  import opened Success
  import Cli
  import Finalizer
  import Secrets

  // ---------------------------------------------------------- the environment

  datatype Env =
    | Edit(labels: StrMap, annotations: StrMap, spec: Spec, finalizers: seq<string>)  // the user
    | MarkDeleted                                // the user
    | FinishRollout(key: Key)                    // the StatefulSet controller
    | Readiness(key: Key, ready: nat)
    | PodsChange(pods: map<PodKey, StrMap>)
    | EndpointsChange(subsets: Option<seq<nat>>)
    | ClaimAppears(claim: string, size: nat)
    | Reap(key: Key)                             // an orphaned set that was deleted goes away

  /** What an edit makes of the cluster; a changed specification gets a new generation. */
  function Edited(c: Cluster, e: Env): Cluster
    requires e.Edit?
  {
    c.(labels := e.labels, annotations := e.annotations, spec := e.spec, finalizers := e.finalizers,
       generation := if e.spec == c.spec then c.generation else c.generation + 1)
  }

  /** Users stay away from the operator's annotations and from its finalizer. */
  predicate Allowed(c: Cluster, e: Env)
    requires e.Edit?
  {
    Clean(Edited(c, e)) && (Finalizer.FINALIZER in e.finalizers <==> Finalizer.FINALIZER in c.finalizers)
  }

  /** A cluster being deleted goes away with its last finalizer. */
  function Surviving(c: Cluster): Option<Cluster> {
    if c.deleting && c.finalizers == [] then None else Some(c)
  }

  function WithStatus(w: World, k: Key, status: SetStatus): World
    requires k in w.objects && w.objects[k].StatefulSet?
  {
    w.(objects := w.objects[k := w.objects[k].(status := status)])
  }

  predicate HasSet(w: World, k: Key) { k in w.objects && w.objects[k].StatefulSet? }

  function EnvStep(w: World, e: Env): World {
    match e
    case Edit(_, _, _, _) =>
      if w.cluster.None? || !Allowed(w.cluster.value, e) then w
      else w.(cluster := Surviving(Edited(w.cluster.value, e)))
    case MarkDeleted =>
      if w.cluster.None? then w else w.(cluster := Surviving(w.cluster.value.(deleting := true)))
    case FinishRollout(k) =>
      if !HasSet(w, k) then w
      else
        var o := w.objects[k];
        WithStatus(w, k, SetStatus(o.status.updateRevision, o.status.updateRevision, o.spec.replicas))
    case Readiness(k, ready) =>
      if !HasSet(w, k) then w else WithStatus(w, k, w.objects[k].status.(readyReplicas := ready))
    case PodsChange(pods) => w.(pods := pods)
    case EndpointsChange(subsets) => w.(endpoints := subsets)
    case ClaimAppears(claim, size) => if claim in w.claims then w else w.(claims := w.claims[claim := size])
    case Reap(k) => if k in w.terminating && k.kind == KindStatefulSet then Remove(w, k) else w
  }

  // --------------------------------------------------------------------- runs

  datatype Move = Pass(sch: Schedule) | Act(env: Env)

  function Apply(w: World, m: Move, cfg: Settings): World {
    match m
    case Pass(sch) => After(w, cfg, sch)
    case Act(env) => EnvStep(w, env)
  }

  function Run(w: World, moves: seq<Move>, cfg: Settings): World {
    if moves == [] then w else Apply(Run(w, moves[..|moves| - 1], cfg), moves[|moves| - 1], cfg)
  }

  // ---------------------------------------------------------------- invariant

  ghost predicate ClusterInv(name: string, c: Cluster) {
    c.name == name && Clean(c) && InShape(c.status.conditions) && (c.deleting ==> c.finalizers != [])
  }

  /** No child exists while a live cluster's finalizer is not stored. */
  ghost predicate FinalizerFirst(w: World) {
    w.cluster.Some? && !w.cluster.value.deleting && w.objects.Keys != {} ==>
      Finalizer.FINALIZER in w.cluster.value.finalizers
  }

  ghost predicate Inv(w: World) {
    && Tidy(w) && |RollingSet(w)| <= 1 && SecretAgrees(w) && FinalizerFirst(w)
    && (w.cluster.Some? ==> ClusterInv(w.name, w.cluster.value))
  }

  /** A newly created cluster, before the operator has seen it. */
  ghost predicate Fresh(w: World) {
    && w.cluster.Some? && w.objects == map[] && w.cluster.value.name == w.name && Clean(w.cluster.value)
    && w.cluster.value.status.conditions == [] && !w.cluster.value.deleting
  }

  lemma FreshInv(w: World)
    requires Fresh(w)
    ensures Inv(w)
  {
    assert RollingSet(w) == {};
  }

  /** Such clusters exist, for any name and any number of replicas. */
  lemma FreshExists(name: string, replicas: nat)
    ensures exists w :: Fresh(w) && w.name == name && w.cluster.value.spec.replicas == replicas
  {
    var spec := Spec(replicas, false, "", false, 0, "", map[], "", "", false, None, "", [], Some([]), "", "", "", 0, 0,
      [], [], [], None);
    var c := Cluster(name, "", "", 0, false, [], map[], map[], spec, ClusterStatus(0, [], None, None, 0));
    var w := World(name, Some(c), map[], {}, map[], map[], None, []);
    assert Fresh(w) && w.cluster.value.spec.replicas == replicas;
  }

  // ---------------------------------------------------- environment steps

  lemma StatusTidy(w: World, k: Key, status: SetStatus)
    requires Tidy(w) && HasSet(w, k)
    ensures Tidy(WithStatus(w, k, status))
    ensures status.currentRevision == status.updateRevision || BeingUpdated(w.objects[k]) ==>
              RollingSet(WithStatus(w, k, status)) <= RollingSet(w)
    ensures SecretAgrees(w) ==> SecretAgrees(WithStatus(w, k, status))
    ensures WithStatus(w, k, status).objects.Keys == w.objects.Keys
  {
    var v := WithStatus(w, k, status);
    assert forall l :: l in w.objects && l != k ==> v.objects[l] == w.objects[l];
    assert TidyObject(w.name, k, w.objects[k]);
    assert TidyObject(w.name, k, v.objects[k]);
    assert k != UserKey(w.name);
  }

  lemma EnvKeepsInv(w: World, e: Env)
    requires Inv(w)
    ensures Inv(EnvStep(w, e))
  {
    hide TidyObject, Clean, SecretAgrees, InShape;
    var v := EnvStep(w, e);
    match e
    case FinishRollout(k) =>
      if HasSet(w, k) {
        var o := w.objects[k];
        StatusTidy(w, k, SetStatus(o.status.updateRevision, o.status.updateRevision, o.spec.replicas));
        Subsets(RollingSet(v), RollingSet(w));
      }
    case Readiness(k, ready) =>
      if HasSet(w, k) {
        StatusTidy(w, k, w.objects[k].status.(readyReplicas := ready));
        Subsets(RollingSet(v), RollingSet(w));
      }
    case Reap(k) =>
      ReapKeeps(w, k);
    case Edit(_, _, _, _) =>
      SameObjects(w, v);
      if w.cluster.Some? && Allowed(w.cluster.value, e) {
        EditKeeps(w, e);
      }
    case _ =>
      SameObjects(w, v);
      CleanDeleting(w);
  }

  lemma CleanDeleting(w: World)
    ensures w.cluster.Some? && Clean(w.cluster.value) ==> Clean(w.cluster.value.(deleting := true))
  {
  }

  lemma EditKeeps(w: World, e: Env)
    requires e.Edit? && w.cluster.Some? && Allowed(w.cluster.value, e) && ClusterInv(w.name, w.cluster.value)
    requires FinalizerFirst(w)
    ensures var v := EnvStep(w, e); FinalizerFirst(v) && (v.cluster.Some? ==> ClusterInv(v.name, v.cluster.value))
  {
    hide Clean, InShape;
  }

  lemma SameObjects(w: World, v: World)
    requires v.objects == w.objects && v.name == w.name
    ensures (Tidy(w) ==> Tidy(v)) && RollingSet(v) == RollingSet(w)
    ensures SecretAgrees(w) && SameHost(w, v) ==> SecretAgrees(v)
  {
    hide TidyObject, Secrets.Agrees, Secrets.LogsIn;
  }

  /** The cluster, if there is one, was there and has the address it had. */
  ghost predicate SameHost(w: World, v: World) {
    v.cluster.Some? ==> HostOf(v.cluster) == HostOf(w.cluster)
  }

  lemma ReapKeeps(w: World, k: Key)
    requires Inv(w)
    ensures Inv(EnvStep(w, Reap(k)))
  {
    hide TidyObject, Clean, InShape;
    var v := EnvStep(w, Reap(k));
    assert forall l :: l in v.objects ==> l in w.objects && v.objects[l] == w.objects[l];
    Subsets(RollingSet(v), RollingSet(w));
  }

  // --------------------------------------------------------------- passes

  lemma AbsentCluster(w: World, cfg: Settings, sch: Schedule)
    requires w.cluster.None?
    ensures After(w, cfg, sch) == w
  {
    hide RunFrom;
  }

  lemma PassKeepsFinalizerFirst(w: World, cfg: Settings, sch: Schedule)
    requires Inv(w) && w.cluster.Some?
    ensures FinalizerFirst(After(w, cfg, sch))
  {
    hide ReconcileSpec, Clean, Tidy, RollingSet, SecretAgrees, InShape, Quiet, AllInPlace, StatusEnd, Flagged;
    ClusterAfter(w, cfg, sch);
    var u := DeletionProtocol(w, cfg, sch);
    var v := After(w, cfg, sch);
    if w.objects.Keys == {} && v.objects.Keys != {} {
      var k :| k in v.objects;
      assert k !in w.objects.Keys;
    }
  }

  lemma PassKeepsInv(w: World, cfg: Settings, sch: Schedule)
    requires Inv(w)
    ensures Inv(After(w, cfg, sch))
  {
    hide ReconcileSpec, Clean, TidyObject, BeingUpdated, InShape, Quiet, AllInPlace, Flagged, SecretAgrees;
    hide FinalizerFirst, NothingDeclared;
    if w.cluster.None? {
      AbsentCluster(w, cfg, sch);
    } else {
      TidyIsTyped(w);
      CredentialsStable(w, cfg, sch);
      ClusterAfter(w, cfg, sch);
      PassKeepsFinalizerFirst(w, cfg, sch);
      var u := OneRolloutAtATime(w, cfg, sch);
      PassExtends(w, cfg, sch);
    }
  }

  lemma TidyIsTyped(w: World)
    requires Tidy(w)
    ensures WellTyped(w)
  {
  }

  /** The invariant holds in every state of every run. */
  lemma {:induction false} RunKeepsInv(w: World, moves: seq<Move>, cfg: Settings)
    requires Inv(w)
    ensures Inv(Run(w, moves, cfg))
  {
    hide Inv, EnvStep, After;
    if moves != [] {
      var r := Run(w, moves[..|moves| - 1], cfg);
      RunKeepsInv(w, moves[..|moves| - 1], cfg);
      match moves[|moves| - 1]
      case Pass(sch) => PassKeepsInv(r, cfg, sch);
      case Act(env) => EnvKeepsInv(r, env);
    }
  }

  // ---------------------------------------------------- what no run undoes

  /** The same cluster object, never with fewer recorded replicas, and never back from deletion. */
  ghost predicate ClusterOnward(w: World, v: World) {
    v.cluster.Some? ==>
      && w.cluster.Some? && v.cluster.value.uid == w.cluster.value.uid
      && w.cluster.value.status.replicas <= v.cluster.value.status.replicas
      && (w.cluster.value.deleting ==> v.cluster.value.deleting)
  }

  /** Claims only grow, credentials stay, the cluster moves on. */
  ghost predicate Onward(w: World, v: World) {
    v.name == w.name && ClaimsGrow(w, v) && SecretsKept(w, v) && ClusterOnward(w, v)
  }

  lemma DataKeptSame(w: World, v: World)
    requires forall k :: k in w.objects && k.kind == KindSecret ==> k in v.objects && v.objects[k] == w.objects[k]
    ensures SecretsKept(w, v)
  {
  }

  lemma EnvClusterOnward(w: World, e: Env)
    ensures var v := EnvStep(w, e); v.name == w.name && ClaimsGrow(w, v) && ClusterOnward(w, v)
  {
    hide Clean;
  }

  lemma EnvSecrets(w: World, e: Env, k: Key)
    requires Tidy(w) && k in w.objects && k.kind == KindSecret
    ensures k in EnvStep(w, e).objects && EnvStep(w, e).objects[k] == w.objects[k]
  {
    hide Clean;
    assert TidyObject(w.name, k, w.objects[k]);
  }

  lemma EnvOnward(w: World, e: Env)
    requires Inv(w)
    ensures Onward(w, EnvStep(w, e))
  {
    hide EnvStep, Tidy, RollingSet, SecretAgrees, FinalizerFirst, ClusterInv, SecretsKept, ClaimsGrow, ClusterOnward;
    var v := EnvStep(w, e);
    EnvClusterOnward(w, e);
    forall k | k in w.objects && k.kind == KindSecret ensures k in v.objects && v.objects[k] == w.objects[k] {
      EnvSecrets(w, e, k);
    }
    DataKeptSame(w, v);
  }

  lemma PassOnward(w: World, cfg: Settings, sch: Schedule)
    requires Inv(w)
    ensures Onward(w, After(w, cfg, sch))
  {
    hide ReconcileSpec, Clean, Tidy, RollingSet, InShape, Quiet, AllInPlace, Flagged, SecretAgrees, SecretsKept;
    hide ClaimsGrow, NothingDeclared;
    if w.cluster.None? {
      AbsentCluster(w, cfg, sch);
      OnwardRefl(w);
    } else {
      TidyIsTyped(w);
      CredentialsStable(w, cfg, sch);
      ClaimsNeverFall(w, cfg, sch);
      ClusterAfter(w, cfg, sch);
      PassExtends(w, cfg, sch);
    }
  }

  lemma OnwardRefl(w: World)
    ensures Onward(w, w)
  {
    DataKeptSame(w, w);
  }

  lemma OnwardTrans(u: World, w: World, v: World)
    requires Onward(u, w) && Onward(w, v)
    ensures Onward(u, v)
  {
    hide Secrets.Maintained;
    forall k | k in u.objects && k.kind == KindSecret && u.objects[k].Secret?
      ensures k in v.objects && DataKept(u.objects[k], v.objects[k])
    {
      assert k in w.objects && DataKept(u.objects[k], w.objects[k]);
      assert DataKept(w.objects[k], v.objects[k]);
    }
  }

  /**
    Over every run: no claim shrinks or disappears, no stored credential or cookie changes,
    the recorded replicas never fall, and deletion is never undone.
  */
  lemma {:induction false} RunsOnlyMoveOn(w: World, moves: seq<Move>, cfg: Settings)
    requires Inv(w)
    ensures Onward(w, Run(w, moves, cfg))
  {
    hide Inv, Onward, EnvStep, After;
    if moves == [] {
      OnwardRefl(w);
    } else {
      var front, m := moves[..|moves| - 1], moves[|moves| - 1];
      var r := Run(w, front, cfg);
      RunsOnlyMoveOn(w, front, cfg);
      RunKeepsInv(w, front, cfg);
      match m {
        case Pass(sch) => PassOnward(r, cfg, sch);
        case Act(env) => EnvOnward(r, env);
      }
      OnwardTrans(w, r, Run(w, moves, cfg));
    }
  }

  // ------------------------------------------------- every pass of every run

  /** The pass worked from a store u that its deletion stage left, by the rules for removals and rollouts. */
  ghost predicate WorkedFrom(r: World, u: World, v: World)
    requires r.cluster.Some? && Extends(r, v)
  {
    && AfterDeletion(r, u, r.cluster.value) && RemovedProperly(r, u, v, r.cluster.value)
    && ((exists k :: TemplateWritten(k) in News(r, v)) ==> Quiet(u))
  }

  /**
    What the pass stored when it declared success: everything is there, no mark is left, the
    generation is the one read.
  */
  ghost predicate TrueSuccess(r: World, v: World)
    requires r.cluster.Some? && v.cluster.Some?
  {
    var rmq, d := r.cluster.value, v.cluster.value;
    && Reconciled(v, rmq) && !Flagged(d.annotations, REBALANCE_NEEDED)
    && (d.status.observedGeneration != rmq.status.observedGeneration ==> d.status.observedGeneration == rmq.generation)
  }

  /** Which children a pass from r to v may write, and when. */
  ghost predicate SafeChildren(r: World, v: World)
    requires r.cluster.Some? && Extends(r, v)
  {
    var rmq := r.cluster.value;
    // one rollout at a time, started on a quiet store; sets are deleted by the rules
    && |RollingSet(r)| <= 1 && |RollingSet(v)| <= 1 && OneTemplate(News(r, v)) && (exists u :: WorkedFrom(r, u, v))
    // children only once the finalizer is stored, or after it has gone from a cluster being deleted
    && ((exists e :: e in News(r, v) && ChildWrite(e)) ==> PastDeletion(rmq))
    // no child write while only the operator's finalizer holds the cluster back
    && (rmq.deleting && (forall f :: f in rmq.finalizers ==> f == Finalizer.FINALIZER) ==>
          forall e :: e in News(r, v) ==> !ChildWrite(e))
    // no scale-down
    && (!rmq.deleting && rmq.spec.replicas < rmq.status.replicas ==> v == r.(cluster := v.cluster))
    // a live cluster's children are created in order
    && (!rmq.deleting ==> forall k :: Created(k) in News(r, v) ==> CreatedInOrder(r, rmq, k))
  }

  /** Which flags a pass from r to v may clear, and what it may claim. */
  ghost predicate SafeClaims(r: World, v: World)
    requires r.cluster.Some? && Extends(r, v)
  {
    var rmq := r.cluster.value;
    // replicas are recorded only when all nodes are in place
    && (v.cluster.Some? && v.cluster.value.status.replicas != rmq.status.replicas ==>
          v.cluster.value.status.replicas == rmq.spec.replicas && Quiet(v) && AllInPlace(v, rmq))
    // pending work is not dropped
    && (forall k, f :: OperatorKey(f) ==> FlagKept(r, v, k, f))
    && (forall n :: 0 <= n < |News(r, v)| && Clearing(News(r, v)[n]) ==> AfterCommand(News(r, v), n, rmq))
    && (v.cluster.Some? ==> MarkKept(rmq, v.cluster.value) || MarkCleared(r, v, rmq))
    // success is sound
    && (v.cluster.Some? && !NothingDeclared(rmq.status, v.cluster.value.status) ==> TrueSuccess(r, v))
  }

  /** What holds of a pass from r to v. */
  ghost predicate SafePass(r: World, v: World)
    requires r.cluster.Some? && Extends(r, v)
  {
    SafeChildren(r, v) && SafeClaims(r, v)
  }

  /** Every pass of every run from a fresh cluster is safe, whatever the user does and whichever calls fail. */
  lemma EveryPassIsSafe(w: World, moves: seq<Move>, cfg: Settings, sch: Schedule)
    requires Fresh(w)
    ensures var r := Run(w, moves, cfg);
            r.cluster.Some? ==> Extends(r, After(r, cfg, sch)) && SafePass(r, After(r, cfg, sch))
  {
    hide Fresh, Inv, SafePass, Run, After;
    FreshInv(w);
    RunKeepsInv(w, moves, cfg);
    var r := Run(w, moves, cfg);
    if r.cluster.Some? {
      InvMeansSafe(r, cfg, sch);
    }
  }

  lemma Worked(r: World, cfg: Settings, sch: Schedule)
    requires Inv(r) && r.cluster.Some?
    ensures var v := After(r, cfg, sch);
            && Extends(r, v) && |RollingSet(v)| <= 1 && OneTemplate(News(r, v)) && exists u :: WorkedFrom(r, u, v)
  {
    hide ReconcileSpec, Clean, Tidy, RollingSet, InShape, Quiet, SecretAgrees, FinalizerFirst, PastDeletion;
    hide AfterDeletion;
    hide OneTemplate, RemovedProperly;
    var v := After(r, cfg, sch);
    hide Undeleted;
    var u := OneRolloutAtATime(r, cfg, sch);
    var u' := DeletionProtocol(r, cfg, sch);
    assert WorkedFrom(r, u, v);
  }

  lemma InvMeansSafe(r: World, cfg: Settings, sch: Schedule)
    requires Inv(r) && r.cluster.Some?
    ensures Extends(r, After(r, cfg, sch)) && SafePass(r, After(r, cfg, sch))
  {
    hide ReconcileSpec, Clean, Tidy, RollingSet, InShape, Quiet, AllInPlace, Flagged, SecretAgrees, FinalizerFirst;
    hide NothingDeclared, Reconciled, PastDeletion, OneTemplate, AfterDeletion, RemovedProperly, MarkKept, MarkCleared;
    hide Undeleted;
    var rmq, v := r.cluster.value, After(r, cfg, sch);
    Worked(r, cfg, sch);
    hide WorkedFrom;
    var u := DeletionProtocol(r, cfg, sch);
    MarkSurvives(r, cfg, sch);
    ClusterAfter(r, cfg, sch);
    if rmq.deleting && (forall f :: f in rmq.finalizers ==> f == Finalizer.FINALIZER) {
      NothingWrittenWhileDeleting(r, cfg, sch);
    }
    if !rmq.deleting && rmq.spec.replicas < rmq.status.replicas {
      NoScaleDown(r, cfg, sch);
    }
    if v.cluster.Some? && !NothingDeclared(rmq.status, v.cluster.value.status) {
      SuccessIsSound(r, cfg, sch);
    }
    WorkInOrder(r, cfg, sch);
    hide After;
  }

  lemma WorkInOrder(r: World, cfg: Settings, sch: Schedule)
    requires Live(r)
    ensures var rmq, v := r.cluster.value, After(r, cfg, sch);
            && Extends(r, v)
            && (!rmq.deleting ==> forall k :: Created(k) in News(r, v) ==> CreatedInOrder(r, rmq, k))
            && (forall k, f :: OperatorKey(f) ==> FlagKept(r, v, k, f))
            && (forall n :: 0 <= n < |News(r, v)| && Clearing(News(r, v)[n]) ==> AfterCommand(News(r, v), n, rmq))
  {
    hide ReconcileSpec, Clean, OperatorKey, CreatedInOrder, FlagKept, Cli.CommandRan, Quiet, AllInPlace, NoneStale;
    hide MineSet, StoresPlugins;
    var rmq, v := r.cluster.value, After(r, cfg, sch);
    PassExtends(r, cfg, sch);
    forall k, f | OperatorKey(f) ensures FlagKept(r, v, k, f) {
      FlagsSurvive(r, cfg, sch, k, f);
    }
    forall n | 0 <= n < |News(r, v)| && Clearing(News(r, v)[n]) ensures AfterCommand(News(r, v), n, rmq) {
      var u := ClearedAfterCommand(r, cfg, sch, n);
    }
    if !rmq.deleting {
      forall k | Created(k) in News(r, v) ensures CreatedInOrder(r, rmq, k) {
        LiveCreation(r, cfg, sch, k);
      }
    }
  }

  lemma LiveCreation(r: World, cfg: Settings, sch: Schedule, k: Key)
    requires Live(r) && !r.cluster.value.deleting
    requires Extends(r, After(r, cfg, sch)) && Created(k) in News(r, After(r, cfg, sch))
    ensures CreatedInOrder(r, r.cluster.value, k)
  {
    hide ReconcileSpec, Clean, Effect, CreatedInOrder, Commanded, FlagsGone, Undeleted;
    var rmq, v := r.cluster.value, After(r, cfg, sch);
    var u := ChildrenAfter(r, cfg, sch);
    EventsSplit(r, u, v, rmq);
    CreationIsBuilt(u, v.(cluster := u.cluster), rmq, k);
  }
}
