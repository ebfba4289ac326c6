/** Deletion (controllers/reconcile_finalizer.go): label the pods, delete the sets, drop the finalizer. */
module Finalizer {
  import opened Basics
  import opened Objects
  import opened Store
  import opened Client
  import opened Resources
  import Stages

  const FINALIZER := "deletion.finalizers.rabbitmqclusters.rabbitmq.com"
  const DELETION_MARKER := "skipPreStopChecks"

  // ------------------------------------------------------------ specification

  function Without(finalizers: seq<string>, f: string): (r: seq<string>)
    ensures f !in r
    ensures forall g :: g in r <==> g in finalizers && g != f
  {
    if finalizers == [] then []
    else
      var rest, last := finalizers[..|finalizers| - 1], finalizers[|finalizers| - 1];
      assert finalizers == rest + [last];
      Without(rest, f) + if last == f then [] else [last]
  }

  function AddFinalizerSpec(s: Sys, sch: Schedule): Step {
    if s.rmq.deleting || FINALIZER in s.rmq.finalizers then Step(s, Continue)
    else
      var s1 := s.(rmq := s.rmq.(finalizers := s.rmq.finalizers + [FINALIZER]));
      Stages.WriteClusterSpec(s1, sch)
  }

  function RemoveFinalizerSpec(s: Sys, sch: Schedule): Step {
    if FINALIZER !in s.rmq.finalizers then Step(s, Continue)
    else
      var s1 := s.(rmq := s.rmq.(finalizers := Without(s.rmq.finalizers, FINALIZER)));
      Stages.WriteClusterSpec(s1, sch)
  }

  predicate Matches(labels: StrMap, selector: StrMap) {
    forall k :: k in selector ==> k in labels && labels[k] == selector[k]
  }

  /** A pod list call without a namespace: every matching pod anywhere. */
  predicate IsPodListing(w: World, selector: StrMap, pods: seq<PodKey>) {
    && (forall i :: 0 <= i < |pods| ==> pods[i] in w.pods && Matches(w.pods[pods[i]], selector))
    && (forall p :: p in w.pods && Matches(w.pods[p], selector) ==> p in pods)
  }

  function LabelPod(w: World, p: PodKey): World
    requires p in w.pods
  {
    w.(pods := w.pods[p := w.pods[p][DELETION_MARKER := "true"]], log := w.log + [PodLabelled(p)])
  }

  function DropPod(w: World, p: PodKey): World {
    w.(pods := w.pods - {p}, log := w.log + [PodVanished(p)])
  }

  /** The labelling loop of addRabbitmqDeletionLabel; a vanished pod is not an error. */
  function LabelPodsSpec(s: Sys, pods: seq<PodKey>, i: nat, sch: Schedule): (Sys, bool)
    requires i <= |pods|
    decreases |pods| - i
  {
    if i == |pods| then (s, true)
    else if sch.gone(s.calls) || pods[i] !in s.world.pods then
      LabelPodsSpec(Called(WithWorld(s, DropPod(s.world, pods[i]))), pods, i + 1, sch)
    else if sch.fails(s.calls) then (Called(s), false)
    else LabelPodsSpec(Called(WithWorld(s, LabelPod(s.world, pods[i]))), pods, i + 1, sch)
  }

  function AddDeletionLabelSpec(s: Sys, selector: StrMap, sch: Schedule): (Sys, bool) {
    if sch.fails(s.calls) || !IsPodListing(s.world, selector, sch.podListing(s.calls)) then (Called(s), false)
    else LabelPodsSpec(Called(s), sch.podListing(s.calls), 0, sch)
  }

  /** statefulSetUID: the controller of the set is this very cluster. */
  predicate OwnedBy(o: Object, rmq: Cluster) {
    o.meta.owner.Some? && o.meta.owner.value.uid == rmq.uid
  }

  function DeleteSet(w: World, key: Key): World {
    Remove(w, key).(log := w.log + [Deleted(key)])
  }

  /** One listed set; errors are only logged, so the loop always goes on. */
  function DeleteOneSpec(s: Sys, key: Key, sch: Schedule): Sys {
    if key !in s.world.objects || !s.world.objects[key].StatefulSet? || !OwnedBy(s.world.objects[key], s.rmq) then s
    else
      var (s1, ok) := AddDeletionLabelSpec(s, s.world.objects[key].spec.selector, sch);
      if !ok then s1
      else if sch.fails(s1.calls) then Called(s1)
      else Called(WithWorld(s1, DeleteSet(s1.world, key)))
  }

  function DeleteLoop(s: Sys, keys: seq<Key>, i: nat, sch: Schedule): Sys
    requires i <= |keys|
    decreases |keys| - i
  {
    if i == |keys| then s else DeleteLoop(DeleteOneSpec(s, keys[i], sch), keys, i + 1, sch)
  }

  function ReconcileDeleteSpec(s: Sys, sch: Schedule): Step {
    if !s.rmq.deleting then AddFinalizerSpec(s, sch)
    else
      var keys := ListSets(s, sch);
      if keys.None? then Step(Called(s), Error)
      else RemoveFinalizerSpec(DeleteLoop(Called(s), keys.value, 0, sch), sch)
  }

  // ------------------------------------------- what the specification promises

  predicate Handled(ev: seq<Event>, p: PodKey) {
    PodLabelled(p) in ev || PodVanished(p) in ev
  }

  /** The pod's labels, if its labelling is an event with the deletion marker, and otherwise as they were. */
  function LabelsAfter(labels: StrMap, ev: seq<Event>, p: PodKey): StrMap {
    if PodLabelled(p) in ev then labels["skipPreStopChecks" := "true"] else labels
  }

  /**
    Since w, a pod that is gone vanished in an event, and the others carry the marker exactly if
    they were labelled.
  */
  ghost predicate PodsAccounted(w: World, v: World, ev: seq<Event>) {
    && v.pods.Keys <= w.pods.Keys
    && (forall p :: p in w.pods && p !in v.pods ==> PodVanished(p) in ev)
    && (forall p :: p in v.pods ==> v.pods[p] == LabelsAfter(w.pods[p], ev, p))
  }

  /** Only pods and whole StatefulSets may differ. */
  ghost predicate OnlyDeletes(w: World, v: World) {
    && v.name == w.name && v.cluster == w.cluster && v.claims == w.claims && v.endpoints == w.endpoints
    && v.terminating <= w.terminating
    && forall k :: k in v.objects ==> k in w.objects && v.objects[k] == w.objects[k]
  }

  predicate DeleteEvent(e: Event) {
    e.PodLabelled? || e.PodVanished? || e.Deleted?
  }

  /** The set's controller reference carries the UID of this very cluster. */
  ghost predicate ControlledBy(o: Object, uid: string) { o.meta.owner.Some? && o.meta.owner.value.uid == uid }

  lemma OwnedIff(o: Object, rmq: Cluster)
    ensures OwnedBy(o, rmq) <==> ControlledBy(o, rmq.uid)
  {
  }

  /** A pod carries every label of a selector, with its value. */
  ghost predicate Carries(labels: StrMap, selector: StrMap) { selector.Items <= labels.Items }

  lemma MatchesIff(labels: StrMap, selector: StrMap)
    ensures Matches(labels, selector) <==> Carries(labels, selector)
  {
    if Carries(labels, selector) {
      forall k | k in selector ensures k in labels && labels[k] == selector[k] {
        assert (k, selector[k]) in selector.Items;
      }
    }
    if Matches(labels, selector) {
      forall e | e in selector.Items ensures e in labels.Items {
        assert e.0 in selector && e.0 in labels;
      }
    }
  }

  /** Before the set was deleted, every pod that carries its selector's labels was labelled or had vanished. */
  ghost predicate DeletedProperly(w: World, ev: seq<Event>, key: Key, rmq: Cluster) {
    && Mine(w, key) && ControlledBy(w.objects[key], rmq.uid)
    && exists n :: 0 <= n < |ev| && ev[n] == Deleted(key)
         && forall p :: p in w.pods && Carries(w.pods[p], w.objects[key].spec.selector) ==> Handled(ev[..n], p)
  }

  ghost predicate DeletionEffect(w: World, v: World, rmq: Cluster) {
    && Extends(w, v) && OnlyDeletes(w, v) && PodsAccounted(w, v, News(w, v))
    && (forall e :: e in News(w, v) ==> DeleteEvent(e))
    && (forall k :: Deleted(k) in News(w, v) ==> k in w.objects && k !in v.objects)
    && (forall k :: k in w.objects && k !in v.objects ==> DeletedProperly(w, News(w, v), k, rmq))
  }

  lemma {:induction false} LabelPodsEffect(s: Sys, pods: seq<PodKey>, i: nat, sch: Schedule)
    requires i <= |pods|
    ensures var (s', ok) := LabelPodsSpec(s, pods, i, sch);
            var w, v := s.world, s'.world;
            && s'.rmq == s.rmq && Extends(w, v)
            && v == w.(pods := v.pods, log := v.log)
            && PodsAccounted(w, v, News(w, v))
            && (forall e :: e in News(w, v) ==> e.PodLabelled? || e.PodVanished?)
            && (ok ==> forall j :: i <= j < |pods| ==> Handled(News(w, v), pods[j]))
    decreases |pods| - i
  {
    if i < |pods| && (sch.gone(s.calls) || pods[i] !in s.world.pods || !sch.fails(s.calls)) {
      var gone := sch.gone(s.calls) || pods[i] !in s.world.pods;
      var u := if gone then DropPod(s.world, pods[i]) else LabelPod(s.world, pods[i]);
      var e := if gone then PodVanished(pods[i]) else PodLabelled(pods[i]);
      assert News(s.world, u) == [e];
      OneHandled(s.world, u, pods[i], e);
      hide PodsAccounted, Handled;
      LabelPodsEffect(Called(WithWorld(s, u)), pods, i + 1, sch);
      var (t, ok) := LabelPodsSpec(Called(WithWorld(s, u)), pods, i + 1, sch);
      AccountedCompose(s.world, u, t.world);
      if ok {
        forall j | i <= j < |pods| ensures Handled(News(s.world, t.world), pods[j]) {
          if j == i {
            HandledAppend([e], News(u, t.world), pods[i]);
          } else {
            HandledAppend([e], News(u, t.world), pods[j]);
          }
        }
      }
    } else {
      assert News(s.world, s.world) == [];
    }
  }

  lemma OneHandled(w: World, u: World, p: PodKey, e: Event)
    requires (e == PodVanished(p) && u == DropPod(w, p)) || (p in w.pods && e == PodLabelled(p) && u == LabelPod(w, p))
    ensures PodsAccounted(w, u, [e]) && Handled([e], p)
  {
  }

  lemma HandledAppend(a: seq<Event>, b: seq<Event>, p: PodKey)
    ensures Handled(a + b, p) <==> Handled(a, p) || Handled(b, p)
  {
  }

  lemma AccountedCompose(w: World, u: World, v: World)
    requires Extends(w, u) && Extends(u, v)
    requires PodsAccounted(w, u, News(w, u)) && PodsAccounted(u, v, News(u, v))
    ensures Extends(w, v) && News(w, v) == News(w, u) + News(u, v)
    ensures PodsAccounted(w, v, News(w, v))
  {
    NewsCompose(w, u, v);
  }

  lemma DeleteOneEffect(s: Sys, key: Key, sch: Schedule)
    ensures var s' := DeleteOneSpec(s, key, sch);
            var w, v := s.world, s'.world;
            && s'.rmq == s.rmq && Extends(w, v) && OnlyDeletes(w, v) && PodsAccounted(w, v, News(w, v))
            && (forall e :: e in News(w, v) ==> DeleteEvent(e))
            && (forall k :: Deleted(k) in News(w, v) ==> k in w.objects && k !in v.objects)
            && (forall k :: k in w.objects && k !in v.objects ==>
                  && k == key && w.objects[k].StatefulSet? && ControlledBy(w.objects[key], s.rmq.uid)
                  && News(w, v) != []
                  && var n := |News(w, v)| - 1;
                     && News(w, v)[n] == Deleted(key)
                     && forall p :: p in w.pods && Carries(w.pods[p], w.objects[key].spec.selector) ==>
                       Handled(News(w, v)[..n], p))
  {
    hide Matches, Carries, PodsAccounted, Handled, LabelPodsSpec;
    var w := s.world;
    NothingAccounted(w);
    if key in w.objects && w.objects[key].StatefulSet? && OwnedBy(w.objects[key], s.rmq) {
      OwnedIff(w.objects[key], s.rmq);
      var selector := w.objects[key].spec.selector;
      var pods := sch.podListing(s.calls);
      if !sch.fails(s.calls) && IsPodListing(w, selector, pods) {
        LabelPodsEffect(Called(s), pods, 0, sch);
        var (s1, ok) := LabelPodsSpec(Called(s), pods, 0, sch);
        if ok {
          forall p | p in w.pods && Carries(w.pods[p], selector) ensures Handled(News(w, s1.world), p) {
            MatchesIff(w.pods[p], selector);
            assert p in pods;
          }
          RemovedOne(w, s1.world, key);
        }
      }
    }
  }

  /** The set goes after its pods were handled. */
  lemma RemovedOne(w: World, u: World, key: Key)
    requires Extends(w, u) && u == w.(pods := u.pods, log := u.log) && PodsAccounted(w, u, News(w, u))
    requires key in w.objects && forall e :: e in News(w, u) ==> e.PodLabelled? || e.PodVanished?
    ensures var v := DeleteSet(u, key);
            && Extends(w, v) && OnlyDeletes(w, v) && News(w, v) == News(w, u) + [Deleted(key)]
            && PodsAccounted(w, v, News(w, v)) && News(w, v)[..|News(w, v)| - 1] == News(w, u)
            && (forall e :: e in News(w, v) ==> DeleteEvent(e))
            && (forall k :: Deleted(k) in News(w, v) <==> k == key)
            && (forall k :: k in w.objects && k !in v.objects <==> k == key)
  {
    hide PodsAccounted;
    var v := DeleteSet(u, key);
    assert News(w, v) == News(w, u) + [Deleted(key)];
    AccountedLater(w, u, v, Deleted(key));
  }

  lemma NothingAccounted(w: World)
    ensures Extends(w, w) && News(w, w) == [] && PodsAccounted(w, w, News(w, w))
  {
  }

  lemma AccountedLater(w: World, u: World, v: World, e: Event)
    requires Extends(w, u) && PodsAccounted(w, u, News(w, u)) && v.pods == u.pods && e.Deleted?
    requires Extends(w, v) && News(w, v) == News(w, u) + [e]
    ensures PodsAccounted(w, v, News(w, v))
  {
  }

  lemma DeletionCompose(w: World, s: Sys, key: Key, sch: Schedule)
    requires DeletionEffect(w, s.world, s.rmq) && Mine(w, key)
    ensures DeletionEffect(w, DeleteOneSpec(s, key, sch).world, s.rmq)
  {
    hide DeleteOneSpec, PodsAccounted, DeletedProperly;
    DeleteOneEffect(s, key, sch);
    var u, v := s.world, DeleteOneSpec(s, key, sch).world;
    AccountedCompose(w, u, v);
    var a, b := News(w, u), News(u, v);
    forall k | k in w.objects && k !in v.objects ensures DeletedProperly(w, a + b, k, s.rmq) {
      if k !in u.objects {
        ProperlyBefore(w, a, b, k, s.rmq);
      } else {
        ProperlyLast(w, u, a, b, k, s.rmq);
      }
    }
  }

  lemma ProperlyBefore(w: World, a: seq<Event>, b: seq<Event>, k: Key, rmq: Cluster)
    requires DeletedProperly(w, a, k, rmq)
    ensures DeletedProperly(w, a + b, k, rmq)
  {
    var n :| 0 <= n < |a| && a[n] == Deleted(k)
      && forall p :: p in w.pods && Carries(w.pods[p], w.objects[k].spec.selector) ==> Handled(a[..n], p);
    assert (a + b)[..n] == a[..n] && (a + b)[n] == Deleted(k);
  }

  lemma ProperlyLast(w: World, u: World, a: seq<Event>, b: seq<Event>, k: Key, rmq: Cluster)
    requires Mine(w, k) && ControlledBy(w.objects[k], rmq.uid) && PodsAccounted(w, u, a)
    requires b != [] && b[|b| - 1] == Deleted(k)
    requires forall p :: p in u.pods && Carries(u.pods[p], w.objects[k].spec.selector) ==> Handled(b[..|b| - 1], p)
    ensures DeletedProperly(w, a + b, k, rmq)
  {
    var n := |a| + |b| - 1;
    assert (a + b)[..n] == a + b[..|b| - 1] && (a + b)[n] == Deleted(k);
    forall p | p in w.pods && Carries(w.pods[p], w.objects[k].spec.selector) ensures Handled((a + b)[..n], p) {
      HandledAppend(a, b[..|b| - 1], p);
      assert p in u.pods ==> u.pods[p] == LabelsAfter(w.pods[p], a, p);
    }
  }

  lemma {:induction false} DeleteLoopEffect(w: World, s: Sys, keys: seq<Key>, i: nat, sch: Schedule)
    requires i <= |keys| && DeletionEffect(w, s.world, s.rmq)
    requires forall j :: 0 <= j < |keys| ==> Mine(w, keys[j])
    ensures var s' := DeleteLoop(s, keys, i, sch);
            DeletionEffect(w, s'.world, s.rmq) && s'.rmq == s.rmq
    decreases |keys| - i
  {
    if i < |keys| {
      DeletionCompose(w, s, keys[i], sch);
      DeleteOneEffect(s, keys[i], sch);
      DeleteLoopEffect(w, DeleteOneSpec(s, keys[i], sch), keys, i + 1, sch);
    }
  }

  /**
    The deletion stage. A live cluster only ever gains the finalizer. A cluster marked
    for deletion loses sets only after their pods were labelled, and the pass goes on
    past this stage exactly when the finalizer was absent already (and the list call worked).
  */
  lemma DeleteStageEffect(s: Sys, sch: Schedule)
    requires s.world.cluster == Some(s.rmq)
    ensures var t := ReconcileDeleteSpec(s, sch);
            && DeletionEffect(s.world, t.sys.world.(cluster := s.world.cluster), s.rmq)
            && (t.outcome.Continue? ==> t.sys.rmq == s.rmq && t.sys.world.cluster == s.world.cluster)
            && (!s.rmq.deleting ==>
                  && t.sys.world == s.world.(cluster := t.sys.world.cluster)
                  && (t.outcome.Continue? <==> FINALIZER in s.rmq.finalizers))
            && (s.rmq.deleting ==>
                  (t.outcome.Continue? <==> ListSets(s, sch).Some? && FINALIZER !in s.rmq.finalizers))
            && (t.sys.world.cluster != s.world.cluster ==>
                  t.sys.world.cluster == Kept(s.world.cluster, s.rmq.(finalizers :=
                    if s.rmq.deleting then Without(s.rmq.finalizers, FINALIZER) else s.rmq.finalizers + [FINALIZER])))
            && t.sys.rmq.status == s.rmq.status
  {
    hide FINALIZER, DeletionEffect, DeleteLoop, Stages.WriteClusterSpec, IsListing;
    NothingDeleted(s.world, s.rmq);
    if s.rmq.deleting {
      var keys := ListSets(s, sch);
      if keys.Some? {
        ListedAreMine(s, sch);
        DeleteLoopEffect(s.world, Called(s), keys.value, 0, sch);
        var s1 := DeleteLoop(Called(s), keys.value, 0, sch);
        DeletionKeepsCluster(s.world, s1.world, s.rmq);
        FinalizersWritten(s1, Without(s.rmq.finalizers, FINALIZER), sch);
        DeletionAnyCluster(s.world, s1.world, s.rmq);
      }
    } else {
      FinalizersWritten(s, s.rmq.finalizers + [FINALIZER], sch);
    }
  }

  /**
    A set that carries the cluster's label but not its UID (another cluster's, a former one's of
    the same name, or nobody's) survives the deletion stage as it is, and is not asked to go.
  */
  lemma ForeignSetsStay(s: Sys, sch: Schedule, k: Key)
    requires s.world.cluster == Some(s.rmq) && k in s.world.objects
    requires s.world.objects[k].meta.owner.None? || s.world.objects[k].meta.owner.value.uid != s.rmq.uid
    ensures var v := ReconcileDeleteSpec(s, sch).sys.world;
            && k in v.objects && v.objects[k] == s.world.objects[k]
            && Extends(s.world, v) && Deleted(k) !in News(s.world, v)
  {
    hide ReconcileDeleteSpec, FINALIZER, Without;
    DeleteStageEffect(s, sch);
    var v := ReconcileDeleteSpec(s, sch).sys.world;
    assert News(s.world, v) == News(s.world, v.(cluster := s.world.cluster));
  }

  lemma NothingDeleted(w: World, rmq: Cluster)
    ensures DeletionEffect(w, w, rmq)
  {
    assert News(w, w) == [];
  }

  lemma ListedAreMine(s: Sys, sch: Schedule)
    ensures ListSets(s, sch).Some? ==> forall j :: 0 <= j < |ListSets(s, sch).value| ==>
              Mine(s.world, ListSets(s, sch).value[j])
  {
  }

  lemma DeletionKeepsCluster(w: World, v: World, rmq: Cluster)
    requires DeletionEffect(w, v, rmq)
    ensures v.cluster == w.cluster
  {
  }

  lemma DeletionAnyCluster(w: World, v: World, rmq: Cluster)
    requires DeletionEffect(w, v, rmq)
    ensures v.(cluster := w.cluster) == v
  {
  }

  /** Writing a finalizer list changes nothing else in the store. */
  lemma FinalizersWritten(s: Sys, finalizers: seq<string>, sch: Schedule)
    requires s.world.cluster == Some(s.rmq)
    ensures var c := s.rmq.(finalizers := finalizers);
            var t := Stages.WriteClusterSpec(s.(rmq := c), sch);
            && t.sys.world == s.world.(cluster := t.sys.world.cluster) && t.outcome.Completed()
            && (t.sys.world.cluster != s.world.cluster ==> t.sys.world.cluster == Kept(s.world.cluster, c))
            && t.sys.rmq.status == s.rmq.status
  {
  }

  // ----------------------------------------------------------- deletion completes

  predicate DueForDeletion(w: World, key: Key, rmq: Cluster) {
    key in w.objects && w.objects[key].StatefulSet? && OwnedBy(w.objects[key], rmq)
  }

  /** Every pod listing that the loop over the sets asks for from set i on is answered. */
  ghost predicate PodsListed(s: Sys, keys: seq<Key>, i: nat, sch: Schedule)
    requires i <= |keys|
    decreases |keys| - i
  {
    i == |keys| ||
    (&& (DueForDeletion(s.world, keys[i], s.rmq) ==>
           IsPodListing(s.world, s.world.objects[keys[i]].spec.selector, sch.podListing(s.calls)))
     && PodsListed(DeleteOneSpec(s, keys[i], sch), keys, i + 1, sch))
  }

  lemma {:induction false} LabelPodsCalm(s: Sys, pods: seq<PodKey>, i: nat, sch: Schedule)
    requires i <= |pods| && forall at :: !sch.fails(at)
    ensures LabelPodsSpec(s, pods, i, sch).1
    decreases |pods| - i
  {
    if i < |pods| {
      var gone := sch.gone(s.calls) || pods[i] !in s.world.pods;
      var u := if gone then DropPod(s.world, pods[i]) else LabelPod(s.world, pods[i]);
      LabelPodsCalm(Called(WithWorld(s, u)), pods, i + 1, sch);
    }
  }

  lemma DeleteOneCalm(s: Sys, key: Key, sch: Schedule)
    requires (forall at :: !sch.fails(at)) && DueForDeletion(s.world, key, s.rmq)
    requires IsPodListing(s.world, s.world.objects[key].spec.selector, sch.podListing(s.calls))
    ensures key !in DeleteOneSpec(s, key, sch).world.objects
  {
    hide IsPodListing, LabelPodsSpec;
    LabelPodsCalm(Called(s), sch.podListing(s.calls), 0, sch);
  }

  /** When no call fails the loop removes every set it comes to that belongs to the cluster. */
  lemma {:induction false} DeleteLoopCalm(s: Sys, keys: seq<Key>, i: nat, sch: Schedule)
    requires i <= |keys| && (forall at :: !sch.fails(at)) && PodsListed(s, keys, i, sch)
    ensures var v := DeleteLoop(s, keys, i, sch).world;
            && OnlyDeletes(s.world, v)
            && forall j :: i <= j < |keys| ==> !DueForDeletion(v, keys[j], s.rmq)
    decreases |keys| - i
  {
    hide DeleteOneSpec, PodsAccounted, IsPodListing;
    if i < |keys| {
      DeleteOneEffect(s, keys[i], sch);
      if DueForDeletion(s.world, keys[i], s.rmq) {
        DeleteOneCalm(s, keys[i], sch);
      }
      DeleteLoopCalm(DeleteOneSpec(s, keys[i], sch), keys, i + 1, sch);
    }
  }

  /**
    Deletion makes progress: when no call fails, the stage over a cluster that is being deleted
    and held back by the operator's finalizer alone removes every set of the cluster, each after
    its pods were labelled or seen gone, and the cluster goes.
  */
  lemma DeletionCompletes(s: Sys, sch: Schedule)
    requires s.world.cluster == Some(s.rmq) && s.rmq.deleting && s.rmq.finalizers != []
    requires forall f :: f in s.rmq.finalizers ==> f == FINALIZER
    requires (forall at :: !sch.fails(at)) && IsListing(s.world, sch.listing(s.calls))
    requires PodsListed(Called(s), sch.listing(s.calls), 0, sch)
    ensures var t := ReconcileDeleteSpec(s, sch);
            var v := t.sys.world;
            && t.outcome.Done? && v.cluster == None && Extends(s.world, v)
            && forall k :: Mine(s.world, k) && ControlledBy(s.world.objects[k], s.rmq.uid) ==>
                 k !in v.objects && DeletedProperly(s.world, News(s.world, v), k, s.rmq)
  {
    hide FINALIZER, DeleteLoop, DeletedProperly, PodsListed, PodsAccounted;
    var w, keys := s.world, sch.listing(s.calls);
    DeleteStageEffect(s, sch);
    DeleteLoopCalm(Called(s), keys, 0, sch);
    DeleteLoopKeeps(Called(s), keys, 0, sch);
    var v := ReconcileDeleteSpec(s, sch).sys.world;
    assert s.rmq.finalizers[0] in s.rmq.finalizers;
    NothingWithout(s.rmq.finalizers, FINALIZER);
    assert News(w, v) == News(w, v.(cluster := w.cluster));
    forall k | Mine(w, k) && ControlledBy(w.objects[k], s.rmq.uid)
      ensures k !in v.objects && DeletedProperly(w, News(w, v), k, s.rmq)
    {
      assert k in keys;
      OwnedIff(w.objects[k], s.rmq);
    }
  }

  lemma {:induction false} NothingWithout(finalizers: seq<string>, f: string)
    requires forall g :: g in finalizers ==> g == f
    ensures Without(finalizers, f) == []
  {
    if finalizers != [] {
      var rest, last := finalizers[..|finalizers| - 1], finalizers[|finalizers| - 1];
      assert last in finalizers && forall g :: g in rest ==> g in finalizers;
      NothingWithout(rest, f);
    }
  }

  lemma {:induction false} DeleteLoopKeeps(s: Sys, keys: seq<Key>, i: nat, sch: Schedule)
    requires i <= |keys|
    ensures DeleteLoop(s, keys, i, sch).rmq == s.rmq
    decreases |keys| - i
  {
    hide DeleteOneSpec;
    if i < |keys| {
      DeleteOneEffect(s, keys[i], sch);
      DeleteLoopKeeps(DeleteOneSpec(s, keys[i], sch), keys, i + 1, sch);
    }
  }

  // --------------------------------------------------------------- the stage

  method AddRabbitmqDeletionLabel(api: Api, selector: StrMap) returns (ok: bool)
    modifies api
    ensures (api.State(), ok) == AddDeletionLabelSpec(old(api.State()), selector, api.sch)
  {
    hide Matches, DELETION_MARKER;
    var pods := api.sch.podListing(api.calls);
    ok := api.Call();
    if !ok || !IsPodListing(api.world, selector, pods) { return false; }
    label Listed:
    for i := 0 to |pods|
      invariant LabelPodsSpec(api.State(), pods, i, api.sch) == LabelPodsSpec(old@Listed(api.State()), pods, 0, api.sch)
    {
      if api.sch.gone(api.calls) || pods[i] !in api.world.pods {
        api.world := DropPod(api.world, pods[i]);
        api.calls := api.calls + 1;
      } else {
        ok := api.Call();
        if !ok { return false; }
        api.world := LabelPod(api.world, pods[i]);
      }
    }
    return true;
  }

  method ReconcileDelete(api: Api) returns (res: Outcome)
    modifies api
    ensures Step(api.State(), res) == ReconcileDeleteSpec(old(api.State()), api.sch)
  {
    if !api.rmq.deleting {
      res := AddFinalizer(api);
      return res;
    }
    var listed := api.List();
    if listed.None? { return Error; }
    label Listed:
    for i := 0 to |listed.value|
      invariant DeleteLoop(api.State(), listed.value, i, api.sch) ==
                DeleteLoop(old@Listed(api.State()), listed.value, 0, api.sch)
    {
      DeleteListed(api, listed.value[i]);
    }
    res := RemoveFinalizer(api);
  }

  method DeleteListed(api: Api, key: Key)
    modifies api
    ensures api.State() == DeleteOneSpec(old(api.State()), key, api.sch)
  {
    if key !in api.world.objects || !api.world.objects[key].StatefulSet? || !OwnedBy(api.world.objects[key], api.rmq) {
      return;
    }
    var ok := AddRabbitmqDeletionLabel(api, api.world.objects[key].spec.selector);
    if ok {
      ok := api.Call();
      if ok {
        api.world := DeleteSet(api.world, key);
      }
    }
  }

  method AddFinalizer(api: Api) returns (res: Outcome)
    modifies api
    ensures Step(api.State(), res) == AddFinalizerSpec(old(api.State()), api.sch)
  {
    if api.rmq.deleting { return Continue; }
    if FINALIZER in api.rmq.finalizers { return Continue; }
    api.rmq := api.rmq.(finalizers := api.rmq.finalizers + [FINALIZER]);
    res := Stages.WriteCluster(api);
  }

  /** The list without a string; only then is it as long as before when the string was not there. */
  method RemoveString(all: seq<string>, f: string) returns (kept: seq<string>)
    ensures kept == Without(all, f) && (|kept| == |all| <==> f !in all)
  {
    kept := [];
    for i := 0 to |all|
      invariant kept == Without(all[..i], f)
      invariant |kept| <= i && (|kept| == i <==> f !in all[..i])
    {
      assert all[..i + 1][..i] == all[..i];
      assert all[..i + 1] == all[..i] + [all[i]];
      if all[i] != f {
        kept := kept + [all[i]];
      }
    }
    assert all[..|all|] == all;
  }

  method RemoveFinalizer(api: Api) returns (res: Outcome)
    modifies api
    ensures Step(api.State(), res) == RemoveFinalizerSpec(old(api.State()), api.sch)
  {
    var all := api.rmq.finalizers;
    var kept := RemoveString(all, FINALIZER);
    hide FINALIZER, Stages.WriteClusterSpec;
    if |kept| == |all| { return Continue; }
    api.rmq := api.rmq.(finalizers := kept);
    res := Stages.WriteCluster(api);
  }
}
