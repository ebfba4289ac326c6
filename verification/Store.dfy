/**
  The API server as a store of values, one reconcile pass's view of it, and the
  schedule that fixes everything the operator does not control.

  Assumptions of this store: it keeps exactly what is written, reads are never
  stale, one worker runs at a time, and a StatefulSet shows as being updated from
  the moment its pod template is written until the environment finishes the rollout.
*/
module Store {
  import opened Basics
  import opened Objects

  datatype PodKey = PodKey(namespace: string, name: string)

  /** What the operator did to the outside, in order. */
  datatype Event =
    | Created(key: Key)
    | Updated(key: Key)
    | RestartAsked(key: Key)         // the update changed more than the nodes can take up while running
    | TemplateWritten(key: Key)
    | Deleted(key: Key)
    | ConfirmedGone(key: Key)
    | ClaimGrown(claim: string, size: nat)
    | PodLabelled(pod: PodKey)
    | PodVanished(pod: PodKey)
    | Ran(podName: string, command: string)
    | FlagCleared(key: Key, flag: string)
    | RebalanceCleared

  datatype World = World(
    name: string,                    // the name of the cluster
    cluster: Option<Cluster>,
    objects: map<Key, Object>,
    terminating: set<Key>,           // deleted with orphan propagation, not yet removed
    claims: map<string, nat>,        // persistent volume claims: name to requested size
    pods: map<PodKey, StrMap>,       // pod labels
    endpoints: Option<seq<nat>>,     // addresses per subset of the client service
    log: seq<Event>)

  /** The k-th API call of a pass, or the clock at that moment, behaves like this. */
  datatype Schedule = Schedule(
    fails: nat -> bool,              // the call returns an error and has no effect
    now: nat -> Stamp,               // the clock, formatted as RFC 3339
    random: nat -> Encoded,          // bytes drawn by Build, encoded
    listing: nat -> seq<Key>,        // the order in which StatefulSets are returned
    podListing: nat -> seq<PodKey>,  // the order in which pods are returned
    gone: nat -> bool,               // the environment has removed the object by then
    recent: nat -> bool)             // the plugins flag is less than two seconds old

  /** No call fails and an object that was deleted is gone at once. */
  ghost predicate NoFaults(sch: Schedule) {
    forall at :: !sch.fails(at) && sch.gone(at)
  }

  /** A pass in flight: the store, the cached copy of the cluster, calls made so far. */
  datatype Sys = Sys(world: World, rmq: Cluster, calls: nat)

  /** result.ReconcileResult, or a pass cut short by an index out of range. */
  datatype Outcome = Continue | Done | Requeue(after: nat) | Error | RequeueError(retryAfter: nat) | Panic
  {
    predicate Completed() { !Continue? }
    predicate IsError() { Error? || RequeueError? }
  }

  datatype Step = Step(sys: Sys, outcome: Outcome)

  function Called(s: Sys): Sys { s.(calls := s.calls + 1) }

  function WithWorld(s: Sys, w: World): Sys { s.(world := w) }

  // --------------------------------------------------------------- StatefulSets

  /** The StatefulSets a list call with this cluster's label selector matches. */
  predicate Mine(w: World, k: Key) {
    && k in w.objects
    && k.kind == KindStatefulSet
    && w.objects[k].StatefulSet?
    && NAME_LABEL in w.objects[k].meta.labels
    && w.objects[k].meta.labels[NAME_LABEL] == w.name
  }

  function MineSet(w: World): set<Key> {
    set k | k in w.objects && Mine(w, k)
  }

  predicate Distinct<T(==)>(s: seq<T>) {
    forall i, j :: 0 <= i < j < |s| ==> s[i] != s[j]
  }

  predicate AllMine(w: World, keys: seq<Key>) {
    forall i :: 0 <= i < |keys| ==> Mine(w, keys[i])
  }

  predicate IsListing(w: World, keys: seq<Key>) {
    && Distinct(keys)
    && AllMine(w, keys)
    && (forall k :: k in w.objects && Mine(w, k) ==> k in keys)
  }

  /**
    statefulSets. A schedule whose listing is not an enumeration of the matching
    sets stands for a failed call.
  */
  function ListSets(s: Sys, sch: Schedule): Option<seq<Key>> {
    if sch.fails(s.calls) || !IsListing(s.world, sch.listing(s.calls)) then None
    else Some(sch.listing(s.calls))
  }

  /** allReplicasReadyAndUpdated over a list result. */
  predicate AllSettled(w: World, keys: seq<Key>) {
    forall i :: 0 <= i < |keys| ==> Mine(w, keys[i]) && Settled(w.objects[keys[i]])
  }

  /** Every set of this cluster is settled. */
  predicate Quiet(w: World) {
    forall k :: k in w.objects && Mine(w, k) ==> Settled(w.objects[k])
  }

  lemma {:induction false} DistinctSize(keys: seq<Key>)
    requires Distinct(keys)
    ensures |set k | k in keys| == |keys|
  {
    if keys != [] {
      var rest, last := keys[..|keys| - 1], keys[|keys| - 1];
      DistinctSize(rest);
      assert (set k | k in keys) == (set k | k in rest) + {last};
    } else {
      assert (set k | k in keys) == {};
    }
  }

  /** A listing is exactly the cluster's sets, so judging the listing judges them all. */
  lemma ListingIsMine(w: World, keys: seq<Key>)
    requires IsListing(w, keys)
    ensures |MineSet(w)| == |keys|
    ensures AllSettled(w, keys) <==> Quiet(w)
  {
    DistinctSize(keys);
    assert (set k | k in keys) == MineSet(w);
    if AllSettled(w, keys) {
      forall k | k in w.objects && Mine(w, k) ensures Settled(w.objects[k]) {
        assert k in keys;
      }
    }
  }

  // --------------------------------------------------------------------- writes

  /** What the store keeps for a created object: a set starts unsettled. */
  function Stored(o: Object): Object {
    if o.StatefulSet? then o.(status := SetStatus(0, 1, 0)) else o
  }

  /** What the store keeps for an updated object: a changed template starts a rollout. */
  function Restored(prior: Object, o: Object): Object {
    if prior.StatefulSet? && o.StatefulSet? then
      if prior.spec.template == o.spec.template then o.(status := prior.status)
      else o.(status := prior.status.(updateRevision := prior.status.currentRevision + 1))
    else o
  }

  function TemplateEvents(key: Key, changed: bool): seq<Event> {
    if changed then [TemplateWritten(key)] else []
  }

  function Create(w: World, key: Key, o: Object): World {
    w.(objects := w.objects[key := Stored(o)],
       log := w.log + [Created(key)] + TemplateEvents(key, o.StatefulSet?))
  }

  predicate TemplateChanged(prior: Object, o: Object) {
    prior.StatefulSet? && o.StatefulSet? && prior.spec.template != o.spec.template
  }

  function Update(w: World, key: Key, o: Object): World
    requires key in w.objects
  {
    w.(objects := w.objects[key := Restored(w.objects[key], o)],
       log := w.log + [Updated(key)] + TemplateEvents(key, TemplateChanged(w.objects[key], o)))
  }

  function Remove(w: World, key: Key): World {
    w.(objects := w.objects - {key}, terminating := w.terminating - {key})
  }

  /**
    Update of the cluster object: metadata and spec are persisted, the status
    subresource is not, a changed spec gets a new generation, and a cluster marked
    for deletion goes away with its last finalizer. The cached copy becomes the
    server's answer.
  */
  function Answered(stored: Option<Cluster>, rmq: Cluster): Cluster {
    if stored.None? then rmq
    else rmq.(
      status := stored.value.status, deleting := stored.value.deleting,
      generation := if rmq.spec == stored.value.spec then stored.value.generation else stored.value.generation + 1)
  }

  function Kept(stored: Option<Cluster>, rmq: Cluster): Option<Cluster> {
    if stored.None? then None
    else
      var answer := Answered(stored, rmq);
      if answer.deleting && answer.finalizers == [] then None else Some(answer)
  }

  function UpdateCluster(s: Sys): Sys {
    s.(rmq := Answered(s.world.cluster, s.rmq), world := s.world.(cluster := Kept(s.world.cluster, s.rmq)))
  }

  /** Update of the status subresource. */
  function UpdateStatus(s: Sys): Sys {
    if s.world.cluster.None? then s
    else s.(world := s.world.(cluster := Some(s.world.cluster.value.(status := s.rmq.status))))
  }

  // -------------------------------------------------------- resource builders

  datatype Role =
    | HeadlessService | ClientService | ErlangCookie | DefaultUserSecret | PluginsConfigMap
    | ServerConfigMap | ServiceAccount | PeerDiscoveryRole | RoleBinding | Node(index: nat)

  /** Outcome of Update: the new object and whether the sets must restart, or an error. */
  datatype Mutation = Rejected | Accepted(result: Object, restart: bool)

  /** resource.ResourceBuilder: the object's key, Build and Update. */
  datatype Builder = Builder(
    role: Role, key: Key, build: string -> Object, update: Object -> Mutation)

  /** Update leaves the object as it is. */
  predicate Fixed(b: Builder, o: Object) {
    b.update(o).Accepted? && b.update(o).result == o
  }

  /** The builder's object exists and matches its builder. */
  predicate InPlace(b: Builder, w: World) {
    b.key in w.objects && Fixed(b, w.objects[b.key])
  }

  predicate WellTyped(w: World) {
    forall k :: k in w.objects ==> Fits(k.kind, w.objects[k])
  }
}
