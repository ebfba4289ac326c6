/** The reconciler's mutable view of one pass: the store, the cached cluster, the call counter. */
module Client {
  import opened Basics
  import opened Objects
  import opened Store

  class Api {
    const sch: Schedule
    var world: World
    var rmq: Cluster
    var calls: nat

    constructor (w: World, cluster: Cluster, schedule: Schedule)
      ensures State() == Sys(w, cluster, 0) && sch == schedule
    {
      sch, world, rmq, calls := schedule, w, cluster, 0;
    }

    ghost function State(): Sys reads this { Sys(world, rmq, calls) }

    /** One API call: says whether it went through. */
    method Call() returns (ok: bool)
      modifies this`calls
      ensures ok == !sch.fails(old(calls))
      ensures State() == Called(old(State()))
    {
      ok := !sch.fails(calls);
      calls := calls + 1;
    }

    /** A list call for this cluster's StatefulSets. */
    method List() returns (keys: Option<seq<Key>>)
      modifies this`calls
      ensures keys == ListSets(old(State()), sch)
      ensures State() == Called(old(State()))
    {
      var at := calls;
      var ok := Call();
      if ok && IsListing(world, sch.listing(at)) {
        keys := Some(sch.listing(at));
      } else {
        keys := None;
      }
    }
  }
}
