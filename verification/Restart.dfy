/** restartStatefulSetIfNeeded (controllers/reconcile_resources.go): one stale set restarts per pass. */
module Restart {
  import opened Basics
  import opened Objects
  import opened Store
  import opened Names
  import opened Client
  import opened Resources

  const LOOKUP_RETRY: nat := 10

  function ServerConfKey(cluster: string): Key {
    Key(KindConfigMap, ChildResourceName(cluster, "server-conf"))
  }

  // ------------------------------------------------------------ specification

  /** The set's pods were restarted after the configuration changed at the given time. */
  predicate RestartedAfter(o: Object, since: string) {
    && o.StatefulSet?
    && LAST_RESTART in o.spec.template.annotations
    && StringLess(since, o.spec.template.annotations[LAST_RESTART])
  }

  function Stamp(o: Object, now: string): Object
    requires o.StatefulSet?
  {
    var template := o.spec.template;
    o.(spec := o.spec.(template := template.(annotations := template.annotations[LAST_RESTART := now])))
  }

  function RestartLoop(s: Sys, keys: seq<Key>, i: nat, since: string, sch: Schedule): Step
    requires i <= |keys|
    requires AllMine(s.world, keys)
    decreases |keys| - i
  {
    if i == |keys| then Step(s, Continue)
    else if RestartedAfter(s.world.objects[keys[i]], since) then RestartLoop(s, keys, i + 1, since, sch)
    else if sch.fails(s.calls) then Step(Called(s), Error)
    else if sch.fails(s.calls + 1) then Step(Called(Called(s)), Error)
    else
      var o := Stamp(s.world.objects[keys[i]], sch.now(s.calls));
      Step(Called(Called(WithWorld(s, Update(s.world, keys[i], o)))), Done)
  }

  function RestartSpec(s: Sys, sch: Schedule): Step {
    var conf := ServerConfKey(s.rmq.name);
    if sch.fails(s.calls) then Step(Called(s), RequeueError(LOOKUP_RETRY))
    else if conf !in s.world.objects then Step(Called(s), Continue)
    else if SERVER_CONF_UPDATED !in s.world.objects[conf].meta.annotations then Step(Called(s), Continue)
    else
      var since := s.world.objects[conf].meta.annotations[SERVER_CONF_UPDATED];
      var keys := ListSets(Called(s), sch);
      if keys.None? then Step(Called(Called(s)), RequeueError(LOOKUP_RETRY))
      else RestartLoop(Called(Called(s)), keys.value, 0, since, sch)
  }

  // ------------------------------------------- what the specification promises

  /** When the configuration last changed in a way that needs a restart. */
  function ConfChangedAt(w: World): Option<string> {
    var conf := ServerConfKey(w.name);
    if conf in w.objects && SERVER_CONF_UPDATED in w.objects[conf].meta.annotations then
      Some(w.objects[conf].meta.annotations[SERVER_CONF_UPDATED])
    else None
  }

  predicate Stale(w: World, k: Key, since: string) {
    Mine(w, k) && !RestartedAfter(w.objects[k], since)
  }

  function StaleSet(w: World, since: string): set<Key> {
    set k | k in w.objects && Stale(w, k, since)
  }

  /** The sets not restarted since the last change of the configuration; none if there was no change. */
  function StaleSets(w: World): set<Key> {
    if ConfChangedAt(w).Some? then StaleSet(w, ConfChangedAt(w).value) else {}
  }

  /** One set, stale so far, was stamped; nothing else changed. */
  ghost predicate Restarted(w: World, v: World, k: Key, since: string, now: string) {
    Stale(w, k, since) && v == Update(w, k, Stamp(w.objects[k], now))
  }

  lemma {:induction false} RestartLoopEffect(s: Sys, keys: seq<Key>, i: nat, since: string, sch: Schedule)
    requires i <= |keys|
    requires AllMine(s.world, keys)
    ensures var t := RestartLoop(s, keys, i, since, sch);
            && t.sys.rmq == s.rmq
            && (t.outcome.Continue? ==>
                  && t.sys.world == s.world
                  && forall j :: i <= j < |keys| ==> RestartedAfter(s.world.objects[keys[j]], since))
            && (t.outcome.Done? ==> exists k, at :: Restarted(s.world, t.sys.world, k, since, sch.now(at)))
            && (t.outcome.Done? || t.sys.world == s.world)
            && (t.outcome.Done? || t.outcome.Continue? || t.outcome.Error?)
    decreases |keys| - i
  {
    if i < |keys| {
      if RestartedAfter(s.world.objects[keys[i]], since) {
        RestartLoopEffect(s, keys, i + 1, since, sch);
      } else if !sch.fails(s.calls) && !sch.fails(s.calls + 1) {
        assert Restarted(s.world, RestartLoop(s, keys, i, since, sch).sys.world, keys[i], since, sch.now(s.calls));
      }
    }
  }

  /** The stage stamps one stale set and stops, or passes only when no set is stale. */
  lemma RestartEffect(s: Sys, sch: Schedule)
    requires s.rmq.name == s.world.name
    ensures var t := RestartSpec(s, sch);
            && t.sys.rmq == s.rmq
            && (t.outcome.Continue? ==>
                  && t.sys.world == s.world
                  && (ConfChangedAt(s.world).Some? ==> StaleSet(s.world, ConfChangedAt(s.world).value) == {}))
            && (t.outcome.Done? ==>
                  && ConfChangedAt(s.world).Some?
                  && exists k, at :: Restarted(s.world, t.sys.world, k, ConfChangedAt(s.world).value, sch.now(at)))
            && (t.outcome.Done? || t.sys.world == s.world)
  {
    if !sch.fails(s.calls) && ConfChangedAt(s.world).Some? {
      var since := ConfChangedAt(s.world).value;
      var keys := ListSets(Called(s), sch);
      if keys.Some? {
        RestartLoopEffect(Called(Called(s)), keys.value, 0, since, sch);
        var t := RestartLoop(Called(Called(s)), keys.value, 0, since, sch);
        assert forall k :: k in s.world.objects && Mine(s.world, k) ==> k in keys.value;
      }
    }
  }

  /** Stamping a set with the time `now` ends its staleness exactly when `now` is later than the change. */
  lemma StampEndsStaleness(w: World, v: World, k: Key, since: string, now: string)
    requires Restarted(w, v, k, since, now)
    ensures v.name == w.name && ConfChangedAt(v) == ConfChangedAt(w) && MineSet(v) == MineSet(w)
    ensures StaleSet(v, since) == if StringLess(since, now) then StaleSet(w, since) - {k} else StaleSet(w, since)
    ensures Extends(w, v) && (StringLess(since, now) ==> News(w, v) == [Updated(k), TemplateWritten(k)])
  {
    var o := Stamp(w.objects[k], now);
    assert forall j :: j in w.objects && j != k ==> v.objects[j] == w.objects[j];
    assert Mine(v, k);
    assert RestartedAfter(v.objects[k], since) <==> StringLess(since, now);
    assert v.log == w.log + ([Updated(k)] + TemplateEvents(k, TemplateChanged(w.objects[k], o)));
    assert o.spec.template.annotations == w.objects[k].spec.template.annotations[LAST_RESTART := now];
    assert RestartedAfter(o, since) != RestartedAfter(w.objects[k], since) ==> TemplateChanged(w.objects[k], o);
    if StringLess(since, now) {
      assert News(w, v) == [Updated(k)] + [TemplateWritten(k)];
    }
  }

  // ---------------------------------------------------------- counting rollouts

  /** How often the pod template of a set was written. */
  function Rollouts(events: seq<Event>, k: Key): nat {
    if events == [] then 0
    else Rollouts(events[..|events| - 1], k) + if events[|events| - 1] == TemplateWritten(k) then 1 else 0
  }

  lemma {:induction false} RolloutsAppend(a: seq<Event>, b: seq<Event>, k: Key)
    ensures Rollouts(a + b, k) == Rollouts(a, k) + Rollouts(b, k)
  {
    if b == [] {
      assert a + b == a;
    } else {
      RolloutsAppend(a, b[..|b| - 1], k);
      assert (a + b)[..|a + b| - 1] == a + b[..|b| - 1];
    }
  }

  lemma {:induction false} NoRollouts(events: seq<Event>, k: Key)
    requires TemplateWritten(k) !in events
    ensures Rollouts(events, k) == 0
  {
    if events != [] {
      NoRollouts(events[..|events| - 1], k);
    }
  }

  lemma {:induction false} SomeRollout(events: seq<Event>, k: Key)
    requires TemplateWritten(k) in events
    ensures Rollouts(events, k) >= 1
  {
    if events[|events| - 1] != TemplateWritten(k) {
      SomeRollout(events[..|events| - 1], k);
    }
  }

  /** Without failing calls and with complete listings, the stage stamps a set or passes. */
  lemma RestartCalm(s: Sys, sch: Schedule)
    requires forall at :: !sch.fails(at) && IsListing(s.world, sch.listing(at))
    ensures var o := RestartSpec(s, sch).outcome; o.Done? || o.Continue?
  {
    var conf := ServerConfKey(s.rmq.name);
    if conf in s.world.objects && SERVER_CONF_UPDATED in s.world.objects[conf].meta.annotations {
      var keys := sch.listing(s.calls + 1);
      assert ListSets(Called(s), sch) == Some(keys);
      RestartLoopCalm(Called(Called(s)), keys, 0, s.world.objects[conf].meta.annotations[SERVER_CONF_UPDATED], sch);
    }
  }

  lemma {:induction false} RestartLoopCalm(s: Sys, keys: seq<Key>, i: nat, since: string, sch: Schedule)
    requires i <= |keys| && AllMine(s.world, keys) && forall at :: !sch.fails(at)
    ensures var o := RestartLoop(s, keys, i, since, sch).outcome; o.Done? || o.Continue?
    decreases |keys| - i
  {
    if i < |keys| && RestartedAfter(s.world.objects[keys[i]], since) {
      RestartLoopCalm(s, keys, i + 1, since, sch);
    }
  }

  /** A stamp later than the change is one rollout of the set and none of any other. */
  lemma StampEvents(w: World, v: World, k: Key, since: string, now: string, j: Key)
    requires Restarted(w, v, k, since, now) && StringLess(since, now)
    ensures Extends(w, v) && Rollouts(News(w, v), j) == if j == k then 1 else 0
  {
    StampEndsStaleness(w, v, k, since, now);
    var ev := News(w, v);
    assert ev[..1] == [Updated(k)] && ev[..1][..0] == [];
    assert Rollouts(ev[..1], j) == 0;
  }

  // ------------------------------------------------------------ the stage

  /** The loop over the listed sets: the first stale one is stamped. */
  method RestartFirstStale(api: Api, keys: seq<Key>, since: string) returns (res: Outcome)
    requires AllMine(api.world, keys)
    modifies api
    ensures AllMine(old(api.world), keys)
    ensures Step(api.State(), res) == RestartLoop(old(api.State()), keys, 0, since, api.sch)
  {
    for i := 0 to |keys|
      invariant api.State() == old(api.State())
      invariant RestartLoop(api.State(), keys, i, since, api.sch) == RestartLoop(api.State(), keys, 0, since, api.sch)
    {
      var key := keys[i];
      if RestartedAfter(api.world.objects[key], since) { continue; }
      var now := api.sch.now(api.calls);
      var ok := api.Call();
      if !ok { return Error; }
      ok := api.Call();
      if !ok { return Error; }
      api.world := Update(api.world, key, Stamp(api.world.objects[key], now));
      return Done;
    }
    return Continue;
  }

  method RestartStatefulSetIfNeeded(api: Api) returns (res: Outcome)
    modifies api
    ensures Step(api.State(), res) == RestartSpec(old(api.State()), api.sch)
  {
    hide RestartLoop, ChildResourceName;
    var conf := ServerConfKey(api.rmq.name);
    var ok := api.Call();
    if !ok { return RequeueError(LOOKUP_RETRY); }
    if conf !in api.world.objects { return Continue; }
    if SERVER_CONF_UPDATED !in api.world.objects[conf].meta.annotations { return Continue; }
    var since := api.world.objects[conf].meta.annotations[SERVER_CONF_UPDATED];
    var keys := api.List();
    if keys.None? { return RequeueError(LOOKUP_RETRY); }
    res := RestartFirstStale(api, keys.value, since);
  }
}
