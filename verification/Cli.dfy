/** reconcileRabbitmqCLI (controllers/reconcile_cli.go): pending commands run, then their flags go. */
module Cli {
  import opened Basics
  import opened Objects
  import opened Store
  import opened Names
  import opened Client
  import opened Resources
  import Plugins

  const NOT_READY_RETRY: nat := 15
  const RECENT_RETRY: nat := 2
  const ENABLE_FLAGS := "rabbitmqctl enable_feature_flag all"
  const REBALANCE := "rabbitmq-queues rebalance all"

  function PluginsKey(cluster: string): Key {
    Key(KindConfigMap, ChildResourceName(cluster, "plugins-conf"))
  }

  function Node(rmq: Cluster, i: nat): string {
    PodName(rmq.name, SET_SUFFIX, i)
  }

  // ------------------------------------------------------------ specification

  /** A command that went through is logged; one that failed has no effect. */
  function ExecSpec(s: Sys, pod: string, command: string, sch: Schedule): (Sys, bool) {
    if sch.fails(s.calls) then (Called(s), false)
    else (Called(WithWorld(s, s.world.(log := s.world.log + [Ran(pod, command)]))), true)
  }

  /** runSetPluginsCommand from node i on. */
  function SetPluginsSpec(s: Sys, i: nat, sch: Schedule): (Sys, bool)
    requires i <= s.rmq.spec.replicas
    decreases s.rmq.spec.replicas - i
  {
    if i == s.rmq.spec.replicas then (s, true)
    else
      var (s1, ok) := ExecSpec(s, Node(s.rmq, i), Plugins.SetCommand(s.rmq.spec.plugins), sch);
      if !ok then (s1, false) else SetPluginsSpec(s1, i + 1, sch)
  }

  /** deleteAnnotation on a child object. */
  function ClearFlagSpec(s: Sys, key: Key, flag: string, sch: Schedule): (Sys, bool) {
    if sch.fails(s.calls) || key !in s.world.objects then (Called(s), false)
    else
      var w := Update(s.world, key, WithoutAnnotation(s.world.objects[key], flag));
      (Called(WithWorld(s, w.(log := w.log + [FlagCleared(key, flag)]))), true)
  }

  function PluginsStage(s: Sys, sch: Schedule): Step {
    var key := PluginsKey(s.rmq.name);
    if sch.fails(s.calls) || key !in s.world.objects then Step(Called(s), Error)
    else if !Flagged(s.world.objects[key].meta.annotations, PLUGINS_UPDATED) then Step(Called(s), Continue)
    else if sch.recent(s.calls) then Step(Called(s), Requeue(RECENT_RETRY))
    else
      var (s1, ran) := SetPluginsSpec(Called(s), 0, sch);
      if !ran then Step(s1, Error)
      else
        var (s2, cleared) := ClearFlagSpec(s1, key, PLUGINS_UPDATED, sch);
        Step(s2, if cleared then Continue else Error)
  }

  /** Newly created sets from index i of the listing on. */
  function CreatedStage(s: Sys, keys: seq<Key>, i: nat, sch: Schedule): Step
    requires i <= |keys|
    decreases |keys| - i
  {
    if i == |keys| then Step(s, Continue)
    else if keys[i] !in s.world.objects || !Flagged(s.world.objects[keys[i]].meta.annotations, SET_CREATED) then
      CreatedStage(s, keys, i + 1, sch)
    else
      var (s1, ran) := ExecSpec(s, Node(s.rmq, 0), ENABLE_FLAGS, sch);
      if !ran then Step(s1, Error)
      else
        var (s2, cleared) := ClearFlagSpec(s1, keys[i], SET_CREATED, sch);
        if !cleared then Step(s2, Error) else CreatedStage(s2, keys, i + 1, sch)
  }

  function RebalanceStage(s: Sys, sch: Schedule): Step {
    if !Flagged(s.rmq.annotations, REBALANCE_NEEDED) then Step(s, Continue)
    else
      var (s1, ran) := ExecSpec(s, Node(s.rmq, 0), REBALANCE, sch);
      if !ran then Step(s1, Error)
      else
        var s2 := s1.(rmq := s1.rmq.(annotations := s1.rmq.annotations - {REBALANCE_NEEDED}));
        if sch.fails(s2.calls) then Step(Called(s2), Error)
        else
          var s3 := UpdateCluster(s2);
          Step(Called(WithWorld(s3, s3.world.(log := s3.world.log + [RebalanceCleared]))), Continue)
  }

  function CliSpec(s: Sys, sch: Schedule): Step {
    var keys := ListSets(s, sch);
    if keys.None? then Step(Called(s), Error)
    else if !AllSettled(s.world, keys.value) || |keys.value| != s.rmq.spec.replicas then
      Step(Called(s), Requeue(NOT_READY_RETRY))
    else
      var p := PluginsStage(Called(s), sch);
      if p.outcome.Completed() then p
      else
        var c := CreatedStage(p.sys, keys.value, 0, sch);
        if c.outcome.Completed() then c else RebalanceStage(c.sys, sch)
  }

  // ------------------------------------------- what the specification promises

  ghost predicate RanOnAll(ev: seq<Event>, rmq: Cluster, command: string) {
    forall i :: 0 <= i < rmq.spec.replicas ==> Ran(Node(rmq, i), command) in ev
  }

  /** The command this flag stands for went through in these events. */
  ghost predicate CommandRan(ev: seq<Event>, rmq: Cluster, key: Key, flag: string) {
    || (key == PluginsKey(rmq.name) && flag == PLUGINS_UPDATED
      && RanOnAll(ev, rmq, Plugins.SetCommand(rmq.spec.plugins)))
    || (key.kind == KindStatefulSet && flag == SET_CREATED && Ran(Node(rmq, 0), ENABLE_FLAGS) in ev)
  }

  /** The event may stand at the end of these events: the command it presupposes is among the earlier ones. */
  ghost predicate JustifiedAt(ev: seq<Event>, n: nat, rmq: Cluster)
    requires n < |ev|
  {
    match ev[n]
    case FlagCleared(k, f) => CommandRan(ev[..n], rmq, k, f)
    case RebalanceCleared => Ran(Node(rmq, 0), REBALANCE) in ev[..n]
    case Updated(_) => true
    case Ran(_, _) => true
    case _ => false
  }

  /** Every flag these events clear went after its command had gone through, and nothing else happened. */
  ghost predicate Justified(ev: seq<Event>, rmq: Cluster) {
    forall n :: 0 <= n < |ev| ==> JustifiedAt(ev, n, rmq)
  }

  /** p is o without some of the operator's annotations, each removal being an event. */
  ghost predicate Unflagged(o: Object, p: Object, k: Key, ev: seq<Event>) {
    && p == o.(meta := o.meta.(annotations := p.meta.annotations))
    && (forall a :: a in p.meta.annotations ==>
          a in o.meta.annotations && p.meta.annotations[a] == o.meta.annotations[a])
    && (forall a :: a in o.meta.annotations && a !in p.meta.annotations ==> OperatorKey(a) && FlagCleared(k, a) in ev)
  }

  /** Children differ at most by flags whose clearing is in the events. */
  ghost predicate OnlyFlagsCleared(w: World, v: World, ev: seq<Event>) {
    && v.name == w.name && v.objects.Keys == w.objects.Keys
    && v.claims == w.claims && v.pods == w.pods && v.terminating == w.terminating && v.endpoints == w.endpoints
    && forall k :: k in w.objects ==> Unflagged(w.objects[k], v.objects[k], k, ev)
  }

  ghost predicate CliEffect(w: World, v: World, rmq: Cluster) {
    Extends(w, v) && Justified(News(w, v), rmq) && OnlyFlagsCleared(w, v, News(w, v))
  }

  /** A command that went through in some events went through in any that contain them. */
  lemma RanMonotone(ev: seq<Event>, all: seq<Event>, rmq: Cluster, k: Key, f: string)
    requires CommandRan(ev, rmq, k, f) && forall e :: e in ev ==> e in all
    ensures CommandRan(all, rmq, k, f)
  {
    hide Plugins.SetCommand, Node;
  }

  lemma JustifiedAppend(a: seq<Event>, b: seq<Event>, rmq: Cluster)
    requires Justified(a, rmq) && Justified(b, rmq)
    ensures Justified(a + b, rmq)
  {
    hide CommandRan, Node;
    forall n | 0 <= n < |a + b| ensures JustifiedAt(a + b, n, rmq) {
      if n < |a| {
        assert JustifiedAt(a, n, rmq);
        assert (a + b)[..n] == a[..n];
      } else {
        var m := n - |a|;
        assert JustifiedAt(b, m, rmq);
        assert (a + b)[..n] == a + b[..m];
        if b[m].FlagCleared? {
          RanMonotone(b[..m], a + b[..m], rmq, b[m].key, b[m].flag);
        }
      }
    }
  }

  /** What the events say of a cleared flag and of a cleared mark. */
  lemma ClearedMeansRan(ev: seq<Event>, rmq: Cluster, k: Key, f: string)
    requires Justified(ev, rmq)
    ensures FlagCleared(k, f) in ev ==> CommandRan(ev, rmq, k, f)
    ensures RebalanceCleared in ev ==> Ran(Node(rmq, 0), REBALANCE) in ev
    ensures forall e :: e in ev ==> e.FlagCleared? || e.RebalanceCleared? || e.Updated? || e.Ran?
  {
    hide CommandRan, Node;
    if FlagCleared(k, f) in ev {
      var n :| 0 <= n < |ev| && ev[n] == FlagCleared(k, f);
      assert JustifiedAt(ev, n, rmq);
      RanMonotone(ev[..n], ev, rmq, k, f);
    }
    if RebalanceCleared in ev {
      var n :| 0 <= n < |ev| && ev[n] == RebalanceCleared;
      assert JustifiedAt(ev, n, rmq);
    }
    forall e | e in ev ensures e.FlagCleared? || e.RebalanceCleared? || e.Updated? || e.Ran? {
      var n :| 0 <= n < |ev| && ev[n] == e;
      assert JustifiedAt(ev, n, rmq);
    }
  }

  lemma EffectCompose(w: World, u: World, v: World, rmq: Cluster)
    requires CliEffect(w, u, rmq) && CliEffect(u, v, rmq)
    ensures CliEffect(w, v, rmq)
    ensures News(w, v) == News(w, u) + News(u, v)
  {
    NewsCompose(w, u, v);
    JustifiedAppend(News(w, u), News(u, v), rmq);
    forall k | k in w.objects ensures Unflagged(w.objects[k], v.objects[k], k, News(w, v)) {
      assert Unflagged(w.objects[k], u.objects[k], k, News(w, u))
        && Unflagged(u.objects[k], v.objects[k], k, News(u, v));
    }
  }

  lemma NothingDone(w: World, rmq: Cluster)
    ensures CliEffect(w, w, rmq) && News(w, w) == []
  {
  }

  lemma ExecEffect(s: Sys, pod: string, command: string, sch: Schedule)
    ensures var (s', ok) := ExecSpec(s, pod, command, sch);
            && CliEffect(s.world, s'.world, s.rmq) && s'.rmq == s.rmq
            && s'.world == s.world.(log := s'.world.log)
            && News(s.world, s'.world) == if ok then [Ran(pod, command)] else []
  {
    var (s', ok) := ExecSpec(s, pod, command, sch);
    assert News(s.world, s'.world) == if ok then [Ran(pod, command)] else [];
  }

  /** Success of the plugins command means it went through on every node from i on. */
  lemma {:induction false} SetPluginsEffect(s: Sys, i: nat, sch: Schedule)
    requires i <= s.rmq.spec.replicas
    ensures var (s', ok) := SetPluginsSpec(s, i, sch);
            && CliEffect(s.world, s'.world, s.rmq) && s'.rmq == s.rmq
            && s'.world == s.world.(log := s'.world.log)
            && (ok ==> forall j :: i <= j < s.rmq.spec.replicas ==>
                  Ran(Node(s.rmq, j), Plugins.SetCommand(s.rmq.spec.plugins)) in News(s.world, s'.world))
            && (forall e :: e in News(s.world, s'.world) ==> e.Ran?)
    decreases s.rmq.spec.replicas - i
  {
    hide OnlyFlagsCleared, Plugins.SetCommand, Node, Justified, ExecSpec;
    if i == s.rmq.spec.replicas {
      NothingDone(s.world, s.rmq);
    } else {
      var command := Plugins.SetCommand(s.rmq.spec.plugins);
      ExecEffect(s, Node(s.rmq, i), command, sch);
      var (s1, ok) := ExecSpec(s, Node(s.rmq, i), command, sch);
      if ok {
        SetPluginsEffect(s1, i + 1, sch);
        assert News(s.world, s1.world)[0] == Ran(Node(s.rmq, i), command);
        var (s2, all) := SetPluginsSpec(s1, i + 1, sch);
        EffectCompose(s.world, s1.world, s2.world, s.rmq);
        if all {
          forall j | i <= j < s.rmq.spec.replicas ensures Ran(Node(s.rmq, j), command) in News(s.world, s2.world) {
            if j > i {
              assert Ran(Node(s.rmq, j), command) in News(s1.world, s2.world);
            }
          }
        }
      }
    }
  }

  lemma ClearJustified(ev: seq<Event>, rmq: Cluster, key: Key, flag: string)
    requires Justified(ev, rmq) && CommandRan(ev, rmq, key, flag)
    ensures Justified(ev + [Updated(key), FlagCleared(key, flag)], rmq)
  {
    hide CommandRan, Node;
    var all := ev + [Updated(key), FlagCleared(key, flag)];
    forall n | 0 <= n < |all| ensures JustifiedAt(all, n, rmq) {
      if n < |ev| {
        assert JustifiedAt(ev, n, rmq);
        assert all[..n] == ev[..n];
      } else if n == |ev| + 1 {
        assert all[..n] == ev + [Updated(key)];
        RanMonotone(ev, all[..n], rmq, key, flag);
      }
    }
  }

  lemma ClearLog(s: Sys, key: Key, flag: string, sch: Schedule)
    requires ClearFlagSpec(s, key, flag, sch).1
    ensures ClearFlagSpec(s, key, flag, sch).0.world.log == s.world.log + [Updated(key), FlagCleared(key, flag)]
  {
    var o := s.world.objects[key];
    assert TemplateEvents(key, TemplateChanged(o, WithoutAnnotation(o, flag))) == [];
    var log := s.world.log;
    assert log + [Updated(key)] + [] + [FlagCleared(key, flag)] == log + [Updated(key), FlagCleared(key, flag)];
  }

  /** Clearing a flag after the command it stands for. */
  lemma ClearEffect(w: World, s: Sys, key: Key, flag: string, sch: Schedule)
    requires CliEffect(w, s.world, s.rmq) && OperatorKey(flag)
    requires CommandRan(News(w, s.world), s.rmq, key, flag)
    ensures var (s', ok) := ClearFlagSpec(s, key, flag, sch);
            && CliEffect(w, s'.world, s.rmq) && s'.rmq == s.rmq
            && s'.world.cluster == s.world.cluster
            && (ok ==> key in s'.world.objects && !Flagged(s'.world.objects[key].meta.annotations, flag))
  {
    hide Justified, OnlyFlagsCleared, CommandRan;
    var (s', ok) := ClearFlagSpec(s, key, flag, sch);
    if ok {
      var ev := [Updated(key), FlagCleared(key, flag)];
      var o, p := s.world.objects[key], WithoutAnnotation(s.world.objects[key], flag);
      assert Restored(o, p) == p;
      ClearLog(s, key, flag, sch);
      assert News(w, s'.world) == News(w, s.world) + ev;
      ClearJustified(News(w, s.world), s.rmq, key, flag);
      OneMoreCleared(w, s.world, key, flag, News(w, s.world), s'.world.log);
    }
  }

  lemma OneMoreCleared(w: World, u: World, key: Key, flag: string, ev: seq<Event>, log: seq<Event>)
    requires OnlyFlagsCleared(w, u, ev) && key in u.objects && OperatorKey(flag)
    ensures var v := u.(objects := u.objects[key := WithoutAnnotation(u.objects[key], flag)], log := log);
            OnlyFlagsCleared(w, v, ev + [Updated(key), FlagCleared(key, flag)])
  {
    var v := u.(objects := u.objects[key := WithoutAnnotation(u.objects[key], flag)], log := log);
    var all := ev + [Updated(key), FlagCleared(key, flag)];
    assert all[|ev| + 1] == FlagCleared(key, flag);
    assert forall e :: e in ev ==> e in all;
    forall k | k in w.objects ensures Unflagged(w.objects[k], v.objects[k], k, all) {
      assert Unflagged(w.objects[k], u.objects[k], k, ev);
    }
  }

  lemma PluginsStageEffect(s: Sys, sch: Schedule)
    ensures var t := PluginsStage(s, sch);
            && CliEffect(s.world, t.sys.world, s.rmq) && t.sys.rmq == s.rmq && t.sys.world.cluster == s.world.cluster
            && (t.outcome.Continue? ==>
                  && PluginsKey(s.rmq.name) in t.sys.world.objects
                  && !Flagged(t.sys.world.objects[PluginsKey(s.rmq.name)].meta.annotations, PLUGINS_UPDATED))
  {
    hide Justified, OnlyFlagsCleared;
    NothingDone(s.world, s.rmq);
    var key := PluginsKey(s.rmq.name);
    if !sch.fails(s.calls) && key in s.world.objects
       && Flagged(s.world.objects[key].meta.annotations, PLUGINS_UPDATED) && !sch.recent(s.calls) {
      SetPluginsEffect(Called(s), 0, sch);
      var (s1, ran) := SetPluginsSpec(Called(s), 0, sch);
      if ran {
        ClearEffect(s.world, s1, key, PLUGINS_UPDATED, sch);
      }
    }
  }

  lemma {:induction false} CreatedStageEffect(s: Sys, keys: seq<Key>, i: nat, sch: Schedule)
    requires i <= |keys| && forall j :: 0 <= j < |keys| ==> keys[j].kind == KindStatefulSet
    ensures var t := CreatedStage(s, keys, i, sch);
            && CliEffect(s.world, t.sys.world, s.rmq) && t.sys.rmq == s.rmq && t.sys.world.cluster == s.world.cluster
            && (t.outcome.Continue? ==> forall j :: i <= j < |keys| && keys[j] in t.sys.world.objects ==>
                  !Flagged(t.sys.world.objects[keys[j]].meta.annotations, SET_CREATED))
    decreases |keys| - i
  {
    hide Justified, OnlyFlagsCleared;
    NothingDone(s.world, s.rmq);
    if i < |keys| {
      if keys[i] !in s.world.objects || !Flagged(s.world.objects[keys[i]].meta.annotations, SET_CREATED) {
        CreatedStageEffect(s, keys, i + 1, sch);
        StaysUnflagged(s.world, CreatedStage(s, keys, i + 1, sch).sys.world, keys[i], s.rmq);
      } else {
        ExecEffect(s, Node(s.rmq, 0), ENABLE_FLAGS, sch);
        var (s1, ran) := ExecSpec(s, Node(s.rmq, 0), ENABLE_FLAGS, sch);
        if ran {
          ClearEffect(s.world, s1, keys[i], SET_CREATED, sch);
          hide ClearFlagSpec;
          var (s2, cleared) := ClearFlagSpec(s1, keys[i], SET_CREATED, sch);
          if cleared {
            CreatedStageEffect(s2, keys, i + 1, sch);
            var v := CreatedStage(s2, keys, i + 1, sch).sys.world;
            EffectCompose(s.world, s2.world, v, s.rmq);
            StaysUnflagged(s2.world, v, keys[i], s.rmq);
          }
        }
      }
    }
  }

  /** The stage never sets a flag. */
  lemma StaysUnflagged(w: World, v: World, k: Key, rmq: Cluster)
    requires CliEffect(w, v, rmq)
    requires k in w.objects ==> !Flagged(w.objects[k].meta.annotations, SET_CREATED)
    ensures k in v.objects ==> !Flagged(v.objects[k].meta.annotations, SET_CREATED)
  {
    if k in w.objects {
      assert Unflagged(w.objects[k], v.objects[k], k, News(w, v));
    }
  }

  lemma RebalanceStageEffect(s: Sys, sch: Schedule)
    ensures var t := RebalanceStage(s, sch);
            && CliEffect(s.world, t.sys.world, s.rmq)
            && t.sys.world.objects == s.world.objects
            && (t.outcome.Continue? ==> !Flagged(t.sys.rmq.annotations, REBALANCE_NEEDED))
            && (t.sys.world.cluster != s.world.cluster ==> RebalanceCleared in News(s.world, t.sys.world))
            && (forall k, f :: FlagCleared(k, f) !in News(s.world, t.sys.world))
            && ClusterAfter(s, t.sys, t.outcome.Continue?)
  {
    NothingDone(s.world, s.rmq);
    if Flagged(s.rmq.annotations, REBALANCE_NEEDED) {
      ExecEffect(s, Node(s.rmq, 0), REBALANCE, sch);
      var (s1, ran) := ExecSpec(s, Node(s.rmq, 0), REBALANCE, sch);
      var v := RebalanceStage(s, sch).sys.world;
      if ran && !sch.fails(s1.calls) {
        assert v.log == s.world.log + [Ran(Node(s.rmq, 0), REBALANCE)] + [RebalanceCleared];
        assert News(s.world, v) == [Ran(Node(s.rmq, 0), REBALANCE), RebalanceCleared];
        assert News(s.world, v)[0] == Ran(Node(s.rmq, 0), REBALANCE);
        assert News(s.world, v)[1] == RebalanceCleared;
      } else {
        assert v == s1.world;
      }
    }
  }

  /** The cached cluster without the rebalance mark. */
  function Unmarked(rmq: Cluster): Cluster {
    rmq.(annotations := rmq.annotations - {REBALANCE_NEEDED})
  }

  /**
    The stage changes the cluster at most by dropping the rebalance mark; a mark dropped only from
    the cached copy does not pass.
  */
  ghost predicate ClusterAfter(s: Sys, t: Sys, passed: bool) {
    || (t.world.cluster == s.world.cluster && (t.rmq == s.rmq || (!passed && t.rmq == Unmarked(s.rmq))))
    || (&& t.rmq == Answered(s.world.cluster, Unmarked(s.rmq))
        && t.world.cluster == Kept(s.world.cluster, Unmarked(s.rmq)))
  }

  /**
    Pending work is not dropped: a flag goes only in a pass that saw every set settled
    and as many sets as replicas, after the command it stands for went through; and
    the stage passes only when no flag is left.
  */
  lemma CliStageEffect(s: Sys, sch: Schedule)
    ensures var t := CliSpec(s, sch);
            && CliEffect(s.world, t.sys.world, s.rmq) && ClusterAfter(s, t.sys, t.outcome.Continue?)
            && (t.outcome.Continue? || News(s.world, t.sys.world) != [] ==>
                  Quiet(s.world) && |MineSet(s.world)| == s.rmq.spec.replicas)
            && (t.sys.world.cluster != s.world.cluster ==> RebalanceCleared in News(s.world, t.sys.world))
            && (t.outcome.Continue? ==>
                  && PluginsKey(s.rmq.name) in t.sys.world.objects
                  && !Flagged(t.sys.world.objects[PluginsKey(s.rmq.name)].meta.annotations, PLUGINS_UPDATED)
                  && !Flagged(t.sys.rmq.annotations, REBALANCE_NEEDED)
                  && forall k :: k in t.sys.world.objects && Mine(s.world, k) ==>
                       !Flagged(t.sys.world.objects[k].meta.annotations, SET_CREATED))
  {
    hide Justified, OnlyFlagsCleared, PluginsStage, CreatedStage, RebalanceStage, UpdateCluster;
    NothingDone(s.world, s.rmq);
    var keys := ListSets(s, sch);
    if keys.Some? && AllSettled(s.world, keys.value) && |keys.value| == s.rmq.spec.replicas {
      ListingIsMine(s.world, keys.value);
      PluginsStageEffect(Called(s), sch);
      var p := PluginsStage(Called(s), sch);
      if !p.outcome.Completed() {
        CreatedStageEffect(p.sys, keys.value, 0, sch);
        var c := CreatedStage(p.sys, keys.value, 0, sch);
        EffectCompose(s.world, p.sys.world, c.sys.world, s.rmq);
        PluginsStay(p.sys.world, c.sys.world, s.rmq);
        if !c.outcome.Completed() {
          RebalanceStageEffect(c.sys, sch);
          var t := RebalanceStage(c.sys, sch);
          EffectCompose(s.world, c.sys.world, t.sys.world, s.rmq);
          forall k | k in t.sys.world.objects && Mine(s.world, k)
            ensures !Flagged(t.sys.world.objects[k].meta.annotations, SET_CREATED)
          {
            assert k in keys.value;
          }
        }
      }
    }
  }

  lemma PluginsStay(w: World, v: World, rmq: Cluster)
    requires CliEffect(w, v, rmq) && PluginsKey(rmq.name) in w.objects
    requires !Flagged(w.objects[PluginsKey(rmq.name)].meta.annotations, PLUGINS_UPDATED)
    ensures PluginsKey(rmq.name) in v.objects
    ensures !Flagged(v.objects[PluginsKey(rmq.name)].meta.annotations, PLUGINS_UPDATED)
  {
    var k := PluginsKey(rmq.name);
    assert Unflagged(w.objects[k], v.objects[k], k, News(w, v));
  }

  // -------------------------------------------------------- without failures

  lemma {:induction false} SetPluginsCalm(s: Sys, i: nat, sch: Schedule)
    requires i <= s.rmq.spec.replicas && NoFaults(sch)
    ensures SetPluginsSpec(s, i, sch).1
    decreases s.rmq.spec.replicas - i
  {
    hide Plugins.SetCommand, Node;
    if i < s.rmq.spec.replicas {
      SetPluginsCalm(ExecSpec(s, Node(s.rmq, i), Plugins.SetCommand(s.rmq.spec.plugins), sch).0, i + 1, sch);
    }
  }

  lemma {:induction false} CreatedCalm(s: Sys, keys: seq<Key>, i: nat, sch: Schedule)
    requires i <= |keys| && NoFaults(sch)
    ensures CreatedStage(s, keys, i, sch).outcome.Continue?
    decreases |keys| - i
  {
    hide Flagged, Node;
    if i < |keys| {
      if keys[i] !in s.world.objects || !Flagged(s.world.objects[keys[i]].meta.annotations, SET_CREATED) {
        CreatedCalm(s, keys, i + 1, sch);
      } else {
        var s1 := ExecSpec(s, Node(s.rmq, 0), ENABLE_FLAGS, sch).0;
        CreatedCalm(ClearFlagSpec(s1, keys[i], SET_CREATED, sch).0, keys, i + 1, sch);
      }
    }
  }

  /** On a quiet cluster with all its sets, commands that do not fail run through. */
  lemma CliCalm(s: Sys, sch: Schedule)
    requires NoFaults(sch) && !sch.recent(s.calls + 1) && IsListing(s.world, sch.listing(s.calls))
    requires Quiet(s.world) && |MineSet(s.world)| == s.rmq.spec.replicas && PluginsKey(s.rmq.name) in s.world.objects
    ensures CliSpec(s, sch).outcome.Continue?
  {
    hide MineSet, Flagged, CreatedStage, SetPluginsSpec, Quiet, IsListing;
    var keys := sch.listing(s.calls);
    ListingIsMine(s.world, keys);
    var s1 := Called(Called(s));
    SetPluginsCalm(s1, 0, sch);
    SetPluginsEffect(s1, 0, sch);
    CreatedCalm(PluginsStage(Called(s), sch).sys, keys, 0, sch);
  }

  lemma {:induction false} NothingCreated(s: Sys, keys: seq<Key>, i: nat, sch: Schedule)
    requires i <= |keys|
    requires forall j :: 0 <= j < |keys| && keys[j] in s.world.objects ==>
              !Flagged(s.world.objects[keys[j]].meta.annotations, SET_CREATED)
    ensures CreatedStage(s, keys, i, sch) == Step(s, Continue)
    decreases |keys| - i
  {
    hide Flagged;
    if i < |keys| {
      NothingCreated(s, keys, i + 1, sch);
    }
  }

  /** With no flag and no mark set, the stage passes without doing anything. */
  lemma NothingPending(s: Sys, sch: Schedule)
    requires NoFaults(sch) && IsListing(s.world, sch.listing(s.calls))
    requires Quiet(s.world) && |MineSet(s.world)| == s.rmq.spec.replicas && PluginsKey(s.rmq.name) in s.world.objects
    requires !Flagged(s.world.objects[PluginsKey(s.rmq.name)].meta.annotations, PLUGINS_UPDATED)
    requires forall k :: k in s.world.objects && Mine(s.world, k) ==>
              !Flagged(s.world.objects[k].meta.annotations, SET_CREATED)
    requires !Flagged(s.rmq.annotations, REBALANCE_NEEDED)
    ensures CliSpec(s, sch) == Step(Called(Called(s)), Continue)
  {
    hide MineSet, Flagged, CreatedStage, SetPluginsSpec, Quiet;
    var keys := sch.listing(s.calls);
    ListingIsMine(s.world, keys);
    NothingCreated(Called(Called(s)), keys, 0, sch);
  }

  // --------------------------------------------------------------- the stage

  method Exec(api: Api, pod: string, command: string) returns (ok: bool)
    modifies api
    ensures (api.State(), ok) == ExecSpec(old(api.State()), pod, command, api.sch)
  {
    ok := api.Call();
    if ok {
      api.world := api.world.(log := api.world.log + [Ran(pod, command)]);
    }
  }

  method RunSetPluginsCommand(api: Api) returns (ok: bool)
    modifies api
    ensures (api.State(), ok) == SetPluginsSpec(old(api.State()), 0, api.sch)
  {
    var replicas := api.rmq.spec.replicas;
    for i := 0 to replicas
      invariant api.rmq == old(api.rmq)
      invariant SetPluginsSpec(api.State(), i, api.sch) == SetPluginsSpec(old(api.State()), 0, api.sch)
    {
      ok := Exec(api, Node(api.rmq, i), Plugins.SetCommand(api.rmq.spec.plugins));
      if !ok { return false; }
    }
    return true;
  }

  method DeleteAnnotation(api: Api, key: Key, flag: string) returns (ok: bool)
    modifies api
    ensures (api.State(), ok) == ClearFlagSpec(old(api.State()), key, flag, api.sch)
  {
    ok := api.Call();
    if !ok || key !in api.world.objects { return false; }
    var w := Update(api.world, key, WithoutAnnotation(api.world.objects[key], flag));
    api.world := w.(log := w.log + [FlagCleared(key, flag)]);
  }

  method ReconcileRabbitmqCLI(api: Api) returns (res: Outcome)
    modifies api
    ensures Step(api.State(), res) == CliSpec(old(api.State()), api.sch)
  {
    var listed := api.List();
    if listed.None? { return Error; }
    var keys := listed.value;
    if !AllSettled(api.world, keys) || |keys| != api.rmq.spec.replicas { return Requeue(NOT_READY_RETRY); }
    res := SetPluginsIfNeeded(api);
    if res.Completed() { return res; }
    label Plugged:
    for i := 0 to |keys|
      invariant CreatedStage(api.State(), keys, i, api.sch) == CreatedStage(old@Plugged(api.State()), keys, 0, api.sch)
    {
      if keys[i] in api.world.objects && Flagged(api.world.objects[keys[i]].meta.annotations, SET_CREATED) {
        var ok := Exec(api, Node(api.rmq, 0), ENABLE_FLAGS);
        if !ok { return Error; }
        ok := DeleteAnnotation(api, keys[i], SET_CREATED);
        if !ok { return Error; }
      }
    }
    res := RebalanceIfNeeded(api);
  }

  method SetPluginsIfNeeded(api: Api) returns (res: Outcome)
    modifies api
    ensures Step(api.State(), res) == PluginsStage(old(api.State()), api.sch)
  {
    var key := PluginsKey(api.rmq.name);
    var at := api.calls;
    var ok := api.Call();
    if !ok || key !in api.world.objects { return Error; }
    if Flagged(api.world.objects[key].meta.annotations, PLUGINS_UPDATED) {
      if api.sch.recent(at) { return Requeue(RECENT_RETRY); }
      ok := RunSetPluginsCommand(api);
      if !ok { return Error; }
      ok := DeleteAnnotation(api, key, PLUGINS_UPDATED);
      if !ok { return Error; }
    }
    return Continue;
  }

  method RebalanceIfNeeded(api: Api) returns (res: Outcome)
    modifies api
    ensures Step(api.State(), res) == RebalanceStage(old(api.State()), api.sch)
  {
    if Flagged(api.rmq.annotations, REBALANCE_NEEDED) {
      var ok := Exec(api, Node(api.rmq, 0), REBALANCE);
      if !ok { return Error; }
      api.rmq := Unmarked(api.rmq);
      ok := api.Call();
      if !ok { return Error; }
      var updated := UpdateCluster(Sys(api.world, api.rmq, api.calls));
      api.world, api.rmq := updated.world.(log := updated.world.log + [RebalanceCleared]), updated.rmq;
    }
    return Continue;
  }
}
