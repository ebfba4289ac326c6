/** Calm runs, stores at rest, lost restarts and double restarts exist, for clusters of any size that can have them. */
module Instances {
  import opened Basics
  import opened Objects
  import opened Store
  import opened Conditions
  import opened Resources
  import opened Stages
  import opened Reconcile
  import opened Passes
  import opened Protocol
  import opened Safety
  import opened Success
  import opened Restart
  import opened Runs
  import opened Traces
  import opened Restarts
  import opened Convergence
  import opened Calm
  import opened Progress
  import opened Reconfiguring
  import Double = DoubleRestart
  import Finalizer
  import Held
  import ServerConfig
  import Unnoted

  // ----------------------------------------------------------- calm schedules

  /** The elements of a set in some order. */
  ghost function Enumerated<T(!new)>(s: set<T>): (r: seq<T>)
    ensures Distinct(r) && forall k :: k in r <==> k in s
  {
    if s == {} then []
    else
      var k :| k in s;
      Enumerated(s - {k}) + [k]
  }

  lemma {:induction false} LessExtended(a: string)
    ensures StringLess(a, a + "0")
  {
    if a != [] {
      LessExtended(a[1..]);
      assert (a + "0")[1..] == a[1..] + "0";
    }
  }

  lemma {:induction false} LessAtMost(a: string, b: string)
    requires StringLess(a, b)
    ensures AtMost(a, b)
  {
    if a != [] && a[0] == b[0] {
      LessAtMost(a[1..], b[1..]);
    }
  }

  /** Some text is later than all of these. */
  lemma {:induction false} Beyond(s: set<string>) returns (t: Stamp)
    ensures forall a :: a in s ==> StringLess(a, t)
  {
    if s == {} {
      t := "0";
    } else {
      var a :| a in s;
      var u := Beyond(s - {a});
      t := u;
      if !StringLess(a, u) {
        t := a + "0";
        LessExtended(a);
        forall b | b in s - {a} ensures StringLess(b, t) {
          LessAtMost(b, u);
          if AtMost(t, b) {
            AtMostTrans(t, b, u);
            AtMostTrans(t, u, a);
          }
        }
      }
    }
  }

  /** Nothing fails, the sets are listed in some order, and the clock stands still. */
  ghost function Smooth(w: World, t: Stamp): Schedule {
    Schedule(_ => false, _ => t, _ => "", _ => Enumerated(MineSet(w)), _ => [], _ => true, _ => false)
  }

  lemma SmoothIsCalm(w: World, t: Stamp)
    requires ConfChangedAt(w).Some? ==> StringLess(ConfChangedAt(w).value, t)
    ensures CalmPass(w, Smooth(w, t), Enumerated)
  {
    hide ConfChangedAt;
    Listed(w);
  }

  lemma Listed(w: World)
    ensures IsListing(w, Enumerated(MineSet(w)))
  {
    var r := Enumerated(MineSet(w));
    hide Enumerated;
    forall i | 0 <= i < |r| ensures Mine(w, r[i]) {
      assert r[i] in r;
    }
  }

  ghost function Change(w: World): set<string> {
    if ConfChangedAt(w).Some? then {ConfChangedAt(w).value} else {}
  }

  /** From every store there are calm runs of every length, all of whose passes run after a given time. */
  lemma {:induction false} CalmRunExists(w: World, cfg: Settings, n: nat, floor: string) returns (scheds: seq<Schedule>)
    ensures |scheds| == n && CalmRun(w, cfg, scheds, Enumerated)
    ensures forall sch :: sch in scheds ==> NoFaults(sch) && forall at :: StringLess(floor, sch.now(at))
    decreases n
  {
    hide FullRound, CalmPass, ConfChangedAt, Enumerated, MineSet;
    scheds := [];
    if n > 0 {
      var t := Beyond(Change(w) + {floor});
      SmoothIsCalm(w, t);
      var rest := CalmRunExists(FullRound(w, cfg, Smooth(w, t)), cfg, n - 1, floor);
      scheds := [Smooth(w, t)] + rest;
    }
  }

  // ------------------------------------------------------------ stores at rest

  lemma {:induction false} RoundsKeep(w: World, cfg: Settings, scheds: seq<Schedule>, order: set<Key> -> seq<Key>)
    requires Steady(w, cfg) && CalmRun(w, cfg, scheds, order)
    ensures var v := FullRounds(w, cfg, scheds);
            && v.name == w.name && v.cluster.Some?
            && v.cluster.value.spec.replicas == w.cluster.value.spec.replicas
            && v.cluster.value.spec.skipPostDeploySteps == w.cluster.value.spec.skipPostDeploySteps
    decreases |scheds|
  {
    hide FullRound, CalmPass, Rank, AtRest, Serviceable, Clean, Tidy, Quiet, OwnSets, TLSFine;
    if scheds != [] {
      Advances(w, cfg, scheds[0], order);
      RoundKeeps(w, cfg, scheds[0]);
      RoundsKeep(FullRound(w, cfg, scheds[0]), cfg, scheds[1..], order);
    }
  }

  lemma RoundKeeps(w: World, cfg: Settings, sch: Schedule)
    requires Live(w) && Tidy(w) && Quiet(w) && !w.cluster.value.deleting
    ensures var v := FullRound(w, cfg, sch);
            && v.name == w.name && v.cluster.Some?
            && v.cluster.value.spec.replicas == w.cluster.value.spec.replicas
            && v.cluster.value.spec.skipPostDeploySteps == w.cluster.value.spec.skipPostDeploySteps
  {
    hide ReconcileSpec, Clean, Tidy, Quiet, StatusEnd, MarkEnd, Flagged, AllInPlace;
    PassTidy(w, cfg, sch);
    ClusterAfter(w, cfg, sch);
  }

  /** A new cluster of any name and size. */
  function NewStore(name: string, replicas: nat): World {
    var c := Cluster(name, "", "", 0, false, [], map[], map[], Held.PlainSpec(replicas),
                     ClusterStatus(0, [], None, None, 0));
    World(name, Some(c), map[], {}, map[], map[], None, [])
  }

  lemma NewSteady(name: string, replicas: nat, cfg: Settings)
    requires Supplies(cfg)
    ensures Steady(NewStore(name, replicas), cfg)
  {
    hide Steady;
    EmptySteady(NewStore(name, replicas), cfg);
  }

  /** Stores at rest exist for clusters of any name and size. */
  lemma RestingStore(name: string, replicas: nat, cfg: Settings) returns (v: World)
    requires Supplies(cfg)
    ensures AtRest(v, cfg, Enumerated) && v.name == name
    ensures var spec := v.cluster.value.spec; spec.replicas == replicas && !spec.skipPostDeploySteps
  {
    hide FullRounds, CalmRun, AtRest, Steady, Enumerated, Reconciled, CalmPass, ReconcileSpec, Successful;
    var w := NewStore(name, replicas);
    NewSteady(name, replicas, cfg);
    var scheds := CalmRunExists(w, cfg, 23 + 4 * replicas, "");
    ReachesSuccess(w, cfg, scheds, Enumerated);
    RoundsKeep(w, cfg, scheds, Enumerated);
    v := FullRounds(w, cfg, scheds);
  }

  // --------------------------------------------------------------- the new setting

  /** The user adds a setting that the file does not have yet. */
  function Setting(c: Cluster, e: Entry): Env
    requires c.spec.additionalConfig.Some?
  {
    Edit(c.labels, c.annotations, WithSetting(c, e).spec, c.finalizers)
  }

  lemma SettingStep(v: World, e: Entry)
    requires Live(v) && !v.cluster.value.deleting && v.cluster.value.spec.additionalConfig.Some?
    ensures var c := v.cluster.value; EnvStep(v, Setting(c, e)) == v.(cluster := Some(WithSetting(c, e)))
  {
    hide Finalizer.FINALIZER;
    var c := v.cluster.value;
    assert |WithSetting(c, e).spec.additionalConfig.value| == |c.spec.additionalConfig.value| + 1;
  }

  lemma NewSetting(file: seq<Entry>) returns (e: Entry)
    ensures e !in file
  {
    var t := Beyond(set i | 0 <= i < |file| :: file[i].value);
    e := Entry("log.console", t);
    if e in file {
      var i :| 0 <= i < |file| && file[i] == e;
      LessAtMost(t, t);
    }
  }

  /**
    On every store at rest a new setting can be added, which leaves one object to put in place and
    asks for a restart.
  */
  lemma SettingToAdd(v: World, cfg: Settings, order: set<Key> -> seq<Key>) returns (e: Env)
    requires AtRest(v, cfg, order)
    ensures var w := EnvStep(v, e);
            && w == v.(cluster := w.cluster) && Steady(w, cfg) && Prepared(w, cfg, order) && NoneStale(w)
            && var d := w.cluster.value;
               && Published(d) == d.status && Asking(w, d)
               && d.annotations == v.cluster.value.annotations && d.spec.replicas == v.cluster.value.spec.replicas
               && d.spec.skipPostDeploySteps == v.cluster.value.spec.skipPostDeploySteps
  {
    hide ServerConfig.UserFile, Prepared, Asking, NoneStale, Published, Complete, FlagsGone, Flagged, Declares, EnvStep;
    hide Serviceable, Tidy, Quiet, OwnSets, TLSFine, Clean;
    var c := v.cluster.value;
    FullFacts(c, cfg);
    PreparedIsFull(v, cfg, order);
    AcceptsConfiguration(c, v);
    var entry := NewSetting(ServerConfig.UserFile(c, c.spec.additionalConfig.value));
    SettingReady(v, cfg, order, entry);
    SettingStep(v, entry);
    e := Setting(c, entry);
  }

  lemma PreparedIsFull(v: World, cfg: Settings, order: set<Key> -> seq<Key>)
    requires v.cluster.Some? && Prepared(v, cfg, order)
    ensures !NeedsDefaults(v.cluster.value.spec, cfg)
  {
  }

  // ------------------------------------------------------------- a lost restart

  /** Like the calm schedule, but this call fails. */
  ghost function Broken(w: World, t: Stamp, n: nat): Schedule { Smooth(w, t).(fails := at => at == n) }

  lemma BrokenIsCalmUntil(w: World, t: Stamp, n: nat)
    ensures CalmUntil(w, Broken(w, t, n), Enumerated, n) && !BothWork(Broken(w, t, n), n)
  {
    Listed(w);
    hide Enumerated;
  }

  /**
    Every store at rest, of a cluster of any size, can lose a restart: the user adds a setting,
    the first call of the annotation fails, every other call works, and success is declared
    with no set restarted after the change.
  */
  lemma LosesRestart(v: World, cfg: Settings) returns (e: Env, bad: Schedule, n: nat, good: Schedule)
    requires AtRest(v, cfg, Enumerated)
    ensures NoFaults(good) && forall at :: bad.fails(at) <==> at == n
    ensures var w := EnvStep(v, e);
            var y := After(After(w, cfg, bad), cfg, good);
            && AtRest(y, cfg, Enumerated) && MineSet(y) == MineSet(v) && |MineSet(y)| == v.cluster.value.spec.replicas
            && forall k :: k in MineSet(y) ==> !Followed(y.log, ServerConfKey(v.name), k)
  {
    hide ReconcileSpec, Steady, Prepared, Asking, NoneStale, Published, ConfChangedAt, EnvStep, Enumerated, MineSet;
    hide FirstNote, CalmUntil, Followed, ServerConfKey, CalmPass, AtRest;
    e := SettingToAdd(v, cfg, Enumerated);
    var w := EnvStep(v, e);
    SteadyIsThere(w, cfg);
    n := FirstNote(w.cluster.value);
    bad := Broken(w, "0", n);
    BrokenIsCalmUntil(w, "0", n);
    var u := After(w, cfg, bad);
    var t := Beyond(Change(u));
    good := Smooth(u, t);
    SmoothIsCalm(u, t);
    Unnoted.LostRestart(w, cfg, bad, good, Enumerated);
    RestCounts(v, cfg);
    AnySets(v, w);
  }

  lemma SteadyIsThere(w: World, cfg: Settings)
    requires Steady(w, cfg)
    ensures w.cluster.Some?
  {
  }

  lemma RestCounts(v: World, cfg: Settings)
    requires AtRest(v, cfg, Enumerated)
    ensures |MineSet(v)| == v.cluster.value.spec.replicas
  {
    hide FlagsGone, NoneStale, Serviceable, Clean, NodeSized, Prepared, Flagged, Quiet, MineSet, AllInPlace, OwnSets;
    hide Declares, Published, Tidy, Enumerated;
    AllCounted(v, v.cluster.value);
  }

  // ----------------------------------------------------------- a double restart

  /** The times the sets were last restarted. */
  ghost function Stamps(w: World): set<string> {
    set k | k in w.objects && LastRestart(w, k).Some? :: LastRestart(w, k).value
  }

  lemma BeyondStamps(w: World, t: string)
    requires forall a :: a in Stamps(w) ==> StringLess(a, t)
    ensures Unnoted.NotAhead(w, t)
  {
    forall k: Key | k.kind == KindStatefulSet && LastRestart(w, k).Some? ensures AtMost(LastRestart(w, k).value, t) {
      assert LastRestart(w, k).value in Stamps(w);
      LessAtMost(LastRestart(w, k).value, t);
    }
  }

  /** The user adds a setting, and a calm pass takes it up and notes it: every set has to restart. */
  lemma ChangeToNote(v: World, cfg: Settings) returns (e: Env, note: Schedule)
    requires AtRest(v, cfg, Enumerated)
    ensures NoFaults(note)
    ensures var u := After(EnvStep(v, e), cfg, note);
            && Steady(u, cfg) && Prepared(u, cfg, Enumerated) && Complete(u, u.cluster.value)
            && StaleSets(u) == MineSet(u) && |MineSet(u)| == v.cluster.value.spec.replicas
            && var d := u.cluster.value;
               && d.annotations == v.cluster.value.annotations && d.spec.replicas == v.cluster.value.spec.replicas
               && d.spec.skipPostDeploySteps == v.cluster.value.spec.skipPostDeploySteps
  {
    hide ReconcileSpec, NoteCall, Prepared, Asking, NoneStale, Published, ConfChangedAt, EnvStep, Enumerated, MineSet;
    hide FirstNote, ServerConfKey, AtRest, Complete, StaleSet, StaleSets, Serviceable, Clean, Tidy, Quiet, OwnSets;
    hide TLSFine, Unnoted.ConfReplaced, Unnoted.NotAhead, IsListing, ClockPast;
    e := SettingToAdd(v, cfg, Enumerated);
    var w := EnvStep(v, e);
    var t := Beyond(Change(w) + Stamps(w));
    note := Smooth(w, t);
    SmoothIsCalm(w, t);
    var u := After(w, cfg, note);
    AskingPass(w, cfg, note, Enumerated);
    Unnoted.AskingUnfinished(w, w.cluster.value);
    PassTidy(w, cfg, note);
    TidyIsTyped(w);
    Unnoted.AskedPass(w, cfg, note);
    Unnoted.AskedStale(w, cfg, note);
    Unnoted.ReplacedIsReady(w, u, cfg, Enumerated);
    Unnoted.ReplacedSets(w, u, w.cluster.value);
    BeyondStamps(w, t);
    Unnoted.AllStale(w, t);
    RestCounts(v, cfg);
    AnySets(v, w);
  }

  lemma LaterThanAll(sch: Schedule, earlier: Schedule, t: string)
    requires (forall at :: earlier.now(at) == t) && forall at :: StringLess(t, sch.now(at))
    ensures Double.Later(sch, earlier)
  {
    forall at, before ensures !StringLess(sch.now(at), earlier.now(before)) {
      LessAtMost(t, sch.now(at));
    }
  }

  ghost function MarkOnConf(w: World): set<string> {
    var conf := ServerConfKey(w.name);
    if conf in w.objects then {Lookup(w.objects[conf].meta.annotations, REBALANCE_NEEDED)} else {}
  }

  lemma NewMarkBeyond(w: World, u: World, t: Stamp)
    requires forall a :: a in MarkOnConf(w) ==> StringLess(a, t)
    ensures Double.NewMark(w, Smooth(u, t))
  {
    hide ServerConfKey, Enumerated, MineSet;
    var conf := ServerConfKey(w.name);
    if conf in w.objects {
      var a := Lookup(w.objects[conf].meta.annotations, REBALANCE_NEEDED);
      assert a in MarkOnConf(w);
      LessAtMost(a, t);
    }
  }

  /**
    Every store at rest of a cluster with several nodes that is not told to skip the steps after
    a deployment can restart a set twice for one change: the user adds a setting, no call
    fails, and one pass runs before the first restart is over.
  */
  lemma RestartsTwice(v: World, cfg: Settings)
    returns (e: Env, note: Schedule, first: Schedule, second: Schedule, scheds: seq<Schedule>, k: Key)
    requires AtRest(v, cfg, Enumerated)
    requires v.cluster.value.spec.replicas > 1 && !v.cluster.value.spec.skipPostDeploySteps
    ensures NoFaults(note) && NoFaults(first) && NoFaults(second) && forall sch :: sch in scheds ==> NoFaults(sch)
    ensures var u := After(EnvStep(v, e), cfg, note);
            var y := FullRounds(FullRound(After(u, cfg, first), cfg, second), cfg, scheds);
            k in MineSet(u) && Extends(u, y) && Rollouts(News(u, y), k) >= 2 && AtRest(y, cfg, Enumerated)
  {
    hide ReconcileSpec, Steady, Prepared, Complete, ConfChangedAt, EnvStep, Enumerated, MineSet, FullRounds, Settle;
    hide StaleSets, Flagged, CalmRun, CalmPass, Double.NewMark, Double.Later, Rollouts, MarkOnConf, AtRest;
    e, note := ChangeToNote(v, cfg);
    RestUnmarked(v, cfg);
    var u := After(EnvStep(v, e), cfg, note);
    SteadyIsThere(u, cfg);
    var t := Beyond(Change(u));
    first := Smooth(u, t);
    SmoothIsCalm(u, t);
    var u1 := After(u, cfg, first);
    var t2 := Beyond(Change(u1) + MarkOnConf(u));
    second := Smooth(u1, t2);
    SmoothIsCalm(u1, t2);
    NewMarkBeyond(u, u1, t2);
    scheds := CalmRunExists(FullRound(u1, cfg, second), cfg, 23 + 4 * u.cluster.value.spec.replicas, t);
    forall sch | sch in scheds ensures Double.Later(sch, first) {
      LaterThanAll(sch, first, t);
    }
    k := Double.RestartedTwice(u, cfg, first, second, scheds, Enumerated);
  }

  lemma RestUnmarked(v: World, cfg: Settings)
    requires AtRest(v, cfg, Enumerated)
    ensures !Flagged(v.cluster.value.annotations, REBALANCE_NEEDED)
  {
  }

  // ------------------------------------------------------ a deletion that completes

  /** The pods a selector matches, in some order. */
  ghost function MatchingPods(w: World, selector: StrMap): seq<PodKey> {
    Enumerated(set p | p in w.pods && Finalizer.Matches(w.pods[p], selector))
  }

  lemma MatchingListed(w: World, selector: StrMap)
    ensures Finalizer.IsPodListing(w, selector, MatchingPods(w, selector))
  {
    var r := MatchingPods(w, selector);
    hide Enumerated, Finalizer.Matches;
    forall i | 0 <= i < |r| ensures r[i] in w.pods && Finalizer.Matches(w.pods[r[i]], selector) {
      assert r[i] in r;
    }
  }

  ghost function ListingPods(sch: Schedule, pods: nat -> seq<PodKey>): Schedule { sch.(podListing := pods) }

  /** One set's turn only asks for the pods with its first call. */
  lemma OneListing(s: Sys, key: Key, sch: Schedule, pods: nat -> seq<PodKey>, others: nat -> seq<PodKey>)
    requires pods(s.calls) == others(s.calls)
    ensures var t := Finalizer.DeleteOneSpec(s, key, ListingPods(sch, pods));
            t == Finalizer.DeleteOneSpec(s, key, ListingPods(sch, others)) && t.calls >= s.calls
            && (t.calls == s.calls ==> t == s && !Finalizer.DueForDeletion(s.world, key, s.rmq))
  {
    hide Finalizer.IsPodListing, Finalizer.LabelPodsSpec, Finalizer.OwnedBy;
    LabelsAlike(Called(s), pods(s.calls), 0, ListingPods(sch, pods), ListingPods(sch, others));
  }

  lemma {:induction false} LabelsAlike(s: Sys, pods: seq<PodKey>, i: nat, a: Schedule, b: Schedule)
    requires i <= |pods| && a == b.(podListing := a.podListing)
    ensures var t := Finalizer.LabelPodsSpec(s, pods, i, a).0;
            Finalizer.LabelPodsSpec(s, pods, i, a) == Finalizer.LabelPodsSpec(s, pods, i, b) && t.calls >= s.calls
    decreases |pods| - i
  {
    if i < |pods| {
      var gone := a.gone(s.calls) || pods[i] !in s.world.pods;
      var u := if gone then Finalizer.DropPod(s.world, pods[i]) else Finalizer.LabelPod(s.world, pods[i]);
      LabelsAlike(Called(WithWorld(s, u)), pods, i + 1, a, b);
    }
  }

  /** Whether the pods are listed depends only on the calls still to come. */
  lemma {:induction false} LaterListings(
    s: Sys, keys: seq<Key>, i: nat, sch: Schedule, pods: nat -> seq<PodKey>, others: nat -> seq<PodKey>)
    requires i <= |keys| && Finalizer.PodsListed(s, keys, i, ListingPods(sch, pods))
    requires forall at: nat :: at >= s.calls ==> pods(at) == others(at)
    ensures Finalizer.PodsListed(s, keys, i, ListingPods(sch, others))
    decreases |keys| - i
  {
    hide Finalizer.DeleteOneSpec, Finalizer.DueForDeletion, Finalizer.IsPodListing;
    if i < |keys| {
      OneListing(s, keys[i], sch, pods, others);
      LaterListings(Finalizer.DeleteOneSpec(s, keys[i], ListingPods(sch, pods)), keys, i + 1, sch, pods, others);
    }
  }

  lemma {:induction false} PodsCanBeListed(s: Sys, keys: seq<Key>, i: nat, sch: Schedule)
    returns (pods: nat -> seq<PodKey>)
    requires i <= |keys|
    ensures Finalizer.PodsListed(s, keys, i, ListingPods(sch, pods))
    decreases |keys| - i
  {
    hide Finalizer.DeleteOneSpec, Finalizer.IsPodListing, MatchingPods;
    pods := _ => [];
    if i < |keys| {
      var due := Finalizer.DueForDeletion(s.world, keys[i], s.rmq);
      var listed := if due then MatchingPods(s.world, s.world.objects[keys[i]].spec.selector) else [];
      var t := Finalizer.DeleteOneSpec(s, keys[i], ListingPods(sch, _ => listed));
      var rest := PodsCanBeListed(t, keys, i + 1, sch);
      pods := (at: nat) => if due && at == s.calls then listed else rest(at);
      if due {
        MatchingListed(s.world, s.world.objects[keys[i]].spec.selector);
        OneListing(s, keys[i], sch, pods, _ => listed);
      } else {
        NotDue(s, keys[i], ListingPods(sch, pods));
        NotDue(s, keys[i], ListingPods(sch, _ => listed));
      }
      LaterListings(t, keys, i + 1, sch, rest, pods);
    }
  }

  lemma NotDue(s: Sys, key: Key, sch: Schedule)
    requires !Finalizer.DueForDeletion(s.world, key, s.rmq)
    ensures Finalizer.DeleteOneSpec(s, key, sch) == s
  {
  }

  /**
    Every cluster that is being deleted and held back by the operator's finalizer alone can go
    in one pass, with every set of its own removed after its pods were dealt with.
  */
  lemma DeletionCanComplete(w: World, cfg: Settings) returns (sch: Schedule)
    requires w.cluster.Some?
    requires var c := w.cluster.value;
             c.deleting && c.finalizers != [] && forall f :: f in c.finalizers ==> f == Finalizer.FINALIZER
    ensures (forall at :: !sch.fails(at)) && After(w, cfg, sch).cluster == None
    ensures forall k :: Mine(w, k) && Finalizer.ControlledBy(w.objects[k], w.cluster.value.uid) ==>
              k !in After(w, cfg, sch).objects
  {
    hide ReconcileSpec, Enumerated, MineSet, Finalizer.PodsListed, Finalizer.DeletedProperly;
    hide Finalizer.FINALIZER, IsListing;
    var keys := Enumerated(MineSet(w));
    Listed(w);
    var pods := PodsCanBeListed(Sys(w, w.cluster.value, 2), keys, 0, Smooth(w, "0"));
    sch := ListingPods(Smooth(w, "0"), pods);
    DeletionMakesProgress(w, cfg, sch);
  }
}
