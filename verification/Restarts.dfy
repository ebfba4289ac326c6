/**
  After a change that asks for a restart, every set is restarted before success, provided that the
  last such change could be noted. What happens to one that could not is in the module Unnoted.
*/
module Restarts {
  import opened Basics
  import opened Objects
  import opened Store
  import opened Names
  import opened Conditions
  import opened Resources
  import opened Stages
  import opened Builders
  import opened Reconcile
  import opened Passes
  import opened Protocol
  import opened Safety
  import opened Success
  import opened Restart
  import opened Runs
  import opened Traces
  import Cli

  // ------------------------------------------------------------------ the clock

  /** The first reading is not later than the second, as texts compare. */
  predicate AtMost(a: string, b: string) { !StringLess(b, a) }

  lemma {:induction false} AtMostTrans(a: string, b: string, c: string)
    requires AtMost(a, b) && AtMost(b, c)
    ensures AtMost(a, c)
  {
    if a != [] && b != [] && c != [] && a[0] == b[0] == c[0] {
      AtMostTrans(a[1..], b[1..], c[1..]);
    }
  }

  /** Every reading of the clock during the pass lies between the two. */
  ghost predicate Between(sch: Schedule, a: string, b: string) {
    forall at :: AtMost(a, sch.now(at)) && AtMost(sch.now(at), b)
  }

  // -------------------------------------------------------------------- the log

  /** Every update that asked for a restart is followed by a template write of this set. */
  ghost predicate Followed(log: seq<Event>, conf: Key, k: Key) {
    forall i :: 0 <= i < |log| && log[i] == RestartAsked(conf) ==> TemplateWritten(k) in log[i..]
  }

  predicate StampedAfter(w: World, k: Key, since: string) {
    LastRestart(w, k).Some? && StringLess(since, LastRestart(w, k).value)
  }

  /**
    The stamps tell the truth about the log: a set stamped after the noted change was restarted
    after every request.
  */
  ghost predicate Truthful(w: World) {
    var conf := ServerConfKey(w.name);
    && (RestartAsked(conf) in w.log ==> ConfChangedAt(w).Some?)
    && (ConfChangedAt(w).Some? ==>
          forall k: Key :: k.kind == KindStatefulSet && StampedAfter(w, k, ConfChangedAt(w).value) ==>
            Followed(w.log, conf, k))
  }

  /** No stamp is from the future, and the stamps are truthful if the last request was noted. */
  ghost predicate LogInv(w: World, now: string, noted: bool) {
    && (forall k: Key :: k.kind == KindStatefulSet && LastRestart(w, k).Some? ==> AtMost(LastRestart(w, k).value, now))
    && (noted ==> Truthful(w))
  }

  lemma StillFollowed(a: seq<Event>, b: seq<Event>, conf: Key, k: Key)
    requires a <= b && RestartAsked(conf) !in b[|a|..] && (Followed(a, conf, k) || TemplateWritten(k) in b[|a|..])
    ensures Followed(b, conf, k)
  {
    var rest := b[|a|..];
    assert forall i :: |a| <= i < |b| ==> b[i] == rest[i - |a|] && b[i] in rest;
    forall i | 0 <= i < |b| && b[i] == RestartAsked(conf) ensures TemplateWritten(k) in b[i..] {
      assert b[i..] == a[i..] + rest;
    }
  }

  /** A pass that asks for a restart starts no rollout. */
  lemma AskedNotRolled(w: World, cfg: Settings, sch: Schedule, conf: Key, k: Key)
    requires Live(w) && k.kind == KindStatefulSet
    ensures Extends(w, After(w, cfg, sch))
    ensures RestartAsked(conf) in News(w, After(w, cfg, sch)) ==> TemplateWritten(k) !in News(w, After(w, cfg, sch))
  {
    hide ReconcileSpec, Effect, Clean, Commanded, FlagsGone, AfterDeletion, Undeleted;
    var rmq, v := w.cluster.value, After(w, cfg, sch);
    var u := ChildrenAfter(w, cfg, sch);
    EventsSplit(w, u, v, rmq);
    assert forall e :: e in News(w, u) ==> !e.RestartAsked? && !e.TemplateWritten?;
    StageNotBoth(u, v.(cluster := u.cluster), rmq, conf, k);
  }

  lemma StageNotBoth(u: World, v: World, rmq: Cluster, conf: Key, k: Key)
    requires Effect(u, v, rmq) && Extends(u, v) && k.kind == KindStatefulSet
    ensures RestartAsked(conf) in News(u, v) ==> TemplateWritten(k) !in News(u, v)
  {
    hide ResourceBuilders, AllInPlace, NoneStale, Quiet, MineSet, OwnWrite, InPlace, Cli.Justified;
    hide Cli.OnlyFlagsCleared;
    if v == u {
      assert News(u, v) == [];
    } else if Built(u, v, rmq) {
      var j: nat :| StoppedAt(u, v, ResourceBuilders(rmq), 0, j);
      var key := ResourceBuilders(rmq)[j].key;
      assert forall e :: e in News(u, v) ==> BuilderEvent(e, key);
    } else if Rolled(u, v, rmq) {
      var since := ConfChangedAt(u).value;
      var l, now :| Restarted(u, v, l, since, now);
      RestartEvents(u, v, l, since, now);
    } else {
      Cli.ClearedMeansRan(News(u, v), rmq, k, "");
    }
  }

  /**
    Whether the last restart asked for was noted, after a pass: the read and the write of the
    annotation worked. `noted` says it of the passes before.
  */
  ghost predicate Noted(r: World, cfg: Settings, sch: Schedule, noted: bool) {
    if r.cluster.Some? && Extends(r, After(r, cfg, sch))
       && RestartAsked(ServerConfKey(r.name)) in News(r, After(r, cfg, sch))
    then BothWork(sch, NoteCall(r, cfg, sch))
    else noted
  }

  /** A pass keeps the stamps truthful, or makes them so, unless it asked for a restart and could not note it. */
  lemma PassKeepsLog(w: World, cfg: Settings, sch: Schedule, a: string, b: string, noted: bool)
    requires Live(w) && LogInv(w, a, noted) && AtMost(a, b) && Between(sch, a, b)
    ensures LogInv(After(w, cfg, sch), b, Noted(w, cfg, sch, noted))
  {
    hide ReconcileSpec, NoteCall, Clean, ServerConfKey, ConfChangedAt, LastRestart, AtMost, Followed;
    var v, conf := After(w, cfg, sch), ServerConfKey(w.name);
    PassExtends(w, cfg, sch);
    PassOnRecord(w, cfg, sch);
    assert v.log == w.log + News(w, v);
    forall k: Key | k.kind == KindStatefulSet && LastRestart(v, k).Some?
      ensures AtMost(LastRestart(v, k).value, b)
      ensures Noted(w, cfg, sch, noted) && ConfChangedAt(v).Some? && StampedAfter(v, k, ConfChangedAt(v).value) ==>
                Followed(v.log, conf, k)
    {
      PassStamp(w, cfg, sch, k);
      AskedNotRolled(w, cfg, sch, conf, k);
      StampInTime(w, v, sch, a, b, k, noted);
      if !Noted(w, cfg, sch, noted) {
      } else if RestartAsked(conf) in News(w, v) {
        NotYetRestarted(w, v, sch, a, b, k, noted);
      } else if ConfChangedAt(v).Some? && StampedAfter(v, k, ConfChangedAt(v).value) {
        StillFollowed(w.log, v.log, conf, k);
      }
    }
  }

  lemma StampInTime(w: World, v: World, sch: Schedule, a: string, b: string, k: Key, noted: bool)
    requires LogInv(w, a, noted) && AtMost(a, b) && Between(sch, a, b) && Extends(w, v) && StampOnRecord(w, v, k, sch)
    requires k.kind == KindStatefulSet && LastRestart(v, k).Some?
    ensures AtMost(LastRestart(v, k).value, b)
  {
    hide AtMost, ConfChangedAt, Followed, LastRestart;
    if LastRestart(v, k) == LastRestart(w, k) {
      AtMostTrans(LastRestart(w, k).value, a, b);
    }
  }

  /** Right after the change was noted, no set counts as restarted since. */
  lemma NotYetRestarted(w: World, v: World, sch: Schedule, a: string, b: string, k: Key, noted: bool)
    requires LogInv(w, a, noted) && Between(sch, a, b) && Extends(w, v) && StampOnRecord(w, v, k, sch)
    requires k.kind == KindStatefulSet && LastRestart(v, k).Some? && TemplateWritten(k) !in News(w, v)
    requires exists at :: ConfChangedAt(v) == Some(sch.now(at))
    ensures !StampedAfter(v, k, ConfChangedAt(v).value)
  {
    hide ConfChangedAt, Followed, LastRestart;
    var at :| ConfChangedAt(v) == Some(sch.now(at));
    AtMostTrans(LastRestart(w, k).value, a, sch.now(at));
  }

  // ----------------------------------------------------------------------- runs

  /** What the environment does between passes changes no template, no ConfigMap and no log. */
  lemma EnvKeepsLog(w: World, e: Env, a: string, b: string, noted: bool)
    requires Inv(w) && LogInv(w, a, noted) && AtMost(a, b)
    ensures LogInv(EnvStep(w, e), b, noted)
  {
    var v, conf := EnvStep(w, e), ServerConfKey(w.name);
    EnvKeepsConf(w, e);
    hide EnvStep, Inv, ServerConfKey, ConfChangedAt, AtMost, Followed, LastRestart;
    forall k: Key | k.kind == KindStatefulSet && LastRestart(v, k).Some?
      ensures LastRestart(v, k) == LastRestart(w, k) && AtMost(LastRestart(v, k).value, b)
    {
      EnvKeepsStamp(w, e, k);
      AtMostTrans(LastRestart(w, k).value, a, b);
    }
  }

  lemma EnvKeepsConf(w: World, e: Env)
    requires Inv(w)
    ensures var v := EnvStep(w, e); v.log == w.log && v.name == w.name && ConfChangedAt(v) == ConfChangedAt(w)
  {
    hide Clean, SecretAgrees, FinalizerFirst, ClusterInv, ChildResourceName;
    var k := ServerConfKey(w.name);
    assert k in w.objects ==> TidyObject(w.name, k, w.objects[k]);
  }

  lemma EnvKeepsStamp(w: World, e: Env, k: Key)
    ensures LastRestart(EnvStep(w, e), k) == LastRestart(w, k) || LastRestart(EnvStep(w, e), k) == None
  {
    hide Clean;
  }

  /**
    The clock never runs backwards: reading n is not earlier than the moves before it and not later
    than those after.
  */
  ghost predicate Timed(moves: seq<Move>, times: seq<string>) {
    && |times| == |moves| + 1
    && forall i :: 0 <= i < |moves| ==>
         AtMost(times[i], times[i + 1]) && (moves[i].Pass? ==> Between(moves[i].sch, times[i], times[i + 1]))
  }

  /** In the last pass of the run that asked for a restart, if any, both calls of the annotation worked. */
  ghost predicate LastNoted(w: World, moves: seq<Move>, cfg: Settings) {
    moves == []
    || var n := |moves| - 1;
       var noted := LastNoted(w, moves[..n], cfg);
       match moves[n]
       case Pass(sch) => Noted(Run(w, moves[..n], cfg), cfg, sch, noted)
       case Act(_) => noted
  }

  lemma {:induction false} RunKeepsLog(w: World, moves: seq<Move>, times: seq<string>, cfg: Settings)
    requires Inv(w) && Timed(moves, times) && LogInv(w, times[0], true)
    ensures LogInv(Run(w, moves, cfg), times[|moves|], LastNoted(w, moves, cfg))
  {
    hide Inv, LogInv, Noted, EnvStep, After, AtMost, Between;
    if moves != [] {
      var n := |moves| - 1;
      var front, m, r := moves[..n], moves[n], Run(w, moves[..n], cfg);
      var noted := LastNoted(w, front, cfg);
      assert Timed(front, times[..n + 1]);
      RunKeepsLog(w, front, times[..n + 1], cfg);
      RunKeepsInv(w, front, cfg);
      match m {
        case Pass(sch) => OnePassKeepsLog(r, cfg, sch, times[n], times[n + 1], noted);
        case Act(env) => EnvKeepsLog(r, env, times[n], times[n + 1], noted);
      }
    }
  }

  lemma OnePassKeepsLog(r: World, cfg: Settings, sch: Schedule, a: string, b: string, noted: bool)
    requires Inv(r) && LogInv(r, a, noted) && AtMost(a, b) && Between(sch, a, b)
    ensures LogInv(After(r, cfg, sch), b, Noted(r, cfg, sch, noted))
  {
    hide LogInv, ReconcileSpec, NoteCall, AtMost, Between, ServerConfKey, Clean, Tidy, RollingSet, SecretAgrees;
    hide FinalizerFirst;
    if r.cluster.None? {
      AbsentCluster(r, cfg, sch);
      LaterLog(r, a, b, noted);
    } else {
      PassKeepsLog(r, cfg, sch, a, b, noted);
    }
  }

  lemma LaterLog(w: World, a: string, b: string, noted: bool)
    requires LogInv(w, a, noted) && AtMost(a, b)
    ensures LogInv(w, b, noted)
  {
    hide ConfChangedAt, AtMost, Followed, LastRestart, ServerConfKey;
    forall k: Key | k.kind == KindStatefulSet && LastRestart(w, k).Some? ensures AtMost(LastRestart(w, k).value, b) {
      AtMostTrans(LastRestart(w, k).value, a, b);
    }
  }

  lemma FreshLog(w: World, now: string)
    requires Runs.Fresh(w) && w.log == []
    ensures LogInv(w, now, true)
  {
  }

  /**
    Success means restarted: in every run from a new cluster under a clock that does not run
    backwards, if both calls of the annotation worked in the last pass that asked for a restart,
    then after a pass that goes through, every update that ever asked for a restart is followed
    in the log by a template write of every set.
  */
  lemma SuccessMeansRestarted(w: World, moves: seq<Move>, times: seq<string>, cfg: Settings, sch: Schedule, k: Key)
    requires Runs.Fresh(w) && w.log == [] && LastNoted(w, moves, cfg)
    requires Timed(moves + [Pass(sch)], times)
    requires var r := Run(w, moves, cfg); r.cluster.Some? && ReconcileSpec(r, cfg, sch).1.Continue?
    requires k in MineSet(After(Run(w, moves, cfg), cfg, sch))
    ensures var v := After(Run(w, moves, cfg), cfg, sch); Followed(v.log, ServerConfKey(v.name), k)
  {
    hide Inv, Runs.Fresh, LogInv, Run, ReconcileSpec, AtMost, Between, Followed, ServerConfKey, LastNoted;
    var n, r := |moves|, Run(w, moves, cfg);
    FreshInv(w);
    FreshLog(w, times[0]);
    FirstMoves(moves, sch, times);
    RunKeepsLog(w, moves, times[..n + 1], cfg);
    RunKeepsInv(w, moves, cfg);
    InvIsLive(r);
    PassedNoted(r, cfg, sch);
    PassKeepsLog(r, cfg, sch, times[n], times[n + 1], true);
    PassMeansReconciled(r, cfg, sch);
    RestartedIsFollowed(After(r, cfg, sch), times[n + 1], k);
  }

  lemma FirstMoves(moves: seq<Move>, sch: Schedule, times: seq<string>)
    requires Timed(moves + [Pass(sch)], times)
    ensures |times| == |moves| + 2 && Timed(moves, times[..|moves| + 1])
    ensures AtMost(times[|moves|], times[|moves| + 1]) && Between(sch, times[|moves|], times[|moves| + 1])
  {
    hide AtMost, Between;
    var all, n := moves + [Pass(sch)], |moves|;
    assert all[n] == Pass(sch);
    forall i | 0 <= i < n
      ensures AtMost(times[i], times[i + 1]) && (moves[i].Pass? ==> Between(moves[i].sch, times[i], times[i + 1]))
    {
      assert all[i] == moves[i];
    }
  }

  lemma InvIsLive(r: World)
    requires Inv(r) && r.cluster.Some?
    ensures Live(r)
  {
    hide Tidy, RollingSet, SecretAgrees, FinalizerFirst, Clean, InShape;
  }

  /** A pass that goes through has asked for no restart. */
  lemma PassedNoted(r: World, cfg: Settings, sch: Schedule)
    requires Live(r) && ReconcileSpec(r, cfg, sch).1.Continue?
    ensures Extends(r, After(r, cfg, sch)) && RestartAsked(ServerConfKey(r.name)) !in News(r, After(r, cfg, sch))
  {
    hide ReconcileSpec, NoteCall, Clean, ServerConfKey, ConfChangedAt;
    PassOnRecord(r, cfg, sch);
  }

  lemma RestartedIsFollowed(v: World, now: string, k: Key)
    requires LogInv(v, now, true) && NoneStale(v) && k in MineSet(v)
    ensures Followed(v.log, ServerConfKey(v.name), k)
  {
    hide ConfChangedAt, ServerConfKey, AtMost;
    if ConfChangedAt(v).Some? {
      var since := ConfChangedAt(v).value;
      assert k !in StaleSet(v, since);
      assert StampedAfter(v, k, since);
    }
  }
}
