/** What one pass does to the stamps of the configuration and of the sets, and what it puts on record about them. */
module Traces {
  import opened Basics
  import opened Objects
  import opened Store
  import opened Names
  import opened Conditions
  import opened Resources
  import opened Stages
  import opened Builders
  import opened Reconcile
  import opened Passes
  import opened Protocol
  import opened Restart
  import Cli
  import Finalizer
  import Metadata
  import ServerConfig
  import Success

  // ------------------------------------------------------ the configuration stamp

  /** Call c and the next one both work: the read and the write of an annotation. */
  predicate BothWork(sch: Schedule, c: nat) { !sch.fails(c) && !sch.fails(c + 1) }

  /**
    The call with which reconcileResources, begun like this, would start to annotate the server
    ConfigMap: after the readiness check, the builders before it, and its own Build, read and write.
  */
  function ConfCall(s: Sys, sch: Schedule): nat {
    LoopReached(Called(s), ResourceBuilders(s.rmq), 0, ConfIndex(s.rmq), sch).calls + 3
  }

  /** The call with which a pass would start to annotate the server ConfigMap. */
  function NoteCall(w: World, cfg: Settings, sch: Schedule): nat
    requires w.cluster.Some?
  {
    ConfCall(Reached(Sys(w, w.cluster.value, 1), 0, 7, cfg, sch), sch)
  }

  /**
    The stamp of the last configuration change moves exactly when an update that asks for a
    restart is followed by a successful annotation, which begins with call c; a failed
    annotation ends the pass in error.
  */
  ghost predicate ConfOnRecord(u: World, v: World, o: Outcome, sch: Schedule, c: nat)
    requires Extends(u, v)
  {
    if RestartAsked(ServerConfKey(u.name)) !in News(u, v) then ConfChangedAt(v) == ConfChangedAt(u)
    else if BothWork(sch, c) then o.Done? && ConfChangedAt(v) == Some(sch.now(c))
    else o.Error? && ConfChangedAt(v) == ConfChangedAt(u)
  }

  lemma ConfKind(cluster: string)
    ensures ServerConfKey(cluster).kind == KindConfigMap
  {
  }

  lemma ConfBuilderIs(rmq: Cluster)
    ensures ServerConfBuilder(rmq) in ResourceBuilders(rmq) && ConfIndex(rmq) < |ResourceBuilders(rmq)|
    ensures ResourceBuilders(rmq)[ConfIndex(rmq)] == ServerConfBuilder(rmq)
    ensures ServerConfBuilder(rmq).key == ServerConfKey(rmq.name) && ServerConfBuilder(rmq).role == ServerConfigMap
    ensures forall b :: b in ResourceBuilders(rmq) && b.key == ServerConfKey(rmq.name) ==> b == ServerConfBuilder(rmq)
  {
    KeysDistinct(rmq);
    var i := ConfIndex(rmq);
    var base := BaseBuilders(rmq);
    hide HeadlessBuilder, ClientBuilder, CookieBuilder, UserBuilder, PluginsBuilder, AccountBuilder, RoleBuilder;
    hide BindingBuilder;
    hide NodeBuilder, HasUserSecret, ChildResourceName;
    assert ServerConfBuilder(rmq).key == ServerConfKey(rmq.name);
    hide ServerConfBuilder;
    assert base[i] == ServerConfBuilder(rmq);
    assert ResourceBuilders(rmq)[i] == base[i];
  }

  /** Update neither sets nor moves the stamp. */
  lemma ConfUpdate(rmq: Cluster, o: Object)
    requires Clean(rmq) && ServerConfBuilder(rmq).update(o).Accepted?
    ensures var p := ServerConfBuilder(rmq).update(o).result;
            && p.ConfigMap?
            && (SERVER_CONF_UPDATED in p.meta.annotations <==> SERVER_CONF_UPDATED in o.meta.annotations)
            && (SERVER_CONF_UPDATED in o.meta.annotations ==>
                  p.meta.annotations[SERVER_CONF_UPDATED] == o.meta.annotations[SERVER_CONF_UPDATED])
  {
    ServerConfig.OnlyConfigMaps(rmq, o);
    assert OperatorKey(SERVER_CONF_UPDATED);
    hide ServerConfig.UpdateServerConfig, Metadata.Renewed;
    Metadata.RenewedKeeps(rmq, o.meta, SERVER_CONF_UPDATED);
  }

  lemma ConfBuilt(rmq: Cluster, r: string)
    requires Clean(rmq)
    ensures var o := ServerConfBuilder(rmq).build(r); o.ConfigMap? && SERVER_CONF_UPDATED !in o.meta.annotations
  {
    Metadata.MergeOne(map[], rmq.annotations, true);
    assert OperatorKey(SERVER_CONF_UPDATED);
    hide Metadata.GetLabels, Metadata.MergeWithFilter;
  }

  /** The turn of the server ConfigMap's builder. */
  lemma ConfTurn(s: Sys, sch: Schedule)
    requires Clean(s.rmq) && s.rmq.name == s.world.name
    ensures var t := BuilderStep(s, ServerConfBuilder(s.rmq), sch);
            Extends(s.world, t.sys.world) && ConfOnRecord(s.world, t.sys.world, t.outcome, sch, s.calls + 3)
  {
    hide ServerConfig.UpdateServerConfig, Clean, ServerConfBuilder, WellBehaved, SetConditionSpec, ApplyStep;
    hide CreateOrUpdateSpec, ConfChangedAt, BuilderEvents, TouchesOnly, ServerConfKey, BuilderStep, ResourceBuilders;
    var b, w := ServerConfBuilder(s.rmq), s.world;
    ConfBuilderIs(s.rmq);
    ServerConfWellBehaved(s.rmq);
    NothingTouched(w, b.key);
    PlainTurn(s, b, sch);
    if !sch.fails(s.calls) {
      var built := b.build(sch.random(s.calls));
      ConfBuilt(s.rmq, sch.random(s.calls));
      ConfWritten(Called(s), built, sch);
      ConfApplied(Called(s), b, built, sch);
    }
  }

  /** The turn of a builder of another kind than the sets: Build, and then its object is applied. */
  lemma PlainTurn(s: Sys, b: Builder, sch: Schedule)
    ensures var built := b.build(sch.random(s.calls));
            if sch.fails(s.calls) then BuilderStep(s, b, sch) == Step(Called(s), Error)
            else !built.StatefulSet? ==> BuilderStep(s, b, sch) == ApplyStep(Called(s), b, built, sch)
  {
    hide ApplyStep;
  }

  lemma ConfApplied(s: Sys, b: Builder, built: Object, sch: Schedule)
    requires WellBehaved(b) && b.role == ServerConfigMap && b.key == ServerConfKey(s.world.name)
    requires var u := CreateOrUpdateSpec(s, b, built, sch).0.world;
             ConfChangedAt(u) == ConfChangedAt(s.world) && u.name == s.world.name
    ensures var t := ApplyStep(s, b, built, sch);
            Extends(s.world, t.sys.world) && ConfOnRecord(s.world, t.sys.world, t.outcome, sch, s.calls + 2)
  {
    UpdateCalls(s, b, built, sch);
    hide WellBehaved, SetConditionSpec, CreateOrUpdateSpec, TouchesOnly, UpdateAnnotationSpec;
    hide ConfChangedAt, ServerConfKey, InPlace, Restored, Stored, BuilderEvent;
    var w := s.world;
    CreateOrUpdateEffect(s, b, built, sch);
    var (s1, op, restart) := CreateOrUpdateSpec(s, b, built, sch);
    if op.UpdatedObject? && restart {
      ConfAnnotated(s1, sch);
      var v := UpdateAnnotationSpec(s1, b.key, SERVER_CONF_UPDATED, sch).sys.world;
      NewsCompose(w, s1.world, v);
    } else {
      assert FlagFor(b, op, restart).None?;
    }
  }

  lemma UpdateCalls(s: Sys, b: Builder, built: Object, sch: Schedule)
    ensures var (s1, op, restart) := CreateOrUpdateSpec(s, b, built, sch);
            && (op.UpdatedObject? ==> s1.calls == s.calls + 2)
            && (BothWork(sch, s.calls) && b.key in s.world.objects ==>
                  var m := b.update(s.world.objects[b.key]);
                  m.Accepted? && m.result != s.world.objects[b.key] ==> op.UpdatedObject? && restart == m.restart)
  {
    hide Recorded, Update, Create;
  }

  /** Creating or updating the ConfigMap alone leaves the stamp as it was. */
  lemma ConfWritten(s: Sys, built: Object, sch: Schedule)
    requires Clean(s.rmq) && s.rmq.name == s.world.name && built.ConfigMap?
    requires SERVER_CONF_UPDATED !in built.meta.annotations
    ensures var (s1, op, restart) := CreateOrUpdateSpec(s, ServerConfBuilder(s.rmq), built, sch);
            ConfChangedAt(s1.world) == ConfChangedAt(s.world) && s1.world.name == s.world.name
  {
    hide ServerConfig.UpdateServerConfig, Clean, ServerConfBuilder, WellBehaved, CreateOrUpdateSpec, InPlace;
    hide BuilderEvents, ServerConfKey;
    var b, w := ServerConfBuilder(s.rmq), s.world;
    ConfBuilderIs(s.rmq);
    ServerConfWellBehaved(s.rmq);
    CreateOrUpdateEffect(s, b, built, sch);
    var (s1, op, restart) := CreateOrUpdateSpec(s, b, built, sch);
    if op.CreatedObject? {
      ConfUpdate(s.rmq, built);
    } else if op.UpdatedObject? {
      ConfUpdate(s.rmq, w.objects[b.key]);
    }
  }

  /** An Update that changes the ConfigMap and asks for a restart is on record as soon as it is written. */
  lemma AskedUpdate(s: Sys, b: Builder, built: Object, sch: Schedule)
    requires BothWork(sch, s.calls) && WellBehaved(b) && b.role == ServerConfigMap && b.key in s.world.objects
    requires var m := b.update(s.world.objects[b.key]); m.Accepted? && m.restart && m.result != s.world.objects[b.key]
    ensures var t := ApplyStep(s, b, built, sch);
            && Extends(s.world, t.sys.world) && RestartAsked(b.key) in News(s.world, t.sys.world)
            && (if BothWork(sch, s.calls + 2) then t.outcome.Done? else t.outcome.Error?)
  {
    hide WellBehaved, CreateOrUpdateSpec, TouchesOnly, BuilderEvent, Update, MaybeFlagged, Restored, Stored;
    UpdateCalls(s, b, built, sch);
    CreateOrUpdateEffect(s, b, built, sch);
    var (s1, op, restart) := CreateOrUpdateSpec(s, b, built, sch);
    AnnotateEffect(s1, b, op, restart, sch);
    NewsCompose(s.world, s1.world, AnnotateIfNeededSpec(s1, b, op, restart, sch).sys.world);
  }

  /** The turn of the server ConfigMap's builder, when its Update asks for a restart and the write works. */
  lemma ConfAsks(s: Sys, sch: Schedule)
    requires Clean(s.rmq) && s.rmq.name == s.world.name && !sch.fails(s.calls) && BothWork(sch, s.calls + 1)
    requires ServerConfKey(s.world.name) in s.world.objects
    requires var o := s.world.objects[ServerConfKey(s.world.name)];
             var m := ServerConfBuilder(s.rmq).update(o); m.Accepted? && m.restart && m.result != o
    ensures var t := BuilderStep(s, ServerConfBuilder(s.rmq), sch);
            && Extends(s.world, t.sys.world) && RestartAsked(ServerConfKey(s.world.name)) in News(s.world, t.sys.world)
            && (if BothWork(sch, s.calls + 3) then t.outcome.Done? else t.outcome.Error?)
  {
    hide Clean, ServerConfBuilder, WellBehaved, ServerConfKey, ApplyStep, BuilderStep, ResourceBuilders;
    var b := ServerConfBuilder(s.rmq);
    ConfBuilderIs(s.rmq);
    ServerConfWellBehaved(s.rmq);
    ConfBuilt(s.rmq, sch.random(s.calls));
    PlainTurn(s, b, sch);
    AskedUpdate(Called(s), b, b.build(sch.random(s.calls)), sch);
  }

  lemma ConfAnnotated(s: Sys, sch: Schedule)
    requires ServerConfKey(s.world.name) in s.world.objects
    ensures var t := UpdateAnnotationSpec(s, ServerConfKey(s.world.name), SERVER_CONF_UPDATED, sch);
            && Extends(s.world, t.sys.world)
            && (forall e :: e in News(s.world, t.sys.world) ==> e.Updated? || e.TemplateWritten?)
            && if BothWork(sch, s.calls) then t.outcome.Done? && ConfChangedAt(t.sys.world) == Some(sch.now(s.calls))
               else t.outcome.Error? && t.sys.world == s.world
  {
    hide ServerConfKey;
    var k := ServerConfKey(s.world.name);
    var o := WithAnnotation(s.world.objects[k], SERVER_CONF_UPDATED, sch.now(s.calls));
    var v := UpdateAnnotationSpec(s, k, SERVER_CONF_UPDATED, sch).sys.world;
    if v != s.world {
      assert News(s.world, v) == [Updated(k)] + TemplateEvents(k, TemplateChanged(s.world.objects[k], o));
    } else {
      assert News(s.world, v) == [];
    }
  }

  /** Any other builder's turn leaves the ConfigMap alone and asks for no restart. */
  lemma OtherTurn(s: Sys, b: Builder, sch: Schedule, c: nat)
    requires WellBehaved(b) && b.key != ServerConfKey(s.world.name)
    ensures var t := BuilderStep(s, b, sch);
            Extends(s.world, t.sys.world) && ConfOnRecord(s.world, t.sys.world, t.outcome, sch, c)
  {
    hide BuilderStep, WellBehaved, ServerConfKey, OwnWrite, ClaimsBy, StatusAfter, InPlace;
    BuilderStepEffect(s, b, sch);
    var w, v, k := s.world, BuilderStep(s, b, sch).sys.world, ServerConfKey(s.world.name);
    assert k in w.objects <==> k in w.objects - {b.key};
    assert k in v.objects <==> k in v.objects - {b.key};
    assert k in w.objects ==> v.objects[k] == (v.objects - {b.key})[k] == (w.objects - {b.key})[k];
    assert RestartAsked(k) in News(w, v) ==> BuilderEvent(RestartAsked(k), b.key);
  }

  lemma BuildersOnRecord(s: Sys, sch: Schedule)
    requires Clean(s.rmq) && s.rmq.name == s.world.name
    ensures var t := ReconcileResourcesSpec(s, ResourceBuilders(s.rmq), sch);
            Extends(s.world, t.sys.world) && ConfOnRecord(s.world, t.sys.world, t.outcome, sch, ConfCall(s, sch))
  {
    hide BuilderStep, WellBehaved, ServerConfKey, ResourceBuilders, ReconcileResourcesSpec, Clean, ServerConfBuilder;
    hide ConfChangedAt;
    var bs, w := ResourceBuilders(s.rmq), s.world;
    var t := ReconcileResourcesSpec(s, bs, sch);
    if t.sys.world == w {
      assert News(w, w) == [];
    } else {
      AllWellBehaved(s.rmq);
      var j, c := ResourcesStopAt(s, bs, sch);
      assert bs[j] in bs;
      if bs[j].key == ServerConfKey(w.name) {
        ConfBuilderIs(s.rmq);
        ConfIsAt(s.rmq, j);
        ConfTurn(Sys(w, s.rmq, c), sch);
      } else {
        OtherTurn(Sys(w, s.rmq, c), bs[j], sch, ConfCall(s, sch));
      }
    }
  }

  lemma ConfIsAt(rmq: Cluster, j: nat)
    requires j < |ResourceBuilders(rmq)| && ResourceBuilders(rmq)[j] == ServerConfBuilder(rmq)
    ensures j == ConfIndex(rmq)
  {
    ConfBuilderIs(rmq);
    KeysDistinct(rmq);
    hide ResourceBuilders, ServerConfBuilder;
  }

  lemma RestartOnRecord(s: Sys, sch: Schedule, at: nat)
    requires s.rmq.name == s.world.name
    ensures var t := RestartSpec(s, sch);
            Extends(s.world, t.sys.world) && ConfOnRecord(s.world, t.sys.world, t.outcome, sch, at)
  {
    hide RestartSpec, ServerConfKey, ConfChangedAt;
    RestartEffect(s, sch);
    var w, v := s.world, RestartSpec(s, sch).sys.world;
    if v == w {
      assert News(w, w) == [];
    } else {
      var since := ConfChangedAt(w).value;
      var k, n :| Restarted(w, v, k, since, sch.now(n));
      StampEndsStaleness(w, v, k, since, sch.now(n));
      RestartEvents(w, v, k, since, sch.now(n));
    }
  }

  lemma CommandsOnRecord(w: World, v: World, rmq: Cluster, o: Outcome, sch: Schedule, at: nat)
    requires Cli.CliEffect(w, v, rmq)
    ensures ConfOnRecord(w, v, o, sch, at)
  {
    hide Cli.Justified, Cli.OnlyFlagsCleared, ConfChangedAt, ServerConfKey;
    Success.ConfStampSurvives(w, v, rmq);
    Cli.ClearedMeansRan(News(w, v), rmq, ServerConfKey(w.name), "");
  }

  /** What is on record does not depend on the stored cluster. */
  lemma RecordAnyCluster(u: World, v: World, o: Outcome, sch: Schedule, at: nat, x: Option<Cluster>)
    requires Extends(u, v) && ConfOnRecord(u, v, o, sch, at)
    ensures ConfOnRecord(u, v.(cluster := x), o, sch, at)
  {
  }

  lemma UnchangedOnRecord(u: World, v: World, o: Outcome, sch: Schedule, at: nat)
    requires v == u.(cluster := v.cluster)
    ensures Extends(u, v) && News(u, v) == [] && ConfOnRecord(u, v, o, sch, at)
  {
  }

  /** The store after the stage that decided the pass. */
  lemma StageOnRecord(u: World, rmq: Cluster, j: nat, c: nat, cfg: Settings, sch: Schedule, at: nat)
    requires 1 <= j <= 10 && u.cluster == Some(rmq) && Clean(rmq) && rmq.name == u.name
    requires j == 7 ==> at == ConfCall(Sys(u, rmq, c), sch)
    ensures var t := RunStage(PIPELINE[j], Sys(u, rmq, c), cfg, sch);
            Extends(u, t.sys.world) && ConfOnRecord(u, t.sys.world, t.outcome, sch, at)
  {
    hide RunStage, PIPELINE, ConfOnRecord, ConfCall, ReconcileResourcesSpec, RestartSpec, FinalSpec, Cli.CliSpec;
    hide StatusSpec;
    hide Clean, ResourceBuilders;
    hide ClusterEffect, Cli.CliEffect, Quiet, FlagsGone, MineSet;
    PipelineLength();
    var s := Sys(u, rmq, c);
    var t := RunStage(PIPELINE[j], s, cfg, sch);
    if j == 7 {
      ResourcesIs(s, cfg, sch);
      BuildersOnRecord(s, sch);
    } else if j == 8 {
      RestartIs(s, cfg, sch);
      RestartOnRecord(s, sch, at);
    } else if j == 10 {
      FinalIs(s, cfg, sch);
      FinalStore(s, sch);
      CliActs(s, sch);
      var v := t.sys.world.(cluster := u.cluster);
      CliExtends(u, v, rmq);
      CommandsOnRecord(u, v, rmq, t.outcome, sch, at);
      RecordAnyCluster(u, v, t.outcome, sch, at, t.sys.world.cluster);
    } else {
      if j == 9 {
        StatusActs(s, cfg, sch);
      } else {
        ClusterStageActs(s, j, cfg, sch);
      }
      UnchangedOnRecord(u, t.sys.world, t.outcome, sch, at);
    }
  }

  lemma CliExtends(u: World, v: World, rmq: Cluster)
    requires Cli.CliEffect(u, v, rmq)
    ensures Extends(u, v)
  {
  }

  /** Deletion touches no ConfigMap and asks for no restart. */
  lemma DeletionOnRecord(w: World, u: World, rmq: Cluster)
    requires AfterDeletion(w, u, rmq)
    ensures Extends(w, u) && u.name == w.name && ConfChangedAt(u) == ConfChangedAt(w)
    ensures RestartAsked(ServerConfKey(w.name)) !in News(w, u)
  {
    hide ChildResourceName;
    var k := ServerConfKey(w.name);
    assert RestartAsked(k) in News(w, u) ==> Finalizer.DeleteEvent(RestartAsked(k));
    if k in w.objects {
      DeletionOfObject(w, u, rmq, k);
    } else {
      NotRevived(w, u, rmq, k);
    }
  }

  lemma RecordAfterDeletion(w: World, u: World, v: World, o: Outcome, sch: Schedule, at: nat)
    requires Extends(w, u) && Extends(u, v) && u.name == w.name && ConfChangedAt(u) == ConfChangedAt(w)
    requires RestartAsked(ServerConfKey(w.name)) !in News(w, u) && ConfOnRecord(u, v, o, sch, at)
    ensures Extends(w, v) && ConfOnRecord(w, v, o, sch, at)
  {
    hide ConfChangedAt, ServerConfKey;
    NewsCompose(w, u, v);
  }

  /**
    Every pass moves the configuration stamp exactly as its events and the two calls of the
    annotation say.
  */
  lemma PassOnRecord(w: World, cfg: Settings, sch: Schedule)
    requires Live(w)
    ensures Extends(w, After(w, cfg, sch))
    ensures ConfOnRecord(w, After(w, cfg, sch), ReconcileSpec(w, cfg, sch).1, sch, NoteCall(w, cfg, sch))
  {
    hide RunStage, PIPELINE, ReconcileSpec, Clean, ConfOnRecord, Passed, Undeleted, PastDeletion, ConfChangedAt;
    hide ServerConfKey, Finalizer.DeletionEffect, ConfCall, Reached;
    var rmq, v, o := w.cluster.value, After(w, cfg, sch), ReconcileSpec(w, cfg, sch).1;
    var at := NoteCall(w, cfg, sch);
    if sch.fails(0) {
      UnreadPass(w, cfg, sch);
      UnchangedOnRecord(w, v, o, sch, at);
    } else {
      var u, j, c := OneStageDecides(w, cfg, sch);
      PipelineLength();
      DeletionOnRecord(w, u, rmq);
      if j == 0 {
        var t := RunStage(PIPELINE[0], Sys(w, rmq, 1), cfg, sch);
        DeferredOnly(rmq.status, t.sys, sch);
        UnchangedOnRecord(u, v, o, sch, at);
      } else {
        StageOnRecord(u, rmq, j, c, cfg, sch, at);
        var t := RunStage(PIPELINE[j], Sys(u, rmq, c), cfg, sch);
        DeferredOnly(rmq.status, t.sys, sch);
        RecordAnyCluster(u, t.sys.world, o, sch, at, v.cluster);
      }
      RecordAfterDeletion(w, u, v, o, sch, at);
    }
  }

  lemma UnreadPass(w: World, cfg: Settings, sch: Schedule)
    requires sch.fails(0)
    ensures After(w, cfg, sch) == w && ReconcileSpec(w, cfg, sch).1 == Error
  {
    hide RunFrom;
  }

  // ----------------------------------------------------------- restart stamps

  /** When the pods of this set were last told to restart. */
  function LastRestart(w: World, k: Key): Option<string> {
    if k in w.objects && w.objects[k].StatefulSet? && LAST_RESTART in w.objects[k].spec.template.annotations
    then Some(w.objects[k].spec.template.annotations[LAST_RESTART]) else None
  }

  /** The stamp is kept, lost with its set, or new; a new one shows the clock and goes with a template write. */
  ghost predicate StampOnRecord(u: World, v: World, k: Key, sch: Schedule)
    requires Extends(u, v)
  {
    || LastRestart(v, k) == LastRestart(u, k) || LastRestart(v, k) == None
    || (TemplateWritten(k) in News(u, v) && exists at :: LastRestart(v, k) == Some(sch.now(at)))
  }

  lemma RenewedStamp(u: World, v: World, rmq: Cluster, k: Key)
    requires Clean(rmq) && k.kind == KindStatefulSet && RenewedByBuilder(u, v, rmq, k)
    ensures LastRestart(v, k) == LastRestart(u, k)
  {
    hide ResourceBuilders, Clean, OperatorKey, SetBody, PlainUpdate, MaybeFlagged, IsPlain;
    var b :| b in ResourceBuilders(rmq) && b.key == k && Resources.Renewed(u, v, b);
    BuilderKinds(rmq, b);
    var i: nat :| i < rmq.spec.replicas && b == NodeBuilder(rmq, i);
    UpdateKeepsStamp(rmq, i, u.objects[k]);
    FlaggedStamp(Restored(u.objects[k], b.update(u.objects[k]).result), v.objects[k]);
  }

  lemma FlaggedStamp(o: Object, p: Object)
    requires MaybeFlagged(o, p)
    ensures p.StatefulSet? == o.StatefulSet? && (o.StatefulSet? ==> p.spec == o.spec)
  {
    hide OperatorKey;
  }

  lemma MadeStamp(u: World, v: World, rmq: Cluster, k: Key)
    requires Extends(u, v) && Clean(rmq) && k.kind == KindStatefulSet && MadeByBuilder(u, v, rmq, k)
    ensures LastRestart(v, k) == None
  {
    hide ResourceBuilders, Clean, OperatorKey, SetBody, PlainUpdate, Claims;
    var b :| b in ResourceBuilders(rmq) && b.key == k && Made(u, v, b);
    BuilderKinds(rmq, b);
    var i: nat :| i < rmq.spec.replicas && b == NodeBuilder(rmq, i);
    var r: Encoded :| MadeFrom(v, b, r);
    UpdateKeepsStamp(rmq, i, b.build(r));
    FlaggedStamp(Stored(b.update(b.build(r)).result), v.objects[k]);
  }

  lemma BuildersStamp(s: Sys, sch: Schedule, k: Key)
    requires Clean(s.rmq) && k.kind == KindStatefulSet
    ensures var t := ReconcileResourcesSpec(s, ResourceBuilders(s.rmq), sch);
            Extends(s.world, t.sys.world) && StampOnRecord(s.world, t.sys.world, k, sch)
  {
    hide WellBehaved, ResourceBuilders, ReconcileResourcesSpec, Clean, RenewedByBuilder, MadeByBuilder, StatusAfter;
    hide InPlace;
    AllWellBehaved(s.rmq);
    ResourcesEffect(s, ResourceBuilders(s.rmq), sch);
    var u, v := s.world, ReconcileResourcesSpec(s, ResourceBuilders(s.rmq), sch).sys.world;
    if v != u {
      var j: nat :| StoppedAt(u, v, ResourceBuilders(s.rmq), 0, j);
      StoppedExtends(u, v, ResourceBuilders(s.rmq), j);
      hide StoppedAt;
      NoRestartHere(u, v, s.rmq, j, k);
    }
  }

  lemma StoppedExtends(u: World, v: World, bs: seq<Builder>, j: nat)
    requires StoppedAt(u, v, bs, 0, j)
    ensures Extends(u, v)
  {
  }

  lemma NoRestartHere(u: World, v: World, rmq: Cluster, j: nat, k: Key)
    requires Clean(rmq) && k.kind == KindStatefulSet && StoppedAt(u, v, ResourceBuilders(rmq), 0, j) && Extends(u, v)
    ensures LastRestart(v, k) == LastRestart(u, k) || LastRestart(v, k) == None
  {
    hide ResourceBuilders, Clean, MadeFrom, MaybeFlagged, InPlace, ClaimsBy;
    var b := ResourceBuilders(rmq)[j];
    assert b in ResourceBuilders(rmq);
    if k == b.key {
      if Resources.Renewed(u, v, b) {
        assert RenewedByBuilder(u, v, rmq, k);
        RenewedStamp(u, v, rmq, k);
      } else if Made(u, v, b) {
        assert MadeByBuilder(u, v, rmq, k);
        MadeStamp(u, v, rmq, k);
      }
    } else {
      assert k in u.objects ==> k in u.objects - {b.key};
      assert k in v.objects ==> k in v.objects - {b.key};
      assert k in u.objects ==> v.objects[k] == (v.objects - {b.key})[k] == (u.objects - {b.key})[k];
    }
  }

  lemma RestartStamp(s: Sys, sch: Schedule, k: Key)
    requires s.rmq.name == s.world.name && k.kind == KindStatefulSet
    ensures var t := RestartSpec(s, sch);
            Extends(s.world, t.sys.world) && StampOnRecord(s.world, t.sys.world, k, sch)
  {
    hide RestartSpec, ConfChangedAt;
    RestartEffect(s, sch);
    var w, v := s.world, RestartSpec(s, sch).sys.world;
    if v != w {
      var since := ConfChangedAt(w).value;
      var l, at :| Restarted(w, v, l, since, sch.now(at));
      StampedOnRecord(w, v, l, since, sch, at, k);
    }
  }

  lemma StampedOnRecord(w: World, v: World, l: Key, since: string, sch: Schedule, at: nat, k: Key)
    requires Restarted(w, v, l, since, sch.now(at))
    ensures Extends(w, v) && StampOnRecord(w, v, k, sch)
  {
    var o, p := w.objects[l], Restart.Stamp(w.objects[l], sch.now(at));
    assert News(w, v) == [Updated(l)] + TemplateEvents(l, TemplateChanged(o, p));
    if k == l {
      assert LastRestart(v, k) == Some(sch.now(at));
      if TemplateChanged(o, p) {
        assert News(w, v)[1] == TemplateWritten(k);
      } else {
        assert o.spec.template.annotations[LAST_RESTART := sch.now(at)] == o.spec.template.annotations;
      }
    }
  }

  lemma CommandsStamp(w: World, v: World, rmq: Cluster, k: Key)
    requires Cli.CliEffect(w, v, rmq)
    ensures LastRestart(v, k) == LastRestart(w, k)
  {
    hide Cli.Justified, OperatorKey;
    if k in w.objects {
      assert Cli.Unflagged(w.objects[k], v.objects[k], k, News(w, v));
    }
  }

  lemma StageStamp(u: World, rmq: Cluster, j: nat, c: nat, cfg: Settings, sch: Schedule, k: Key)
    requires 1 <= j <= 10 && u.cluster == Some(rmq) && Clean(rmq) && rmq.name == u.name && k.kind == KindStatefulSet
    ensures var v := RunStage(PIPELINE[j], Sys(u, rmq, c), cfg, sch).sys.world;
            Extends(u, v) && StampOnRecord(u, v, k, sch)
  {
    hide RunStage, PIPELINE, ReconcileResourcesSpec, RestartSpec, FinalSpec, Cli.CliSpec, StatusSpec, Clean;
    hide ResourceBuilders;
    hide ClusterEffect, Cli.CliEffect, Quiet, FlagsGone, MineSet, Restarted;
    PipelineLength();
    var s := Sys(u, rmq, c);
    var v := RunStage(PIPELINE[j], s, cfg, sch).sys.world;
    if j == 7 {
      ResourcesIs(s, cfg, sch);
      BuildersStamp(s, sch, k);
    } else if j == 8 {
      RestartIs(s, cfg, sch);
      RestartStamp(s, sch, k);
    } else if j == 10 {
      FinalIs(s, cfg, sch);
      FinalStore(s, sch);
      CliActs(s, sch);
      CliExtends(u, v.(cluster := u.cluster), rmq);
      CommandsStamp(u, v.(cluster := u.cluster), rmq, k);
    } else if j == 9 {
      StatusActs(s, cfg, sch);
    } else {
      ClusterStageActs(s, j, cfg, sch);
    }
  }

  lemma StampAfterDeletion(w: World, u: World, v: World, rmq: Cluster, k: Key, sch: Schedule)
    requires AfterDeletion(w, u, rmq) && Extends(u, v) && StampOnRecord(u, v, k, sch)
    ensures Extends(w, v) && StampOnRecord(w, v, k, sch)
  {
    NewsCompose(w, u, v);
    if k in w.objects {
      DeletionOfObject(w, u, rmq, k);
    } else {
      NotRevived(w, u, rmq, k);
    }
    hide AfterDeletion;
    if TemplateWritten(k) in News(u, v) {
      assert TemplateWritten(k) in News(w, u) + News(u, v);
    }
  }

  /** Every pass moves a restart stamp only with a template write, and then to the clock's reading. */
  lemma PassStamp(w: World, cfg: Settings, sch: Schedule, k: Key)
    requires Live(w) && k.kind == KindStatefulSet
    ensures Extends(w, After(w, cfg, sch)) && StampOnRecord(w, After(w, cfg, sch), k, sch)
  {
    hide RunStage, PIPELINE, ReconcileSpec, Clean, Passed, Undeleted, PastDeletion, Finalizer.DeletionEffect;
    var rmq, v := w.cluster.value, After(w, cfg, sch);
    if sch.fails(0) {
      UnreadPass(w, cfg, sch);
    } else {
      var u, j, c := OneStageDecides(w, cfg, sch);
      PipelineLength();
      DeletionOnRecord(w, u, rmq);
      if j == 0 {
        DeferredOnly(rmq.status, RunStage(PIPELINE[0], Sys(w, rmq, 1), cfg, sch).sys, sch);
      } else {
        StageStamp(u, rmq, j, c, cfg, sch, k);
        DeferredOnly(rmq.status, RunStage(PIPELINE[j], Sys(u, rmq, c), cfg, sch).sys, sch);
      }
      StampAfterDeletion(w, u, v, rmq, k, sch);
    }
  }
}
