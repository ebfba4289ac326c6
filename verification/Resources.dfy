/** reconcileResources (controllers/reconcile_resources.go): one write per pass, in builder order. */
module Resources {
  import opened Basics
  import opened Objects
  import opened Store
  import opened Client
  import opened Conditions
  import Names
  import Scaling

  /** controllerutil.OperationResult, or an error. */
  datatype Operation = Unchanged | CreatedObject | UpdatedObject | Failed

  const READY_RETRY: nat := 5

  // ------------------------------------------------------------ specification

  function WaitResourceReadySpec(s: Sys, sch: Schedule): Step {
    var keys := ListSets(s, sch);
    if keys.None? then Step(Called(s), Error)
    else if AllSettled(s.world, keys.value) then Step(Called(s), Continue)
    else Step(Called(s), Requeue(READY_RETRY))
  }

  function ReconcilePVCSpec(s: Sys, key: Key, desired: nat, sch: Schedule): Step {
    var (s1, ok) := Scaling.ScaleSpec(s, key, desired, sch);
    if ok then Step(s1, Continue)
    else Step(WithCondition(s1, ReconcileSuccess, ConditionFalse, "FailedReconcilePVC", "", sch), Error)
  }

  /** CreateOrUpdate: the new state, the operation and the builder's restart flag. */
  function CreateOrUpdateSpec(s: Sys, b: Builder, built: Object, sch: Schedule): (Sys, Operation, bool) {
    if sch.fails(s.calls) then (Called(s), Failed, false)
    else
      var s1 := Called(s);
      if b.key !in s.world.objects then
        match b.update(built)
        case Rejected => (s1, Failed, false)
        case Accepted(o, restart) =>
          if sch.fails(s1.calls) then (Called(s1), Failed, restart)
          else (Called(WithWorld(s1, Create(s.world, b.key, o))), CreatedObject, restart)
      else
        var existing := s.world.objects[b.key];
        match b.update(existing)
        case Rejected => (s1, Failed, false)
        case Accepted(o, restart) =>
          if o == existing then (s1, Unchanged, restart)
          else if sch.fails(s1.calls) then (Called(s1), Failed, restart)
          else (Called(WithWorld(s1, Recorded(Update(s.world, b.key, o), b, restart))), UpdatedObject, restart)
  }

  /** An update that asks for a restart is on record. */
  function Recorded(w: World, b: Builder, restart: bool): World {
    if Asks(b, restart) then w.(log := w.log + [RestartAsked(b.key)]) else w
  }

  predicate Asks(b: Builder, restart: bool) { b.role == ServerConfigMap && restart }

  /** updateAnnotation: read the object again and write it with one more annotation. */
  function UpdateAnnotationSpec(s: Sys, key: Key, flag: string, sch: Schedule): Step {
    if sch.fails(s.calls) || key !in s.world.objects then Step(Called(s), Error)
    else if sch.fails(s.calls + 1) then Step(Called(Called(s)), Error)
    else
      var o := WithAnnotation(s.world.objects[key], flag, sch.now(s.calls));
      Step(Called(Called(WithWorld(s, Update(s.world, key, o)))), Done)
  }

  /** The flag annotateIfNeeded sets, if any. */
  function FlagFor(b: Builder, op: Operation, restart: bool): Option<string> {
    if b.role == PluginsConfigMap && op.UpdatedObject? then Some(PLUGINS_UPDATED)
    else if b.role == ServerConfigMap && op.UpdatedObject? && restart then Some(SERVER_CONF_UPDATED)
    else if b.role.Node? && op.CreatedObject? then Some(SET_CREATED)
    else None
  }

  function AnnotateIfNeededSpec(s: Sys, b: Builder, op: Operation, restart: bool, sch: Schedule): Step {
    var flag := FlagFor(b, op, restart);
    if flag.None? then Step(s, Continue) else UpdateAnnotationSpec(s, b.key, flag.value, sch)
  }

  /** One iteration of the builder loop. */
  function BuilderStep(s: Sys, b: Builder, sch: Schedule): Step {
    if sch.fails(s.calls) then Step(Called(s), Error)
    else
      var built := b.build(sch.random(s.calls));
      var p := if built.StatefulSet?
               then ReconcilePVCSpec(Called(s), b.key, Capacity(built.spec.claims, Names.PVC_NAME), sch)
               else Step(Called(s), Continue);
      if p.outcome.Completed() then p else ApplyStep(p.sys, b, built, sch)
  }

  /** The part of the iteration after reconcilePVC. */
  function ApplyStep(s: Sys, b: Builder, built: Object, sch: Schedule): Step {
    var (s1, op, restart) := CreateOrUpdateSpec(s, b, built, sch);
    if op.Failed? then Step(WithCondition(s1, ReconcileSuccess, ConditionFalse, "Error", "", sch), Error)
    else
      var a := AnnotateIfNeededSpec(s1, b, op, restart, sch);
      if a.outcome.Completed() then a
      else if op.Unchanged? then Step(a.sys, Continue)
      else Step(a.sys, Done)
  }

  function BuilderLoop(s: Sys, bs: seq<Builder>, i: nat, sch: Schedule): Step
    requires i <= |bs|
    decreases |bs| - i
  {
    if i == |bs| then Step(s, Continue)
    else
      var t := BuilderStep(s, bs[i], sch);
      if t.outcome.Completed() then t else BuilderLoop(t.sys, bs, i + 1, sch)
  }

  function ReconcileResourcesSpec(s: Sys, bs: seq<Builder>, sch: Schedule): Step {
    var ready := WaitResourceReadySpec(s, sch);
    if ready.outcome.Completed() then ready else BuilderLoop(ready.sys, bs, 0, sch)
  }

  // ------------------------------------------------------- what a step may do

  /** Everything outside one object key, its claims and its log entries is as before. */
  ghost predicate TouchesOnly(w: World, v: World, key: Key) {
    && v.name == w.name && v.cluster == w.cluster && v.pods == w.pods && v.endpoints == w.endpoints
    && v.objects - {key} == w.objects - {key}
    && v.terminating - {key} == w.terminating - {key}
    && (key.kind != KindStatefulSet ==> v.claims == w.claims)
    && v.claims.Keys == w.claims.Keys
    && (forall c :: c in w.claims ==> w.claims[c] <= v.claims[c])
  }

  ghost predicate Extends(w: World, v: World) { w.log <= v.log }

  ghost function News(w: World, v: World): seq<Event>
    requires Extends(w, v)
  {
    v.log[|w.log|..]
  }

  /** Log entries a builder step for this key may add. */
  ghost predicate BuilderEvent(e: Event, key: Key) {
    match e
    case Created(k) => k == key
    case Updated(k) => k == key
    case TemplateWritten(k) => k == key
    case RestartAsked(k) => k == key && key.kind != KindStatefulSet
    case Deleted(k) => k == key && key.kind == KindStatefulSet
    case ConfirmedGone(k) => k == key && key.kind == KindStatefulSet
    case ClaimGrown(_, _) => key.kind == KindStatefulSet
    case _ => false
  }

  ghost predicate BuilderEvents(w: World, v: World, key: Key) {
    Extends(w, v) && forall e :: e in News(w, v) ==> BuilderEvent(e, key)
  }

  /** Only the conditions of the cached cluster may differ, and they do not claim success. */
  ghost predicate SameButConditions(a: Cluster, b: Cluster) {
    a == b.(status := b.status.(conditions := a.status.conditions)) && StatusAfter(b.status, a.status)
  }

  /** The object, or the object with one of the operator's flags on it. */
  ghost predicate MaybeFlagged(o: Object, p: Object) {
    p == o || exists flag, t: Stamp :: OperatorKey(flag) && p == WithAnnotation(o, flag, t)
  }

  ghost predicate SameAt(w: World, v: World, key: Key) {
    (key in v.objects <==> key in w.objects) && (key in w.objects ==> v.objects[key] == w.objects[key])
  }

  /** The stored object went through the builder's Update. */
  ghost predicate Renewed(w: World, v: World, b: Builder) {
    && b.key in w.objects && b.key in v.objects
    && b.update(w.objects[b.key]).Accepted?
    && MaybeFlagged(Restored(w.objects[b.key], b.update(w.objects[b.key]).result), v.objects[b.key])
  }

  /** The object was built and created, where there was none or the old one was deleted first. */
  ghost predicate Made(w: World, v: World, b: Builder)
    requires Extends(w, v)
  {
    && b.key in v.objects
    && (b.key in w.objects ==> Deleted(b.key) in News(w, v))
    && exists r: Encoded :: MadeFrom(v, b, r)
  }

  ghost predicate MadeFrom(v: World, b: Builder, r: Encoded)
    requires b.key in v.objects
  {
    && b.update(b.build(r)).Accepted?
    && MaybeFlagged(Stored(b.update(b.build(r)).result), v.objects[b.key])
  }

  /** What a builder's step does to the object under its key. */
  ghost predicate OwnWrite(w: World, v: World, b: Builder) {
    && Extends(w, v)
    && (|| (b.key !in v.objects && (b.key in w.objects ==> Deleted(b.key) in News(w, v)))
        || (b.key in w.objects && b.key in v.objects && v.objects[b.key] == w.objects[b.key])
        || Renewed(w, v, b)
        || Made(w, v, b))
    && (Created(b.key) in News(w, v) ==> Made(w, v, b))
  }

  /** Claims change only for a set that asks for less than its builder wants, and only that set's own claims do. */
  ghost predicate ClaimsBy(w: World, v: World, b: Builder) {
    v.claims != w.claims ==>
      && Scaling.Found(w, b.key)
      && (exists r :: Scaling.Existing(w, b.key) < Wanted(b, r))
      && (forall c :: c in w.claims && c in v.claims && v.claims[c] != w.claims[c] ==>
            exists n: nat :: Names.ClaimText(c, b.key.name, n))
  }

  /** The capacity Build asks for. */
  function Wanted(b: Builder, r: string): nat {
    var o := b.build(r);
    if o.StatefulSet? then Capacity(o.spec.claims, Names.PVC_NAME) else 0
  }

  ghost predicate StepEffect(w: World, v: World, b: Builder) {
    TouchesOnly(w, v, b.key) && BuilderEvents(w, v, b.key) && OwnWrite(w, v, b) && ClaimsBy(w, v, b)
  }

  // ---------------------------------------------------- assumptions on builders

  /** What every resource builder guarantees about its Build and Update. */
  ghost predicate WellBehaved(b: Builder) {
    && (forall r :: Fits(b.key.kind, b.build(r)))
    && (forall o :: Fits(b.key.kind, o) && b.update(o).Accepted? ==>
          Fits(b.key.kind, b.update(o).result) && Fixed(b, b.update(o).result))
    && (forall o: Object, st :: o.StatefulSet? && Fixed(b, o) ==> Fixed(b, o.(status := st)))
    && (forall o, p :: Fixed(b, o) && SameButFlags(o, p) ==> Fixed(b, p))
    && (b.role.Node? <==> b.key.kind == KindStatefulSet)
  }

  // ------------------------------------------------------------------- proofs

  /** What growing the claims of one set does to the rest of the store. */
  ghost predicate ScalingEffect(w: World, v: World, key: Key) {
    && TouchesOnly(w, v, key) && BuilderEvents(w, v, key)
    && (forall e :: e in News(w, v) ==> !e.Created? && !e.TemplateWritten? && !e.RestartAsked?)
    && (key in v.objects ==> key in w.objects && v.objects[key] == w.objects[key])
    && (key in w.objects && key !in v.objects ==> Deleted(key) in News(w, v))
  }

  /** What growing claims does to them. */
  ghost predicate OwnClaims(w: World, v: World, key: Key, desired: nat) {
    v.claims != w.claims ==>
      && Scaling.Found(w, key) && Scaling.Existing(w, key) < desired
      && (forall c :: c in w.claims && c in v.claims && v.claims[c] != w.claims[c] ==>
            exists n: nat :: Names.ClaimText(c, key.name, n))
  }

  lemma OwnClaimsGrow(s: Sys, key: Key, desired: nat, sch: Schedule)
    ensures OwnClaims(s.world, Scaling.ScaleSpec(s, key, desired, sch).0.world, key, desired)
  {
    hide Scaling.ScaleSpec, Names.ClaimText;
    Scaling.ScaleOutcomes(s, key, desired, sch);
    Scaling.ClaimsOnlyGrow(s, key, desired, sch);
  }

  lemma GrowingEffect(w: World, v: World, key: Key, needed: seq<string>, k: nat, desired: nat)
    requires key.kind == KindStatefulSet
    requires Scaling.GrewPrefix(w, v, key, needed, k, desired)
    requires v.claims.Keys == w.claims.Keys && forall c :: c in w.claims ==> w.claims[c] <= v.claims[c]
    ensures ScalingEffect(w, v, key) && key !in v.objects
  {
    GrowingEvents(w.log, v.log, key, needed[..k], desired);
    hide Scaling.GrownClaims, Scaling.GrowEvents;
  }

  lemma GrowingEvents(a: seq<Event>, b: seq<Event>, key: Key, grown: seq<string>, desired: nat)
    requires b == a + [Deleted(key), ConfirmedGone(key)] + Scaling.GrowEvents(grown, desired)
    ensures a <= b && Deleted(key) in b[|a|..]
    ensures forall e :: e in b[|a|..] ==> e == Deleted(key) || e == ConfirmedGone(key) || e.ClaimGrown?
  {
    var ev := [Deleted(key), ConfirmedGone(key)] + Scaling.GrowEvents(grown, desired);
    assert b[|a|..] == ev;
    assert ev[0] == Deleted(key);
  }

  lemma DeletingEffect(w: World, v: World, key: Key)
    requires key.kind == KindStatefulSet && Scaling.StillDeleting(w, v, key)
    ensures ScalingEffect(w, v, key)
  {
    assert News(w, v) == [Deleted(key)];
  }

  lemma ScaleEffect(s: Sys, key: Key, desired: nat, sch: Schedule)
    requires key.kind == KindStatefulSet
    ensures var t := ReconcilePVCSpec(s, key, desired, sch);
            var w, v := s.world, t.sys.world;
            && ScalingEffect(w, v, key) && OwnClaims(w, v, key, desired)
            && (t.outcome.Continue? && v != w ==> key !in v.objects)
            && SameButConditions(t.sys.rmq, s.rmq)
            && (t.outcome.Continue? ==> t.sys.rmq == s.rmq)
            && (t.outcome.Continue? || t.outcome.Error?)
  {
    hide Scaling.ScaleSpec, InShape, Successful;
    var (s1, ok) := Scaling.ScaleSpec(s, key, desired, sch);
    Scaling.ScaleOutcomes(s, key, desired, sch);
    OwnClaimsGrow(s, key, desired, sch);
    ConditionKeeps(s1, ReconcileSuccess, ConditionFalse, "FailedReconcilePVC", "", sch);
    hide WithCondition, OwnClaims;
    var w, v := s.world, s1.world;
    if Scaling.StillDeleting(w, v, key) {
      DeletingEffect(w, v, key);
    } else if v != w {
      var needed := Scaling.Needed(w, key.name, w.objects[key].spec.replicas, desired);
      var k: nat :| Scaling.GrewPrefix(w, v, key, needed, k, desired);
      Scaling.ClaimsOnlyGrow(s, key, desired, sch);
      GrowingEffect(w, v, key, needed, k, desired);
    } else {
      assert News(w, v) == [];
    }
  }

  lemma RoleFitsKind(b: Builder)
    requires WellBehaved(b)
    ensures b.role == ServerConfigMap ==> b.key.kind != KindStatefulSet
  {
  }

  lemma CreateEffect(w: World, key: Key, o: Object)
    requires key !in w.objects
    ensures var v := Create(w, key, o);
            && TouchesOnly(w, v, key) && BuilderEvents(w, v, key) && v.claims == w.claims
            && key in v.objects && v.objects[key] == Stored(o)
            && (forall e :: e in News(w, v) ==> !e.RestartAsked?)
  {
    var v := Create(w, key, o);
    assert News(w, v) == [Created(key)] + TemplateEvents(key, o.StatefulSet?);
  }

  function UpdateEvents(key: Key, changed: bool, asked: bool): (ev: seq<Event>)
    ensures forall e :: e in ev <==>
              e == Updated(key) || (changed && e == TemplateWritten(key)) || (asked && e == RestartAsked(key))
  {
    if changed && asked then [Updated(key), TemplateWritten(key), RestartAsked(key)]
    else if changed then [Updated(key), TemplateWritten(key)]
    else if asked then [Updated(key), RestartAsked(key)]
    else [Updated(key)]
  }

  lemma UpdateEffect(w: World, b: Builder, o: Object, restart: bool)
    requires b.key in w.objects && (b.role == ServerConfigMap ==> b.key.kind != KindStatefulSet)
    ensures var v := Recorded(Update(w, b.key, o), b, restart);
            && TouchesOnly(w, v, b.key) && BuilderEvents(w, v, b.key) && v.claims == w.claims
            && b.key in v.objects && v.objects[b.key] == Restored(w.objects[b.key], o)
            && (forall e :: e in News(w, v) ==> !e.Created?)
            && (RestartAsked(b.key) in News(w, v) <==> Asks(b, restart))
            && (TemplateWritten(b.key) in News(w, v) <==> TemplateChanged(w.objects[b.key], o))
  {
    var v := Recorded(Update(w, b.key, o), b, restart);
    var ev := UpdateEvents(b.key, TemplateChanged(w.objects[b.key], o), Asks(b, restart));
    assert v.log == w.log + ev;
    assert News(w, v) == ev;
    hide UpdateEvents;
  }

  /** What creating or updating a builder's object does to the store. */
  ghost predicate Written(w: World, v: World, b: Builder, built: Object, op: Operation, restart: bool) {
    && TouchesOnly(w, v, b.key) && BuilderEvents(w, v, b.key) && v.claims == w.claims
    && (RestartAsked(b.key) in News(w, v) <==> op.UpdatedObject? && Asks(b, restart))
    && (op.Failed? || op.Unchanged? ==> v == w)
    && (op.Unchanged? ==> InPlace(b, w))
    && (op.CreatedObject? ==>
          && b.key !in w.objects && b.key in v.objects
          && b.update(built).Accepted? && v.objects[b.key] == Stored(b.update(built).result))
    && (op.UpdatedObject? ==>
          && b.key in w.objects && b.key in v.objects
          && (forall e :: e in News(w, v) ==> !e.Created?)
          && b.update(w.objects[b.key]).Accepted? && restart == b.update(w.objects[b.key]).restart
          && v.objects[b.key] == Restored(w.objects[b.key], b.update(w.objects[b.key]).result))
  }

  lemma CreateCase(s: Sys, b: Builder, built: Object, sch: Schedule)
    requires b.key !in s.world.objects
    ensures var (s1, op, restart) := CreateOrUpdateSpec(s, b, built, sch);
            Written(s.world, s1.world, b, built, op, restart) && s1.rmq == s.rmq
  {
    hide Create, TouchesOnly, BuilderEvent, Stored;
    NothingTouched(s.world, b.key);
    if b.update(built).Accepted? {
      CreateEffect(s.world, b.key, b.update(built).result);
    }
  }

  lemma UpdateCase(s: Sys, b: Builder, built: Object, sch: Schedule)
    requires b.key in s.world.objects && (b.role == ServerConfigMap ==> b.key.kind != KindStatefulSet)
    ensures var (s1, op, restart) := CreateOrUpdateSpec(s, b, built, sch);
            Written(s.world, s1.world, b, built, op, restart) && s1.rmq == s.rmq
  {
    hide Update, Recorded, TouchesOnly, BuilderEvent, Restored;
    var o := s.world.objects[b.key];
    NothingTouched(s.world, b.key);
    if b.update(o).Accepted? {
      UpdateEffect(s.world, b, b.update(o).result, b.update(o).restart);
    }
  }

  lemma CreateOrUpdateEffect(s: Sys, b: Builder, built: Object, sch: Schedule)
    requires WellBehaved(b)
    ensures var (s1, op, restart) := CreateOrUpdateSpec(s, b, built, sch);
            Written(s.world, s1.world, b, built, op, restart) && s1.rmq == s.rmq
  {
    hide CreateOrUpdateSpec, Written;
    RoleFitsKind(b);
    if b.key !in s.world.objects {
      CreateCase(s, b, built, sch);
    } else {
      UpdateCase(s, b, built, sch);
    }
  }

  lemma NothingTouched(w: World, key: Key)
    ensures TouchesOnly(w, w, key) && BuilderEvents(w, w, key) && News(w, w) == []
  {
  }

  lemma AnnotateEffect(s: Sys, b: Builder, op: Operation, restart: bool, sch: Schedule)
    ensures var t := AnnotateIfNeededSpec(s, b, op, restart, sch);
            var w, v := s.world, t.sys.world;
            && TouchesOnly(w, v, b.key) && BuilderEvents(w, v, b.key) && t.sys.rmq == s.rmq
            && (forall e :: e in News(w, v) ==> e.Updated?) && v.claims == w.claims
            && (v != w ==> b.key in w.objects && b.key in v.objects && MaybeFlagged(w.objects[b.key], v.objects[b.key]))
            && (t.outcome.Continue? ==> v == w && FlagFor(b, op, restart).None?)
            && !t.outcome.Requeue?
  {
    var t := AnnotateIfNeededSpec(s, b, op, restart, sch);
    var w, v := s.world, t.sys.world;
    var flag := FlagFor(b, op, restart);
    if v != w {
      var o := WithAnnotation(w.objects[b.key], flag.value, sch.now(s.calls));
      assert Restored(w.objects[b.key], o) == o;
      assert OperatorKey(flag.value);
      assert News(w, v) == [Updated(b.key)];
    }
  }

  lemma NewsCompose(w: World, u: World, v: World)
    requires Extends(w, u) && Extends(u, v)
    ensures Extends(w, v) && News(w, v) == News(w, u) + News(u, v)
  {
  }

  lemma TouchesCompose(w: World, u: World, v: World, key: Key)
    requires TouchesOnly(w, u, key) && TouchesOnly(u, v, key)
    requires BuilderEvents(w, u, key) && BuilderEvents(u, v, key)
    ensures TouchesOnly(w, v, key) && BuilderEvents(w, v, key)
    ensures News(w, v) == News(w, u) + News(u, v)
  {
    NewsCompose(w, u, v);
  }

  lemma ApplyEffect(s: Sys, b: Builder, built: Object, sch: Schedule)
    requires WellBehaved(b)
    ensures var t := ApplyStep(s, b, built, sch);
            var w, v := s.world, t.sys.world;
            && TouchesOnly(w, v, b.key) && BuilderEvents(w, v, b.key) && v.claims == w.claims
            && SameButConditions(t.sys.rmq, s.rmq)
            && (t.outcome.Continue? ==> v == w && t.sys.rmq == s.rmq && InPlace(b, w))
            && (|| (SameAt(w, v, b.key) && Created(b.key) !in News(w, v))
                || (Renewed(w, v, b) && Created(b.key) !in News(w, v))
                || (b.key !in w.objects && b.key in v.objects && b.update(built).Accepted?
                  && MaybeFlagged(Stored(b.update(built).result), v.objects[b.key])))
  {
    hide InShape, Successful;
    CreateOrUpdateEffect(s, b, built, sch);
    var (s1, op, restart) := CreateOrUpdateSpec(s, b, built, sch);
    ConditionKeeps(s1, ReconcileSuccess, ConditionFalse, "Error", "", sch);
    AnnotateEffect(s1, b, op, restart, sch);
    var a := AnnotateIfNeededSpec(s1, b, op, restart, sch);
    TouchesCompose(s.world, s1.world, a.sys.world, b.key);
  }

  /** One iteration: it continues only past an object in place, and otherwise writes at most its own object. */
  lemma BuilderStepEffect(s: Sys, b: Builder, sch: Schedule)
    requires WellBehaved(b)
    ensures var t := BuilderStep(s, b, sch);
            && StepEffect(s.world, t.sys.world, b)
            && SameButConditions(t.sys.rmq, s.rmq)
            && (t.outcome.Continue? ==> t.sys.world == s.world && t.sys.rmq == s.rmq && InPlace(b, s.world))
  {
    if !sch.fails(s.calls) {
      var r := sch.random(s.calls);
      var built := b.build(r);
      var s0 := Called(s);
      var p := if built.StatefulSet?
               then ReconcilePVCSpec(s0, b.key, Capacity(built.spec.claims, Names.PVC_NAME), sch)
               else Step(s0, Continue);
      if built.StatefulSet? {
        ScaleEffect(s0, b.key, Capacity(built.spec.claims, Names.PVC_NAME), sch);
        assert Wanted(b, r) == Capacity(built.spec.claims, Names.PVC_NAME);
      }
      var w, u := s.world, p.sys.world;
      if !p.outcome.Completed() {
        ApplyEffect(p.sys, b, built, sch);
        var v := ApplyStep(p.sys, b, built, sch).sys.world;
        TouchesCompose(w, u, v, b.key);
        if b.key !in u.objects && b.key in v.objects {
          assert MadeFrom(v, b, r);
          assert Made(w, v, b);
        }
      }
    }
  }

  ghost predicate StoppedAt(w: World, v: World, bs: seq<Builder>, i: nat, j: nat) {
    && i <= j < |bs|
    && (forall m :: i <= m < j ==> InPlace(bs[m], w))
    && StepEffect(w, v, bs[j])
  }

  /** The loop either finds every object in place and does nothing, or stops at one builder. */
  lemma {:induction false} LoopStops(s: Sys, bs: seq<Builder>, i: nat, sch: Schedule)
    requires i <= |bs| && forall b :: b in bs ==> WellBehaved(b)
    ensures var t := BuilderLoop(s, bs, i, sch);
            && SameButConditions(t.sys.rmq, s.rmq)
            && (t.outcome.Continue? ==>
                  t.sys.world == s.world && t.sys.rmq == s.rmq && forall m :: i <= m < |bs| ==> InPlace(bs[m], s.world))
            && (t.outcome.Completed() ==> exists j :: StoppedAt(s.world, t.sys.world, bs, i, j))
    decreases |bs| - i
  {
    if i < |bs| {
      BuilderStepEffect(s, bs[i], sch);
      var t := BuilderStep(s, bs[i], sch);
      if t.outcome.Completed() {
        assert StoppedAt(s.world, t.sys.world, bs, i, i);
      } else {
        LoopStops(t.sys, bs, i + 1, sch);
        var u := BuilderLoop(t.sys, bs, i + 1, sch);
        if u.outcome.Completed() {
          var j :| StoppedAt(s.world, u.sys.world, bs, i + 1, j);
          assert StoppedAt(s.world, u.sys.world, bs, i, j);
        }
      }
    }
  }

  /**
    The stage passes over a quiet cluster with everything in place; otherwise one builder acts on a
    quiet cluster, or none does.
  */
  lemma ResourcesEffect(s: Sys, bs: seq<Builder>, sch: Schedule)
    requires forall b :: b in bs ==> WellBehaved(b)
    ensures var t := ReconcileResourcesSpec(s, bs, sch);
            && SameButConditions(t.sys.rmq, s.rmq) && t.sys.world.cluster == s.world.cluster
            && (t.outcome.Continue? ==>
                  && t.sys.world == s.world && t.sys.rmq == s.rmq && Quiet(s.world)
                  && forall m :: 0 <= m < |bs| ==> InPlace(bs[m], s.world))
            && (t.outcome.Completed() ==>
                  t.sys.world == s.world || (Quiet(s.world) && exists j :: StoppedAt(s.world, t.sys.world, bs, 0, j)))
  {
    hide BuilderLoop, WellBehaved, StepEffect, InPlace;
    var keys := ListSets(s, sch);
    if keys.Some? {
      ListingIsMine(s.world, keys.value);
      if AllSettled(s.world, keys.value) {
        LoopStops(Called(s), bs, 0, sch);
        var t := BuilderLoop(Called(s), bs, 0, sch);
        if t.outcome.Completed() {
          var j :| StoppedAt(s.world, t.sys.world, bs, 0, j);
          StoppedKeepsCluster(s.world, t.sys.world, bs, j);
        }
      }
    }
  }

  /** The pass in flight when the loop comes to builder j, if the builders from builder i on let it. */
  function LoopReached(s: Sys, bs: seq<Builder>, i: nat, j: nat, sch: Schedule): Sys
    requires i <= j <= |bs|
    decreases j - i
  {
    if i == j then s else LoopReached(BuilderStep(s, bs[i], sch).sys, bs, i + 1, j, sch)
  }

  /** A loop that stops is one builder's turn, on the store as it was. */
  lemma {:induction false} LoopStopsAt(s: Sys, bs: seq<Builder>, i: nat, sch: Schedule) returns (j: nat, c: nat)
    requires i <= |bs| && (forall b :: b in bs ==> WellBehaved(b)) && BuilderLoop(s, bs, i, sch).outcome.Completed()
    ensures i <= j < |bs| && BuilderLoop(s, bs, i, sch) == BuilderStep(Sys(s.world, s.rmq, c), bs[j], sch)
    ensures Sys(s.world, s.rmq, c) == LoopReached(s, bs, i, j, sch)
    decreases |bs| - i
  {
    hide BuilderStep, WellBehaved, StepEffect;
    var t := BuilderStep(s, bs[i], sch);
    if t.outcome.Completed() {
      j, c := i, s.calls;
    } else {
      BuilderStepEffect(s, bs[i], sch);
      j, c := LoopStopsAt(t.sys, bs, i + 1, sch);
    }
  }

  /** A stage that changed the store is one builder's turn on it. */
  lemma ResourcesStopAt(s: Sys, bs: seq<Builder>, sch: Schedule) returns (j: nat, c: nat)
    requires forall b :: b in bs ==> WellBehaved(b)
    requires ReconcileResourcesSpec(s, bs, sch).sys.world != s.world
    ensures j < |bs| && ReconcileResourcesSpec(s, bs, sch) == BuilderStep(Sys(s.world, s.rmq, c), bs[j], sch)
    ensures Sys(s.world, s.rmq, c) == LoopReached(Called(s), bs, 0, j, sch)
  {
    hide BuilderLoop, BuilderStep, WellBehaved, StepEffect;
    LoopStops(Called(s), bs, 0, sch);
    j, c := LoopStopsAt(Called(s), bs, 0, sch);
  }

  lemma StoppedKeepsCluster(w: World, v: World, bs: seq<Builder>, j: nat)
    requires StoppedAt(w, v, bs, 0, j)
    ensures v.cluster == w.cluster
  {
  }

  // --------------------------------------------------------------- the stage

  /** allReplicasReadyAndUpdated */
  method AllReplicasReadyAndUpdated(w: World, keys: seq<Key>) returns (ready: bool)
    requires AllMine(w, keys)
    ensures ready <==> AllSettled(w, keys)
  {
    ready := true;
    for i := 0 to |keys|
      invariant ready && forall j :: 0 <= j < i ==> Settled(w.objects[keys[j]])
    {
      if BeingUpdated(w.objects[keys[i]]) {
        ready := false;
        break;
      }
      if w.objects[keys[i]].status.readyReplicas != w.objects[keys[i]].spec.replicas {
        ready := false;
        break;
      }
    }
  }

  method WaitResourceReady(api: Api) returns (res: Outcome)
    modifies api
    ensures Step(api.State(), res) == WaitResourceReadySpec(old(api.State()), api.sch)
  {
    var listed := api.List();
    if listed.None? { return Error; }
    var ready := AllReplicasReadyAndUpdated(api.world, listed.value);
    if ready { return Continue; }
    return Requeue(READY_RETRY);
  }

  method ReconcilePVC(api: Api, key: Key, desired: nat) returns (res: Outcome)
    modifies api
    ensures Step(api.State(), res) == ReconcilePVCSpec(old(api.State()), key, desired, api.sch)
  {
    var ok := Scaling.Scale(api, key, desired);
    if ok { return Continue; }
    SetCondition(api, ReconcileSuccess, ConditionFalse, "FailedReconcilePVC", "");
    return Error;
  }

  method CreateOrUpdate(api: Api, b: Builder, built: Object) returns (op: Operation, restart: bool)
    modifies api
    ensures (api.State(), op, restart) == CreateOrUpdateSpec(old(api.State()), b, built, api.sch)
  {
    op, restart := Failed, false;
    var ok := api.Call();
    if !ok { return; }
    if b.key !in api.world.objects {
      var created := b.update(built);
      if created.Rejected? { return; }
      restart := created.restart;
      ok := api.Call();
      if !ok { return; }
      api.world := Create(api.world, b.key, created.result);
      op := CreatedObject;
      return;
    }
    var existing := api.world.objects[b.key];
    var mutated := b.update(existing);
    if mutated.Rejected? { return; }
    restart := mutated.restart;
    if mutated.result == existing {
      op := Unchanged;
      return;
    }
    ok := api.Call();
    if !ok { return; }
    api.world := Recorded(Update(api.world, b.key, mutated.result), b, restart);
    op := UpdatedObject;
  }

  method UpdateAnnotation(api: Api, key: Key, flag: string) returns (res: Outcome)
    modifies api
    ensures Step(api.State(), res) == UpdateAnnotationSpec(old(api.State()), key, flag, api.sch)
  {
    var now := api.sch.now(api.calls);
    var ok := api.Call();
    if !ok || key !in api.world.objects { return Error; }
    ok := api.Call();
    if !ok { return Error; }
    api.world := Update(api.world, key, WithAnnotation(api.world.objects[key], flag, now));
    return Done;
  }

  method AnnotateIfNeeded(api: Api, b: Builder, op: Operation, restart: bool) returns (res: Outcome)
    modifies api
    ensures Step(api.State(), res) == AnnotateIfNeededSpec(old(api.State()), b, op, restart, api.sch)
  {
    var flag;
    match b.role {
      case PluginsConfigMap =>
        if !op.UpdatedObject? { return Continue; }
        flag := PLUGINS_UPDATED;
      case ServerConfigMap =>
        if !op.UpdatedObject? || !restart { return Continue; }
        flag := SERVER_CONF_UPDATED;
      case Node(_) =>
        if !op.CreatedObject? { return Continue; }
        flag := SET_CREATED;
      case _ =>
        return Continue;
    }
    res := UpdateAnnotation(api, b.key, flag);
  }

  /** One builder's turn. */
  method ReconcileBuilder(api: Api, b: Builder) returns (res: Outcome)
    modifies api
    ensures Step(api.State(), res) == BuilderStep(old(api.State()), b, api.sch)
  {
    hide CreateOrUpdateSpec, ReconcilePVCSpec, AnnotateIfNeededSpec, SetConditionSpec;
    var drawn := api.sch.random(api.calls);
    var ok := api.Call();
    if !ok { return Error; }
    var built := b.build(drawn);
    if built.StatefulSet? {
      res := ReconcilePVC(api, b.key, Capacity(built.spec.claims, Names.PVC_NAME));
      if res.Completed() { return res; }
    }
    var op, restart := CreateOrUpdate(api, b, built);
    if op.Failed? {
      SetCondition(api, ReconcileSuccess, ConditionFalse, "Error", "");
      return Error;
    }
    res := AnnotateIfNeeded(api, b, op, restart);
    if res.Completed() { return res; }
    if op.CreatedObject? || op.UpdatedObject? { return Done; }
    return Continue;
  }

  method ReconcileBuilders(api: Api, bs: seq<Builder>) returns (res: Outcome)
    modifies api
    ensures Step(api.State(), res) == ReconcileResourcesSpec(old(api.State()), bs, api.sch)
  {
    hide BuilderStep;
    res := WaitResourceReady(api);
    if res.Completed() { return res; }
    label Waited:
    for i := 0 to |bs|
      invariant BuilderLoop(api.State(), bs, i, api.sch) == BuilderLoop(old@Waited(api.State()), bs, 0, api.sch)
    {
      res := ReconcileBuilder(api, bs[i]);
      if res.Completed() { return res; }
    }
    return Continue;
  }
}
