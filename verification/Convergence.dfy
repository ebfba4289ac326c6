/** With a fixed cluster, working calls and rollouts that finish, the stage reconcileResources converges. */
module Convergence {
  import opened Basics
  import opened Objects
  import opened Store
  import opened Names
  import opened Client
  import opened Conditions
  import opened Resources
  import opened Builders
  import Scaling
  import Merge
  import Metadata
  import Plugins
  import Secrets
  import ServerConfig

  // ------------------------------------------------------------- assumptions

  /** The scaler has nothing to refuse, and nothing to do for an object in place. */
  ghost predicate ScaleReady(b: Builder, w: World) {
    b.key.kind == KindStatefulSet ==> forall r ::
      && !Scaling.Refused(w, b.key, Wanted(b, r))
      && (InPlace(b, w) && Scaling.Found(w, b.key) ==> Scaling.Existing(w, b.key) == Wanted(b, r))
  }

  /** The builder can do its work: its Update is refused neither the stored nor a new object. */
  ghost predicate Workable(b: Builder, w: World) {
    && (forall r :: b.update(b.build(r)).Accepted?)
    && (b.key in w.objects ==> Fits(b.key.kind, w.objects[b.key]) && b.update(w.objects[b.key]).Accepted?)
    && ScaleReady(b, w)
  }

  // ------------------------------------------------------------- the scaler

  lemma {:induction false} GetClaimsCalm(s: Sys, set_: string, replicas: int, i: nat, found: seq<string>, sch: Schedule)
    requires NoFaults(sch) && forall c :: c in found ==> c in s.world.claims
    ensures var (s', r) := Scaling.GetClaimsSpec(s, set_, replicas, i, found, sch);
            r.Some? && s'.world == s.world && forall c :: c in r.value ==> c in s.world.claims
    decreases replicas - i
  {
    if i < replicas {
      var name := ClaimName(PVC_NAME, set_, i);
      var next := if name in s.world.claims then found + [name] else found;
      GetClaimsCalm(Called(s), set_, replicas, i + 1, next, sch);
    }
  }

  lemma {:induction false} GrowCalm(s: Sys, names: seq<string>, desired: nat, sch: Schedule)
    requires NoFaults(sch) && forall c :: c in names ==> c in s.world.claims
    ensures Scaling.GrowClaimsSpec(s, names, desired, sch).1
    decreases |names|
  {
    if names != [] {
      var s1 := Called(Called(WithWorld(s, Scaling.GrowClaim(s.world, names[0], desired))));
      assert forall c :: c in names[1..] ==> c in names;
      GrowCalm(s1, names[1..], desired, sch);
    }
  }

  lemma {:induction false} NeedingAreFound(names: seq<string>, claims: map<string, nat>, desired: nat)
    ensures forall c :: c in Scaling.NeedingScaling(names, claims, desired) ==> c in claims
  {
    if names != [] {
      NeedingAreFound(names[..|names| - 1], claims, desired);
    }
  }

  lemma DeleteCalm(s: Sys, key: Key, sch: Schedule)
    requires NoFaults(sch) && key in s.world.objects
    ensures var (s', gone) := Scaling.DeleteSetSpec(s, key, sch);
            gone && s'.world.claims == s.world.claims
  {
    var s1 := Called(WithWorld(s, Scaling.MarkTerminating(s.world, key)));
    assert Scaling.Vanished(s1, key, sch);
    FirstAttempt(s1, key, Scaling.DELETE_RETRIES, sch);
  }

  lemma FirstAttempt(s: Sys, key: Key, n: nat, sch: Schedule)
    requires n > 0 && Scaling.Vanished(s, key, sch)
    ensures Scaling.AwaitGoneSpec(s, key, n, sch) == (Called(WithWorld(s, Scaling.Confirmed(s.world, key))), true)
  {
  }

  /** Without faults the scaler succeeds unless it refuses. */
  lemma ScaleCalm(s: Sys, key: Key, desired: nat, sch: Schedule)
    requires NoFaults(sch) && !Scaling.Refused(s.world, key, desired)
    ensures Scaling.ScaleSpec(s, key, desired, sch).1
    ensures Scaling.Found(s.world, key) && Scaling.Existing(s.world, key) == desired ==>
              Scaling.ScaleSpec(s, key, desired, sch).0 == Called(s)
  {
    hide Scaling.DeleteSetSpec, Scaling.GrowClaimsSpec, Scaling.GetClaimsSpec, Capacity;
    var w := s.world;
    if Scaling.Found(w, key) && Scaling.Existing(w, key) != desired {
      var s0 := Called(Called(s));
      var replicas := w.objects[key].spec.replicas;
      GetClaimsCalm(s0, key.name, replicas, 0, [], sch);
      var (s1, found) := Scaling.GetClaimsSpec(s0, key.name, replicas, 0, [], sch);
      var pending := Scaling.NeedingScaling(found.value, s1.world.claims, desired);
      NeedingAreFound(found.value, s1.world.claims, desired);
      DeleteCalm(s1, key, sch);
      var (s2, gone) := Scaling.DeleteSetSpec(s1, key, sch);
      GrowCalm(s2, pending, desired, sch);
    }
  }

  /**
    When the scaler writes a claim: only past its size checks and only if one of the set's
    claims is too small; and without faults it then does.
  */
  lemma ScaleWritesIff(s: Sys, key: Key, desired: nat, sch: Schedule)
    ensures var w, v := s.world, Scaling.ScaleSpec(s, key, desired, sch).0.world;
            var due := && Scaling.Found(w, key) && 0 < Scaling.Existing(w, key) < desired
                       && Scaling.Needed(w, key.name, w.objects[key].spec.replicas, desired) != [];
            (v.claims != w.claims ==> due) && (NoFaults(sch) ==> (v.claims != w.claims <==> due))
  {
    hide Scaling.ScaleSpec, Capacity;
    Scaling.ScaleOutcomes(s, key, desired, sch);
    var w, v := s.world, Scaling.ScaleSpec(s, key, desired, sch).0.world;
    if NoFaults(sch) && Scaling.Found(w, key) && 0 < Scaling.Existing(w, key) < desired {
      ScaleCalm(s, key, desired, sch);
      var needed := Scaling.Needed(w, key.name, w.objects[key].spec.replicas, desired);
      Scaling.NeededByName(w, key.name, w.objects[key].spec.replicas, desired);
      if needed != [] {
        var k: nat :| Scaling.GrewPrefix(w, v, key, needed, k, desired) && k == |needed|;
        var c := needed[0];
        assert c in needed && needed[..k] == needed;
        assert w.claims[c] < desired == v.claims[c];
      }
    }
  }

  // ------------------------------------------------------------ one builder

  /** A fixpoint stays one whatever its status and its flags. */
  lemma StillFixed(b: Builder, o: Object, p: Object)
    requires WellBehaved(b) && Fixed(b, o) && MaybeFlagged(o, p)
    ensures Fixed(b, p)
  {
    hide OperatorKey;
    if p != o {
      var flag, t :| OperatorKey(flag) && p == WithAnnotation(o, flag, t);
      assert SameButFlags(o, p);
    }
  }

  lemma StoredFixed(b: Builder, prior: Object, o: Object)
    requires WellBehaved(b) && Fixed(b, o)
    ensures Fixed(b, Stored(o)) && Fixed(b, Restored(prior, o))
  {
    hide SameButFlags;
    if o.StatefulSet? {
      assert Fixed(b, o.(status := SetStatus(0, 1, 0)));
    }
  }

  /** Applied to an object that is not in place, Update puts it there; applied to one in place, it changes nothing. */
  lemma ApplyCalm(s: Sys, b: Builder, built: Object, sch: Schedule)
    requires NoFaults(sch) && WellBehaved(b) && Fits(b.key.kind, built)
    requires if b.key in s.world.objects
             then Fits(b.key.kind, s.world.objects[b.key]) && b.update(s.world.objects[b.key]).Accepted?
             else b.update(built).Accepted?
    ensures var t := ApplyStep(s, b, built, sch);
            && InPlace(b, t.sys.world)
            && (if InPlace(b, s.world) then t.outcome.Continue? && t.sys.world == s.world else t.outcome.Done?)
            && t.sys.rmq == s.rmq && t.sys.world.objects - {b.key} == s.world.objects - {b.key}
  {
    hide SameButFlags, OperatorKey;
    var w := s.world;
    CreateOrUpdateEffect(s, b, built, sch);
    var (s1, op, restart) := CreateOrUpdateSpec(s, b, built, sch);
    AnnotateEffect(s1, b, op, restart, sch);
    var a := AnnotateIfNeededSpec(s1, b, op, restart, sch);
    if !InPlace(b, w) {
      var o := if b.key in w.objects then b.update(w.objects[b.key]).result else b.update(built).result;
      assert Fixed(b, o);
      StoredFixed(b, if b.key in w.objects then w.objects[b.key] else built, o);
      assert Fixed(b, s1.world.objects[b.key]);
      if a.sys.world != s1.world {
        StillFixed(b, s1.world.objects[b.key], a.sys.world.objects[b.key]);
      }
    }
  }

  /** The builder renewed the stored object or made a new one. */
  ghost predicate Rewritten(w: World, v: World, b: Builder) {
    Extends(w, v) && (Resources.Renewed(w, v, b) || Made(w, v, b))
  }

  /**
    One turn of a workable builder: it passes when its object is in place, and otherwise puts it in
    place and stops.
  */
  lemma BuilderCalm(s: Sys, b: Builder, sch: Schedule)
    requires NoFaults(sch) && WellBehaved(b) && Workable(b, s.world)
    ensures var t := BuilderStep(s, b, sch);
            && InPlace(b, t.sys.world)
            && (if InPlace(b, s.world) then t.outcome.Continue? && t.sys.world == s.world else t.outcome.Done?)
            && t.sys.rmq == s.rmq && OnlyAt(s.world, t.sys.world, b.key)
            && (!InPlace(b, s.world) ==> Rewritten(s.world, t.sys.world, b))
  {
    hide ApplyStep, Scaling.ScaleSpec, Fixed, Capacity, MadeFrom, MaybeFlagged;
    BuilderStepEffect(s, b, sch);
    var r := sch.random(s.calls);
    var built := b.build(r);
    var s0 := Called(s);
    if b.key.kind == KindStatefulSet {
      var desired := Wanted(b, r);
      ScaleCalm(s0, b.key, desired, sch);
      ScaleEffect(s0, b.key, desired, sch);
      var p := ReconcilePVCSpec(s0, b.key, desired, sch);
      ApplyCalm(p.sys, b, built, sch);
      if InPlace(b, s.world) {
        assert p.sys == Called(s0);
      }
    } else {
      ApplyCalm(s0, b, built, sch);
    }
  }

  /**
    Writing an object and flagging it are two steps. Once the first goes through the object is
    in place, so no later pass writes it again; the flag it calls for (plugins to set, sets to
    restart, a set just created) is there exactly when both calls of the annotation go through,
    and is otherwise lost.
  */
  lemma FlagSetIffAnnotated(s: Sys, b: Builder, built: Object, sch: Schedule)
    requires WellBehaved(b) && Fits(b.key.kind, built)
    requires b.key in s.world.objects ==> Fits(b.key.kind, s.world.objects[b.key])
    requires var (s1, op, restart) := CreateOrUpdateSpec(s, b, built, sch); FlagFor(b, op, restart).Some?
    ensures var (s1, op, restart) := CreateOrUpdateSpec(s, b, built, sch);
            var t := ApplyStep(s, b, built, sch);
            var annotated := !sch.fails(s1.calls) && !sch.fails(s1.calls + 1);
            && InPlace(b, s1.world) && InPlace(b, t.sys.world)
            && (t.outcome.Done? <==> annotated) && (t.outcome.Error? <==> !annotated)
            && t.sys.world.objects == s1.world.objects[b.key :=
                 var stored := s1.world.objects[b.key];
                 if annotated then WithAnnotation(stored, FlagFor(b, op, restart).value, sch.now(s1.calls)) else stored]
  {
    hide CreateOrUpdateSpec, Fixed, WellBehaved, TouchesOnly, BuilderEvents;
    var (s1, op, restart) := CreateOrUpdateSpec(s, b, built, sch);
    CreateOrUpdateEffect(s, b, built, sch);
    WrittenFixed(s, b, built, sch);
    var stored, flag := s1.world.objects[b.key], FlagFor(b, op, restart).value;
    var flagged := WithAnnotation(stored, flag, sch.now(s1.calls));
    assert OperatorKey(flag);
    assert Restored(stored, flagged) == flagged;
    StillFixed(b, stored, flagged);
  }

  /** What a builder wrote is a fixpoint of its Update. */
  lemma WrittenFixed(s: Sys, b: Builder, built: Object, sch: Schedule)
    requires WellBehaved(b) && Fits(b.key.kind, built)
    requires b.key in s.world.objects ==> Fits(b.key.kind, s.world.objects[b.key])
    ensures var (s1, op, restart) := CreateOrUpdateSpec(s, b, built, sch);
            op.CreatedObject? || op.UpdatedObject? ==> InPlace(b, s1.world)
  {
    var (s1, op, restart) := CreateOrUpdateSpec(s, b, built, sch);
    if op.CreatedObject? {
      StoredFixed(b, built, b.update(built).result);
    } else if op.UpdatedObject? {
      var o := s.world.objects[b.key];
      StoredFixed(b, o, b.update(o).result);
    }
  }

  // ------------------------------------------------------------ the measure

  /** How many of the first n builders still have work to do. */
  function Unfinished(bs: seq<Builder>, w: World, n: nat): nat
    requires n <= |bs|
  {
    if n == 0 then 0 else Unfinished(bs, w, n - 1) + if InPlace(bs[n - 1], w) then 0 else 1
  }

  lemma {:induction false} UnfinishedBound(bs: seq<Builder>, w: World, n: nat)
    requires n <= |bs|
    ensures Unfinished(bs, w, n) <= n
    ensures Unfinished(bs, w, n) == 0 <==> forall m :: 0 <= m < n ==> InPlace(bs[m], w)
  {
    if n > 0 {
      UnfinishedBound(bs, w, n - 1);
    }
  }

  /** v differs from w at most in the object under this key. */
  ghost predicate OnlyAt(w: World, v: World, k: Key) {
    v.objects - {k} == w.objects - {k}
  }

  lemma OthersSame(w: World, v: World, k: Key, b: Builder)
    requires OnlyAt(w, v, k) && b.key != k
    ensures InPlace(b, v) <==> InPlace(b, w)
    ensures b.key in v.objects <==> b.key in w.objects
    ensures b.key in w.objects ==> v.objects[b.key] == w.objects[b.key]
  {
    assert b.key in v.objects <==> b.key in v.objects - {k};
    assert b.key in w.objects <==> b.key in w.objects - {k};
    if b.key in w.objects {
      assert v.objects[b.key] == (v.objects - {k})[b.key];
    }
  }

  /** Putting one object in place, and touching no other, lowers the measure by exactly one. */
  lemma {:induction false} MeasureDrops(bs: seq<Builder>, w: World, v: World, j: nat, n: nat)
    requires DistinctKeys(bs) && n <= |bs| && j < |bs|
    requires OnlyAt(w, v, bs[j].key) && !InPlace(bs[j], w) && InPlace(bs[j], v)
    ensures Unfinished(bs, v, n) == Unfinished(bs, w, n) - if j < n then 1 else 0
  {
    hide InPlace, OnlyAt;
    if n > 0 {
      MeasureDrops(bs, w, v, j, n - 1);
      if n - 1 != j {
        assert bs[n - 1].key != bs[j].key;
        OthersSame(w, v, bs[j].key, bs[n - 1]);
      }
    }
  }

  // ------------------------------------------------------------------ a pass

  ghost predicate AllWorkable(bs: seq<Builder>, w: World) {
    forall b :: b in bs ==> WellBehaved(b) && Workable(b, w)
  }

  /** Builder j was the first with work to do, and did it. */
  ghost predicate FirstDone(bs: seq<Builder>, w: World, v: World, i: nat, j: nat) {
    && i <= j < |bs| && !InPlace(bs[j], w) && InPlace(bs[j], v) && OnlyAt(w, v, bs[j].key) && Rewritten(w, v, bs[j])
    && forall m :: i <= m < j ==> InPlace(bs[m], w)
  }

  lemma {:induction false} LoopCalm(s: Sys, bs: seq<Builder>, i: nat, sch: Schedule)
    requires i <= |bs| && NoFaults(sch) && AllWorkable(bs, s.world)
    ensures var t := BuilderLoop(s, bs, i, sch);
            && t.sys.rmq == s.rmq
            && (if forall m :: i <= m < |bs| ==> InPlace(bs[m], s.world)
                then t.outcome.Continue? && t.sys.world == s.world
                else t.outcome.Done? && exists j :: FirstDone(bs, s.world, t.sys.world, i, j))
    decreases |bs| - i
  {
    hide BuilderStep, InPlace, WellBehaved, Workable, OnlyAt, Rewritten;
    if i < |bs| {
      BuilderCalm(s, bs[i], sch);
      var t := BuilderStep(s, bs[i], sch);
      if t.outcome.Continue? {
        LoopCalm(t.sys, bs, i + 1, sch);
        if !(forall m :: i <= m < |bs| ==> InPlace(bs[m], s.world)) {
          var v := BuilderLoop(t.sys, bs, i + 1, sch).sys.world;
          var j :| FirstDone(bs, s.world, v, i + 1, j);
          assert FirstDone(bs, s.world, v, i, j);
        }
      } else {
        assert FirstDone(bs, s.world, t.sys.world, i, i);
      }
    }
  }

  /** The stage over a quiet cluster without faults: one more object in place, or all are and nothing changes. */
  lemma PassCalm(w: World, rmq: Cluster, c: nat, bs: seq<Builder>, sch: Schedule)
    requires NoFaults(sch) && IsListing(w, sch.listing(c)) && Quiet(w) && AllWorkable(bs, w) && DistinctKeys(bs)
    ensures var t := ReconcileResourcesSpec(Sys(w, rmq, c), bs, sch);
            && t.sys.rmq == rmq
            && (if Unfinished(bs, w, |bs|) == 0
                then t.outcome.Continue? && t.sys.world == w
                else && t.outcome.Done? && Unfinished(bs, t.sys.world, |bs|) == Unfinished(bs, w, |bs|) - 1
                     && exists j :: FirstDone(bs, w, t.sys.world, 0, j))
  {
    hide BuilderLoop, AllWorkable, Rewritten;
    ListingIsMine(w, sch.listing(c));
    var s := Called(Sys(w, rmq, c));
    LoopCalm(s, bs, 0, sch);
    UnfinishedBound(bs, w, |bs|);
    var v := BuilderLoop(s, bs, 0, sch).sys.world;
    if Unfinished(bs, w, |bs|) != 0 {
      var j: nat :| FirstDone(bs, w, v, 0, j);
      MeasureDrops(bs, w, v, j, |bs|);
    }
  }

  // ------------------------------------------------------ nothing left to do

  /** The builder's set, if it writes one, asks for the storage the builder wants. */
  ghost predicate Sized(b: Builder, w: World) {
    b.key.kind == KindStatefulSet ==>
      Scaling.Found(w, b.key) && forall r :: Scaling.Existing(w, b.key) == Wanted(b, r)
  }

  /** A builder whose object is in place writes nothing, whichever calls fail. */
  lemma BuilderIdle(s: Sys, b: Builder, sch: Schedule)
    requires WellBehaved(b) && InPlace(b, s.world) && Sized(b, s.world)
    ensures var t := BuilderStep(s, b, sch);
            t.sys.world == s.world && (NoFaults(sch) ==> t.outcome.Continue? && t.sys.rmq == s.rmq)
  {
    hide Capacity, Scaling.GrowSpec, SetConditionSpec;
    var r := sch.random(s.calls);
    assert b.key.kind == KindStatefulSet ==> Scaling.Existing(s.world, b.key) == Wanted(b, r);
  }

  lemma {:induction false} LoopIdle(s: Sys, bs: seq<Builder>, i: nat, sch: Schedule)
    requires i <= |bs| && forall b :: b in bs ==> WellBehaved(b) && InPlace(b, s.world) && Sized(b, s.world)
    ensures var t := BuilderLoop(s, bs, i, sch);
            t.sys.world == s.world && (NoFaults(sch) ==> t.outcome.Continue? && t.sys.rmq == s.rmq)
    decreases |bs| - i
  {
    hide BuilderStep, WellBehaved, InPlace, Sized;
    if i < |bs| {
      BuilderIdle(s, bs[i], sch);
      LoopIdle(BuilderStep(s, bs[i], sch).sys, bs, i + 1, sch);
    }
  }

  /** With every object in place the stage writes nothing, and passes when no call fails and all is quiet. */
  lemma ResourcesIdle(s: Sys, bs: seq<Builder>, sch: Schedule)
    requires forall b :: b in bs ==> WellBehaved(b) && InPlace(b, s.world) && Sized(b, s.world)
    ensures var t := ReconcileResourcesSpec(s, bs, sch);
            && t.sys.world == s.world
            && (NoFaults(sch) && IsListing(s.world, sch.listing(s.calls)) && Quiet(s.world) ==>
                  t.outcome.Continue? && t.sys.rmq == s.rmq)
  {
    hide BuilderLoop, WellBehaved, InPlace, Sized;
    LoopIdle(Called(s), bs, 0, sch);
    if IsListing(s.world, sch.listing(s.calls)) {
      ListingIsMine(s.world, sch.listing(s.calls));
    }
  }

  // -------------------------------------------------- the cluster's builders

  /** The claim templates have distinct names, and the capacity they ask for can become the desired one. */
  ghost predicate ClaimsReady(claims: seq<Claim>, desired: nat) {
    && Merge.UniqueKeys(Merge.CLAIMS, claims)
    && (Capacity(claims, PVC_NAME) == desired || 0 < Capacity(claims, PVC_NAME) < desired)
  }

  /** Nothing stands in the way of this builder: no other owner, readable configuration, claims that need not shrink. */
  ghost predicate Clear(rmq: Cluster, w: World, b: Builder) {
    b.key in w.objects ==>
      && Fits(b.key.kind, w.objects[b.key]) && b.update(w.objects[b.key]).Accepted?
      && (b.key.kind == KindStatefulSet ==>
        w.objects[b.key].StatefulSet? && ClaimsReady(w.objects[b.key].spec.claims, rmq.spec.storage))
  }

  ghost predicate Serviceable(rmq: Cluster, w: World) {
    && Clean(rmq) && rmq.spec.additionalConfig.Some?
    && forall b :: b in ResourceBuilders(rmq) ==> Clear(rmq, w, b)
  }

  /** With distinct names, the capacity is that of the one claim with the name. */
  lemma {:induction false} CapacityAt(claims: seq<Claim>, i: nat)
    requires i < |claims| && Merge.UniqueKeys(Merge.CLAIMS, claims)
    ensures Capacity(claims, claims[i].name) == claims[i].storage
  {
    if i > 0 {
      assert Merge.CLAIMS.key(claims[0]) != Merge.CLAIMS.key(claims[i]);
      assert Merge.UniqueKeys(Merge.CLAIMS, claims[1..]) by {
        forall j, k | 0 <= j < k < |claims[1..]|
          ensures Merge.CLAIMS.key(claims[1..][j]) != Merge.CLAIMS.key(claims[1..][k])
        {
          assert Merge.CLAIMS.key(claims[j + 1]) != Merge.CLAIMS.key(claims[k + 1]);
        }
      }
      CapacityAt(claims[1..], i - 1);
    }
  }

  /** After Update the claims ask for the desired capacity, and their names are still distinct. */
  lemma ClaimsUpdated(rmq: Cluster, curr: seq<Claim>)
    requires Merge.UniqueKeys(Merge.CLAIMS, curr) && (rmq.spec.storage == 0 ==> Capacity(curr, PVC_NAME) == 0)
    ensures Merge.UniqueKeys(Merge.CLAIMS, Claims(rmq, curr))
    ensures Capacity(Claims(rmq, curr), PVC_NAME) == rmq.spec.storage
  {
    if rmq.spec.storage != 0 {
      Merge.RulesLawful();
      var m := Merge.CLAIMS;
      var next := [Claim(PVC_NAME, rmq.spec.storage, "ReadWriteOnce, owner " + rmq.uid)];
      var r := Merge.Merged(m, curr, next);
      Merge.MergeKeepsUnique(m, curr, next);
      Merge.MergeIdempotent(m, curr, next);
      assert Merge.Last(m, next, PVC_NAME) == 0;
      var at := Merge.Last(m, r, PVC_NAME);
      assert Merge.HasKey(m, r, PVC_NAME);
      assert m.put(r[at], next[0]) == r[at];
      CapacityAt(r, at);
    }
  }

  lemma FixedCapacity(rmq: Cluster, i: nat, o: Object)
    requires Fixed(NodeBuilder(rmq, i), o) && o.StatefulSet? && ClaimsReady(o.spec.claims, rmq.spec.storage)
    ensures Capacity(o.spec.claims, PVC_NAME) == rmq.spec.storage
  {
    ClaimsUpdated(rmq, o.spec.claims);
    NodeClaims(rmq, i, o);
    hide Capacity, Claims;
  }

  lemma NodeClaims(rmq: Cluster, i: nat, o: Object)
    requires NodeBuilder(rmq, i).update(o).Accepted?
    ensures var p := NodeBuilder(rmq, i).update(o).result;
            o.StatefulSet? && p.StatefulSet? && p.spec.claims == Claims(rmq, o.spec.claims)
  {
    hide Claims, Template, Touched;
    assert NodeBuilder(rmq, i).update(o) == PlainUpdate(rmq, KindStatefulSet, map[], (p: Object) => SetBody(rmq, p), o);
  }

  lemma NodeWanted(rmq: Cluster, i: nat, r: string)
    ensures Wanted(NodeBuilder(rmq, i), r) == rmq.spec.storage
  {
    assert Merge.UniqueKeys(Merge.CLAIMS, []);
    ClaimsUpdated(rmq, []);
    hide Capacity, Claims;
  }

  /** What Build yields is always accepted. */
  lemma BuiltAccepted(rmq: Cluster, b: Builder, r: string)
    requires Clean(rmq) && rmq.spec.additionalConfig.Some? && b in ResourceBuilders(rmq)
    ensures b.update(b.build(r)).Accepted?
  {
    hide ResourceBuilders, IsPlain, ServerConfBuilder, Clean;
    BuilderKinds(rmq, b);
    if b == ServerConfBuilder(rmq) {
      ServerConfAccepts(rmq, r);
    } else {
      BuiltUnowned(rmq, b, r);
      PlainAccepts(rmq, b, r);
    }
  }

  lemma PlainAccepts(rmq: Cluster, b: Builder, r: string)
    requires IsPlain(rmq, b) && b.build(r).meta.owner.None?
    ensures b.update(b.build(r)).Accepted?
  {
    hide Touched, LawfulBody, OperatorKey;
    var extra, body :| Plainly(rmq, b, extra, body);
    assert b.update(b.build(r)) == PlainUpdate(rmq, b.key.kind, extra, body, b.build(r));
  }

  lemma BuiltUnowned(rmq: Cluster, b: Builder, r: string)
    requires b in ResourceBuilders(rmq)
    ensures b.build(r).meta.owner.None?
  {
    hide HeadlessBody, ClientBody, SecretBody, PluginsBody, RbacBody, SetBody, PlainUpdate, HasUserSecret;
    hide ChildResourceName;
    hide Secrets.BuildData, Plugins.EnabledPluginsFile, ServerConfig.UpdateServerConfig, Claims, StatefulsetName;
    hide RoleRules, BindingSubjects, Metadata.GetLabels;
    if b in BaseBuilders(rmq) {
    } else {
      assert b in NodeBuilders(rmq, rmq.spec.replicas);
    }
  }

  lemma ServerConfAccepts(rmq: Cluster, r: string)
    requires rmq.spec.additionalConfig.Some?
    ensures ServerConfBuilder(rmq).update(ServerConfBuilder(rmq).build(r)).Accepted?
  {
    hide ServerConfig.OperatorFile, ServerConfig.UserFile, ServerConfig.EraseHints, Metadata.Renewed;
    hide Metadata.GetLabels;
  }

  lemma ClearIsWorkable(rmq: Cluster, w: World, b: Builder)
    requires Serviceable(rmq, w) && b in ResourceBuilders(rmq)
    ensures WellBehaved(b) && Workable(b, w)
  {
    hide ResourceBuilders, Clean, ClaimsReady, Fixed;
    AllWellBehaved(rmq);
    hide WellBehaved;
    forall r ensures b.update(b.build(r)).Accepted? {
      BuiltAccepted(rmq, b, r);
    }
    assert Clear(rmq, w, b);
    if b.key.kind == KindStatefulSet {
      BuilderKinds(rmq, b);
      var i: nat :| i < rmq.spec.replicas && b == NodeBuilder(rmq, i);
      NodeScaleReady(rmq, w, i);
    }
  }

  lemma NodeScaleReady(rmq: Cluster, w: World, i: nat)
    requires Clear(rmq, w, NodeBuilder(rmq, i))
    ensures ScaleReady(NodeBuilder(rmq, i), w)
  {
    hide Capacity, SetBody, PlainUpdate;
    var b := NodeBuilder(rmq, i);
    forall r
      ensures !Scaling.Refused(w, b.key, Wanted(b, r))
      ensures InPlace(b, w) && Scaling.Found(w, b.key) ==> Scaling.Existing(w, b.key) == Wanted(b, r)
    {
      NodeWanted(rmq, i, r);
      if InPlace(b, w) && Scaling.Found(w, b.key) {
        FixedCapacity(rmq, i, w.objects[b.key]);
      }
    }
  }

  // ------------------------------------------------------------------ rounds

  /** The StatefulSet controller finishes every rollout. */
  function SettledObject(o: Object): Object {
    if o.StatefulSet? then o.(status := SetStatus(o.status.updateRevision, o.status.updateRevision, o.spec.replicas))
      else o
  }

  function Settle(w: World): World {
    w.(objects := map k | k in w.objects :: SettledObject(w.objects[k]))
  }

  /** One run of reconcileResources for this cluster, after which the rollouts it started finish. */
  function Round(w: World, rmq: Cluster, sch: Schedule): World {
    Settle(ReconcileResourcesSpec(Sys(w, rmq, 0), ResourceBuilders(rmq), sch).sys.world)
  }

  function Rounds(w: World, rmq: Cluster, scheds: seq<Schedule>): World
    decreases |scheds|
  {
    if scheds == [] then w else Rounds(Round(w, rmq, scheds[0]), rmq, scheds[1..])
  }

  ghost predicate CalmRounds(w: World, rmq: Cluster, scheds: seq<Schedule>)
    decreases |scheds|
  {
    scheds == []
    || (NoFaults(scheds[0]) && IsListing(w, scheds[0].listing(0))
      && CalmRounds(Round(w, rmq, scheds[0]), rmq, scheds[1..]))
  }

  lemma SettleFixed(b: Builder, o: Object)
    requires WellBehaved(b)
    ensures Fixed(b, SettledObject(o)) <==> Fixed(b, o)
  {
    hide SameButFlags;
    if o.StatefulSet? {
      var p := SettledObject(o);
      assert p.(status := o.status) == o;
    }
  }

  lemma SettleInPlace(b: Builder, w: World)
    requires WellBehaved(b)
    ensures InPlace(b, Settle(w)) <==> InPlace(b, w)
  {
    hide WellBehaved, Fixed;
    if b.key in w.objects {
      SettleFixed(b, w.objects[b.key]);
    }
  }

  lemma SettleIsQuiet(w: World)
    ensures Quiet(Settle(w))
  {
  }

  lemma {:induction false} SettleUnfinished(bs: seq<Builder>, w: World, n: nat)
    requires n <= |bs| && forall b :: b in bs ==> WellBehaved(b)
    ensures Unfinished(bs, Settle(w), n) == Unfinished(bs, w, n)
  {
    hide WellBehaved, InPlace, Settle;
    if n > 0 {
      SettleUnfinished(bs, w, n - 1);
      SettleInPlace(bs[n - 1], w);
    }
  }

  lemma SettleClear(rmq: Cluster, w: World, b: Builder)
    requires Clean(rmq) && b in ResourceBuilders(rmq) && Clear(rmq, w, b)
    ensures Clear(rmq, Settle(w), b)
  {
    hide ResourceBuilders, Clean, ClaimsReady, SetBody, PlainUpdate;
    if b.key.kind == KindStatefulSet && b.key in w.objects {
      BuilderKinds(rmq, b);
      var i: nat :| i < rmq.spec.replicas && b == NodeBuilder(rmq, i);
      NodeStatusBlind(rmq, i, w.objects[b.key]);
    }
  }

  lemma NodeStatusBlind(rmq: Cluster, i: nat, o: Object)
    requires NodeBuilder(rmq, i).update(o).Accepted?
    ensures NodeBuilder(rmq, i).update(SettledObject(o)).Accepted?
  {
    hide SetBody, Touched;
  }

  lemma SettleServiceable(rmq: Cluster, w: World)
    requires Serviceable(rmq, w)
    ensures Serviceable(rmq, Settle(w))
  {
    hide ResourceBuilders, Clean, Clear, Settle;
    forall b | b in ResourceBuilders(rmq) ensures Clear(rmq, Settle(w), b) {
      SettleClear(rmq, w, b);
    }
  }

  /** The object a node's builder wrote has ready claims. */
  lemma RewrittenClaims(rmq: Cluster, i: nat, w: World, v: World)
    requires Clear(rmq, w, NodeBuilder(rmq, i)) && Rewritten(w, v, NodeBuilder(rmq, i))
    ensures var k := NodeKey(rmq.name, i);
            k in v.objects && v.objects[k].StatefulSet? && ClaimsReady(v.objects[k].spec.claims, rmq.spec.storage)
  {
    hide Capacity, Claims, SetBody, PlainUpdate, OperatorKey;
    var b := NodeBuilder(rmq, i);
    var k := b.key;
    if Resources.Renewed(w, v, b) {
      NodeClaims(rmq, i, w.objects[k]);
      ClaimsUpdated(rmq, w.objects[k].spec.claims);
    } else {
      var r: Encoded :| MadeFrom(v, b, r);
      NodeClaims(rmq, i, b.build(r));
      assert Merge.UniqueKeys(Merge.CLAIMS, []);
      NoClaims();
      ClaimsUpdated(rmq, []);
      ClaimsUpdated(rmq, Claims(rmq, []));
    }
  }

  lemma NoClaims()
    ensures Capacity([], PVC_NAME) == 0
  {
  }

  lemma RewrittenFits(rmq: Cluster, b: Builder, w: World, v: World)
    requires WellBehaved(b) && Clear(rmq, w, b) && Rewritten(w, v, b)
    ensures b.key in v.objects && Fits(b.key.kind, v.objects[b.key])
  {
    hide SameButFlags, OperatorKey, ClaimsReady;
    if Resources.Renewed(w, v, b) {
    } else {
      var r: Encoded :| MadeFrom(v, b, r);
      assert Fits(b.key.kind, b.update(b.build(r)).result);
    }
  }

  /** The builder that did its work is still clear. */
  lemma DoneIsClear(rmq: Cluster, b: Builder, w: World, v: World)
    requires Clean(rmq) && b in ResourceBuilders(rmq) && Clear(rmq, w, b) && Rewritten(w, v, b) && InPlace(b, v)
    ensures Clear(rmq, v, b)
  {
    hide ResourceBuilders, Clean, ClaimsReady, Rewritten, SetBody, PlainUpdate, WellBehaved;
    AllWellBehaved(rmq);
    RewrittenFits(rmq, b, w, v);
    if b.key.kind == KindStatefulSet {
      BuilderKinds(rmq, b);
      var i: nat :| i < rmq.spec.replicas && b == NodeBuilder(rmq, i);
      RewrittenClaims(rmq, i, w, v);
    }
  }

  lemma StepServiceable(rmq: Cluster, w: World, v: World, j: nat)
    requires Serviceable(rmq, w) && FirstDone(ResourceBuilders(rmq), w, v, 0, j)
    ensures Serviceable(rmq, v)
  {
    var bs := ResourceBuilders(rmq);
    KeysDistinct(rmq);
    hide ResourceBuilders, Clean, Clear, OnlyAt, Rewritten, InPlace;
    forall b | b in bs ensures Clear(rmq, v, b) {
      var m :| 0 <= m < |bs| && bs[m] == b;
      if m == j {
        DoneIsClear(rmq, b, w, v);
      } else {
        assert b.key != bs[j].key;
        OthersClear(rmq, w, v, bs[j].key, b);
      }
    }
  }

  lemma OthersClear(rmq: Cluster, w: World, v: World, k: Key, b: Builder)
    requires OnlyAt(w, v, k) && b.key != k && Clear(rmq, w, b)
    ensures Clear(rmq, v, b)
  {
    OthersSame(w, v, k, b);
    hide OnlyAt, ClaimsReady;
  }

  /** One calm round: the measure falls by exactly one, or is zero and nothing is written. */
  lemma OneRound(w: World, rmq: Cluster, sch: Schedule)
    requires Serviceable(rmq, w) && Quiet(w) && NoFaults(sch) && IsListing(w, sch.listing(0))
    ensures var bs := ResourceBuilders(rmq);
            var v := Round(w, rmq, sch);
            && Serviceable(rmq, v) && Quiet(v)
            && Unfinished(bs, v, |bs|) == (if Unfinished(bs, w, |bs|) == 0 then 0 else Unfinished(bs, w, |bs|) - 1)
  {
    hide ResourceBuilders, ReconcileResourcesSpec, Clean, Clear, Settle, Quiet, IsListing;
    var bs := ResourceBuilders(rmq);
    KeysDistinct(rmq);
    AllWellBehaved(rmq);
    forall b | b in bs ensures WellBehaved(b) && Workable(b, w) {
      ClearIsWorkable(rmq, w, b);
    }
    hide WellBehaved, Workable, Rewritten, OnlyAt, InPlace;
    PassCalm(w, rmq, 0, bs, sch);
    var u := ReconcileResourcesSpec(Sys(w, rmq, 0), bs, sch).sys.world;
    if Unfinished(bs, w, |bs|) != 0 {
      var j: nat :| FirstDone(bs, w, u, 0, j);
      StepServiceable(rmq, w, u, j);
    }
    SettleServiceable(rmq, u);
    SettleIsQuiet(u);
    SettleUnfinished(bs, u, |bs|);
  }

  lemma BuilderCount(rmq: Cluster)
    ensures |ResourceBuilders(rmq)| == (if HasUserSecret(rmq) then 9 else 8) + rmq.spec.replicas
  {
    hide HeadlessBuilder, ClientBuilder, CookieBuilder, UserBuilder, PluginsBuilder, ServerConfBuilder;
    hide AccountBuilder, RoleBuilder, BindingBuilder, NodeBuilder, HasUserSecret;
  }

  /** After n calm runs of reconcileResources, n fewer objects are out of place, until none is. */
  lemma {:induction false} RoundsCount(w: World, rmq: Cluster, scheds: seq<Schedule>)
    requires Serviceable(rmq, w) && Quiet(w) && CalmRounds(w, rmq, scheds)
    ensures var bs := ResourceBuilders(rmq);
            var v := Rounds(w, rmq, scheds);
            && Serviceable(rmq, v) && Quiet(v)
            && Unfinished(bs, v, |bs|) ==
              (if Unfinished(bs, w, |bs|) <= |scheds| then 0 else Unfinished(bs, w, |bs|) - |scheds|)
    decreases |scheds|
  {
    hide ResourceBuilders, Round, Serviceable, Quiet, IsListing;
    if scheds != [] {
      OneRound(w, rmq, scheds[0]);
      RoundsCount(Round(w, rmq, scheds[0]), rmq, scheds[1..]);
    }
  }

  /**
    Convergence of reconcileResources: for a fixed cluster, after at most 9 + Replicas calm runs
    every object is in place, and from then on the stage passes without writing anything.
  */
  lemma Converges(w: World, rmq: Cluster, scheds: seq<Schedule>, sch: Schedule)
    requires Serviceable(rmq, w) && Quiet(w) && CalmRounds(w, rmq, scheds) && |scheds| >= 9 + rmq.spec.replicas
    requires NoFaults(sch) && IsListing(Rounds(w, rmq, scheds), sch.listing(0))
    ensures var bs := ResourceBuilders(rmq);
            var v := Rounds(w, rmq, scheds);
            var t := ReconcileResourcesSpec(Sys(v, rmq, 0), bs, sch);
            (forall m :: 0 <= m < |bs| ==> InPlace(bs[m], v)) && t.outcome.Continue? && t.sys.world == v
              && t.sys.rmq == rmq
  {
    hide ResourceBuilders, Rounds, Quiet, IsListing, ReconcileResourcesSpec, Clean, Clear, CalmRounds;
    var bs := ResourceBuilders(rmq);
    var v := Rounds(w, rmq, scheds);
    RoundsCount(w, rmq, scheds);
    BuilderCount(rmq);
    UnfinishedBound(bs, w, |bs|);
    UnfinishedBound(bs, v, |bs|);
    KeysDistinct(rmq);
    forall b | b in bs ensures WellBehaved(b) && Workable(b, v) {
      ClearIsWorkable(rmq, v, b);
    }
    hide WellBehaved, Workable, InPlace;
    PassCalm(v, rmq, 0, bs, sch);
  }

  /** A store without children: every builder has work to do, and none is hindered. */
  lemma {:induction false} EmptyUnfinished(bs: seq<Builder>, w: World, n: nat)
    requires n <= |bs| && w.objects == map[]
    ensures Unfinished(bs, w, n) == n
  {
    if n > 0 {
      EmptyUnfinished(bs, w, n - 1);
    }
  }

  /**
    From an empty store reconcileResources takes exactly one calm run per builder, no fewer: each
    run creates one object.
  */
  lemma BringUpTakes(w: World, rmq: Cluster, scheds: seq<Schedule>)
    requires w.objects == map[] && Clean(rmq) && rmq.spec.additionalConfig.Some? && CalmRounds(w, rmq, scheds)
    requires |scheds| <= |ResourceBuilders(rmq)|
    ensures var bs := ResourceBuilders(rmq);
            Unfinished(bs, Rounds(w, rmq, scheds), |bs|) == |bs| - |scheds|
  {
    assert Quiet(w);
    hide ResourceBuilders, Rounds, CalmRounds, Clean, Quiet;
    EmptyUnfinished(ResourceBuilders(rmq), w, |ResourceBuilders(rmq)|);
    assert Serviceable(rmq, w);
    RoundsCount(w, rmq, scheds);
  }
}
