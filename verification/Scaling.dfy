/** PersistenceScaler (internal/scaling): delete the set, confirm it is gone, grow the claims. */
module Scaling {
  import opened Basics
  import opened Objects
  import opened Store
  import opened Names
  import opened Client

  const DELETE_RETRIES: nat := 10

  // ------------------------------------------------------------ specification

  /** getPVCs from replica i on: the claims that exist, or None after a failed read. */
  function GetClaimsSpec(s: Sys, set_: string, replicas: int, i: nat, found: seq<string>, sch: Schedule)
    : (Sys, Option<seq<string>>)
    decreases replicas - i
  {
    if i >= replicas then (s, Some(found))
    else if sch.fails(s.calls) then (Called(s), None)
    else
      var name := ClaimName(PVC_NAME, set_, i);
      var next := if name in s.world.claims then found + [name] else found;
      GetClaimsSpec(Called(s), set_, replicas, i + 1, next, sch)
  }

  /** pvcsNeedingScaling */
  function NeedingScaling(names: seq<string>, claims: map<string, nat>, desired: nat): seq<string> {
    if names == [] then []
    else
      var last := names[|names| - 1];
      NeedingScaling(names[..|names| - 1], claims, desired)
      + if last in claims && claims[last] < desired then [last] else []
  }

  /** The polling loop of deleteStatefulset, with n attempts left. */
  function AwaitGoneSpec(s: Sys, key: Key, n: nat, sch: Schedule): (Sys, bool)
    decreases n
  {
    if n == 0 then (s, false)
    else if Vanished(s, key, sch) then (Called(WithWorld(s, Confirmed(s.world, key))), true)
    else AwaitGoneSpec(Called(s), key, n - 1, sch)
  }

  /** This read of the set answers NotFound. */
  predicate Vanished(s: Sys, key: Key, sch: Schedule) {
    && !sch.fails(s.calls)
    && (key !in s.world.objects || (key in s.world.terminating && sch.gone(s.calls)))
  }

  function Confirmed(w: World, key: Key): World {
    Remove(w, key).(log := w.log + [ConfirmedGone(key)])
  }

  function MarkTerminating(w: World, key: Key): World {
    w.(terminating := w.terminating + {key}, log := w.log + [Deleted(key)])
  }

  function DeleteSetSpec(s: Sys, key: Key, sch: Schedule): (Sys, bool) {
    if sch.fails(s.calls) || key !in s.world.objects then (Called(s), false)
    else AwaitGoneSpec(Called(WithWorld(s, MarkTerminating(s.world, key))), key, DELETE_RETRIES, sch)
  }

  function GrowClaim(w: World, name: string, desired: nat): World {
    w.(claims := w.claims[name := desired], log := w.log + [ClaimGrown(name, desired)])
  }

  /** scaleUpPVCs: read and rewrite each claim, stopping at the first error. */
  function GrowClaimsSpec(s: Sys, names: seq<string>, desired: nat, sch: Schedule): (Sys, bool)
    decreases |names|
  {
    if names == [] then (s, true)
    else if sch.fails(s.calls) || names[0] !in s.world.claims then (Called(s), false)
    else if sch.fails(s.calls + 1) then (Called(Called(s)), false)
    else GrowClaimsSpec(Called(Called(WithWorld(s, GrowClaim(s.world, names[0], desired)))), names[1..], desired, sch)
  }

  /** Scale: the new state and whether nil was returned. */
  function ScaleSpec(s: Sys, key: Key, desired: nat, sch: Schedule): (Sys, bool) {
    if sch.fails(s.calls) then (Called(s), false)
    else if !Found(s.world, key) then (Called(s), true)
    else
      var existing := Existing(s.world, key);
      if existing == desired then (Called(s), true)
      else if existing > desired || existing == 0 then (Called(s), false)
      else if sch.fails(s.calls + 1) then (Called(Called(s)), false)
      else GrowSpec(Called(Called(s)), key, desired, sch)
  }

  /** The rest of Scale once the size checks have passed. */
  function GrowSpec(s: Sys, key: Key, desired: nat, sch: Schedule): (Sys, bool)
    requires Found(s.world, key)
  {
    var (s1, found) := GetClaimsSpec(s, key.name, s.world.objects[key].spec.replicas, 0, [], sch);
    if found.None? then (s1, false)
    else
      var pending := NeedingScaling(found.value, s1.world.claims, desired);
      if pending == [] then (s1, true)
      else
        var (s2, gone) := DeleteSetSpec(s1, key, sch);
        if !gone then (s2, false) else GrowClaimsSpec(s2, pending, desired, sch)
  }

  predicate Found(w: World, key: Key) {
    key in w.objects && w.objects[key].StatefulSet?
  }

  function Existing(w: World, key: Key): nat
    requires Found(w, key)
  {
    Capacity(w.objects[key].spec.claims, PVC_NAME)
  }

  // ------------------------------------------- what the specification promises

  /** Independent definition: the claims of replicas below n that exist and are too small. */
  function Needed(w: World, set_: string, n: int, desired: nat): seq<string> {
    if n <= 0 then []
    else
      var name := ClaimName(PVC_NAME, set_, n - 1);
      Needed(w, set_, n - 1, desired)
      + if name in w.claims && w.claims[name] < desired then [name] else []
  }

  function GrownClaims(claims: map<string, nat>, names: seq<string>, desired: nat): map<string, nat> {
    map c | c in claims :: if c in names then desired else claims[c]
  }

  function GrowEvents(names: seq<string>, desired: nat): seq<Event> {
    seq(|names|, i requires 0 <= i < |names| => ClaimGrown(names[i], desired))
  }

  /** The set was deleted and seen gone, then exactly the first k needed claims grew. */
  predicate GrewPrefix(w: World, v: World, key: Key, needed: seq<string>, k: nat, desired: nat) {
    && k <= |needed|
    && v == Remove(w, key).(
              claims := GrownClaims(w.claims, needed[..k], desired),
              log := w.log + [Deleted(key), ConfirmedGone(key)] + GrowEvents(needed[..k], desired))
  }

  /** The set was asked to go but was not seen gone: no claim was written. */
  predicate StillDeleting(w: World, v: World, key: Key) {
    v == MarkTerminating(w, key)
  }

  /** The size checks refuse: the claims would shrink, or there were none before. */
  predicate Refused(w: World, key: Key, desired: nat) {
    Found(w, key) && Existing(w, key) != desired && (Existing(w, key) > desired || Existing(w, key) == 0)
  }

  lemma {:induction false} GetClaimsFinds(s: Sys, set_: string, replicas: int, i: nat, found: seq<string>,
      desired: nat, sch: Schedule)
    requires i <= replicas || (i == 0 && replicas < 0)
    requires NeedingScaling(found, s.world.claims, desired) == Needed(s.world, set_, i, desired)
    ensures var (s', r) := GetClaimsSpec(s, set_, replicas, i, found, sch);
            && s'.world == s.world && s'.rmq == s.rmq
            && (r.Some? ==>
              NeedingScaling(r.value, s.world.claims, desired) == Needed(s.world, set_, replicas, desired))
    decreases replicas - i
  {
    hide ClaimName, NeedingScaling;
    if i < replicas && !sch.fails(s.calls) {
      var name := ClaimName(PVC_NAME, set_, i);
      NeedingOneMore(found, name, s.world.claims, desired);
      var next := if name in s.world.claims then found + [name] else found;
      assert NeedingScaling(next, s.world.claims, desired) == Needed(s.world, set_, i + 1, desired);
      hide Needed;
      GetClaimsFinds(Called(s), set_, replicas, i + 1, next, desired, sch);
    }
  }

  lemma NeedingOneMore(found: seq<string>, name: string, claims: map<string, nat>, desired: nat)
    ensures NeedingScaling(found + [name], claims, desired)
         == NeedingScaling(found, claims, desired) + if name in claims && claims[name] < desired then [name] else []
  {
    assert (found + [name])[..|found|] == found;
  }

  lemma {:induction false} AwaitGoneFrame(s: Sys, key: Key, n: nat, sch: Schedule)
    ensures var (s', gone) := AwaitGoneSpec(s, key, n, sch);
            s'.rmq == s.rmq && s'.world == if gone then Confirmed(s.world, key) else s.world
    decreases n
  {
    if n > 0 && !Vanished(s, key, sch) {
      AwaitGoneFrame(Called(s), key, n - 1, sch);
    }
  }

  /** From a state that already grew a prefix, scaleUpPVCs grows a longer prefix and nothing else. */
  lemma {:induction false} GrowClaimsPrefix(s: Sys, w: World, key: Key, needed: seq<string>, k: nat, desired: nat,
      sch: Schedule)
    requires GrewPrefix(w, s.world, key, needed, k, desired)
    requires forall c :: c in needed ==> c in w.claims
    ensures var (s', ok) := GrowClaimsSpec(s, needed[k..], desired, sch);
            && s'.rmq == s.rmq
            && (exists m :: k <= m && GrewPrefix(w, s'.world, key, needed, m, desired) && (ok ==> m == |needed|))
    decreases |needed| - k
  {
    var rest := needed[k..];
    if rest != [] && !sch.fails(s.calls) && !sch.fails(s.calls + 1) {
      assert rest[0] == needed[k] && rest[0] in needed;
      var v := GrowClaim(s.world, rest[0], desired);
      assert needed[..k + 1] == needed[..k] + [needed[k]];
      assert v.claims == GrownClaims(w.claims, needed[..k + 1], desired);
      assert GrowEvents(needed[..k + 1], desired) == GrowEvents(needed[..k], desired)
        + [ClaimGrown(needed[k], desired)];
      assert v.log == w.log + [Deleted(key), ConfirmedGone(key)] + GrowEvents(needed[..k + 1], desired);
      assert rest[1..] == needed[k + 1..];
      GrowClaimsPrefix(Called(Called(WithWorld(s, v))), w, key, needed, k + 1, desired, sch);
    } else {
      assert GrewPrefix(w, s.world, key, needed, k, desired);
    }
  }

  lemma {:induction false} NeededByName(w: World, set_: string, n: int, desired: nat)
    ensures forall c :: c in Needed(w, set_, n, desired) ==> c in w.claims && w.claims[c] < desired
    ensures forall i :: 0 <= i < n ==>
              var c := ClaimName(PVC_NAME, set_, i);
              c in w.claims && w.claims[c] < desired ==> c in Needed(w, set_, n, desired)
    ensures forall c :: c in Needed(w, set_, n, desired) ==>
              exists i :: 0 <= i < n && c == ClaimName(PVC_NAME, set_, i)
  {
    if n > 0 {
      NeededByName(w, set_, n - 1, desired);
    }
  }

  /** The claim belongs to a replica of the set: its text is the template's, the set's and a number below n. */
  ghost predicate OwnClaim(c: string, set_: string, n: int) {
    exists i: nat :: i < n && ClaimText(c, set_, i)
  }

  /** The needed claims are exactly the set's own claims that exist and are too small. */
  lemma NeededAreSmall(w: World, set_: string, n: int, desired: nat, c: string)
    ensures c in Needed(w, set_, n, desired) <==> OwnClaim(c, set_, n) && c in w.claims && w.claims[c] < desired
  {
    hide ClaimName, ClaimText;
    NeededByName(w, set_, n, desired);
    if c in Needed(w, set_, n, desired) {
      var i :| 0 <= i < n && c == ClaimName(PVC_NAME, set_, i);
      ClaimNameIff(c, set_, i);
    }
    if OwnClaim(c, set_, n) {
      var i: nat :| i < n && ClaimText(c, set_, i);
      ClaimNameIff(c, set_, i);
    }
  }

  lemma ConfirmedIsPrefix(w: World, key: Key, needed: seq<string>, desired: nat)
    ensures GrewPrefix(w, Confirmed(MarkTerminating(w, key), key), key, needed, 0, desired)
  {
    assert needed[..0] == [];
    assert GrownClaims(w.claims, [], desired) == w.claims;
    assert w.log + [Deleted(key)] + [ConfirmedGone(key)]
        == w.log + [Deleted(key), ConfirmedGone(key)] + GrowEvents(needed[..0], desired);
    assert w.terminating + {key} - {key} == w.terminating - {key};
  }

  /** What deleting the set and growing these claims can leave behind. */
  lemma DeleteAndGrow(s: Sys, key: Key, needed: seq<string>, desired: nat, sch: Schedule)
    requires Found(s.world, key) && forall c :: c in needed ==> c in s.world.claims
    ensures var (s1, gone) := DeleteSetSpec(s, key, sch);
            var (s2, ok) := if gone then GrowClaimsSpec(s1, needed, desired, sch) else (s1, false);
            && s2.rmq == s.rmq
            && (|| (s2.world == s.world && !ok)
                || (StillDeleting(s.world, s2.world, key) && !ok)
                || (exists k :: GrewPrefix(s.world, s2.world, key, needed, k, desired) && (ok ==> k == |needed|)))
  {
    var w := s.world;
    if !sch.fails(s.calls) {
      var marked := Called(WithWorld(s, MarkTerminating(w, key)));
      AwaitGoneFrame(marked, key, DELETE_RETRIES, sch);
      hide AwaitGoneSpec;
      var (s1, gone) := AwaitGoneSpec(marked, key, DELETE_RETRIES, sch);
      if gone {
        ConfirmedIsPrefix(w, key, needed, desired);
        assert needed[0..] == needed;
        GrowClaimsPrefix(s1, w, key, needed, 0, desired, sch);
      }
    }
  }

  /**
    Scale under every failure pattern: it leaves the store alone, or asks the set to
    go, or deletes it for certain and then grows exactly a prefix of the claims that
    need it. A nil answer means there was nothing to do or the whole prefix is done.
  */
  lemma ScaleOutcomes(s: Sys, key: Key, desired: nat, sch: Schedule)
    ensures var w, (s', ok) := s.world, ScaleSpec(s, key, desired, sch);
            var needed := if Found(w, key) then Needed(w, key.name, w.objects[key].spec.replicas, desired) else [];
            && s'.rmq == s.rmq
            && (|| s'.world == w
                || (StillDeleting(w, s'.world, key) && Found(w, key) && !ok)
                || (Found(w, key) && needed != [] && exists k ::
                  GrewPrefix(w, s'.world, key, needed, k, desired) && (ok ==> k == |needed|)))
            && (Refused(w, key, desired) ==> !ok && s'.world == w)
            && (s'.world != w ==> Found(w, key) && 0 < Existing(w, key) < desired && needed != [])
            && (ok && s'.world == w && Found(w, key) ==> Existing(w, key) == desired || needed == [])
  {
    hide GetClaimsSpec, DeleteSetSpec, GrowClaimsSpec, GrewPrefix, StillDeleting, Capacity;
    var w := s.world;
    if Found(w, key) && !sch.fails(s.calls) && 0 < Existing(w, key) < desired && !sch.fails(s.calls + 1) {
      var s0 := Called(Called(s));
      var replicas := w.objects[key].spec.replicas;
      assert NeedingScaling([], w.claims, desired) == Needed(w, key.name, 0, desired);
      GetClaimsFinds(s0, key.name, replicas, 0, [], desired, sch);
      var (s1, found) := GetClaimsSpec(s0, key.name, replicas, 0, [], sch);
      if found.Some? {
        var needed := Needed(w, key.name, replicas, desired);
        NeededByName(w, key.name, replicas, desired);
        hide Needed, NeedingScaling;
        if needed != [] {
          DeleteAndGrow(s1, key, needed, desired, sch);
          PrefixGone(w, key, needed, desired);
        }
      }
    }
  }

  /** A store that grew a prefix is not the one before: the deletion is in its log. */
  lemma PrefixGone(w: World, key: Key, needed: seq<string>, desired: nat)
    ensures forall k: nat :: !GrewPrefix(w, w, key, needed, k, desired)
  {
    forall k: nat ensures !GrewPrefix(w, w, key, needed, k, desired) {
      if k <= |needed| {
        assert |w.log + [Deleted(key), ConfirmedGone(key)] + GrowEvents(needed[..k], desired)| > |w.log|;
      }
    }
  }

  /** No claim ever shrinks or disappears, and a claim that changes belonged to the set and was too small. */
  lemma ClaimsOnlyGrow(s: Sys, key: Key, desired: nat, sch: Schedule)
    ensures var w, v := s.world, ScaleSpec(s, key, desired, sch).0.world;
            && v.claims.Keys == w.claims.Keys
            && (forall c :: c in w.claims ==> w.claims[c] <= v.claims[c])
            && (forall c :: c in w.claims && v.claims[c] != w.claims[c] ==>
                  && w.claims[c] < desired == v.claims[c]
                  && Found(w, key) && OwnClaim(c, key.name, w.objects[key].spec.replicas))
            && (v.claims != w.claims ==> key !in v.objects)
  {
    hide ScaleSpec, OwnClaim, Needed;
    ScaleOutcomes(s, key, desired, sch);
    var w, v := s.world, ScaleSpec(s, key, desired, sch).0.world;
    if v.claims != w.claims {
      var n := w.objects[key].spec.replicas;
      var needed := Needed(w, key.name, n, desired);
      var k: nat :| GrewPrefix(w, v, key, needed, k, desired);
      forall c | c in needed[..k] ensures OwnClaim(c, key.name, n) && c in w.claims && w.claims[c] < desired {
        assert c in needed;
        NeededAreSmall(w, key.name, n, desired, c);
      }
    }
  }

  /**
    A nil answer past the size checks: each of the set's own claims that exist has the desired
    size now, if it was smaller, and no other claim changed.
  */
  lemma NilMeansGrown(s: Sys, key: Key, desired: nat, sch: Schedule, c: string)
    requires ScaleSpec(s, key, desired, sch).1 && c in s.world.claims
    requires Found(s.world, key) && Existing(s.world, key) != desired
    ensures var w, v := s.world, ScaleSpec(s, key, desired, sch).0.world;
            var small := OwnClaim(c, key.name, w.objects[key].spec.replicas) && w.claims[c] < desired;
            c in v.claims && v.claims[c] == if small then desired else w.claims[c]
  {
    hide ScaleSpec, OwnClaim, Needed;
    ScaleOutcomes(s, key, desired, sch);
    var w := s.world;
    var needed := Needed(w, key.name, w.objects[key].spec.replicas, desired);
    NeededAreSmall(w, key.name, w.objects[key].spec.replicas, desired, c);
    var v := ScaleSpec(s, key, desired, sch).0.world;
    if v != w {
      var k: nat :| GrewPrefix(w, v, key, needed, k, desired) && k == |needed|;
      assert needed[..k] == needed;
    }
  }

  /** The needed claims are all different. */
  lemma {:induction false} NeededDistinct(w: World, set_: string, n: int, desired: nat)
    ensures Distinct(Needed(w, set_, n, desired))
  {
    if n > 0 {
      NeededDistinct(w, set_, n - 1, desired);
      NeededByName(w, set_, n - 1, desired);
      var front, name := Needed(w, set_, n - 1, desired), ClaimName(PVC_NAME, set_, n - 1);
      forall i | 0 <= i < |front| ensures front[i] != name {
        assert front[i] in front;
        var r :| 0 <= r < n - 1 && front[i] == ClaimName(PVC_NAME, set_, r);
        ClaimNamesInjective(PVC_NAME, set_, set_, r, n - 1);
      }
    }
  }

  // ------------------------------------------------------- the scaler's methods

  method GetClaims(api: Api, key: Key, replicas: int) returns (found: Option<seq<string>>)
    modifies api
    ensures (api.State(), found) == GetClaimsSpec(old(api.State()), key.name, replicas, 0, [], api.sch)
  {
    var names: seq<string> := [];
    var i := 0;
    while i < replicas
      invariant i <= replicas || (i == 0 && replicas < 0)
      invariant GetClaimsSpec(api.State(), key.name, replicas, i, names, api.sch)
             == GetClaimsSpec(old(api.State()), key.name, replicas, 0, [], api.sch)
    {
      var ok := api.Call();
      if !ok { return None; }
      var name := ClaimName(PVC_NAME, key.name, i);
      if name in api.world.claims {
        names := names + [name];
      }
      i := i + 1;
    }
    return Some(names);
  }

  method PvcsNeedingScaling(names: seq<string>, claims: map<string, nat>, desired: nat) returns (pending: seq<string>)
    ensures pending == NeedingScaling(names, claims, desired)
  {
    pending := [];
    for i := 0 to |names|
      invariant pending == NeedingScaling(names[..i], claims, desired)
    {
      assert names[..i + 1][..i] == names[..i];
      if names[i] in claims && claims[names[i]] < desired {
        pending := pending + [names[i]];
      }
    }
    assert names[..|names|] == names;
  }

  /** retryWithInterval around the read that waits for NotFound. */
  method RetryUntilGone(api: Api, key: Key, retry: nat) returns (ok: bool)
    modifies api
    ensures (api.State(), ok) == AwaitGoneSpec(old(api.State()), key, retry, api.sch)
  {
    var i := 0;
    while i < retry
      invariant 0 <= i <= retry
      invariant AwaitGoneSpec(api.State(), key, retry - i, api.sch)
             == AwaitGoneSpec(old(api.State()), key, retry, api.sch)
    {
      if Vanished(Sys(api.world, api.rmq, api.calls), key, api.sch) {
        api.world := Confirmed(api.world, key);
        api.calls := api.calls + 1;
        return true;
      }
      api.calls := api.calls + 1;
      i := i + 1;
    }
    return false;
  }

  method DeleteStatefulset(api: Api, key: Key) returns (ok: bool)
    modifies api
    ensures (api.State(), ok) == DeleteSetSpec(old(api.State()), key, api.sch)
  {
    ok := api.Call();
    if !ok || key !in api.world.objects { return false; }
    api.world := MarkTerminating(api.world, key);
    ok := RetryUntilGone(api, key, DELETE_RETRIES);
  }

  method ScaleUpPVCs(api: Api, names: seq<string>, desired: nat) returns (ok: bool)
    modifies api
    ensures (api.State(), ok) == GrowClaimsSpec(old(api.State()), names, desired, api.sch)
  {
    for i := 0 to |names|
      invariant GrowClaimsSpec(api.State(), names[i..], desired, api.sch)
             == GrowClaimsSpec(old(api.State()), names, desired, api.sch)
    {
      assert names[i..][1..] == names[i + 1..];
      ok := api.Call();
      if !ok || names[i] !in api.world.claims { return false; }
      ok := api.Call();
      if !ok { return false; }
      api.world := GrowClaim(api.world, names[i], desired);
    }
    return true;
  }

  method Scale(api: Api, key: Key, desired: nat) returns (ok: bool)
    modifies api
    ensures (api.State(), ok) == ScaleSpec(old(api.State()), key, desired, api.sch)
  {
    ok := api.Call();
    if !ok { return false; }
    if key !in api.world.objects || !api.world.objects[key].StatefulSet? { return true; }
    var existing := Capacity(api.world.objects[key].spec.claims, PVC_NAME);
    if existing == desired { return true; }
    if existing > desired { return false; }
    if existing == 0 { return false; }
    ok := api.Call();
    if !ok { return false; }
    var found := GetClaims(api, key, api.world.objects[key].spec.replicas);
    if found.None? { return false; }
    var pending := PvcsNeedingScaling(found.value, api.world.claims, desired);
    if pending == [] { return true; }
    ok := DeleteStatefulset(api, key);
    if !ok { return false; }
    ok := ScaleUpPVCs(api, pending, desired);
  }
}
