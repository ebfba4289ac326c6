/** sortEnvVar and sortVolumeMounts (internal/resource/utils.go): swaps in place, in one walk. */
module Swaps {
  import opened Basics
  import opened Names

  /** An environment variable or a volume mount: its name and the rest of it. */
  datatype Named = Named(name: string, content: string)

  const POD := "MY_POD_NAME"
  const NAMESPACE := "MY_POD_NAMESPACE"
  const SERVICE := "K8S_SERVICE_NAME"
  const COOKIE := "rabbitmq-erlang-cookie"

  // ------------------------------------------------------------ specification

  /** Where an entry with this name is swapped to, if anywhere. */
  function EnvTarget(name: string): Option<nat> {
    if name == POD then Some(0) else if name == NAMESPACE then Some(1) else if name == SERVICE then Some(2) else None
  }

  function MountTarget(name: string): Option<nat> {
    if name == COOKIE then Some(0) else if name == PVC_NAME then Some(1) else None
  }

  function Swap(s: seq<Named>, i: nat, j: nat): seq<Named>
    requires i < |s| && j < |s|
  {
    s[i := s[j]][j := s[i]]
  }

  /** The walk from index i on; None when a swap goes beyond the end of the list. */
  function Hoisted(s: seq<Named>, i: nat, target: string -> Option<nat>): Option<seq<Named>>
    requires i <= |s|
    decreases |s| - i
  {
    if i == |s| then Some(s)
    else
      match target(s[i].name)
      case None => Hoisted(s, i + 1, target)
      case Some(t) => if t < |s| then Hoisted(Swap(s, t, i), i + 1, target) else None
  }

  lemma SwapPermutes(s: seq<Named>, i: nat, j: nat)
    requires i < |s| && j < |s|
    ensures multiset(Swap(s, i, j)) == multiset(s)
  {
  }

  /** Whatever the list, the walk only permutes it. */
  lemma {:induction false} HoistedPermutes(s: seq<Named>, i: nat, target: string -> Option<nat>)
    requires i <= |s|
    ensures Hoisted(s, i, target).Some? ==> multiset(Hoisted(s, i, target).value) == multiset(s)
    decreases |s| - i
  {
    if i < |s| {
      match target(s[i].name)
      case None => HoistedPermutes(s, i + 1, target);
      case Some(t) =>
        if t < |s| {
          SwapPermutes(s, t, i);
          HoistedPermutes(Swap(s, t, i), i + 1, target);
        }
    }
  }

  // ------------------------------------------------- positions of the names

  /** Where entry p goes when positions t and i are swapped. */
  function Moved(p: nat, t: nat, i: nat): nat { if p == i then t else if p == t then i else p }

  /** The name occurs exactly once, at this position. */
  predicate Only(s: seq<Named>, name: string, p: nat) {
    p < |s| && forall j :: 0 <= j < |s| ==> (s[j].name == name <==> j == p)
  }

  lemma MovedOnly(s: seq<Named>, name: string, p: nat, t: nat, i: nat)
    requires Only(s, name, p) && t < |s| && i < |s|
    ensures Only(Swap(s, t, i), name, Moved(p, t, i))
  {
  }

  // ---------------------------------------------------------- the env list

  datatype Three = Three(pod: nat, namespace: nat, service: nat)

  predicate Placed(s: seq<Named>, at: Three) {
    Only(s, POD, at.pod) && Only(s, NAMESPACE, at.namespace) && Only(s, SERVICE, at.service)
  }

  lemma NamesApart()
    ensures POD != NAMESPACE && POD != SERVICE && NAMESPACE != SERVICE && COOKIE != PVC_NAME
  {
  }

  function StepThree(at: Three, i: nat): Three {
    if i == at.pod then Three(0, Moved(at.namespace, 0, i), Moved(at.service, 0, i))
    else if i == at.namespace then Three(Moved(at.pod, 1, i), 1, Moved(at.service, 1, i))
    else if i == at.service then Three(Moved(at.pod, 2, i), Moved(at.namespace, 2, i), 2)
    else at
  }

  function WalkThree(at: Three, i: nat, n: nat): Three
    requires i <= n
    decreases n - i
  {
    if i == n then at else WalkThree(StepThree(at, i), i + 1, n)
  }

  predicate Apart(at: Three, n: nat) {
    && at.pod != at.namespace && at.pod != at.service && at.namespace != at.service
    && at.pod < n && at.namespace < n && at.service < n
  }

  /** From index 3 on a name ends in its place exactly when it is still ahead, or already there. */
  lemma {:induction false} TailThree(at: Three, i: nat, n: nat)
    requires 3 <= i <= n && Apart(at, n)
    ensures var r := WalkThree(at, i, n);
            && (r.pod == 0 <==> at.pod >= i || at.pod == 0)
            && (r.namespace == 1 <==> at.namespace >= i || at.namespace == 1)
            && (r.service == 2 <==> at.service >= i || at.service == 2)
    decreases n - i
  {
    if i < n {
      TailThree(StepThree(at, i), i + 1, n);
    }
  }

  /** The three orders in which the walk leaves a name in the wrong place. */
  predicate Misplaced(at: Three) {
    || (at.pod == 2 && at.service == 1 && at.namespace >= 3)
    || (at.namespace == 0 && at.service == 1 && at.pod >= 3)
    || (at.service == 0 && at.namespace == 2 && at.pod >= 3)
  }

  lemma WalkThreeIff(at: Three, n: nat)
    requires 3 <= n && Apart(at, n)
    ensures WalkThree(at, 0, n) == Three(0, 1, 2) <==> !Misplaced(at)
  {
    Unroll(at, n);
    ThreeSteps(at, n);
    hide WalkThree, StepThree;
    TailThree(StepThree(StepThree(StepThree(at, 0), 1), 2), 3, n);
  }

  /** Every name is still ahead of the walk's fourth step or in its place. */
  predicate OnTrack(at: Three) {
    && (at.pod >= 3 || at.pod == 0)
    && (at.namespace >= 3 || at.namespace == 1)
    && (at.service >= 3 || at.service == 2)
  }

  /** After three steps the names are on track, unless they started in one of the three orders. */
  lemma ThreeSteps(at: Three, n: nat)
    requires 3 <= n && Apart(at, n)
    ensures var r := StepThree(StepThree(StepThree(at, 0), 1), 2);
            Apart(r, n) && (OnTrack(r) <==> !Misplaced(at))
  {
    StaysApart(at, 0, n);
    StaysApart(StepThree(at, 0), 1, n);
    StaysApart(StepThree(StepThree(at, 0), 1), 2, n);
  }

  lemma StaysApart(at: Three, i: nat, n: nat)
    requires 3 <= n && i < 3 && Apart(at, n)
    ensures Apart(StepThree(at, i), n)
  {
  }

  lemma Unroll(at: Three, n: nat)
    requires 3 <= n
    ensures WalkThree(at, 0, n) == WalkThree(StepThree(StepThree(StepThree(at, 0), 1), 2), 3, n)
  {
    hide StepThree;
    var a1 := StepThree(at, 0);
    var a2 := StepThree(a1, 1);
    assert WalkThree(at, 0, n) == WalkThree(a1, 1, n);
    assert WalkThree(a1, 1, n) == WalkThree(a2, 2, n);
  }

  /** The walk over the list moves the three names as the walk over positions says. */
  lemma {:induction false} WalkPlaces(s: seq<Named>, at: Three, i: nat)
    requires i <= |s| && 3 <= |s| && Placed(s, at)
    ensures var r := Hoisted(s, i, EnvTarget);
            r.Some? && |r.value| == |s| && Placed(r.value, WalkThree(at, i, |s|))
    decreases |s| - i
  {
    NamesApart();
    hide POD, NAMESPACE, SERVICE;
    if i < |s| {
      var t := EnvTarget(s[i].name);
      if t.Some? {
        var u := Swap(s, t.value, i);
        MovedOnly(s, POD, at.pod, t.value, i);
        MovedOnly(s, NAMESPACE, at.namespace, t.value, i);
        MovedOnly(s, SERVICE, at.service, t.value, i);
        hide Only;
        WalkPlaces(u, StepThree(at, i), i + 1);
      } else {
        WalkPlaces(s, at, i + 1);
      }
    }
  }

  /**
    sortEnvVar on a list with each of its three names once: the result is a permutation, and
    the names come first, in order, exactly unless they start in one of three bad orders.
  */
  lemma EnvSortedIff(s: seq<Named>, at: Three)
    requires Placed(s, at)
    ensures var r := Hoisted(s, 0, EnvTarget);
            && r.Some? && |r.value| == |s| >= 3 && multiset(r.value) == multiset(s)
            && (r.value[0].name == POD && r.value[1].name == NAMESPACE && r.value[2].name == SERVICE <==>
              !Misplaced(at))
  {
    NamesApart();
    PlacedApart(s, at);
    WalkPlaces(s, at, 0);
    WalkThreeIff(at, |s|);
    HoistedPermutes(s, 0, EnvTarget);
    hide Hoisted, EnvTarget, WalkThree, POD, NAMESPACE, SERVICE, Misplaced;
    var r := Hoisted(s, 0, EnvTarget).value;
    var w := WalkThree(at, 0, |s|);
    assert r[0].name == POD <==> w.pod == 0;
    assert r[1].name == NAMESPACE <==> w.namespace == 1;
    assert r[2].name == SERVICE <==> w.service == 2;
  }

  lemma PlacedApart(s: seq<Named>, at: Three)
    requires Placed(s, at)
    ensures Apart(at, |s|) && |s| >= 3
  {
    NamesApart();
    hide POD, NAMESPACE, SERVICE;
    assert s[at.pod].name == POD && s[at.namespace].name == NAMESPACE && s[at.service].name == SERVICE;
  }

  /** In the order the comment names them, the three always end in place. */
  lemma InOrderIsSorted(s: seq<Named>, at: Three)
    requires Placed(s, at) && at.pod < at.namespace < at.service
    ensures var r := Hoisted(s, 0, EnvTarget);
            r.Some? && |r.value| >= 3 && r.value[0].name == POD && r.value[1].name == NAMESPACE
              && r.value[2].name == SERVICE
  {
    hide Hoisted, POD, NAMESPACE, SERVICE, Placed;
    EnvSortedIff(s, at);
  }

  /** A list that is left out of order: the service name ends at index 3. */
  lemma NotEveryOrder(x: string, y: string)
    requires x != POD && x != NAMESPACE && x != SERVICE
    ensures var s := [Named(NAMESPACE, y), Named(SERVICE, y), Named(x, y), Named(POD, y)];
            var r := Hoisted(s, 0, EnvTarget);
            r.Some? && |r.value| == 4 && r.value[3].name == SERVICE
  {
    NamesApart();
    hide POD, NAMESPACE, SERVICE;
    var s := [Named(NAMESPACE, y), Named(SERVICE, y), Named(x, y), Named(POD, y)];
    var s1 := [Named(SERVICE, y), Named(NAMESPACE, y), Named(x, y), Named(POD, y)];
    assert Swap(s, 1, 0) == s1 && Swap(s1, 1, 1) == s1;
    var s2 := [Named(POD, y), Named(NAMESPACE, y), Named(x, y), Named(SERVICE, y)];
    assert Swap(s1, 0, 3) == s2;
    assert Hoisted(s, 0, EnvTarget) == Hoisted(s1, 1, EnvTarget);
    assert Hoisted(s1, 1, EnvTarget) == Hoisted(s1, 2, EnvTarget);
    assert Hoisted(s1, 2, EnvTarget) == Hoisted(s1, 3, EnvTarget) == Hoisted(s2, 4, EnvTarget);
  }

  // ----------------------------------------------------------- the mount list

  datatype Two = Two(cookie: nat, persistence: nat)

  predicate Mounted(s: seq<Named>, at: Two) {
    Only(s, COOKIE, at.cookie) && Only(s, PVC_NAME, at.persistence)
  }

  function StepTwo(at: Two, i: nat): Two {
    if i == at.cookie then Two(0, Moved(at.persistence, 0, i))
    else if i == at.persistence then Two(Moved(at.cookie, 1, i), 1)
    else at
  }

  /** What is already certain before index i: a mount behind the walk is in its place. */
  predicate Settled(at: Two, i: nat) {
    && at.cookie != at.persistence
    && (i >= 2 ==> (at.cookie >= i || at.cookie == 0) && (at.persistence >= i || at.persistence == 1))
    && (i == 1 ==> at.persistence != 0)
  }

  lemma {:induction false} WalkMounts(s: seq<Named>, at: Two, i: nat)
    requires i <= |s| && 2 <= |s| && Mounted(s, at) && Settled(at, i)
    ensures var r := Hoisted(s, i, MountTarget);
            r.Some? && |r.value| == |s| && Mounted(r.value, Two(0, 1))
    decreases |s| - i
  {
    NamesApart();
    hide COOKIE, PVC_NAME;
    if i < |s| {
      var t := MountTarget(s[i].name);
      if t.Some? {
        MovedOnly(s, COOKIE, at.cookie, t.value, i);
        MovedOnly(s, PVC_NAME, at.persistence, t.value, i);
        hide Only;
        WalkMounts(Swap(s, t.value, i), StepTwo(at, i), i + 1);
      } else {
        WalkMounts(s, at, i + 1);
      }
    }
  }

  /** sortVolumeMounts: with one cookie mount and one persistence mount, in any order, they come first. */
  lemma MountsSorted(s: seq<Named>, at: Two)
    requires Mounted(s, at)
    ensures var r := Hoisted(s, 0, MountTarget);
            && r.Some? && |r.value| == |s| >= 2 && multiset(r.value) == multiset(s)
            && r.value[0].name == COOKIE && r.value[1].name == PVC_NAME
  {
    NamesApart();
    hide COOKIE, PVC_NAME;
    assert s[at.cookie].name == COOKIE && s[at.persistence].name == PVC_NAME;
    WalkMounts(s, at, 0);
    HoistedPermutes(s, 0, MountTarget);
  }

  // ----------------------------------------------------------------- the loops

  method Exchange(a: array<Named>, t: nat, i: nat)
    requires t < a.Length && i < a.Length
    modifies a
    ensures a[..] == Swap(old(a[..]), t, i)
  {
    a[t], a[i] := a[i], a[t];
  }

  /** One step of the walk. */
  lemma StepIs(s: seq<Named>, i: nat, target: string -> Option<nat>)
    requires i < |s|
    ensures var t := target(s[i].name);
            Hoisted(s, i, target) == if t.None? then Hoisted(s, i + 1, target)
                                     else if t.value < |s| then Hoisted(Swap(s, t.value, i), i + 1, target) else None
  {
  }

  /** sortEnvVar; false stands for an index out of range. */
  method SortEnvVar(a: array<Named>) returns (ok: bool)
    modifies a
    ensures ok <==> Hoisted(old(a[..]), 0, EnvTarget).Some?
    ensures ok ==> a[..] == Hoisted(old(a[..]), 0, EnvTarget).value
  {
    NamesApart();
    hide POD, NAMESPACE, SERVICE, Swap;
    for i := 0 to a.Length
      invariant Hoisted(a[..], i, EnvTarget) == Hoisted(old(a[..]), 0, EnvTarget)
    {
      StepIs(a[..], i, EnvTarget);
      var name := a[i].name;
      if name == POD {
        Exchange(a, 0, i);
        continue;
      }
      if name == NAMESPACE {
        if 1 >= a.Length { return false; }
        Exchange(a, 1, i);
        continue;
      }
      if name == SERVICE {
        if 2 >= a.Length { return false; }
        Exchange(a, 2, i);
      }
    }
    return true;
  }

  /** sortVolumeMounts */
  method SortVolumeMounts(a: array<Named>) returns (ok: bool)
    modifies a
    ensures ok <==> Hoisted(old(a[..]), 0, MountTarget).Some?
    ensures ok ==> a[..] == Hoisted(old(a[..]), 0, MountTarget).value
  {
    NamesApart();
    hide COOKIE, PVC_NAME, Swap;
    for i := 0 to a.Length
      invariant Hoisted(a[..], i, MountTarget) == Hoisted(old(a[..]), 0, MountTarget)
    {
      StepIs(a[..], i, MountTarget);
      var name := a[i].name;
      if name == COOKIE {
        Exchange(a, 0, i);
        continue;
      }
      if name == PVC_NAME {
        if 1 >= a.Length { return false; }
        Exchange(a, 1, i);
      }
    }
    return true;
  }
}
