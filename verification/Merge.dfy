/** The index-map merges of internal/resource/utils.go, as one keyed upsert. */
module Merge {
  import opened Objects

  /** How one kind of list is merged: its key, and what a new entry overwrites in an old one. */
  datatype Rule<!T> = Rule(key: T -> string, put: (T, T) -> T)

  /** Overwriting keeps the key, the last overwrite wins, and an entry overwrites itself with itself. */
  ghost predicate Lawful<T(!new)>(m: Rule<T>) {
    && (forall a, b :: m.key(a) == m.key(b) ==> m.key(m.put(a, b)) == m.key(a))
    && (forall a, b, c :: m.put(m.put(a, b), c) == m.put(a, c))
    && (forall a :: m.put(a, a) == a)
  }

  const VOLUMES := Rule((v: Volume) => v.name, (a: Volume, b: Volume) => a.(source := b.source))

  const PORTS := Rule((p: ServicePort) => p.name,
                      (a: ServicePort, b: ServicePort) => b.(name := a.name, nodePort := a.nodePort))

  const CONTAINERS := Rule((c: Container) => c.name, (a: Container, b: Container) => b)

  const CLAIMS := Rule((c: Claim) => c.name, (a: Claim, b: Claim) => a.(storage := b.storage))

  const CONSTRAINTS := Rule((c: Constraint) => c.topologyKey, (a: Constraint, b: Constraint) => b)

  const ENTRIES := Rule((e: Entry) => e.key, (a: Entry, b: Entry) => a.(value := b.value))

  lemma RulesLawful()
    ensures Lawful(VOLUMES) && Lawful(PORTS) && Lawful(CONTAINERS) && Lawful(CLAIMS)
    ensures Lawful(CONSTRAINTS) && Lawful(ENTRIES)
  {
  }

  // ------------------------------------------------------------ specification

  /** Index of the last entry with this key, or -1. */
  function Last<T(!new)>(m: Rule<T>, s: seq<T>, k: string): (i: int)
    ensures -1 <= i < |s|
    ensures i >= 0 ==> m.key(s[i]) == k
    ensures forall j :: i < j < |s| ==> m.key(s[j]) != k
  {
    if s == [] then -1
    else if m.key(s[|s| - 1]) == k then |s| - 1
    else Last(m, s[..|s| - 1], k)
  }

  /** Index of the first entry with this key, or the length. */
  function First<T(!new)>(m: Rule<T>, s: seq<T>, k: string): (i: nat)
    ensures i <= |s|
    ensures i < |s| ==> m.key(s[i]) == k
    ensures forall j :: 0 <= j < i ==> m.key(s[j]) != k
  {
    if s == [] then 0
    else
      var i := First(m, s[..|s| - 1], k);
      if i < |s| - 1 || m.key(s[|s| - 1]) == k then i else |s|
  }

  predicate HasKey<T(!new)>(m: Rule<T>, s: seq<T>, k: string) {
    Last(m, s, k) >= 0
  }

  function Upsert<T(!new)>(m: Rule<T>, curr: seq<T>, x: T): seq<T> {
    var i := Last(m, curr, m.key(x));
    if i < 0 then curr + [x] else curr[i := m.put(curr[i], x)]
  }

  /** The upsert fold the six merge functions compute. */
  function Merged<T(!new)>(m: Rule<T>, curr: seq<T>, next: seq<T>): seq<T> {
    if next == [] then curr
    else Upsert(m, Merged(m, curr, next[..|next| - 1]), next[|next| - 1])
  }

  // ------------------------------------------- what the specification promises

  /** Existing entries stay where they are; the last one of a key takes the last new value. */
  ghost predicate KeepsOld<T(!new)>(m: Rule<T>, curr: seq<T>, next: seq<T>, r: seq<T>) {
    && |curr| <= |r|
    && forall i :: 0 <= i < |curr| ==> r[i] == OldEntry(m, curr, next, i)
  }

  function OldEntry<T(!new)>(m: Rule<T>, curr: seq<T>, next: seq<T>, i: nat): T
    requires i < |curr|
  {
    var k := m.key(curr[i]);
    if i == Last(m, curr, k) && HasKey(m, next, k) then m.put(curr[i], next[Last(m, next, k)]) else curr[i]
  }

  /** An appended entry has a new key, and that key only once. */
  ghost predicate NewEntry<T(!new)>(m: Rule<T>, curr: seq<T>, next: seq<T>, r: seq<T>, i: nat)
    requires i < |r|
  {
    var k := m.key(r[i]);
    && !HasKey(m, curr, k) && HasKey(m, next, k) && Last(m, r, k) == i && First(m, next, k) < |next|
    && r[i] == m.put(next[First(m, next, k)], next[Last(m, next, k)])
  }

  ghost predicate AppendsNew<T(!new)>(m: Rule<T>, curr: seq<T>, next: seq<T>, r: seq<T>) {
    forall i :: |curr| <= i < |r| ==> NewEntry(m, curr, next, r, i)
  }

  /** Appended entries stand in the order in which their keys first occur. */
  ghost predicate InOrder<T(!new)>(m: Rule<T>, curr: seq<T>, next: seq<T>, r: seq<T>) {
    forall i, j :: |curr| <= i < j < |r| ==> First(m, next, m.key(r[i])) < First(m, next, m.key(r[j]))
  }

  ghost predicate KeysUnited<T(!new)>(m: Rule<T>, curr: seq<T>, next: seq<T>, r: seq<T>) {
    forall k :: HasKey(m, r, k) <==> HasKey(m, curr, k) || HasKey(m, next, k)
  }

  /** Closed form: what stands where after a merge. */
  ghost predicate Shape<T(!new)>(m: Rule<T>, curr: seq<T>, next: seq<T>, r: seq<T>) {
    KeepsOld(m, curr, next, r) && AppendsNew(m, curr, next, r) && InOrder(m, curr, next, r)
      && KeysUnited(m, curr, next, r)
  }

  lemma LastOfAppend<T(!new)>(m: Rule<T>, s: seq<T>, x: T, k: string)
    ensures Last(m, s + [x], k) == if m.key(x) == k then |s| else Last(m, s, k)
    ensures First(m, s + [x], k) == if First(m, s, k) < |s| then First(m, s, k) else if m.key(x) == k then |s|
              else |s| + 1
  {
    assert (s + [x])[..|s|] == s;
  }

  lemma LastIs<T(!new)>(m: Rule<T>, s: seq<T>, i: nat)
    requires i < |s| && forall j :: i < j < |s| ==> m.key(s[j]) != m.key(s[i])
    ensures Last(m, s, m.key(s[i])) == i
  {
  }

  lemma KeysPointwise<T(!new)>(m: Rule<T>, s: seq<T>, t: seq<T>, k: string)
    requires |s| == |t| && forall i :: 0 <= i < |s| ==> m.key(s[i]) == m.key(t[i])
    ensures Last(m, s, k) == Last(m, t, k)
  {
  }

  lemma OldKeys<T(!new)>(m: Rule<T>, curr: seq<T>, next: seq<T>, r: seq<T>, i: nat)
    requires Lawful(m) && KeepsOld(m, curr, next, r) && i < |curr|
    ensures m.key(r[i]) == m.key(curr[i])
  {
    assert r[i] == OldEntry(m, curr, next, i);
  }

  /** Where a key stands in a merged list. */
  lemma LastInShape<T(!new)>(m: Rule<T>, curr: seq<T>, next: seq<T>, r: seq<T>, k: string)
    requires Lawful(m) && Shape(m, curr, next, r)
    ensures HasKey(m, curr, k) ==> Last(m, r, k) == Last(m, curr, k)
    ensures !HasKey(m, curr, k) && HasKey(m, next, k) ==> |curr| <= Last(m, r, k)
  {
    var i, at := Last(m, curr, k), Last(m, r, k);
    if i >= 0 {
      OldKeys(m, curr, next, r, i);
      assert |curr| <= at ==> NewEntry(m, curr, next, r, at);
      if i < at < |curr| {
        OldKeys(m, curr, next, r, at);
      }
    } else if HasKey(m, next, k) && at < |curr| {
      assert HasKey(m, r, k);
      OldKeys(m, curr, next, r, at);
    }
  }

  lemma AppendNewEntry<T(!new)>(m: Rule<T>, curr: seq<T>, front: seq<T>, x: T, r: seq<T>, i: nat)
    requires Lawful(m) && Shape(m, curr, front, r) && !HasKey(m, r, m.key(x))
    requires |curr| <= i <= |r|
    ensures NewEntry(m, curr, front + [x], r + [x], i)
  {
    var t := r + [x];
    LastOfAppend(m, r, x, m.key(t[i]));
    LastOfAppend(m, front, x, m.key(t[i]));
    if i < |r| {
      assert NewEntry(m, curr, front, r, i);
    } else {
      assert !HasKey(m, curr, m.key(x)) && !HasKey(m, front, m.key(x));
    }
  }

  /** One upsert into a list without the key. */
  lemma AppendShape<T(!new)>(m: Rule<T>, curr: seq<T>, front: seq<T>, x: T, r: seq<T>)
    requires Lawful(m) && Shape(m, curr, front, r) && !HasKey(m, r, m.key(x))
    ensures Shape(m, curr, front + [x], r + [x])
  {
    var next, t, kx := front + [x], r + [x], m.key(x);
    assert !HasKey(m, curr, kx) && !HasKey(m, front, kx);
    forall k ensures HasKey(m, t, k) <==> HasKey(m, curr, k) || HasKey(m, next, k) {
      LastOfAppend(m, r, x, k);
      LastOfAppend(m, front, x, k);
      assert HasKey(m, r, k) <==> HasKey(m, curr, k) || HasKey(m, front, k);
    }
    forall i | 0 <= i < |curr| ensures t[i] == OldEntry(m, curr, next, i) {
      LastOfAppend(m, front, x, m.key(curr[i]));
      assert r[i] == OldEntry(m, curr, front, i);
    }
    forall i | |curr| <= i < |t| ensures NewEntry(m, curr, next, t, i) {
      AppendNewEntry(m, curr, front, x, r, i);
    }
    forall i, j | |curr| <= i < j < |t| ensures First(m, next, m.key(t[i])) < First(m, next, m.key(t[j])) {
      assert NewEntry(m, curr, front, r, i);
      LastOfAppend(m, front, x, m.key(t[i]));
      LastOfAppend(m, front, x, m.key(t[j]));
      if j < |r| {
        assert NewEntry(m, curr, front, r, j);
      }
    }
  }

  function Overwritten<T(!new)>(m: Rule<T>, r: seq<T>, x: T): seq<T>
    requires HasKey(m, r, m.key(x))
  {
    var at := Last(m, r, m.key(x));
    r[at := m.put(r[at], x)]
  }

  lemma OverwriteKeys<T(!new)>(m: Rule<T>, r: seq<T>, x: T)
    requires Lawful(m) && HasKey(m, r, m.key(x))
    ensures var t := Overwritten(m, r, x);
            && |t| == |r| && (forall i :: 0 <= i < |r| ==> m.key(t[i]) == m.key(r[i]))
            && (forall k :: Last(m, t, k) == Last(m, r, k))
  {
    var t := Overwritten(m, r, x);
    forall i | 0 <= i < |r| ensures m.key(t[i]) == m.key(r[i]) {
    }
    forall k ensures Last(m, t, k) == Last(m, r, k) {
      KeysPointwise(m, r, t, k);
    }
  }

  lemma OverwriteOld<T(!new)>(m: Rule<T>, curr: seq<T>, front: seq<T>, x: T, r: seq<T>, i: nat)
    requires Lawful(m) && Shape(m, curr, front, r) && HasKey(m, r, m.key(x)) && i < |curr|
    ensures Overwritten(m, r, x)[i] == OldEntry(m, curr, front + [x], i)
  {
    LastInShape(m, curr, front, r, m.key(x));
    LastOfAppend(m, front, x, m.key(curr[i]));
    assert r[i] == OldEntry(m, curr, front, i);
    OldKeys(m, curr, front, r, i);
  }

  lemma OverwriteNew<T(!new)>(m: Rule<T>, curr: seq<T>, front: seq<T>, x: T, r: seq<T>, i: nat)
    requires Lawful(m) && Shape(m, curr, front, r) && HasKey(m, r, m.key(x)) && |curr| <= i < |r|
    ensures |Overwritten(m, r, x)| == |r| && NewEntry(m, curr, front + [x], Overwritten(m, r, x), i)
  {
    OverwriteKeys(m, r, x);
    assert NewEntry(m, curr, front, r, i);
    LastOfAppend(m, front, x, m.key(r[i]));
  }

  /** One upsert onto an entry with the key. */
  lemma OverwriteShape<T(!new)>(m: Rule<T>, curr: seq<T>, front: seq<T>, x: T, r: seq<T>)
    requires Lawful(m) && Shape(m, curr, front, r) && HasKey(m, r, m.key(x))
    ensures Shape(m, curr, front + [x], Overwritten(m, r, x))
  {
    hide Lawful, Overwritten, OldEntry;
    var next, t := front + [x], Overwritten(m, r, x);
    OverwriteKeys(m, r, x);
    forall k ensures HasKey(m, t, k) <==> HasKey(m, curr, k) || HasKey(m, next, k) {
      LastOfAppend(m, front, x, k);
      assert HasKey(m, r, k) <==> HasKey(m, curr, k) || HasKey(m, front, k);
    }
    forall i | 0 <= i < |curr| ensures t[i] == OldEntry(m, curr, next, i) {
      OverwriteOld(m, curr, front, x, r, i);
    }
    forall i | |curr| <= i < |t| ensures NewEntry(m, curr, next, t, i) {
      OverwriteNew(m, curr, front, x, r, i);
    }
    forall i, j | |curr| <= i < j < |t| ensures First(m, next, m.key(t[i])) < First(m, next, m.key(t[j])) {
      assert NewEntry(m, curr, front, r, i) && NewEntry(m, curr, front, r, j);
      LastOfAppend(m, front, x, m.key(r[i]));
      LastOfAppend(m, front, x, m.key(r[j]));
    }
  }

  /** The merge has the closed form, for any lists, repeated keys included. */
  lemma {:induction false} MergeShape<T(!new)>(m: Rule<T>, curr: seq<T>, next: seq<T>)
    requires Lawful(m)
    ensures Shape(m, curr, next, Merged(m, curr, next))
  {
    if next != [] {
      var front := next[..|next| - 1];
      assert next == front + [next[|next| - 1]];
      MergeShape(m, curr, front);
      var r, x := Merged(m, curr, front), next[|next| - 1];
      if HasKey(m, r, m.key(x)) {
        OverwriteShape(m, curr, front, x, r);
      } else {
        AppendShape(m, curr, front, x, r);
      }
    }
  }

  /** Every new key is present and its last new value is already in place. */
  ghost predicate Absorbed<T(!new)>(m: Rule<T>, r: seq<T>, next: seq<T>) {
    forall k :: HasKey(m, next, k) ==>
      HasKey(m, r, k) && m.put(r[Last(m, r, k)], next[Last(m, next, k)]) == r[Last(m, r, k)]
  }

  /** A list is a fixpoint of merging exactly when it has absorbed the new entries. */
  lemma FixpointIff<T(!new)>(m: Rule<T>, r: seq<T>, next: seq<T>)
    requires Lawful(m)
    ensures Merged(m, r, next) == r <==> Absorbed(m, r, next)
  {
    var t := Merged(m, r, next);
    MergeShape(m, r, next);
    if Absorbed(m, r, next) {
      assert |t| > |r| ==> NewEntry(m, r, next, t, |r|);
      forall i | 0 <= i < |r| ensures t[i] == r[i] {
        assert t[i] == OldEntry(m, r, next, i);
      }
    }
    if t == r {
      forall k | HasKey(m, next, k)
        ensures HasKey(m, r, k) && m.put(r[Last(m, r, k)], next[Last(m, next, k)]) == r[Last(m, r, k)]
      {
        assert HasKey(m, t, k);
        assert t[Last(m, r, k)] == OldEntry(m, r, next, Last(m, r, k));
      }
    }
  }

  /** Merging the same entries again changes nothing, even when keys repeat on either side. */
  lemma MergeIdempotent<T(!new)>(m: Rule<T>, curr: seq<T>, next: seq<T>)
    requires Lawful(m)
    ensures Absorbed(m, Merged(m, curr, next), next)
    ensures Merged(m, Merged(m, curr, next), next) == Merged(m, curr, next)
  {
    var r := Merged(m, curr, next);
    MergeShape(m, curr, next);
    forall k | HasKey(m, next, k)
      ensures HasKey(m, r, k) && m.put(r[Last(m, r, k)], next[Last(m, next, k)]) == r[Last(m, r, k)]
    {
      assert HasKey(m, r, k);
      LastInShape(m, curr, next, r, k);
      var at := Last(m, r, k);
      if HasKey(m, curr, k) {
        assert r[at] == OldEntry(m, curr, next, at);
      } else {
        assert NewEntry(m, curr, next, r, at);
      }
    }
    FixpointIff(m, r, next);
  }

  ghost predicate UniqueKeys<T(!new)>(m: Rule<T>, s: seq<T>) {
    forall i, j :: 0 <= i < j < |s| ==> m.key(s[i]) != m.key(s[j])
  }

  /** Keys that were unique stay unique. */
  lemma MergeKeepsUnique<T(!new)>(m: Rule<T>, curr: seq<T>, next: seq<T>)
    requires Lawful(m) && UniqueKeys(m, curr)
    ensures UniqueKeys(m, Merged(m, curr, next))
  {
    var r := Merged(m, curr, next);
    MergeShape(m, curr, next);
    forall i, j | 0 <= i < j < |r| ensures m.key(r[i]) != m.key(r[j]) {
      if i < |curr| {
        OldKeys(m, curr, next, r, i);
      }
      if j < |curr| {
        OldKeys(m, curr, next, r, j);
      } else {
        assert NewEntry(m, curr, next, r, j);
        if |curr| <= i {
          assert NewEntry(m, curr, next, r, i);
        }
      }
    }
  }

  // ------------------------------------------- the merges without their rules

  /** The last entry with its key. */
  ghost predicate LastOf<T(!new)>(s: seq<T>, key: T -> string, i: int) {
    0 <= i < |s| && forall l :: i < l < |s| ==> key(s[l]) != key(s[i])
  }

  /** For the last wanted entry of each key, the last entry of that key is the same in what matters. */
  ghost predicate Taken<T(!new)>(r: seq<T>, wanted: seq<T>, key: T -> string, same: (T, T) -> bool) {
    forall j :: LastOf(wanted, key, j) ==> exists i ::
      LastOf(r, key, i) && key(r[i]) == key(wanted[j]) && same(r[i], wanted[j])
  }

  /** Every wanted container is there, exactly as wanted. */
  ghost predicate ContainersTaken(r: seq<Container>, wanted: seq<Container>) {
    Taken(r, wanted, (c: Container) => c.name, (a: Container, b: Container) => a == b)
  }

  /** Every wanted volume is there with its source. */
  ghost predicate VolumesTaken(r: seq<Volume>, wanted: seq<Volume>) {
    Taken(r, wanted, (v: Volume) => v.name, (a: Volume, b: Volume) => a.source == b.source)
  }

  /** Every wanted port is there with its number, target and protocol. */
  ghost predicate PortsTaken(r: seq<ServicePort>, wanted: seq<ServicePort>) {
    Taken(r, wanted, (p: ServicePort) => p.name, (a: ServicePort, b: ServicePort) =>
      a.port == b.port && a.targetPort == b.targetPort && a.protocol == b.protocol)
  }

  ghost predicate ConstraintsTaken(r: seq<Constraint>, wanted: seq<Constraint>) {
    Taken(r, wanted, (c: Constraint) => c.topologyKey, (a: Constraint, b: Constraint) => a == b)
  }

  /** Every wanted claim template is there and asks for the wanted storage. */
  ghost predicate ClaimsTaken(r: seq<Claim>, wanted: seq<Claim>) {
    Taken(r, wanted, (c: Claim) => c.name, (a: Claim, b: Claim) => a.storage == b.storage)
  }

  lemma LastOfIs<T(!new)>(m: Rule<T>, s: seq<T>, key: T -> string, i: int)
    requires forall a :: m.key(a) == key(a)
    ensures LastOf(s, key, i) <==> 0 <= i < |s| && Last(m, s, key(s[i])) == i
  {
  }

  /** Absorbing by a rule is taking over what the rule overwrites. */
  lemma AbsorbedIff<T(!new)>(m: Rule<T>, r: seq<T>, wanted: seq<T>, key: T -> string, same: (T, T) -> bool)
    requires forall a :: m.key(a) == key(a)
    requires forall a, b :: key(a) == key(b) ==> (m.put(a, b) == a <==> same(a, b))
    ensures Absorbed(m, r, wanted) <==> Taken(r, wanted, key, same)
  {
    if Absorbed(m, r, wanted) {
      forall j | LastOf(wanted, key, j)
        ensures exists i :: LastOf(r, key, i) && key(r[i]) == key(wanted[j]) && same(r[i], wanted[j])
      {
        LastOfIs(m, wanted, key, j);
        assert HasKey(m, wanted, key(wanted[j]));
        var i := Last(m, r, key(wanted[j]));
        LastOfIs(m, r, key, i);
      }
    }
    if Taken(r, wanted, key, same) {
      forall k | HasKey(m, wanted, k)
        ensures HasKey(m, r, k) && m.put(r[Last(m, r, k)], wanted[Last(m, wanted, k)]) == r[Last(m, r, k)]
      {
        var j := Last(m, wanted, k);
        LastOfIs(m, wanted, key, j);
        var i :| LastOf(r, key, i) && key(r[i]) == key(wanted[j]) && same(r[i], wanted[j]);
        LastOfIs(m, r, key, i);
      }
    }
  }

  lemma VolumesTakenIff(r: seq<Volume>, wanted: seq<Volume>)
    ensures Absorbed(VOLUMES, r, wanted) <==> VolumesTaken(r, wanted)
  {
    hide Absorbed, Taken;
    AbsorbedIff(VOLUMES, r, wanted, (v: Volume) => v.name, (a: Volume, b: Volume) => a.source == b.source);
  }

  lemma PortsTakenIff(r: seq<ServicePort>, wanted: seq<ServicePort>)
    ensures Absorbed(PORTS, r, wanted) <==> PortsTaken(r, wanted)
  {
    hide Absorbed, Taken;
    AbsorbedIff(PORTS, r, wanted, (p: ServicePort) => p.name, (a: ServicePort, b: ServicePort) =>
      a.port == b.port && a.targetPort == b.targetPort && a.protocol == b.protocol);
  }

  lemma ContainersTakenIff(r: seq<Container>, wanted: seq<Container>)
    ensures Absorbed(CONTAINERS, r, wanted) <==> ContainersTaken(r, wanted)
  {
    hide Absorbed, Taken;
    AbsorbedIff(CONTAINERS, r, wanted, (c: Container) => c.name, (a: Container, b: Container) => a == b);
  }

  lemma ConstraintsTakenIff(r: seq<Constraint>, wanted: seq<Constraint>)
    ensures Absorbed(CONSTRAINTS, r, wanted) <==> ConstraintsTaken(r, wanted)
  {
    hide Absorbed, Taken;
    AbsorbedIff(CONSTRAINTS, r, wanted, (c: Constraint) => c.topologyKey, (a: Constraint, b: Constraint) => a == b);
  }

  lemma ClaimsTakenIff(r: seq<Claim>, wanted: seq<Claim>)
    ensures Absorbed(CLAIMS, r, wanted) <==> ClaimsTaken(r, wanted)
  {
    hide Absorbed, Taken;
    AbsorbedIff(CLAIMS, r, wanted, (c: Claim) => c.name, (a: Claim, b: Claim) => a.storage == b.storage);
  }

  /** Entries that are not wanted stay where and as they are, and nothing that is not wanted is added. */
  ghost predicate OthersKept<T(!new)>(curr: seq<T>, wanted: seq<T>, r: seq<T>, key: T -> string) {
    && |curr| <= |r|
    && (forall i :: 0 <= i < |curr| && (forall x :: x in wanted ==> key(x) != key(curr[i])) ==> r[i] == curr[i])
    && (forall i :: |curr| <= i < |r| ==> exists x :: x in wanted && key(x) == key(r[i]))
  }

  lemma MergedKeepsOthers<T(!new)>(m: Rule<T>, curr: seq<T>, wanted: seq<T>, key: T -> string)
    requires Lawful(m) && forall a :: m.key(a) == key(a)
    ensures OthersKept(curr, wanted, Merged(m, curr, wanted), key)
  {
    var r := Merged(m, curr, wanted);
    MergeShape(m, curr, wanted);
    forall i | 0 <= i < |curr| && (forall x :: x in wanted ==> key(x) != key(curr[i])) ensures r[i] == curr[i] {
      assert r[i] == OldEntry(m, curr, wanted, i);
    }
    forall i | |curr| <= i < |r| ensures exists x :: x in wanted && key(x) == key(r[i]) {
      assert NewEntry(m, curr, wanted, r, i);
      assert wanted[Last(m, wanted, m.key(r[i]))] in wanted;
    }
  }

  /** A claim template that was there keeps everything but its storage. */
  lemma ClaimsKeepContent(curr: seq<Claim>, wanted: seq<Claim>, i: nat)
    requires i < |curr|
    ensures var r := Merged(CLAIMS, curr, wanted);
            i < |r| && r[i].name == curr[i].name && r[i].content == curr[i].content
  {
    RulesLawful();
    MergeShape(CLAIMS, curr, wanted);
    assert Merged(CLAIMS, curr, wanted)[i] == OldEntry(CLAIMS, curr, wanted, i);
  }

  /** A port that the cluster already had keeps its node port, whatever the new list says. */
  lemma NodePortsSurvive(curr: seq<ServicePort>, next: seq<ServicePort>, i: nat)
    requires i < |curr|
    ensures var r := Merged(PORTS, curr, next);
            i < |r| && r[i].name == curr[i].name && r[i].nodePort == curr[i].nodePort
  {
    RulesLawful();
    MergeShape(PORTS, curr, next);
    assert Merged(PORTS, curr, next)[i] == OldEntry(PORTS, curr, next, i);
  }

  // --------------------------------------------------- the loop with its index

  /** mergeVolumes, mergePorts, mergeContainers, mergeVolumeMounts, mergePVCs and mergeTSCs. */
  method MergeByIndex<T(!new)>(m: Rule<T>, curr: seq<T>, next: seq<T>) returns (r: seq<T>)
    requires Lawful(m)
    ensures r == Merged(m, curr, next)
  {
    r := curr;
    var currMap: map<string, nat> := map[];
    for index := 0 to |curr|
      invariant forall k :: k in currMap <==> HasKey(m, curr[..index], k)
      invariant forall k :: k in currMap ==> currMap[k] == Last(m, curr[..index], k)
    {
      forall k
        ensures Last(m, curr[..index + 1], k) == if m.key(curr[index]) == k then index else Last(m, curr[..index], k)
      {
        assert curr[..index + 1] == curr[..index] + [curr[index]];
        LastOfAppend(m, curr[..index], curr[index], k);
      }
      currMap := currMap[m.key(curr[index]) := index];
    }
    assert curr[..|curr|] == curr;
    for index := 0 to |next|
      invariant r == Merged(m, curr, next[..index])
      invariant forall k :: k in currMap <==> HasKey(m, r, k)
      invariant forall k :: k in currMap ==> currMap[k] == Last(m, r, k)
    {
      var x := next[index];
      ghost var before := r;
      assert next[..index + 1][..index] == next[..index];
      if m.key(x) in currMap {
        var currIndex := currMap[m.key(x)];
        r := r[currIndex := m.put(r[currIndex], x)];
        forall k ensures Last(m, r, k) == Last(m, before, k) {
          KeysPointwise(m, before, r, k);
        }
      } else {
        currMap := currMap[m.key(x) := |r|];
        r := r + [x];
        forall k ensures Last(m, r, k) == if m.key(x) == k then |before| else Last(m, before, k) {
          LastOfAppend(m, before, x, k);
        }
      }
    }
    assert next[..|next|] == next;
  }
}
