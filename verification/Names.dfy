/** Names of child resources (api/v1beta1) and their injectivity. */
module Names {
  import opened Basics

  function Digit(d: nat): char
    requires d < 10
  {
    ['0', '1', '2', '3', '4', '5', '6', '7', '8', '9'][d]
  }

  /** strconv.Itoa on the values used here. */
  function Itoa(n: nat): (s: string)
    ensures |s| > 0
    ensures forall i :: 0 <= i < |s| ==> '0' <= s[i] <= '9'
  {
    if n < 10 then [Digit(n)] else Itoa(n / 10) + [Digit(n % 10)]
  }

  function Value(s: string): nat
    requires forall i :: 0 <= i < |s| ==> '0' <= s[i] <= '9'
  {
    if s == [] then 0 else Value(s[..|s| - 1]) * 10 + (s[|s| - 1] - '0') as nat
  }

  /** Decimal printing is undone by decimal reading, so it is injective. */
  lemma {:induction false} ItoaRoundTrip(n: nat)
    ensures Value(Itoa(n)) == n
  {
    var s := Itoa(n);
    if n < 10 {
      assert s[..0] == [];
    } else {
      ItoaRoundTrip(n / 10);
      assert s[..|s| - 1] == Itoa(n / 10);
    }
  }

  /** The digits of a number, without leading zeros. */
  predicate Decimal(s: string) {
    s != [] && (forall i :: 0 <= i < |s| ==> '0' <= s[i] <= '9') && (|s| > 1 ==> s[0] != '0')
  }

  lemma {:induction false} ItoaDecimal(n: nat)
    ensures Decimal(Itoa(n)) && (n > 0 ==> Itoa(n)[0] != '0')
  {
    if n >= 10 {
      ItoaDecimal(n / 10);
    }
  }

  lemma DigitOf(c: char)
    requires '0' <= c <= '9'
    ensures (c - '0') as nat < 10 && Digit((c - '0') as nat) == c
  {
  }

  lemma LastDigit(front: nat, d: nat)
    requires front > 0 && d < 10
    ensures Itoa(front * 10 + d) == Itoa(front) + [Digit(d)]
  {
    assert (front * 10 + d) / 10 == front && (front * 10 + d) % 10 == d;
    hide Digit;
  }

  lemma {:induction false} DecimalIsItoa(s: string)
    requires Decimal(s)
    ensures Itoa(Value(s)) == s
  {
    var rest, last := s[..|s| - 1], (s[|s| - 1] - '0') as nat;
    DigitOf(s[|s| - 1]);
    assert Value(s) == Value(rest) * 10 + last && s == rest + [s[|s| - 1]];
    if |s| == 1 {
      assert rest == [] && Value(rest) == 0;
      hide Digit, Value;
    } else {
      LeadingDigit(rest);
      DecimalIsItoa(rest);
      LastDigit(Value(rest), last);
      hide Digit, Value, Itoa;
    }
  }

  /** Decimal printing yields the one text without leading zeros that reads as the number. */
  lemma ItoaIff(n: nat, s: string)
    ensures s == Itoa(n) <==> Decimal(s) && Value(s) == n
  {
    ItoaDecimal(n);
    ItoaRoundTrip(n);
    if Decimal(s) {
      DecimalIsItoa(s);
    }
  }

  lemma {:induction false} LeadingDigit(s: string)
    requires Decimal(s) && s[0] != '0'
    ensures Value(s) > 0
  {
    if |s| > 1 {
      LeadingDigit(s[..|s| - 1]);
    } else {
      assert s[..0] == [];
    }
  }

  /** strings.TrimSuffix(s, "-") */
  function TrimDash(s: string): string {
    if |s| > 0 && s[|s| - 1] == '-' then s[..|s| - 1] else s
  }

  function ChildResourceName(cluster: string, name: string): string {
    TrimDash(Join([cluster, name], "-"))
  }

  function StatefulsetName(cluster: string, name: string, replica: nat): string {
    TrimDash(Join([ChildResourceName(cluster, name), Itoa(replica)], "-"))
  }

  function PodName(cluster: string, name: string, replica: nat): string {
    TrimDash(Join([StatefulsetName(cluster, name, replica), "0"], "-"))
  }

  /** The claim that replica i of a StatefulSet mounts. */
  function ClaimName(pvc: string, set_: string, i: nat): string {
    pvc + "-" + set_ + "-" + Itoa(i)
  }

  const SET_SUFFIX := "server"

  /** The one claim template of a node. */
  const PVC_NAME := "persistence"

  /** A suffix that does not end in a dash is kept, after a dash. */
  lemma JoinTwo(a: string, b: string)
    requires b == [] || b[|b| - 1] != '-'
    ensures TrimDash(Join([a, b], "-")) == if b == [] then a else a + "-" + b
  {
    assert [a, b][1..] == [b];
    assert Join([a, b], "-") == a + "-" + b;
    assert (a + "-")[..|a + "-"| - 1] == a;
  }

  lemma ChildNameIs(cluster: string, name: string)
    requires name == [] || name[|name| - 1] != '-'
    ensures ChildResourceName(cluster, name) == if name == [] then cluster else cluster + "-" + name
  {
    JoinTwo(cluster, name);
  }

  lemma BetweenDashes(a: string, b: string)
    ensures a + "-server-" + b == a + "-" + SET_SUFFIX + "-" + b
  {
    var dashed := "-" + SET_SUFFIX + "-";
    assert dashed == "-server-";
    hide SET_SUFFIX;
    assert a + dashed == a + "-" + SET_SUFFIX + "-";
  }

  lemma SetNameIs(cluster: string, i: nat)
    ensures StatefulsetName(cluster, SET_SUFFIX, i) == cluster + "-server-" + Itoa(i)
  {
    ChildNameIs(cluster, SET_SUFFIX);
    JoinTwo(ChildResourceName(cluster, SET_SUFFIX), Itoa(i));
    BetweenDashes(cluster, Itoa(i));
    hide ChildResourceName, TrimDash, Join, Itoa;
  }

  /** A node's set is named after the cluster and the decimal text of its index, and its one pod is pod 0 of it. */
  lemma NodeNamesRead(cluster: string, i: nat, d: string)
    requires Decimal(d) && Value(d) == i
    ensures StatefulsetName(cluster, "server", i) == cluster + "-server-" + d
    ensures PodName(cluster, "server", i) == cluster + "-server-" + d + "-0"
  {
    ItoaIff(i, d);
    SetNameIs(cluster, i);
    JoinTwo(StatefulsetName(cluster, SET_SUFFIX, i), "0");
    var set_ := cluster + "-server-" + d;
    assert set_ + "-0" == set_ + "-" + "0";
  }

  /** The text is that of the claim of replica i of this set: its template, the set and the number. */
  ghost predicate ClaimText(c: string, set_: string, i: nat) {
    exists d :: Decimal(d) && Value(d) == i && c == "persistence-" + set_ + "-" + d
  }

  lemma ClaimNameIff(c: string, set_: string, i: nat)
    ensures c == ClaimName(PVC_NAME, set_, i) <==> ClaimText(c, set_, i)
  {
    assert forall d :: "persistence-" + set_ + "-" + d == PVC_NAME + "-" + set_ + "-" + d;
    ItoaIff(i, Itoa(i));
    forall d: string | Decimal(d) && Value(d) == i ensures d == Itoa(i) {
      ItoaIff(i, d);
    }
  }

  lemma SuffixCancel(a: string, x: string, y: string)
    requires a + x == a + y
    ensures x == y
  {
    assert (a + x)[|a|..] == x;
    assert (a + y)[|a|..] == y;
  }

  /** Two nodes of one cluster never share a StatefulSet name, or a pod name. */
  lemma NodeNamesInjective(cluster: string, i: nat, j: nat)
    ensures StatefulsetName(cluster, SET_SUFFIX, i) == StatefulsetName(cluster, SET_SUFFIX, j) ==> i == j
    ensures PodName(cluster, SET_SUFFIX, i) == PodName(cluster, SET_SUFFIX, j) ==> i == j
  {
    SetNameIs(cluster, i);
    SetNameIs(cluster, j);
    var a, b := StatefulsetName(cluster, SET_SUFFIX, i), StatefulsetName(cluster, SET_SUFFIX, j);
    JoinTwo(a, "0");
    JoinTwo(b, "0");
    if a + "-" + "0" == b + "-" + "0" {
      assert a == (a + "-" + "0")[..|a + "-" + "0"| - 2];
      assert b == (b + "-" + "0")[..|b + "-" + "0"| - 2];
    }
    if a == b {
      SuffixCancel(cluster + "-server-", Itoa(i), Itoa(j));
      ItoaRoundTrip(i);
      ItoaRoundTrip(j);
    }
  }

  /** A number after the last dash is read off the end of a text. */
  lemma LastNumber(a: string, b: string, i: nat, j: nat)
    requires a + "-" + Itoa(i) == b + "-" + Itoa(j)
    ensures a == b && i == j
  {
    var s, t := Itoa(i), Itoa(j);
    var x, y := a + "-" + s, b + "-" + t;
    assert x[|x| - |s| - 1] == '-' && y[|y| - |t| - 1] == '-';
    assert forall p :: |y| - |t| <= p < |y| ==> '0' <= y[p] <= '9';
    assert forall p :: |x| - |s| <= p < |x| ==> '0' <= x[p] <= '9';
    assert |s| == |t|;
    assert a == x[..|a|] && b == y[..|b|];
    assert s == x[|x| - |s|..] && t == y[|y| - |t|..];
    ItoaRoundTrip(i);
    ItoaRoundTrip(j);
  }

  /** A claim belongs to one replica of one set. */
  lemma ClaimNamesInjective(pvc: string, set_: string, other: string, i: nat, j: nat)
    ensures ClaimName(pvc, set_, i) == ClaimName(pvc, other, j) ==> set_ == other && i == j
  {
    if ClaimName(pvc, set_, i) == ClaimName(pvc, other, j) {
      LastNumber(pvc + "-" + set_, pvc + "-" + other, i, j);
      SuffixCancel(pvc + "-", set_, other);
    }
  }
}
