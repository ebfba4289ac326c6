/** The desired plugin list and its two printed forms (internal/resource/rabbitmq_plugins.go). */
module Plugins {
  import opened Basics

  const REQUIRED: seq<string> :=
    ["rabbitmq_peer_discovery_k8s", "rabbitmq_prometheus", "rabbitmq_management"]

  /** The list without repetitions, keeping first occurrences. */
  function Dedup(names: seq<string>): (r: seq<string>)
    ensures forall p :: p in r <==> p in names
  {
    if names == [] then []
    else
      var rest, last := names[..|names| - 1], names[|names| - 1];
      assert names == rest + [last];
      if last in rest then Dedup(rest) else Dedup(rest) + [last]
  }

  function Desired(additional: seq<string>): seq<string> {
    Dedup(REQUIRED + additional)
  }

  /** AsString */
  function AsString(additional: seq<string>, sep: string): string {
    Join(Desired(additional), sep)
  }

  /** desiredPluginsAsString: the content of the enabled_plugins file. */
  function EnabledPluginsFile(additional: seq<string>): string {
    "[" + AsString(additional, ",") + "]."
  }

  function SetCommand(additional: seq<string>): string {
    "rabbitmq-plugins set " + AsString(additional, " ")
  }

  // -------------------------------------------------------- the list itself

  predicate NoRepeats(names: seq<string>) {
    forall i, j :: 0 <= i < j < |names| ==> names[i] != names[j]
  }

  /** Position of the first occurrence. */
  function First(names: seq<string>, p: string): (i: nat)
    requires p in names
    ensures i < |names| && names[i] == p && forall k :: 0 <= k < i ==> names[k] != p
  {
    if names[0] == p then 0 else 1 + First(names[1..], p)
  }

  lemma {:induction false} FirstInPrefix(rest: seq<string>, last: string, p: string)
    requires p in rest
    ensures First(rest + [last], p) == First(rest, p)
  {
    assert (rest + [last])[First(rest, p)] == p;
  }

  /** The result lists every name once, in the order of first occurrence. */
  lemma {:induction false} DedupOrder(names: seq<string>)
    ensures var d := Dedup(names);
            NoRepeats(d) && forall i, j :: 0 <= i < j < |d| ==> First(names, d[i]) < First(names, d[j])
  {
    if names != [] {
      var rest, last := names[..|names| - 1], names[|names| - 1];
      assert names == rest + [last];
      DedupOrder(rest);
      forall p | p in rest ensures First(names, p) == First(rest, p) {
        FirstInPrefix(rest, last, p);
      }
      var d, dr := Dedup(names), Dedup(rest);
      forall i, j | 0 <= i < j < |d|
        ensures d[i] != d[j] && First(names, d[i]) < First(names, d[j])
      {
        assert dr[i] in rest && d[i] == dr[i];
        if j < |dr| {
          assert dr[j] in rest && d[j] == dr[j] && dr[i] != dr[j];
        } else {
          assert d[j] == last && last !in rest;
          assert First(names, last) == |rest|;
        }
      }
    }
  }

  lemma {:induction false} DedupIdentity(names: seq<string>)
    requires NoRepeats(names)
    ensures Dedup(names) == names
  {
    if names != [] {
      DedupIdentity(names[..|names| - 1]);
    }
  }

  /** Names already in the base leave it unchanged. */
  lemma {:induction false} DedupAbsorbs(base: seq<string>, more: seq<string>)
    requires forall p :: p in more ==> p in base
    ensures Dedup(base + more) == Dedup(base)
  {
    if more == [] {
      assert base + more == base;
    } else {
      var front, last := more[..|more| - 1], more[|more| - 1];
      assert (base + more)[..|base + more| - 1] == base + front;
      DedupAbsorbs(base, front);
    }
  }

  lemma {:induction false} DedupPrefix(base: seq<string>, more: seq<string>)
    ensures Dedup(base) <= Dedup(base + more)
  {
    if more == [] {
      assert base + more == base;
    } else {
      var front := more[..|more| - 1];
      assert (base + more)[..|base + more| - 1] == base + front;
      DedupPrefix(base, front);
    }
  }

  /** Feeding the result back in, with or without the required names in front, changes nothing. */
  lemma DesiredStable(additional: seq<string>)
    ensures var d := Desired(additional);
            && NoRepeats(d) && REQUIRED <= d
            && Desired(d) == d
            && (forall p :: p in d <==> p in REQUIRED || p in additional)
  {
    var d := Desired(additional);
    DedupOrder(REQUIRED + additional);
    DedupPrefix(REQUIRED, additional);
    DedupIdentity(REQUIRED);
    hide Dedup, REQUIRED;
    var tail := d[|REQUIRED|..];
    assert d == REQUIRED + tail;
    DedupOntoPrefix(REQUIRED, tail);
  }

  /** Repeating a list's own prefix before it does not change the result. */
  lemma DedupOntoPrefix(base: seq<string>, tail: seq<string>)
    requires NoRepeats(base + tail)
    ensures Dedup(base + (base + tail)) == base + tail
  {
    DedupSkips(base, base + tail, |base|);
    assert (base + tail)[..|base|] == base && (base + tail)[|base|..] == tail;
    DedupAbsorbs(base, base);
    assert base + (base + tail) == (base + base) + tail;
    DedupAppendFresh(base + base, base, tail);
    assert forall i, j :: 0 <= i < j < |base| ==> base[i] == (base + tail)[i] && base[j] == (base + tail)[j];
    DedupIdentity(base);
  }

  lemma DedupSkips(base: seq<string>, more: seq<string>, n: nat)
    requires n <= |more|
    ensures base + more == (base + more[..n]) + more[n..]
  {
  }

  /** Appending fresh, distinct names appends them to the result. */
  lemma LastIsFresh(front: seq<string>, base: seq<string>, t: seq<string>, last: string)
    requires NoRepeats(base + t + [last]) && forall p :: p in front <==> p in base
    ensures last !in front + t
  {
    var all := base + t + [last];
    assert all[|base + t|] == last;
    assert forall i :: 0 <= i < |base + t| ==> (base + t)[i] == all[i] && all[i] != last;
    assert forall p :: p in front + t ==> p in base + t;
  }

  lemma {:induction false} DedupAppendFresh(front: seq<string>, base: seq<string>, tail: seq<string>)
    requires NoRepeats(base + tail)
    requires forall p :: p in front <==> p in base
    ensures Dedup(front + tail) == Dedup(front) + tail
  {
    if tail == [] {
      assert front + tail == front;
    } else {
      var t, last := tail[..|tail| - 1], tail[|tail| - 1];
      assert (front + tail)[..|front + tail| - 1] == front + t;
      assert forall i :: 0 <= i < |base + t| ==> (base + t)[i] == (base + tail)[i];
      DedupAppendFresh(front, base, t);
      assert base + tail == base + t + [last];
      LastIsFresh(front, base, t, last);
      assert tail == t + [last] && Dedup(front) + tail == Dedup(front) + t + [last];
    }
  }

  // ------------------------------------------------------- the printed forms

  predicate WordChar(c: char) {
    'a' <= c <= 'z' || 'A' <= c <= 'Z' || '0' <= c <= '9' || c == '_'
  }

  /** The validation pattern of a plugin name: one or more word characters. */
  predicate PluginName(p: string) {
    p != "" && forall i :: 0 <= i < |p| ==> WordChar(p[i])
  }

  /** Reads the enabled_plugins file. */
  function ParseFile(s: string): Option<seq<string>> {
    if |s| < 3 || s[0] != '[' || s[|s| - 2..] != "]." then None
    else Some(Split(s[1..|s| - 2], ','))
  }

  lemma {:induction false} SplitWord(p: string, sep: char, rest: string)
    requires sep !in p
    ensures Split(p, sep) == [p]
    ensures Split(p + [sep] + rest, sep) == [p] + Split(rest, sep)
  {
    var s := p + [sep] + rest;
    if p == [] {
      assert s[1..] == rest;
    } else {
      SplitWord(p[1..], sep, rest);
      assert s[1..] == p[1..] + [sep] + rest;
      assert [p[0]] + p[1..] == p;
    }
  }

  lemma {:induction false} SplitJoin(names: seq<string>, sep: char)
    requires names != [] && forall p :: p in names ==> sep !in p
    ensures Split(Join(names, [sep]), sep) == names
  {
    if |names| == 1 {
      SplitWord(names[0], sep, "");
    } else {
      var rest := Join(names[1..], [sep]);
      SplitJoin(names[1..], sep);
      SplitWord(names[0], sep, rest);
      assert Join(names, [sep]) == names[0] + [sep] + rest;
      assert names == [names[0]] + names[1..];
    }
  }

  lemma TwoWords(a: string, b: string, list: string)
    requires ' ' !in a && ' ' !in b
    ensures Split(a + [' '] + (b + [' '] + list), ' ') == [a, b] + Split(list, ' ')
  {
    SplitWord(b, ' ', list);
    SplitWord(a, ' ', b + [' '] + list);
    assert [a] + ([b] + Split(list, ' ')) == [a, b] + Split(list, ' ');
  }

  lemma CommandText(list: string)
    ensures "rabbitmq-plugins set " + list == "rabbitmq-plugins" + [' '] + ("set" + [' '] + list)
    ensures ' ' !in "rabbitmq-plugins" && ' ' !in "set"
  {
    assert "rabbitmq-plugins set " == "rabbitmq-plugins" + [' '] + "set" + [' '];
  }

  /** The file and the command line both read back as the desired list. */
  lemma PrintedFormsAgree(additional: seq<string>)
    requires forall p :: p in additional ==> PluginName(p)
    ensures ParseFile(EnabledPluginsFile(additional)) == Some(Desired(additional))
    ensures Split(SetCommand(additional), ' ') == ["rabbitmq-plugins", "set"] + Desired(additional)
  {
    var d := Desired(additional);
    forall p | p in d ensures ',' !in p && ' ' !in p {
      if p in REQUIRED {
        assert PluginName(p);
      }
    }
    assert REQUIRED[0] in d;
    SplitJoin(d, ',');
    SplitJoin(d, ' ');
    CommandText(AsString(additional, " "));
    TwoWords("rabbitmq-plugins", "set", AsString(additional, " "));
    var s := EnabledPluginsFile(additional);
    assert s[1..|s| - 2] == AsString(additional, ",");
    assert s[|s| - 2..] == "].";
  }

  /** DesiredPlugins */
  method DesiredPlugins(required: seq<string>, additional: seq<string>) returns (enabled: seq<string>)
    ensures enabled == Dedup(required + additional)
  {
    var all := required + additional;
    var check: map<string, bool> := map[];
    enabled := [];
    for i := 0 to |all|
      invariant enabled == Dedup(all[..i])
      invariant forall p :: p in check <==> p in all[..i]
    {
      assert all[..i + 1][..i] == all[..i];
      assert all[..i + 1] == all[..i] + [all[i]];
      if all[i] !in check {
        check := check[all[i] := true];
        enabled := enabled + [all[i]];
      }
    }
    assert all[..|all|] == all;
  }
}
