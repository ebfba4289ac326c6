/** Small shared types and the string operations the operator relies on. */
module Basics {

  datatype Option<+T> = None | Some(value: T)

  type StrMap = map<string, string>

  /** A formatted clock reading; it is never empty. */
  type Stamp = s: string | s != "" witness "0"

  predicate EncodedChar(c: char) {
    'a' <= c <= 'z' || 'A' <= c <= 'Z' || '0' <= c <= '9' || c == '-' || c == '_' || c == '='
  }

  /** Random bytes as base64.URLEncoding writes them. */
  type Encoded = s: string | forall i :: 0 <= i < |s| ==> EncodedChar(s[i])

  function Bit(b: bool): nat { if b then 1 else 0 }

  /** Go's `<` on strings: lexicographic on code units. */
  predicate StringLess(a: string, b: string) {
    if b == [] then false
    else if a == [] then true
    else if a[0] != b[0] then a[0] < b[0]
    else StringLess(a[1..], b[1..])
  }

  /** strings.Join */
  function Join(parts: seq<string>, sep: string): string {
    if parts == [] then ""
    else if |parts| == 1 then parts[0]
    else parts[0] + sep + Join(parts[1..], sep)
  }

  /** strings.Split on one character. */
  function Split(s: string, sep: char): seq<string> {
    if s == [] then [""]
    else
      var rest := Split(s[1..], sep);
      if s[0] == sep then [""] + rest
      else if rest == [] then [[s[0]]]
      else [[s[0]] + rest[0]] + rest[1..]
  }

  /** strings.HasPrefix */
  predicate HasPrefix(s: string, prefix: string) {
    |prefix| <= |s| && s[..|prefix|] == prefix
  }

  /** strings.Contains */
  predicate Contains(s: string, part: string) {
    HasPrefix(s, part) || (s != [] && Contains(s[1..], part))
  }

  /** A map lookup that yields Go's zero value for a missing key. */
  function Lookup(m: StrMap, k: string): string {
    if k in m then m[k] else ""
  }

  /** The part stands somewhere in the text. */
  ghost predicate Occurs(part: string, s: string) {
    exists a, b :: s == a + part + b
  }

  lemma PrefixOf(part: string, rest: string)
    ensures HasPrefix(part + rest, part)
  {
    assert (part + rest)[..|part|] == part;
  }

  lemma {:induction false} ContainsIff(s: string, part: string)
    ensures Contains(s, part) <==> Occurs(part, s)
  {
    if HasPrefix(s, part) {
      assert s == [] + part + s[|part|..];
    } else if s == [] {
    } else {
      ContainsIff(s[1..], part);
      if Occurs(part, s[1..]) {
        var a, b :| s[1..] == a + part + b;
        assert s == ([s[0]] + a) + part + b;
      }
      if Occurs(part, s) {
        var a, b :| s == a + part + b;
        PrefixOf(part, b);
        assert [] + part + b == part + b;
        assert s[1..] == a[1..] + part + b;
      }
    }
  }

  /** unicode.IsSpace up to U+00FF. */
  predicate Blank(c: char) {
    c == ' ' || '\t' <= c <= '\r' || c == '\U{0085}' || c == '\U{00A0}'
  }

  /** strings.TrimSpace */
  function TrimSpace(s: string): string {
    if s != [] && Blank(s[0]) then TrimSpace(s[1..])
    else if s != [] && Blank(s[|s| - 1]) then TrimSpace(s[..|s| - 1])
    else s
  }

  predicate Blanks(s: string) { forall i :: 0 <= i < |s| ==> Blank(s[i]) }

  /** The word stands between blanks. */
  ghost predicate Padded(s: string, word: string) {
    exists a, b :: Blanks(a) && Blanks(b) && s == a + word + b
  }

  /** Trimming yields a word without blanks at its ends exactly from that word between blanks. */
  lemma {:induction false} TrimSpaceIff(s: string, word: string)
    requires word != [] && !Blank(word[0]) && !Blank(word[|word| - 1])
    ensures TrimSpace(s) == word <==> Padded(s, word)
  {
    if s == [] {
    } else if Blank(s[0]) {
      TrimSpaceIff(s[1..], word);
      PaddedLeft(s, word);
    } else if Blank(s[|s| - 1]) {
      TrimSpaceIff(s[..|s| - 1], word);
      PaddedRight(s, word);
    } else {
      if s == word {
        assert Blanks([]) && s == [] + word + [];
      }
      if Padded(s, word) {
        var a, b :| Blanks(a) && Blanks(b) && s == a + word + b;
        assert a == [] && b == [];
      }
    }
  }

  lemma PaddedLeft(s: string, word: string)
    requires s != [] && Blank(s[0]) && word != [] && !Blank(word[0])
    ensures Padded(s, word) <==> Padded(s[1..], word)
  {
    if Padded(s, word) {
      var a, b :| Blanks(a) && Blanks(b) && s == a + word + b;
      assert a != [];
      assert s[1..] == a[1..] + word + b && Blanks(a[1..]);
    }
    if Padded(s[1..], word) {
      var a, b :| Blanks(a) && Blanks(b) && s[1..] == a + word + b;
      assert s == ([s[0]] + a) + word + b && Blanks([s[0]] + a);
    }
  }

  lemma PaddedRight(s: string, word: string)
    requires s != [] && Blank(s[|s| - 1]) && word != [] && !Blank(word[|word| - 1])
    ensures Padded(s, word) <==> Padded(s[..|s| - 1], word)
  {
    var t := s[..|s| - 1];
    assert s == t + [s[|s| - 1]];
    if Padded(s, word) {
      var a, b :| Blanks(a) && Blanks(b) && s == a + word + b;
      assert b != [];
      assert t == a + word + b[..|b| - 1] && Blanks(b[..|b| - 1]);
    }
    if Padded(t, word) {
      var a, b :| Blanks(a) && Blanks(b) && t == a + word + b;
      assert s == a + word + (b + [s[|s| - 1]]) && Blanks(b + [s[|s| - 1]]);
    }
  }
}
