/** Character classes and string helpers shared by the name derivation, the
    path model and the rules-file check. Everything is restricted to ASCII:
    Python's Unicode character classes are not modelled. */
module Strings {

  /** Python's whitespace (`\s` in a str pattern, `str.split()`, `str.strip()`)
      within ASCII: space, \t \n \v \f \r and the separators \x1c-\x1f. */
  predicate IsSpace(c: char) {
    c == ' ' || ('\t' <= c <= '\r') || ('\U{1C}' <= c <= '\U{1F}')
  }

  predicate IsUpper(c: char) { 'A' <= c <= 'Z' }

  predicate IsLower(c: char) { 'a' <= c <= 'z' }

  predicate IsDigit(c: char) { '0' <= c <= '9' }

  /** `\w` within ASCII. */
  predicate IsWordChar(c: char) { IsUpper(c) || IsLower(c) || IsDigit(c) || c == '_' }

  /** `str.lower` on one ASCII character. */
  function Lower(c: char): (r: char)
    ensures !IsUpper(r)
    ensures IsUpper(c) ==> IsLower(r)
    ensures !IsUpper(c) ==> r == c
    ensures IsSpace(r) <==> IsSpace(c)
    ensures IsWordChar(r) <==> IsWordChar(c)
  {
    if IsUpper(c) then (c as int + 32) as char else c
  }

  /** `str.upper` on one ASCII character. */
  function Upper(c: char): (r: char)
    ensures !IsLower(r)
    ensures IsLower(c) ==> IsUpper(r)
    ensures !IsLower(c) ==> r == c
    ensures Lower(r) == Lower(c)
    ensures IsSpace(r) <==> IsSpace(c)
  {
    if IsLower(c) then (c as int - 32) as char else c
  }

  /** `str.lower`. */
  function LowerStr(s: string): (r: string)
    ensures |r| == |s|
    ensures forall i :: 0 <= i < |s| ==> r[i] == Lower(s[i])
  {
    if s == [] then [] else [Lower(s[0])] + LowerStr(s[1..])
  }

  lemma LowerStrConcat(a: string, b: string)
    ensures LowerStr(a + b) == LowerStr(a) + LowerStr(b)
  {
    assert forall i :: 0 <= i < |a + b| ==> LowerStr(a + b)[i] == (LowerStr(a) + LowerStr(b))[i];
  }

  lemma LowerStrIdempotent(s: string)
    ensures LowerStr(LowerStr(s)) == LowerStr(s)
  {
    assert forall i :: 0 <= i < |s| ==> LowerStr(LowerStr(s))[i] == LowerStr(s)[i];
  }

  lemma LowerStrUnchanged(s: string)
    requires forall i :: 0 <= i < |s| ==> !IsUpper(s[i])
    ensures LowerStr(s) == s
  {
    assert forall i :: 0 <= i < |s| ==> LowerStr(s)[i] == s[i];
  }

  /** `s` with every character satisfying `p` deleted (`re.sub(cls, '', s)`). */
  function Without(s: string, p: char -> bool): (r: string)
    ensures |r| <= |s|
    ensures forall i :: 0 <= i < |r| ==> !p(r[i]) && r[i] in s
  {
    if s == [] then [] else (if p(s[0]) then [] else [s[0]]) + Without(s[1..], p)
  }

  lemma {:induction false} WithoutConcat(a: string, b: string, p: char -> bool)
    ensures Without(a + b, p) == Without(a, p) + Without(b, p)
  {
    if a == [] {
      assert a + b == b;
    } else {
      var x := if p(a[0]) then [] else [a[0]];
      assert (a + b)[0] == a[0];
      assert (a + b)[1..] == a[1..] + b;
      assert Without(a + b, p) == x + Without(a[1..] + b, p);
      WithoutConcat(a[1..], b, p);
      assert Without(a, p) == x + Without(a[1..], p);
    }
  }

  lemma {:induction false} WithoutNothing(s: string, p: char -> bool)
    requires forall i :: 0 <= i < |s| ==> !p(s[i])
    ensures Without(s, p) == s
  {
    if s != [] {
      WithoutNothing(s[1..], p);
    }
  }

  lemma {:induction false} WithoutEverything(s: string, p: char -> bool)
    requires forall i :: 0 <= i < |s| ==> p(s[i])
    ensures Without(s, p) == []
  {
    if s != [] {
      WithoutEverything(s[1..], p);
    }
  }

  /** Deleting the characters of a smaller class first changes nothing. */
  lemma {:induction false} WithoutWithout(s: string, p: char -> bool, q: char -> bool)
    requires forall c :: p(c) ==> q(c)
    ensures Without(Without(s, p), q) == Without(s, q)
  {
    if s != [] {
      var head := if p(s[0]) then [] else [s[0]];
      WithoutConcat(head, Without(s[1..], p), q);
      WithoutWithout(s[1..], p, q);
      if !p(s[0]) {
        assert Without(head, q) == (if q(s[0]) then [] else [s[0]]) by {
          assert head[1..] == [];
        }
      }
    }
  }

  /** How many leading characters of `s` are in the class `p`. */
  function LeadingCount(s: string, p: char -> bool): (k: nat)
    ensures k <= |s|
    ensures forall i :: 0 <= i < k ==> p(s[i])
    ensures k < |s| ==> !p(s[k])
  {
    if s != [] && p(s[0]) then 1 + LeadingCount(s[1..], p) else 0
  }

  /** How many trailing characters of `s` are in the class `p`. */
  function TrailingCount(s: string, p: char -> bool): (k: nat)
    ensures k <= |s|
    ensures forall i :: |s| - k <= i < |s| ==> p(s[i])
    ensures k < |s| ==> !p(s[|s| - k - 1])
  {
    if s != [] && p(s[|s| - 1]) then 1 + TrailingCount(s[..|s| - 1], p) else 0
  }

  /** `s.lstrip(chars)` for the class `p`. */
  function TrimStart(s: string, p: char -> bool): string {
    s[LeadingCount(s, p)..]
  }

  /** `s.rstrip(chars)` for the class `p`. */
  function TrimEnd(s: string, p: char -> bool): string {
    s[..|s| - TrailingCount(s, p)]
  }

  /** `s.strip(chars)` for the class `p`. */
  function Strip(s: string, p: char -> bool): string {
    TrimEnd(TrimStart(s, p), p)
  }

  /** A stripped string is a slice of the original that neither starts nor
      ends with a stripped character. */
  lemma StripEnds(s: string, p: char -> bool)
    ensures var r := Strip(s, p); var a := LeadingCount(s, p);
      a + |r| <= |s| && r == s[a..a + |r|]
      && (r != [] ==> !p(r[0]) && !p(r[|r| - 1]))
  {
    var a := LeadingCount(s, p);
    var t := TrimStart(s, p);
    var k := TrailingCount(t, p);
    var r := TrimEnd(t, p);
    assert t == s[a..];
    assert r == t[..|t| - k];
    assert r == s[a..a + |r|];
    if r != [] {
      assert r[0] == t[0];
      assert r[|r| - 1] == t[|t| - k - 1];
    }
  }

  lemma TrimStartUnchanged(s: string, p: char -> bool)
    requires s == [] || !p(s[0])
    ensures TrimStart(s, p) == s
  {
  }

  lemma TrimEndUnchanged(s: string, p: char -> bool)
    requires s == [] || !p(s[|s| - 1])
    ensures TrimEnd(s, p) == s
  {
  }

  /** Trimming characters that a later deletion removes anyway changes nothing. */
  lemma TrimStartWithout(s: string, p: char -> bool, q: char -> bool)
    requires forall c :: p(c) ==> q(c)
    ensures Without(TrimStart(s, p), q) == Without(s, q)
  {
    var k := LeadingCount(s, p);
    assert s == s[..k] + s[k..];
    WithoutConcat(s[..k], s[k..], q);
    WithoutEverything(s[..k], q);
  }

  lemma TrimEndWithout(s: string, p: char -> bool, q: char -> bool)
    requires forall c :: p(c) ==> q(c)
    ensures Without(TrimEnd(s, p), q) == Without(s, q)
  {
    var k := |s| - TrailingCount(s, p);
    assert s == s[..k] + s[k..];
    WithoutConcat(s[..k], s[k..], q);
    WithoutEverything(s[k..], q);
  }

  /** The length of the longest prefix of `s` with no character of the class `p`. */
  function SpanCount(s: string, p: char -> bool): (k: nat)
    ensures k <= |s|
    ensures forall i :: 0 <= i < k ==> !p(s[i])
    ensures k < |s| ==> p(s[k])
  {
    if s == [] || p(s[0]) then 0 else 1 + SpanCount(s[1..], p)
  }

  lemma {:induction false} SpanCountPrefix(a: string, b: string, p: char -> bool)
    requires forall i :: 0 <= i < |a| ==> !p(a[i])
    requires b == [] || p(b[0])
    ensures SpanCount(a + b, p) == |a|
  {
    if a == [] {
      assert a + b == b;
    } else {
      assert (a + b)[1..] == a[1..] + b;
      SpanCountPrefix(a[1..], b, p);
    }
  }

  /** A non-empty run of characters outside the class `p`. */
  predicate IsToken(w: string, p: char -> bool) {
    w != [] && forall i :: 0 <= i < |w| ==> !p(w[i])
  }

  /** The maximal runs of characters outside the class `p`, in order
      (`str.split()` when `p` is whitespace). */
  function Tokens(s: string, p: char -> bool): seq<string>
    decreases |s|
  {
    if s == [] then []
    else if p(s[0]) then Tokens(s[1..], p)
    else
      var n := SpanCount(s, p);
      [s[..n]] + Tokens(s[n..], p)
  }

  lemma {:induction false} TokensAreTokens(s: string, p: char -> bool)
    ensures forall k :: 0 <= k < |Tokens(s, p)| ==> IsToken(Tokens(s, p)[k], p)
    decreases |s|
  {
    if s != [] {
      if p(s[0]) {
        TokensAreTokens(s[1..], p);
      } else {
        TokensAreTokens(s[SpanCount(s, p)..], p);
      }
    }
  }

  function Flatten(ts: seq<string>): string {
    if ts == [] then [] else ts[0] + Flatten(ts[1..])
  }

  lemma SpanWithout(t: string, p: char -> bool)
    ensures Without(t, p) == t[..SpanCount(t, p)] + Without(t[SpanCount(t, p)..], p)
  {
    var n := SpanCount(t, p);
    assert t == t[..n] + t[n..];
    WithoutConcat(t[..n], t[n..], p);
    WithoutNothing(t[..n], p);
  }

  /** Joining the tokens back gives the string with the separators deleted. */
  lemma {:induction false} FlattenTokens(s: string, p: char -> bool)
    ensures Flatten(Tokens(s, p)) == Without(s, p)
    decreases |s|
  {
    if s != [] {
      if p(s[0]) {
        FlattenTokens(s[1..], p);
      } else {
        var n := SpanCount(s, p);
        SpanWithout(s, p);
        FlattenTokens(s[n..], p);
        var ts := Tokens(s, p);
        assert ts[1..] == Tokens(s[n..], p);
      }
    }
  }

  /** `sep.join(ts)`. */
  function JoinWith(ts: seq<string>, sep: string): string {
    if ts == [] then [] else if |ts| == 1 then ts[0] else ts[0] + sep + JoinWith(ts[1..], sep)
  }

  /** The tokens of a string that starts with a token. */
  lemma TokensStartingWith(w: string, b: string, p: char -> bool)
    requires IsToken(w, p)
    requires b == [] || p(b[0])
    ensures Tokens(w + b, p) == [w] + Tokens(b, p)
  {
    var s := w + b;
    assert s[0] == w[0];
    SpanCountPrefix(w, b, p);
    assert s[..|w|] == w;
    assert s[|w|..] == b;
  }

  /** Splitting a join on a separator character gives back the parts. */
  lemma {:induction false} TokensOfJoin(ts: seq<string>, c: char, p: char -> bool)
    requires p(c)
    requires forall k :: 0 <= k < |ts| ==> IsToken(ts[k], p)
    ensures Tokens(JoinWith(ts, [c]), p) == ts
  {
    if ts == [] {
    } else if |ts| == 1 {
      assert ts[0] + [] == ts[0];
      TokensStartingWith(ts[0], [], p);
      assert Tokens([], p) == [];
    } else {
      var rest := JoinWith(ts[1..], [c]);
      assert JoinWith(ts, [c]) == ts[0] + ([c] + rest);
      TokensStartingWith(ts[0], [c] + rest, p);
      assert ([c] + rest)[1..] == rest;
      TokensOfJoin(ts[1..], c, p);
      assert ts == [ts[0]] + ts[1..];
    }
  }

  lemma JoinWithSnoc(ts: seq<string>, x: string, sep: string)
    ensures JoinWith(ts + [x], sep) == if ts == [] then x else JoinWith(ts, sep) + sep + x
  {
    if |ts| > 1 {
      assert (ts + [x])[1..] == ts[1..] + [x];
      JoinWithSnoc(ts[1..], x, sep);
    } else if |ts| == 1 {
      assert (ts + [x])[1..] == [x];
    }
  }

  lemma {:induction false} JoinWithChars(ws: seq<string>, sep: string, q: char -> bool)
    requires forall k, i :: 0 <= k < |ws| && 0 <= i < |ws[k]| ==> q(ws[k][i])
    requires forall i :: 0 <= i < |sep| ==> q(sep[i])
    ensures forall i :: 0 <= i < |JoinWith(ws, sep)| ==> q(JoinWith(ws, sep)[i])
  {
    if |ws| > 1 {
      JoinWithChars(ws[1..], sep, q);
      var rest := JoinWith(ws[1..], sep);
      var j := JoinWith(ws, sep);
      assert j == ws[0] + sep + rest;
      forall i | 0 <= i < |j| ensures q(j[i]) {
        if i < |ws[0]| {
          assert j[i] == ws[0][i];
        } else if i < |ws[0]| + |sep| {
          assert j[i] == sep[i - |ws[0]|];
        } else {
          assert j[i] == rest[i - |ws[0]| - |sep|];
        }
      }
    }
  }

  lemma {:induction false} JoinWithEnds(ws: seq<string>, sep: string)
    requires |ws| > 0
    requires forall k :: 0 <= k < |ws| ==> ws[k] != []
    ensures JoinWith(ws, sep) != []
    ensures JoinWith(ws, sep)[0] == ws[0][0]
    ensures JoinWith(ws, sep)[|JoinWith(ws, sep)| - 1] == ws[|ws| - 1][|ws[|ws| - 1]| - 1]
  {
    if |ws| > 1 {
      JoinWithEnds(ws[1..], sep);
      assert JoinWith(ws, sep) == ws[0] + sep + JoinWith(ws[1..], sep);
    }
  }

  predicate OccursAt(s: string, t: string, i: nat) {
    i + |t| <= |s| && s[i..i + |t|] == t
  }

  /** Python's `t in s` on strings. */
  predicate Contains(s: string, t: string) {
    exists i: nat | i <= |s| :: OccursAt(s, t, i)
  }

  predicate StartsWith(s: string, t: string) {
    |t| <= |s| && s[..|t|] == t
  }

  predicate EndsWith(s: string, t: string) {
    |t| <= |s| && s[|s| - |t|..] == t
  }

  lemma ContainsMiddle(a: string, t: string, b: string)
    ensures Contains(a + t + b, t)
  {
    assert (a + t + b)[|a|..|a| + |t|] == t;
    assert OccursAt(a + t + b, t, |a|);
  }

  /** Stripping one separator from each end of a block that has none at its ends. */
  lemma StripFramed(b: string, c: char, p: char -> bool)
    requires p(c)
    requires b != [] && !p(b[0]) && !p(b[|b| - 1])
    ensures Strip([c] + b + [c], p) == b
  {
    var t := [c] + b + [c];
    assert t[1..] == b + [c];
    assert LeadingCount(t[1..], p) == 0;
    var u := t[1..];
    assert u[..|u| - 1] == b;
    assert TrailingCount(u[..|u| - 1], p) == 0;
  }

  lemma ContainsInside(before: string, h: string, t: string, tail: string, after: string)
    ensures Contains(before + (h + t + tail) + after, t)
  {
    assert before + (h + t + tail) + after == (before + h) + t + (tail + after);
    ContainsMiddle(before + h, t, tail + after);
  }

  lemma ContainsAfter(a: string, b: string, t: string)
    requires Contains(b, t)
    ensures Contains(a + b, t)
  {
    var i: nat :| i <= |b| && OccursAt(b, t, i);
    assert i + |t| <= |b|;
    assert (a + b)[|a| + i..|a| + i + |t|] == b[i..i + |t|];
    assert OccursAt(a + b, t, |a| + i);
  }

  lemma EndsWithContains(s: string, t: string)
    requires EndsWith(s, t)
    ensures Contains(s, t)
  {
    assert OccursAt(s, t, |s| - |t|);
  }
}
