/** The names `ToolGenerator` derives from a tool's display name: the
    directory / script name (`_sanitize_name`, `_to_script_name`) and the
    PascalCase class name (`_to_class_name`). */
module Names {
  import opened Strings

  /** Characters the first substitution keeps: `\w`, `\s` and `-`. */
  predicate IsKept(c: char) { IsWordChar(c) || IsSpace(c) || c == '-' }

  /** Characters the first substitution deletes (`[^\w\s-]`). */
  predicate IsPunctuation(c: char) { !IsKept(c) }

  /** Characters a run of which the second substitution replaces (`[-\s]`). */
  predicate IsSeparator(c: char) { c == '-' || IsSpace(c) }

  predicate IsHyphen(c: char) { c == '-' }

  predicate IsNotWordChar(c: char) { !IsWordChar(c) }

  /** `re.sub(r'[-\s]+', '-', s)`: every maximal run of hyphens and
      whitespace becomes a single hyphen. */
  function Collapse(s: string): string
    decreases |s|
  {
    if s == [] then []
    else if IsSeparator(s[0]) then
      var k := LeadingCount(s, IsSeparator);
      "-" + Collapse(s[k..])
    else [s[0]] + Collapse(s[1..])
  }

  /** `_sanitize_name`: lower-case, delete punctuation, collapse separator
      runs into one hyphen, strip hyphens from both ends. */
  function Sanitize(name: string): string {
    Strip(Collapse(Without(LowerStr(name), IsPunctuation)), IsHyphen)
  }

  /** Characters a sanitized name can contain. */
  predicate IsSlugChar(c: char) { IsLower(c) || IsDigit(c) || c == '_' || c == '-' }

  predicate NoDoubleHyphen(s: string) {
    forall i :: 0 <= i < |s| - 1 ==> !(s[i] == '-' && s[i + 1] == '-')
  }

  /** A directory name as `_sanitize_name` produces it: lower-case word
      characters separated by single hyphens, no hyphen at either end. */
  predicate IsSlug(s: string) {
    (forall i :: 0 <= i < |s| ==> IsSlugChar(s[i]))
    && NoDoubleHyphen(s)
    && (s != [] ==> s[0] != '-' && s[|s| - 1] != '-')
  }

  /** What the collapsing step hands to the strip. */
  predicate IsCollapsed(s: string) {
    (forall i :: 0 <= i < |s| ==> IsSlugChar(s[i])) && NoDoubleHyphen(s)
  }

  /** After the collapse no whitespace is left and no two hyphens touch. */
  lemma {:induction false} CollapseShape(s: string)
    requires forall i :: 0 <= i < |s| ==> (IsLower(s[i]) || IsDigit(s[i]) || s[i] == '_' || IsSeparator(s[i]))
    ensures IsCollapsed(Collapse(s))
    ensures Collapse(s) != [] && Collapse(s)[0] == '-' ==> IsSeparator(s[0])
    decreases |s|
  {
    if s != [] {
      if IsSeparator(s[0]) {
        var k := LeadingCount(s, IsSeparator);
        var rest := s[k..];
        CollapseShape(rest);
        var c := Collapse(rest);
        assert c != [] ==> c[0] != '-';
        assert Collapse(s) == "-" + c;
      } else {
        var rest := s[1..];
        CollapseShape(rest);
        assert Collapse(s) == [s[0]] + Collapse(rest);
      }
    }
  }

  /** Stripping hyphens from a collapsed string leaves a slug. */
  lemma StripShape(s: string)
    requires IsCollapsed(s)
    ensures IsSlug(Strip(s, IsHyphen))
  {
    var r := Strip(s, IsHyphen);
    var a := LeadingCount(s, IsHyphen);
    StripEnds(s, IsHyphen);
    assert forall i :: 0 <= i < |r| ==> r[i] == s[a + i];
  }

  lemma LowerNoPunctuation(name: string)
    ensures forall i :: 0 <= i < |Without(LowerStr(name), IsPunctuation)| ==>
      var c := Without(LowerStr(name), IsPunctuation)[i];
      IsLower(c) || IsDigit(c) || c == '_' || IsSeparator(c)
  {
    var w := Without(LowerStr(name), IsPunctuation);
    forall i | 0 <= i < |w|
      ensures IsLower(w[i]) || IsDigit(w[i]) || w[i] == '_' || IsSeparator(w[i])
    {
      assert w[i] in LowerStr(name);
    }
  }

  /** Every sanitized name is a slug. */
  lemma SanitizeIsSlug(name: string)
    ensures IsSlug(Sanitize(name))
  {
    LowerNoPunctuation(name);
    CollapseShape(Without(LowerStr(name), IsPunctuation));
    StripShape(Collapse(Without(LowerStr(name), IsPunctuation)));
  }

  /** A string without whitespace or touching hyphens is its own collapse. */
  lemma {:induction false} CollapseUnchanged(s: string)
    requires forall i :: 0 <= i < |s| ==> !IsSpace(s[i])
    requires NoDoubleHyphen(s)
    ensures Collapse(s) == s
    decreases |s|
  {
    if s != [] {
      if IsSeparator(s[0]) {
        assert LeadingCount(s, IsSeparator) == 1 by {
          if |s| > 1 {
            assert !IsSeparator(s[1]);
            assert LeadingCount(s[1..], IsSeparator) == 0;
          }
        }
      }
      CollapseUnchanged(s[1..]);
      assert s == [s[0]] + s[1..];
    }
  }

  /** A slug is its own sanitized name. */
  lemma SanitizeSlug(s: string)
    requires IsSlug(s)
    ensures Sanitize(s) == s
  {
    LowerStrUnchanged(s);
    WithoutNothing(s, IsPunctuation);
    CollapseUnchanged(s);
    TrimStartUnchanged(s, IsHyphen);
    TrimEndUnchanged(s, IsHyphen);
  }

  /** The names `_sanitize_name` returns unchanged are exactly the slugs. */
  lemma SanitizeFixedPoints(s: string)
    ensures Sanitize(s) == s <==> IsSlug(s)
  {
    if IsSlug(s) {
      SanitizeSlug(s);
    } else {
      SanitizeIsSlug(s);
    }
  }

  /** Sanitizing twice is sanitizing once. */
  lemma SanitizeIdempotent(name: string)
    ensures Sanitize(Sanitize(name)) == Sanitize(name)
  {
    SanitizeIsSlug(name);
    SanitizeSlug(Sanitize(name));
  }

  /** `_to_script_name`: the package and script name, the same slug as the
      tool's directory name. */
  function ScriptName(name: string): (r: string)
    ensures IsSlug(r)
    ensures r == Sanitize(name)
  {
    SanitizeIsSlug(name);
    Sanitize(name)
  }

  lemma {:induction false} CollapseKeepsWordChars(s: string)
    ensures Without(Collapse(s), IsNotWordChar) == Without(s, IsNotWordChar)
    decreases |s|
  {
    if s != [] {
      if IsSeparator(s[0]) {
        var k := LeadingCount(s, IsSeparator);
        CollapseKeepsWordChars(s[k..]);
        WithoutConcat("-", Collapse(s[k..]), IsNotWordChar);
        assert Without("-", IsNotWordChar) == [] by {
          assert "-"[1..] == [];
        }
        TrimStartWithout(s, IsSeparator, IsNotWordChar);
      } else {
        CollapseKeepsWordChars(s[1..]);
        assert Collapse(s)[1..] == Collapse(s[1..]);
      }
    }
  }

  /** Sanitizing keeps every word character of the lower-cased name, in
      order, and nothing else but hyphens. */
  lemma SanitizeKeepsWordChars(name: string)
    ensures Without(Sanitize(name), IsNotWordChar) == Without(LowerStr(name), IsNotWordChar)
  {
    var w := Without(LowerStr(name), IsPunctuation);
    var c := Collapse(w);
    TrimEndWithout(TrimStart(c, IsHyphen), IsHyphen, IsNotWordChar);
    TrimStartWithout(c, IsHyphen, IsNotWordChar);
    CollapseKeepsWordChars(w);
    WithoutWithout(LowerStr(name), IsPunctuation, IsNotWordChar);
  }

  /** A non-empty lower-case word with no separator or punctuation in it. */
  predicate IsWord(w: string) {
    w != [] && forall i :: 0 <= i < |w| ==> IsLower(w[i]) || IsDigit(w[i]) || w[i] == '_'
  }

  lemma {:induction false} CollapseWordPrefix(w: string, x: string)
    requires forall i :: 0 <= i < |w| ==> !IsSeparator(w[i])
    ensures Collapse(w + x) == w + Collapse(x)
  {
    if w == [] {
      assert w + x == x;
    } else {
      assert (w + x)[0] == w[0];
      assert (w + x)[1..] == w[1..] + x;
      CollapseWordPrefix(w[1..], x);
      assert w + Collapse(x) == [w[0]] + (w[1..] + Collapse(x));
    }
  }

  lemma {:induction false} CollapseJoin(ws: seq<string>)
    requires forall k :: 0 <= k < |ws| ==> IsWord(ws[k])
    ensures Collapse(JoinWith(ws, " ")) == JoinWith(ws, "-")
  {
    if |ws| == 1 {
      CollapseWordPrefix(ws[0], []);
      assert ws[0] + [] == ws[0];
    } else if |ws| > 1 {
      var rest := JoinWith(ws[1..], " ");
      assert JoinWith(ws, " ") == ws[0] + (" " + rest);
      CollapseWordPrefix(ws[0], " " + rest);
      assert rest[0] == ws[1][0];
      assert LeadingCount(" " + rest, IsSeparator) == 1 by {
        assert (" " + rest)[1..] == rest;
      }
      assert (" " + rest)[1..] == rest;
      CollapseJoin(ws[1..]);
    }
  }

  predicate IsSpacedChar(c: char) { IsLower(c) || IsDigit(c) || c == '_' || c == ' ' }

  lemma SpacedUnchanged(ws: seq<string>)
    requires forall k :: 0 <= k < |ws| ==> IsWord(ws[k])
    ensures Without(LowerStr(JoinWith(ws, " ")), IsPunctuation) == JoinWith(ws, " ")
  {
    var spaced := JoinWith(ws, " ");
    JoinWithChars(ws, " ", IsSpacedChar);
    LowerStrUnchanged(spaced);
    WithoutNothing(spaced, IsPunctuation);
  }

  /** A name made of lower-case words separated by single spaces becomes
      the same words separated by single hyphens. */
  lemma SanitizeWords(ws: seq<string>)
    requires |ws| > 0
    requires forall k :: 0 <= k < |ws| ==> IsWord(ws[k])
    ensures Sanitize(JoinWith(ws, " ")) == JoinWith(ws, "-")
  {
    var dashed := JoinWith(ws, "-");
    SpacedUnchanged(ws);
    CollapseJoin(ws);
    JoinWithEnds(ws, "-");
    TrimStartUnchanged(dashed, IsHyphen);
    TrimEndUnchanged(dashed, IsHyphen);
  }
  /** Trailing punctuation does not reach the sanitized name. */
  lemma SanitizeDropsPunctuation(name: string, tail: string)
    requires forall i :: 0 <= i < |tail| ==> IsPunctuation(tail[i])
    ensures Sanitize(name + tail) == Sanitize(name)
  {
    LowerStrConcat(name, tail);
    WithoutConcat(LowerStr(name), LowerStr(tail), IsPunctuation);
    WithoutEverything(LowerStr(tail), IsPunctuation);
    assert Without(LowerStr(name + tail), IsPunctuation) == Without(LowerStr(name), IsPunctuation);
  }

  /** Sanitizing lower-cases first, so a lower-cased name sanitizes alike. */
  lemma SanitizeLower(name: string)
    ensures Sanitize(LowerStr(name)) == Sanitize(name)
  {
    LowerStrIdempotent(name);
  }

  /** Three words separated by spaces sanitize to the same words joined by
      hyphens. */
  lemma SanitizeSpacedExample(spaced: string, slug: string)
    requires spaced == "my cool tool" && slug == "my-cool-tool"
    ensures Sanitize(spaced) == slug
  {
    var ws := ["my", "cool", "tool"];
    assert IsWord(ws[0]) && IsWord(ws[1]) && IsWord(ws[2]);
    assert JoinWith(ws, " ") == spaced by {
      assert JoinWith(ws[2..], " ") == "tool";
      assert JoinWith(ws[1..], " ") == "cool tool";
    }
    assert JoinWith(ws, "-") == slug by {
      assert JoinWith(ws[2..], "-") == "tool";
      assert JoinWith(ws[1..], "-") == "cool-tool";
    }
    SanitizeWords(ws);
  }

  lemma LowerExample(typed: string)
    requires typed == "My Cool Tool"
    ensures LowerStr(typed) == "my cool tool"
  {
    var spaced := "my cool tool";
    assert forall i :: 0 <= i < |typed| ==> LowerStr(typed)[i] == spaced[i];
  }

  /** The display name a user types becomes its hyphenated directory name:
      case is folded and the trailing exclamation marks are dropped. */
  lemma SanitizeExample(typed: string, punct: string, slug: string)
    requires typed == "My Cool Tool" && punct == "!!!" && slug == "my-cool-tool"
    ensures Sanitize(typed + punct) == slug
  {
    LowerExample(typed);
    SanitizeSpacedExample(LowerStr(typed), slug);
    SanitizeLower(typed);
    SanitizeDropsPunctuation(typed, punct);
  }

  /** `str.capitalize` on ASCII: first character upper-cased, the rest lower. */
  function Capitalize(w: string): (r: string)
    ensures |r| == |w|
    ensures LowerStr(r) == LowerStr(w)
    ensures r != [] ==> !IsLower(r[0]) && (forall i :: 1 <= i < |r| ==> !IsUpper(r[i]))
  {
    if w == [] then []
    else
      LowerStrConcat([Upper(w[0])], LowerStr(w[1..]));
      LowerStrConcat([w[0]], w[1..]);
      LowerStrIdempotent(w[1..]);
      assert w == [w[0]] + w[1..];
      [Upper(w[0])] + LowerStr(w[1..])
  }

  function CapitalizeAll(ws: seq<string>): (rs: seq<string>)
    ensures |rs| == |ws|
    ensures forall k :: 0 <= k < |ws| ==> rs[k] == Capitalize(ws[k])
  {
    if ws == [] then [] else [Capitalize(ws[0])] + CapitalizeAll(ws[1..])
  }

  /** `_to_class_name`: the capitalized whitespace-separated words, joined. */
  function ClassName(name: string): string {
    Flatten(CapitalizeAll(Tokens(name, IsSpace)))
  }

  lemma {:induction false} LowerFlattenCapitalized(ws: seq<string>)
    ensures LowerStr(Flatten(CapitalizeAll(ws))) == LowerStr(Flatten(ws))
  {
    if ws != [] {
      var rs := CapitalizeAll(ws);
      assert rs[1..] == CapitalizeAll(ws[1..]);
      LowerStrConcat(rs[0], Flatten(rs[1..]));
      LowerStrConcat(ws[0], Flatten(ws[1..]));
      LowerFlattenCapitalized(ws[1..]);
    }
  }

  /** The class name spells the name's non-whitespace characters, up to case. */
  lemma ClassNameMatchesName(name: string)
    ensures LowerStr(ClassName(name)) == LowerStr(Without(name, IsSpace))
  {
    LowerFlattenCapitalized(Tokens(name, IsSpace));
    FlattenTokens(name, IsSpace);
  }

  lemma {:induction false} FlattenNoSpace(ws: seq<string>)
    requires forall k :: 0 <= k < |ws| ==> IsToken(ws[k], IsSpace)
    ensures forall i :: 0 <= i < |Flatten(ws)| ==> !IsSpace(Flatten(ws)[i])
  {
    if ws != [] {
      FlattenNoSpace(ws[1..]);
      var f := Flatten(ws);
      var rest := Flatten(ws[1..]);
      assert f == ws[0] + rest;
      forall i | 0 <= i < |f| ensures !IsSpace(f[i]) {
        if i < |ws[0]| {
          assert f[i] == ws[0][i];
        } else {
          assert f[i] == rest[i - |ws[0]|];
        }
      }
    }
  }

  /** The class name holds no whitespace. */
  lemma ClassNameHasNoWhitespace(name: string)
    ensures forall i :: 0 <= i < |ClassName(name)| ==> !IsSpace(ClassName(name)[i])
  {
    var ts := Tokens(name, IsSpace);
    TokensAreTokens(name, IsSpace);
    var rs := CapitalizeAll(ts);
    forall k | 0 <= k < |rs| ensures IsToken(rs[k], IsSpace) {
      var w := ts[k];
      assert rs[k] == Capitalize(w);
      if w != [] {
        assert rs[k] == [Upper(w[0])] + LowerStr(w[1..]);
        forall i | 1 <= i < |w| ensures !IsSpace(rs[k][i]) {
          assert rs[k][i] == Lower(w[i]);
        }
      }
    }
    FlattenNoSpace(rs);
  }

  /** Words joined by single spaces give the concatenation of their
      capitalized forms. */
  lemma ClassNameOfWords(ws: seq<string>)
    requires forall k :: 0 <= k < |ws| ==> IsToken(ws[k], IsSpace)
    ensures ClassName(JoinWith(ws, " ")) == Flatten(CapitalizeAll(ws))
  {
    TokensOfJoin(ws, ' ', IsSpace);
  }
}
