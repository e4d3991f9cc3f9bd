/** What the documentation of `{{env.VAR}}` substitution promises, for every input. */
module InterpolationLaws {
  import opened Text
  import opened Interpolation

  // ----- how an input begins -----

  lemma Heads(s: string)
    ensures StartsWith(s, ESCAPE) <==> |s| >= 3 && s[0] == '\\' && s[1] == '{' && s[2] == '{'
    ensures StartsWith(s, OPEN) <==> |s| >= 2 && s[0] == '{' && s[1] == '{'
  {
    if s != [] {
      LookAhead(s, 0);
      assert s[0..] == s;
    }
  }

  lemma HeadParts(s: string, p: string)
    requires StartsWith(s, p)
    ensures |s| >= |p| && s == p + s[|p|..]
  {
    assert s[0..|p|] == p;
  }

  lemma CutEscape(s: string)
    requires StartsWith(s, ESCAPE)
    ensures |s| >= 3 && s == ESCAPE + s[3..] && Tokens(s) == [Escaped] + Tokens(s[3..])
  {
    hide StartsWith, FindFrom;
    HeadParts(s, ESCAPE);
  }

  lemma CutPlaceholder(s: string)
    requires !StartsWith(s, ESCAPE) && StartsWith(s, OPEN) && FindFrom(s, CLOSE, 2).Some?
    ensures var k := FindFrom(s, CLOSE, 2).value;
            && 2 <= k && k + 2 <= |s| && s == OPEN + s[2..k] + CLOSE + s[k + 2..]
            && Tokens(s) == [Placeholder(s[2..k])] + Tokens(s[k + 2..])
  {
    hide StartsWith, FindFrom, OccursAt;
    HeadParts(s, OPEN);
    CloseFits(s, 2);
    FourParts(s, FindFrom(s, CLOSE, 2).value);
  }

  lemma FourParts(s: string, k: nat)
    requires 2 <= k && |s| >= 2 && s == OPEN + s[2..] && OccursAt(s, CLOSE, k)
    ensures k + 2 <= |s| && s == OPEN + s[2..k] + CLOSE + s[k + 2..]
  {
    assert s[2..] == s[2..k] + s[k..k + 2] + s[k + 2..];
  }

  lemma CutUnclosed(s: string)
    requires !StartsWith(s, ESCAPE) && StartsWith(s, OPEN) && FindFrom(s, CLOSE, 2).None?
    ensures |s| >= 2 && s == OPEN + s[2..] && Tokens(s) == [Unclosed(s[2..])]
  {
    hide StartsWith, FindFrom, OccursAt;
    HeadParts(s, OPEN);
  }

  lemma CutLiteral(s: string)
    requires s != [] && !StartsWith(s, ESCAPE) && !StartsWith(s, OPEN)
    ensures s == [s[0]] + s[1..] && Tokens(s) == [Literal(s[0])] + Tokens(s[1..])
  {
  }

  // ----- escaping round-trips -----

  /** Writes `\{{` for each leftmost non-overlapping `{{`. */
  function Escape(s: string): string
    decreases |s|
  {
    if s == [] then []
    else if StartsWith(s, "{{") then "\\{{" + Escape(s[2..])
    else [s[0]] + Escape(s[1..])
  }

  /** The escaped form opens with a brace only where the original does, and never with two. */
  lemma {:induction false} EscapeStart(s: string)
    ensures Escape(s) != [] && Escape(s)[0] == '{' ==> s != [] && s[0] == '{' && !StartsWith(s, OPEN)
    ensures !StartsWith(Escape(s), OPEN)
    decreases |s|
  {
    Heads(s);
    Heads(Escape(s));
    if s != [] && !StartsWith(s, OPEN) {
      EscapeStart(s[1..]);
    }
  }

  lemma EscapeNeverEscapes(s: string)
    requires s != [] && !StartsWith(s, OPEN)
    ensures !StartsWith(Escape(s), ESCAPE)
  {
    Heads(Escape(s));
    Heads(Escape(s[1..]));
    EscapeStart(s[1..]);
  }

  lemma OpensWithEscape(s: string)
    requires StartsWith(s, OPEN)
    ensures |s| >= 2 && s == OPEN + s[2..]
    ensures StartsWith(Escape(s), ESCAPE) && Escape(s) == ESCAPE + Escape(s[2..])
  {
    assert s[0..2] == OPEN;
    PrefixStarts(ESCAPE, Escape(s[2..]));
  }

  lemma PrefixStarts(p: string, x: string)
    ensures StartsWith(p + x, p)
  {
    assert (p + x)[0..|p|] == p;
  }

  /** Escaping and interpolating returns every string, whatever the variables are. */
  lemma {:induction false} EscapeRoundTrip(s: string, lookup: Lookup)
    ensures Interpolated(Escape(s), lookup) == s
    decreases |s|
  {
    hide Interpolated, OccursAt;
    if s == [] {
      NothingLeft(lookup);
    } else if StartsWith(s, OPEN) {
      OpensWithEscape(s);
      EscapeRoundTrip(s[2..], lookup);
      AtEscape(Escape(s), lookup);
      assert Escape(s)[3..] == Escape(s[2..]);
    } else {
      EscapeRoundTrip(s[1..], lookup);
      EscapeStart(s);
      EscapeNeverEscapes(s);
      AtLiteral(Escape(s), lookup);
      assert Escape(s)[1..] == Escape(s[1..]);
      assert s == [s[0]] + s[1..];
    }
  }

  // ----- text without placeholders -----

  /** The tokens cut the input up without loss. */
  lemma {:induction false} TokensAreLossless(s: string)
    ensures Joined(Tokens(s), Source) == s
    decreases |s|
  {
    hide Tokens, StartsWith, FindFrom, Joined;
    if s == [] {
      NothingCut();
    } else if StartsWith(s, ESCAPE) {
      CutEscape(s);
      TokensAreLossless(s[3..]);
      JoinedHead(Escaped, Tokens(s[3..]), Source);
    } else if StartsWith(s, OPEN) {
      Heads(s);
      if FindFrom(s, CLOSE, 2).Some? {
        CutPlaceholder(s);
        var k := FindFrom(s, CLOSE, 2).value;
        TokensAreLossless(s[k + 2..]);
        JoinedHead(Placeholder(s[2..k]), Tokens(s[k + 2..]), Source);
      } else {
        CutUnclosed(s);
        JoinedOne(Unclosed(s[2..]), Source);
      }
    } else {
      CutLiteral(s);
      TokensAreLossless(s[1..]);
      JoinedHead(Literal(s[0]), Tokens(s[1..]), Source);
    }
  }

  lemma NothingCut()
    ensures Tokens([]) == [] && Joined([], Source) == []
  {
  }

  /** Tokens that interpolation rewrites. */
  predicate IsActive(t: Token) {
    t.Escaped? || (t.Placeholder? && IsEnv(t.tag))
  }

  predicate Untouched(s: string) {
    forall i :: 0 <= i < |Tokens(s)| ==> !IsActive(Tokens(s)[i])
  }

  function Unset(): Lookup {
    (name: string) => None
  }

  lemma {:induction false} RendersAsSource(ts: seq<Token>, lookup: Lookup)
    requires forall i :: 0 <= i < |ts| ==> !IsActive(ts[i])
    ensures Joined(ts, Renderer(lookup)) == Joined(ts, Source)
  {
    if ts != [] {
      RendersAsSource(ts[..|ts| - 1], lookup);
    }
  }

  lemma {:induction false} UnsetShrinks(ts: seq<Token>)
    ensures |Joined(ts, Renderer(Unset()))| <= |Joined(ts, Source)|
    ensures (exists i :: 0 <= i < |ts| && IsActive(ts[i])) ==> |Joined(ts, Renderer(Unset()))| < |Joined(ts, Source)|
  {
    if ts != [] {
      UnsetShrinks(ts[..|ts| - 1]);
    }
  }

  /** The input comes back unchanged for every environment exactly when it has no escape and no env placeholder;
      already the empty environment tells. */
  lemma UnchangedIff(s: string, lookup: Lookup)
    ensures Untouched(s) ==> Interpolated(s, lookup) == s
    ensures Interpolated(s, Unset()) == s <==> Untouched(s)
  {
    TokensAreLossless(s);
    UnsetShrinks(Tokens(s));
    if Untouched(s) {
      RendersAsSource(Tokens(s), lookup);
      RendersAsSource(Tokens(s), Unset());
    }
  }

  lemma EnvDot(tag: string)
    requires |tag| >= 4 && tag[..4] == ENV
    ensures DotAt(tag) == Some(3)
  {
    assert tag[3..4] == [tag[..4][3]];
    forall j | 0 <= j < 3 ensures !OccursAt(tag, ['.'], j) {
      assert tag[j] == tag[..4][j] && tag[j..j + 1] == [tag[j]];
    }
    FoundAt(tag, ['.'], 0, 3);
  }

  lemma EnvTagStart(tag: string)
    ensures IsEnv(tag) <==> StartsWith(tag, ENV)
  {
    if IsEnv(tag) {
      assert OccursAt(tag, ['.'], 3);
      assert tag[0..4] == tag[..3] + [tag[3]];
    }
    if StartsWith(tag, ENV) {
      assert tag[0..4] == tag[..4];
      EnvDot(tag);
      assert tag[..3] == tag[..4][..3];
    }
  }

  /** `p` occurs somewhere in `s`. */
  predicate Occurs(s: string, p: string) {
    exists i :: 0 <= i <= |s| && OccursAt(s, p, i)
  }

  lemma OccursLater(s: string, k: nat, p: string)
    requires k <= |s| && Occurs(s[k..], p)
    ensures Occurs(s, p)
  {
    var i :| 0 <= i <= |s[k..]| && OccursAt(s[k..], p, i);
    OccursShifted(s, p, k, i);
    assert OccursAt(s, p, k + i);
  }

  lemma EnvTagOccurs(s: string, k: nat)
    requires StartsWith(s, OPEN) && 2 <= k <= |s| && IsEnv(s[2..k])
    ensures StartsWith(s, OPEN + ENV)
  {
    var tag := s[2..k];
    EnvTagStart(tag);
    assert s[0..2] == OPEN && tag[0..4] == ENV;
    assert s[0..6] == s[0..2] + tag[0..4];
  }

  /** An active token shows in the input as `\{{` or `{{env.`. */
  lemma {:induction false} ActiveTokensShow(s: string)
    requires !Untouched(s)
    ensures Occurs(s, ESCAPE) || Occurs(s, OPEN + ENV)
    decreases |s|
  {
    hide Tokens, StartsWith, FindFrom;
    if s == [] {
      NothingCut();
    } else if StartsWith(s, ESCAPE) {
      StartOccurs(s, ESCAPE);
    } else if StartsWith(s, OPEN) {
      Heads(s);
      if FindFrom(s, CLOSE, 2).Some? {
        CutPlaceholder(s);
        var k := FindFrom(s, CLOSE, 2).value;
        if IsEnv(s[2..k]) {
          EnvTagOccurs(s, k);
          StartOccurs(s, OPEN + ENV);
        } else {
          StillActive(s, Placeholder(s[2..k]), s[k + 2..]);
          ActiveTokensShow(s[k + 2..]);
          ShowsLater(s, k + 2);
        }
      } else {
        CutUnclosed(s);
      }
    } else {
      CutLiteral(s);
      StillActive(s, Literal(s[0]), s[1..]);
      ActiveTokensShow(s[1..]);
      ShowsLater(s, 1);
    }
  }

  lemma StartOccurs(s: string, p: string)
    requires StartsWith(s, p)
    ensures Occurs(s, p)
  {
    assert OccursAt(s, p, 0);
  }

  lemma StillActive(s: string, t: Token, rest: string)
    requires Tokens(s) == [t] + Tokens(rest) && !IsActive(t) && !Untouched(s)
    ensures !Untouched(rest)
  {
    var i :| 0 <= i < |Tokens(s)| && IsActive(Tokens(s)[i]);
    assert Tokens(rest)[i - 1] == Tokens(s)[i];
  }

  lemma ShowsLater(s: string, k: nat)
    requires k <= |s| && (Occurs(s[k..], ESCAPE) || Occurs(s[k..], OPEN + ENV))
    ensures Occurs(s, ESCAPE) || Occurs(s, OPEN + ENV)
  {
    if Occurs(s[k..], ESCAPE) {
      OccursLater(s, k, ESCAPE);
    } else {
      OccursLater(s, k, OPEN + ENV);
    }
  }

  /** The marks as they are written. */
  lemma Marks()
    ensures "\\{{" == ESCAPE && "{{" == OPEN && "}}" == CLOSE && "{{env." == OPEN + ENV
  {
  }

  /** Input without `\{{` and without `{{env.` is returned unchanged, malformed tails included. */
  lemma PlainTextUnchanged(s: string, lookup: Lookup)
    requires !Occurs(s, "\\{{") && !Occurs(s, "{{env.")
    ensures Interpolated(s, lookup) == s
  {
    Marks();
    if !Untouched(s) {
      ActiveTokensShow(s);
    }
    UnchangedIff(s, lookup);
  }

  // ----- substituted values are never rescanned -----

  /** Nothing after the last token can join it: no open tag, no trailing backslash or brace. */
  predicate EndsClean(s: string) {
    var ts := Tokens(s);
    ts == [] || !(ts[|ts| - 1].Unclosed? || ts[|ts| - 1] == Literal('\\') || ts[|ts| - 1] == Literal('{'))
  }

  lemma CleanTail(t: Token, ts: seq<Token>, s: string, rest: string)
    requires Tokens(s) == [t] + ts && ts == Tokens(rest) && EndsClean(s)
    ensures EndsClean(rest)
  {
    if ts != [] {
      assert ts[|ts| - 1] == Tokens(s)[|ts|];
    }
  }

  lemma OpenTagIsNotClean(s: string, tag: string)
    requires Tokens(s) == [Unclosed(tag)]
    ensures !EndsClean(s)
  {
  }

  lemma StartsWithConcat(s: string, x: string, p: string)
    requires |s| >= |p|
    ensures StartsWith(s + x, p) == StartsWith(s, p)
  {
    assert (s + x)[0..|p|] == s[0..|p|];
  }

  lemma CloseFoundWithin(s: string, x: string)
    requires |s| >= 2 && FindFrom(s, CLOSE, 2).Some?
    ensures FindFrom(s + x, CLOSE, 2) == FindFrom(s, CLOSE, 2)
  {
    var k := FindFrom(s, CLOSE, 2).value;
    forall j: nat | j <= k ensures OccursAt(s + x, CLOSE, j) == OccursAt(s, CLOSE, j) {
      assert (s + x)[j..j + 2] == s[j..j + 2];
    }
    FoundAt(s + x, CLOSE, 2, k);
  }

  /** A clean first character followed by anything is still read as itself. */
  lemma LiteralStays(s: string, x: string)
    requires s != [] && !StartsWith(s, ESCAPE) && !StartsWith(s, OPEN) && EndsClean(s)
    ensures !StartsWith(s + x, ESCAPE) && !StartsWith(s + x, OPEN)
  {
    Heads(s);
    Heads(s + x);
    CutLiteral(s);
    if |s| == 1 {
      NothingCut();
    } else if |s| == 2 && s[0] == '\\' && s[1] == '{' {
      Heads(s[1..]);
      CutLiteral(s[1..]);
      assert false;
    }
  }

  lemma EscapeThen(s: string, x: string)
    requires StartsWith(s, ESCAPE) && EndsClean(s)
    ensures |s| >= 3 && EndsClean(s[3..])
    ensures Tokens(s) == [Escaped] + Tokens(s[3..]) && Tokens(s + x) == [Escaped] + Tokens(s[3..] + x)
  {
    hide Tokens, StartsWith, OccursAt, EndsClean;
    CutEscape(s);
    CleanTail(Escaped, Tokens(s[3..]), s, s[3..]);
    StartsWithConcat(s, x, ESCAPE);
    CutEscape(s + x);
    assert (s + x)[3..] == s[3..] + x;
  }

  lemma PlaceholderThen(s: string, x: string)
    requires !StartsWith(s, ESCAPE) && StartsWith(s, OPEN) && FindFrom(s, CLOSE, 2).Some? && EndsClean(s)
    ensures var k := FindFrom(s, CLOSE, 2).value;
            && k + 2 <= |s| && EndsClean(s[k + 2..])
            && Tokens(s) == [Placeholder(s[2..k])] + Tokens(s[k + 2..])
            && Tokens(s + x) == [Placeholder(s[2..k])] + Tokens(s[k + 2..] + x)
  {
    hide Tokens, StartsWith, FindFrom, OccursAt, EndsClean;
    var all := s + x;
    Heads(s);
    Heads(all);
    CutPlaceholder(s);
    var k := FindFrom(s, CLOSE, 2).value;
    CleanTail(Placeholder(s[2..k]), Tokens(s[k + 2..]), s, s[k + 2..]);
    CloseFoundWithin(s, x);
    CutPlaceholder(all);
    assert all[k + 2..] == s[k + 2..] + x && all[2..k] == s[2..k];
  }

  lemma LiteralThen(s: string, x: string)
    requires s != [] && !StartsWith(s, ESCAPE) && !StartsWith(s, OPEN) && EndsClean(s)
    ensures EndsClean(s[1..])
    ensures Tokens(s) == [Literal(s[0])] + Tokens(s[1..]) && Tokens(s + x) == [Literal(s[0])] + Tokens(s[1..] + x)
  {
    hide Tokens, StartsWith, OccursAt, EndsClean;
    CutLiteral(s);
    CleanTail(Literal(s[0]), Tokens(s[1..]), s, s[1..]);
    LiteralStays(s, x);
    CutLiteral(s + x);
    assert (s + x)[1..] == s[1..] + x;
  }

  lemma Regroup(t: Token, a: seq<Token>, b: seq<Token>)
    ensures [t] + (a + b) == [t] + a + b
  {
  }

  /** Text that ends clean is tokenised on its own, whatever follows. */
  lemma {:induction false} TokensConcat(s: string, x: string)
    requires EndsClean(s)
    ensures Tokens(s + x) == Tokens(s) + Tokens(x)
    decreases |s|
  {
    hide Tokens, StartsWith, FindFrom, OccursAt, EndsClean;
    if s == [] {
      NothingCut();
      assert s + x == x;
    } else if StartsWith(s, ESCAPE) {
      EscapeThen(s, x);
      TokensConcat(s[3..], x);
      Regroup(Escaped, Tokens(s[3..]), Tokens(x));
    } else if StartsWith(s, OPEN) {
      Heads(s);
      if FindFrom(s, CLOSE, 2).Some? {
        PlaceholderThen(s, x);
        var k := FindFrom(s, CLOSE, 2).value;
        TokensConcat(s[k + 2..], x);
        Regroup(Placeholder(s[2..k]), Tokens(s[k + 2..]), Tokens(x));
      } else {
        CutUnclosed(s);
        OpenTagIsNotClean(s, s[2..]);
      }
    } else {
      LiteralThen(s, x);
      TokensConcat(s[1..], x);
      Regroup(Literal(s[0]), Tokens(s[1..]), Tokens(x));
    }
  }

  lemma NotEscape(s: string)
    requires s != [] && s[0] == '{'
    ensures !StartsWith(s, ESCAPE)
  {
    if |s| >= 3 {
      assert s[0..3][0] == '{';
    }
  }

  /** A variable name the placeholder syntax can carry: its own text does not close the tag. */
  predicate IsName(name: string) {
    forall j :: 0 <= j < |name| ==> !OccursAt(name + ['}'], CLOSE, j)
  }

  lemma EnvPlaceholderClose(name: string, after: string)
    requires IsName(name)
    ensures var s := OPEN + ENV + name + CLOSE + after;
            FindFrom(s, CLOSE, 2) == Some(6 + |name|)
  {
    var s := OPEN + ENV + name + CLOSE + after;
    var k := 6 + |name|;
    assert s[k..k + 2] == CLOSE;
    forall j: nat | 2 <= j < k ensures !OccursAt(s, CLOSE, j) {
      if j < 6 {
        assert s[j] == ENV[j - 2];
      } else {
        assert s[j..j + 2] == (name + ['}'])[j - 6..j - 4];
        assert !OccursAt(name + ['}'], CLOSE, j - 6);
      }
    }
    FoundAt(s, CLOSE, 2, k);
  }

  lemma EnvPlaceholderToken(name: string, after: string)
    requires IsName(name)
    ensures Tokens(OPEN + ENV + name + CLOSE + after) == [Placeholder(ENV + name)] + Tokens(after)
  {
    hide FindFrom, OccursAt, IsName;
    var s := OPEN + ENV + name + CLOSE + after;
    var k := 6 + |name|;
    EnvPlaceholderClose(name, after);
    NotEscape(s);
    assert s == OPEN + (ENV + name + CLOSE + after);
    PrefixStarts(OPEN, ENV + name + CLOSE + after);
    assert s[2..k] == ENV + name && s[k + 2..] == after;
  }

  function ValueOf(lookup: Lookup, name: string): string {
    match lookup(name)
    case Some(v) => v
    case None => ""
  }

  lemma EnvRendersValue(name: string, lookup: Lookup)
    ensures Render(Placeholder(ENV + name), lookup) == ValueOf(lookup, name)
  {
    var tag := ENV + name;
    assert tag[..4] == ENV && tag[0..4] == ENV;
    EnvTagStart(tag);
    EnvDot(tag);
    assert tag[4..] == name;
  }

  lemma ValueInPlace(before: string, name: string, after: string, lookup: Lookup)
    requires EndsClean(before) && IsName(name)
    ensures Interpolated(before + (OPEN + ENV + name + CLOSE + after), lookup)
         == Interpolated(before, lookup) + ValueOf(lookup, name) + Interpolated(after, lookup)
  {
    var t := Placeholder(ENV + name);
    TokensConcat(before, OPEN + ENV + name + CLOSE + after);
    EnvPlaceholderToken(name, after);
    JoinedConcat(Tokens(before), [t] + Tokens(after), Renderer(lookup));
    JoinedHead(t, Tokens(after), Renderer(lookup));
    EnvRendersValue(name, lookup);
  }

  /** After text that ends clean, a placeholder becomes its variable's value verbatim, braces and all,
      and what follows is interpolated as if it stood alone. */
  lemma ValuesAreNeverRescanned(before: string, name: string, after: string, lookup: Lookup)
    requires EndsClean(before) && IsName(name)
    ensures Interpolated(before + ("{{env." + name + "}}" + after), lookup)
         == Interpolated(before, lookup) + ValueOf(lookup, name) + Interpolated(after, lookup)
  {
    hide *;
    Marks();
    assert "{{env." + name + "}}" + after == OPEN + ENV + name + CLOSE + after;
    ValueInPlace(before, name, after, lookup);
  }
}
