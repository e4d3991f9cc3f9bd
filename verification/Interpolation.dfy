/** `{{env.VAR}}` placeholder substitution. */
module Interpolation {
  import opened Text

  type Lookup = string -> Option<string>

  const ESCAPE := ['\\', '{', '{']
  const OPEN := ['{', '{']
  const CLOSE := ['}', '}']
  const ENV := ['e', 'n', 'v', '.']

  /** What the scanner cuts its input into. */
  datatype Token = Literal(c: char) | Escaped | Placeholder(tag: string) | Unclosed(tag: string)

  function Source(t: Token): string {
    match t
    case Literal(c) => [c]
    case Escaped => ESCAPE
    case Placeholder(tag) => OPEN + tag + CLOSE
    case Unclosed(tag) => OPEN + tag
  }

  /** The namespace is what comes before the first dot. */
  function DotAt(tag: string): Option<nat> {
    FindFrom(tag, ['.'], 0)
  }

  predicate IsEnv(tag: string) {
    DotAt(tag).Some? && tag[..DotAt(tag).value] == ENV[..3]
  }

  function Render(t: Token, lookup: Lookup): string {
    match t
    case Literal(c) => [c]
    case Escaped => OPEN
    case Placeholder(tag) =>
      if IsEnv(tag) then
        match lookup(tag[DotAt(tag).value + 1..])
        case Some(v) => v
        case None => ""
      else OPEN + tag + CLOSE
    case Unclosed(tag) => OPEN + tag
  }

  function Renderer(lookup: Lookup): Token -> string {
    (t: Token) => Render(t, lookup)
  }

  function Tokens(s: string): seq<Token>
    decreases |s|
  {
    if s == [] then []
    else if StartsWith(s, ESCAPE) then [Escaped] + Tokens(s[3..])
    else if StartsWith(s, OPEN) then
      match FindFrom(s, CLOSE, 2)
      case None => [Unclosed(s[2..])]
      case Some(k) => [Placeholder(s[2..k])] + Tokens(s[k + 2..])
    else [Literal(s[0])] + Tokens(s[1..])
  }

  function Interpolated(s: string, lookup: Lookup): string {
    Joined(Tokens(s), Renderer(lookup))
  }

  lemma JoinedHead(t: Token, ts: seq<Token>, pick: Token -> string)
    ensures Joined([t] + ts, pick) == pick(t) + Joined(ts, pick)
  {
    JoinedConcat([t], ts, pick);
    JoinedOne(t, pick);
  }

  lemma AtEscape(s: string, lookup: Lookup)
    requires StartsWith(s, ESCAPE)
    ensures Interpolated(s, lookup) == OPEN + Interpolated(s[3..], lookup)
  {
    JoinedHead(Escaped, Tokens(s[3..]), Renderer(lookup));
  }

  lemma AtOpen(s: string, lookup: Lookup)
    requires !StartsWith(s, ESCAPE) && StartsWith(s, OPEN)
    ensures var close := FindFrom(s, CLOSE, 2);
            Interpolated(s, lookup) ==
            if close.Some?
            then Render(Placeholder(s[2..close.value]), lookup) + Interpolated(s[close.value + 2..], lookup)
            else OPEN + s[2..]
  {
    var close := FindFrom(s, CLOSE, 2);
    if close.Some? {
      JoinedHead(Placeholder(s[2..close.value]), Tokens(s[close.value + 2..]), Renderer(lookup));
    } else {
      JoinedOne(Unclosed(s[2..]), Renderer(lookup));
    }
  }

  lemma AtLiteral(s: string, lookup: Lookup)
    requires s != [] && !StartsWith(s, ESCAPE) && !StartsWith(s, OPEN)
    ensures Interpolated(s, lookup) == [s[0]] + Interpolated(s[1..], lookup)
  {
    JoinedHead(Literal(s[0]), Tokens(s[1..]), Renderer(lookup));
  }

  /** Looking one or two characters ahead decides how the rest of the input begins. */
  lemma LookAhead(input: string, i: nat)
    requires i < |input|
    ensures StartsWith(input[i..], ESCAPE)
       <==> i + 2 < |input| && input[i] == '\\' && input[i + 1] == '{' && input[i + 2] == '{'
    ensures StartsWith(input[i..], OPEN) <==> i + 1 < |input| && input[i] == '{' && input[i + 1] == '{'
  {
    var rest := input[i..];
    if |rest| >= 3 {
      assert rest[0..3] == [rest[0], rest[1], rest[2]];
    }
    if |rest| >= 2 {
      assert rest[0..2] == [rest[0], rest[1]];
    }
  }

  lemma EscapeStep(input: string, i: nat, lookup: Lookup)
    requires i + 2 < |input| && input[i] == '\\' && input[i + 1] == '{' && input[i + 2] == '{'
    ensures Interpolated(input[i..], lookup) == OPEN + Interpolated(input[i + 3..], lookup)
  {
    hide Interpolated, OccursAt;
    LookAhead(input, i);
    AtEscape(input[i..], lookup);
    assert input[i..][3..] == input[i + 3..];
  }

  lemma LiteralStep(input: string, i: nat, lookup: Lookup)
    requires i < |input| && !(i + 1 < |input| && input[i] == '{' && input[i + 1] == '{')
    requires !(i + 2 < |input| && input[i] == '\\' && input[i + 1] == '{' && input[i + 2] == '{')
    ensures Interpolated(input[i..], lookup) == [input[i]] + Interpolated(input[i + 1..], lookup)
  {
    hide Interpolated, OccursAt;
    LookAhead(input, i);
    AtLiteral(input[i..], lookup);
    assert input[i..][1..] == input[i + 1..];
  }

  lemma TagStep(input: string, i: nat, lookup: Lookup)
    requires i + 1 < |input| && input[i] == '{' && input[i + 1] == '{'
    ensures var close := FindFrom(input, CLOSE, i + 2);
            Interpolated(input[i..], lookup) ==
            if close.Some? then Render(Placeholder(input[i + 2..close.value]), lookup)
                                + Interpolated(input[close.value + 2..], lookup)
            else OPEN + input[i + 2..]
  {
    hide Interpolated, Render, FindFrom, OccursAt;
    var rest, close := input[i..], FindFrom(input, CLOSE, i + 2);
    LookAhead(input, i);
    AtOpen(rest, lookup);
    FindShifted(input, i);
    if close.Some? {
      CloseFits(input, i + 2);
      assert rest[2..close.value - i] == input[i + 2..close.value];
      assert rest[close.value - i + 2..] == input[close.value + 2..];
    } else {
      assert rest[2..] == input[i + 2..];
    }
  }

  lemma CloseFits(s: string, from: nat)
    requires from <= |s| && FindFrom(s, CLOSE, from).Some?
    ensures from <= FindFrom(s, CLOSE, from).value <= |s| - 2
  {
  }

  /** The character scanner of the source, with its inner loop up to the closing braces. */
  method InterpolateWith(input: string, lookup: Lookup) returns (out: string)
    ensures out == Interpolated(input, lookup)
  {
    hide Interpolated, Render, OccursAt, FindFrom;
    out := [];
    var i := 0;
    assert input[0..] == input;
    while i < |input|
      invariant 0 <= i <= |input|
      invariant out + Interpolated(input[i..], lookup) == Interpolated(input, lookup)
    {
      if i + 2 < |input| && input[i] == '\\' && input[i + 1] == '{' && input[i + 2] == '{' {
        EscapeStep(input, i, lookup);
        out := out + OPEN;
        i := i + 3;
        continue;
      }
      if i + 1 < |input| && input[i] == '{' && input[i + 1] == '{' {
        TagStep(input, i, lookup);
        var j, tag, closed := ReadTag(input, i + 2);
        if !closed {
          out := out + OPEN + tag;
          assert input[j..] == [];
          NothingLeft(lookup);
        } else {
          var text := RenderTag(tag, lookup);
          out := out + text;
        }
        i := j;
      } else {
        LiteralStep(input, i, lookup);
        out := out + [input[i]];
        i := i + 1;
      }
    }
    assert input[i..] == [];
    NothingLeft(lookup);
  }

  lemma NothingLeft(lookup: Lookup)
    ensures Interpolated([], lookup) == []
  {
  }

  /** The dispatch on the tag: only the `env` namespace is substituted. */
  method RenderTag(tag: string, lookup: Lookup) returns (text: string)
    ensures text == Render(Placeholder(tag), lookup)
  {
    text := [];
    if DotAt(tag).Some? {
      var dot := DotAt(tag).value;
      var ns, name := tag[..dot], tag[dot + 1..];
      if ns == ENV[..3] {
        var value := lookup(name);
        if value.Some? {
          text := value.value;
        }
      } else {
        text := OPEN + tag + CLOSE;
      }
    } else {
      text := OPEN + tag + CLOSE;
    }
  }

  /** Reads up to and past the first `}}`, or to the end. */
  method ReadTag(input: string, from: nat) returns (j: nat, tag: string, closed: bool)
    requires from <= |input|
    ensures closed <==> FindFrom(input, CLOSE, from).Some?
    ensures closed ==> j == FindFrom(input, CLOSE, from).value + 2 && tag == input[from..j - 2] && j <= |input|
    ensures !closed ==> j == |input| && tag == input[from..]
  {
    j, tag, closed := from, [], false;
    while j < |input|
      invariant from <= j <= |input| && tag == input[from..j] && !closed
      invariant forall k :: from <= k < j ==> !OccursAt(input, CLOSE, k)
    {
      var ch := input[j];
      j := j + 1;
      if ch == '}' && j < |input| && input[j] == '}' {
        assert OccursAt(input, CLOSE, j - 1);
        j := j + 1;
        closed := true;
        break;
      }
      assert !OccursAt(input, CLOSE, j - 1);
      tag := tag + [ch];
    }
  }

  lemma OccursShifted(s: string, p: string, i: nat, k: nat)
    requires i <= |s|
    ensures OccursAt(s[i..], p, k) == OccursAt(s, p, i + k)
  {
    if i + k + |p| <= |s| {
      assert s[i..][k..k + |p|] == s[i + k..i + k + |p|];
    }
  }

  lemma FindShifted(s: string, i: nat)
    requires i + 2 <= |s|
    ensures FindFrom(s, CLOSE, i + 2).None? ==> FindFrom(s[i..], CLOSE, 2).None?
    ensures FindFrom(s, CLOSE, i + 2).Some? ==>
              FindFrom(s[i..], CLOSE, 2) == Some(FindFrom(s, CLOSE, i + 2).value - i)
  {
    hide OccursAt, FindFrom;
    var rest := s[i..];
    match FindFrom(s, CLOSE, i + 2)
    case None =>
      forall k | 2 <= k <= |rest| ensures !OccursAt(rest, CLOSE, k) {
        OccursShifted(s, CLOSE, i, k);
      }
      NotFound(rest, CLOSE, 2);
    case Some(b) =>
      forall k | 2 <= k <= b - i ensures OccursAt(rest, CLOSE, k) <==> k == b - i {
        OccursShifted(s, CLOSE, i, k);
      }
      CloseFits(s, i + 2);
      FoundAt(rest, CLOSE, 2, b - i);
  }
}
