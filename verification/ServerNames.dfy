/** Server-name canonicalisation: `sanitize_name` of the MCP session module. */
module ServerNames {

  const UNKNOWN := "unknown"

  predicate IsAsciiAlphanumeric(c: char) {
    '0' <= c <= '9' || 'A' <= c <= 'Z' || 'a' <= c <= 'z'
  }

  /** What the canonicaliser needs of `char::is_alphanumeric`: it agrees with ASCII on ASCII. */
  ghost predicate ExtendsAscii(alnum: char -> bool) {
    forall c: char :: (c as int) < 128 ==> alnum(c) == IsAsciiAlphanumeric(c)
  }

  predicate Kept(alnum: char -> bool, c: char) {
    c == '-' || (c != '_' && alnum(c))
  }

  predicate EndsInUnderscore(s: string) {
    s != [] && s[|s| - 1] == '_'
  }

  /** Kept characters stay; every maximal stretch of other characters becomes one underscore. */
  function Collapse(alnum: char -> bool, s: string): string {
    if s == [] then []
    else
      var r := Collapse(alnum, s[..|s| - 1]);
      var c := s[|s| - 1];
      if Kept(alnum, c) then r + [c] else if EndsInUnderscore(r) then r else r + ['_']
  }

  function Strip(r: string): string {
    var t := if EndsInUnderscore(r) then r[..|r| - 1] else r;
    if t == [] then UNKNOWN else t
  }

  function Sanitized(alnum: char -> bool, s: string): string {
    Strip(Collapse(alnum, s))
  }

  /** The scan of the source: one pass over the characters with an underscore flag. */
  method SanitizeName(alnum: char -> bool, name: string) returns (result: string)
    requires ExtendsAscii(alnum)
    ensures result == Sanitized(alnum, name)
  {
    result := "";
    var prevUnderscore := false;
    for i := 0 to |name|
      invariant result == Collapse(alnum, name[..i])
      invariant prevUnderscore == EndsInUnderscore(result)
    {
      assert name[..i + 1][..i] == name[..i];
      var c := name[i];
      if alnum(c) || c == '_' || c == '-' {
        if c == '_' {
          if prevUnderscore {
            continue;
          }
          prevUnderscore := true;
        } else {
          prevUnderscore := false;
        }
        result := result + [c];
      } else if !prevUnderscore {
        result := result + ['_'];
        prevUnderscore := true;
      }
    }
    assert name[..|name|] == name;
    if EndsInUnderscore(result) {
      result := result[..|result| - 1];
    }
    if result == "" {
      result := UNKNOWN;
    }
  }

  predicate DoubleUnderscoreAt(s: string, i: nat) {
    i + 1 < |s| && s[i] == '_' && s[i + 1] == '_'
  }

  predicate NoDoubleUnderscore(s: string) {
    forall i :: 0 <= i < |s| ==> !DoubleUnderscoreAt(s, i)
  }

  predicate OnlyAllowed(alnum: char -> bool, s: string) {
    forall i :: 0 <= i < |s| ==> s[i] == '_' || Kept(alnum, s[i])
  }

  /** The canonical names: non-empty, only allowed characters, no `__`, no trailing underscore. */
  predicate Canonical(alnum: char -> bool, s: string) {
    s != [] && OnlyAllowed(alnum, s) && NoDoubleUnderscore(s) && !EndsInUnderscore(s)
  }

  lemma AppendKeepsSingle(s: string, c: char)
    ensures NoDoubleUnderscore(s + [c]) <==> NoDoubleUnderscore(s) && !(EndsInUnderscore(s) && c == '_')
  {
    var t := s + [c];
    forall i | 0 <= i < |s| ensures DoubleUnderscoreAt(t, i) <==>
      DoubleUnderscoreAt(s, i) || (i == |s| - 1 && EndsInUnderscore(s) && c == '_')
    {
    }
    assert !DoubleUnderscoreAt(t, |s|);
    if NoDoubleUnderscore(t) {
      assert s != [] ==> !DoubleUnderscoreAt(t, |s| - 1);
      assert forall i :: 0 <= i < |s| ==> !DoubleUnderscoreAt(t, i);
    }
  }

  lemma {:induction false} CollapseShape(alnum: char -> bool, s: string)
    ensures OnlyAllowed(alnum, Collapse(alnum, s)) && NoDoubleUnderscore(Collapse(alnum, s))
  {
    hide NoDoubleUnderscore;
    if s == [] {
      NothingDouble();
    } else {
      var r := Collapse(alnum, s[..|s| - 1]);
      CollapseShape(alnum, s[..|s| - 1]);
      AppendKeepsSingle(r, s[|s| - 1]);
      AppendKeepsSingle(r, '_');
    }
  }

  lemma NothingDouble()
    ensures NoDoubleUnderscore([])
  {
  }

  lemma {:induction false} CollapseFixes(alnum: char -> bool, s: string)
    requires OnlyAllowed(alnum, s) && NoDoubleUnderscore(s)
    ensures Collapse(alnum, s) == s
  {
    hide NoDoubleUnderscore;
    if s != [] {
      var p, c := s[..|s| - 1], s[|s| - 1];
      assert s == p + [c];
      AppendKeepsSingle(p, c);
      CollapseFixes(alnum, p);
    }
  }

  lemma StripIsCanonical(alnum: char -> bool, r: string)
    requires ExtendsAscii(alnum) && OnlyAllowed(alnum, r) && NoDoubleUnderscore(r)
    ensures Canonical(alnum, Strip(r))
  {
    assert forall i :: 0 <= i < |UNKNOWN| ==> IsAsciiAlphanumeric(UNKNOWN[i]);
    if EndsInUnderscore(r) {
      var t := r[..|r| - 1];
      assert r == t + ['_'];
      AppendKeepsSingle(t, '_');
    }
  }

  /** Every output is canonical, and the canonical names are exactly the fixed points. */
  lemma SanitizedIsCanonical(alnum: char -> bool, s: string)
    requires ExtendsAscii(alnum)
    ensures Canonical(alnum, Sanitized(alnum, s))
    ensures Sanitized(alnum, s) == s <==> Canonical(alnum, s)
    ensures Sanitized(alnum, Sanitized(alnum, s)) == Sanitized(alnum, s)
  {
    CollapseShape(alnum, s);
    StripIsCanonical(alnum, Collapse(alnum, s));
    var r := Sanitized(alnum, s);
    CollapseFixes(alnum, r);
    if Canonical(alnum, s) {
      CollapseFixes(alnum, s);
    }
  }

  /** The characters a name is known by: letters, digits and dashes, in order. */
  function Letters(alnum: char -> bool, s: string): string {
    if s == [] then []
    else Letters(alnum, s[..|s| - 1]) + (if Kept(alnum, s[|s| - 1]) then [s[|s| - 1]] else [])
  }

  lemma {:induction false} CollapseKeepsLetters(alnum: char -> bool, s: string)
    ensures Letters(alnum, Collapse(alnum, s)) == Letters(alnum, s)
  {
    if s != [] {
      var p := s[..|s| - 1];
      CollapseKeepsLetters(alnum, p);
      var r, t := Collapse(alnum, p), Collapse(alnum, s);
      assert t == r || t[..|t| - 1] == r;
    }
  }

  lemma {:induction false} NoLettersCollapse(alnum: char -> bool, s: string)
    requires Letters(alnum, s) == []
    ensures Collapse(alnum, s) == [] || Collapse(alnum, s) == ['_']
  {
    if s != [] {
      NoLettersCollapse(alnum, s[..|s| - 1]);
    }
  }

  lemma {:induction false} LettersAllAllowed(alnum: char -> bool, s: string, i: nat)
    requires i < |s| && Kept(alnum, s[i])
    ensures s[i] in Letters(alnum, s)
  {
    if i < |s| - 1 {
      LettersAllAllowed(alnum, s[..|s| - 1], i);
    }
  }

  lemma {:induction false} LettersComeFrom(alnum: char -> bool, s: string, c: char)
    requires c in Letters(alnum, s)
    ensures c in s && Kept(alnum, c)
  {
    var p := s[..|s| - 1];
    if c in Letters(alnum, p) {
      LettersComeFrom(alnum, p, c);
    }
  }

  /** No letter, digit or dash is lost, added or moved, unless there was none at all. */
  lemma SanitizedKeepsLetters(alnum: char -> bool, s: string)
    requires ExtendsAscii(alnum)
    ensures Letters(alnum, s) != [] ==> Letters(alnum, Sanitized(alnum, s)) == Letters(alnum, s)
    ensures Letters(alnum, s) == [] ==> Sanitized(alnum, s) == "unknown"
  {
    CollapseKeepsLetters(alnum, s);
    if Letters(alnum, s) == [] {
      NoLettersCollapse(alnum, s);
    }
  }

  /** Names of letters, digits and dashes stay as they are, and nothing but these and underscores comes out. */
  lemma PlainNamesStay(alnum: char -> bool, s: string)
    requires ExtendsAscii(alnum)
    ensures s != [] && (forall i :: 0 <= i < |s| ==> s[i] == '-' || (alnum(s[i]) && s[i] != '_')) ==>
              Sanitized(alnum, s) == s
    ensures var r := Sanitized(alnum, s);
            forall i :: 0 <= i < |r| ==> r[i] == '_' || r[i] == '-' || alnum(r[i])
  {
    hide Sanitized;
    SanitizedIsCanonical(alnum, s);
  }

  predicate DocumentedAlphabet(s: string) {
    forall i :: 0 <= i < |s| ==> s[i] == '_' || s[i] == '-' || IsAsciiAlphanumeric(s[i])
  }

  lemma AsciiIn(alnum: char -> bool, s: string)
    requires ExtendsAscii(alnum) && DocumentedAlphabet(Sanitized(alnum, s))
    ensures forall i :: 0 <= i < |s| && Kept(alnum, s[i]) ==> (s[i] as int) < 128
  {
    hide Sanitized;
    SanitizedKeepsLetters(alnum, s);
    forall i | 0 <= i < |s| && Kept(alnum, s[i]) ensures (s[i] as int) < 128 {
      LettersAllAllowed(alnum, s, i);
      LettersComeFrom(alnum, Sanitized(alnum, s), s[i]);
    }
  }

  lemma AsciiOut(alnum: char -> bool, s: string)
    requires ExtendsAscii(alnum)
    requires forall i :: 0 <= i < |s| && Kept(alnum, s[i]) ==> (s[i] as int) < 128
    ensures DocumentedAlphabet(Sanitized(alnum, s))
  {
    hide Sanitized;
    SanitizedKeepsLetters(alnum, s);
    SanitizedIsCanonical(alnum, s);
    var r := Sanitized(alnum, s);
    forall i | 0 <= i < |r| && r[i] != '_' && r[i] != '-' ensures IsAsciiAlphanumeric(r[i]) {
      if Letters(alnum, s) != [] {
        LettersAllAllowed(alnum, r, i);
        LettersComeFrom(alnum, s, r[i]);
      }
    }
  }

  /** The documented alphabet [a-zA-Z0-9_-] is met exactly when every kept character of the input is ASCII. */
  lemma AsciiOutputIff(alnum: char -> bool, s: string)
    requires ExtendsAscii(alnum)
    ensures DocumentedAlphabet(Sanitized(alnum, s))
       <==> forall i :: 0 <= i < |s| && Kept(alnum, s[i]) ==> (s[i] as int) < 128
  {
    hide Sanitized, DocumentedAlphabet;
    if DocumentedAlphabet(Sanitized(alnum, s)) {
      AsciiIn(alnum, s);
    } else if forall i :: 0 <= i < |s| && Kept(alnum, s[i]) ==> (s[i] as int) < 128 {
      AsciiOut(alnum, s);
    }
  }

  /** A letter outside ASCII, as in a server named `é`, shows in the output. */
  lemma AccentedNameIsNotAscii(alnum: char -> bool)
    requires ExtendsAscii(alnum) && alnum('\U{E9}')
    ensures !DocumentedAlphabet(Sanitized(alnum, ['\U{E9}']))
  {
    var s := ['\U{E9}'];
    assert Kept(alnum, s[0]) && (s[0] as int) >= 128;
    AsciiOutputIff(alnum, s);
  }
}
