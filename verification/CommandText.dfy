/** Command assembly and output truncation of the CLI tool. */
module CommandText {
  import opened Text
  import opened Utf8

  // ----- shell quoting -----

  /** `s.replace('\'', "'\\''")`. */
  function EscapeQuotes(s: string): string {
    if s == [] then []
    else (if s[0] == '\'' then ['\'', '\\', '\'', '\''] else [s[0]]) + EscapeQuotes(s[1..])
  }

  function ShellQuote(s: string): string {
    ['\''] + EscapeQuotes(s) + ['\'']
  }

  /** The `-c` argument of a tool run. */
  function ShellBody(cwd: string, command: string): string {
    if cwd == [] then command else "cd " + ShellQuote(cwd) + " && " + command
  }

  // ----- words of the POSIX.1-2017 Shell Command Language -----

  /** Characters that end an unquoted word: blanks, newline and operators (section 2.3). */
  predicate EndsWord(c: char) {
    || c == ' ' || c == '\t' || c == '\n' || c == '|' || c == '&' || c == ';'
    || c == '<' || c == '>' || c == '(' || c == ')'
  }

  /** Unquoted characters that start an expansion, a double quote or a pattern; not read here. */
  predicate IsSpecial(c: char) {
    || c == '$' || c == '`' || c == '"' || c == '*' || c == '?' || c == '[' || c == '#' || c == '~'
  }

  /** What is read at some place: the word's text, whether there is a word at all, and the text after it. */
  datatype Reading = Reading(word: string, isWord: bool, rest: string)

  /** Inside single quotes every character is literal up to the next single quote (section 2.2.2). */
  function ReadQuoted(s: string): Option<Reading>
    decreases |s|, 0
  {
    if s == [] then None
    else if s[0] == '\'' then AsWord(ReadWord(s[1..]))
    else Prepend(s[0], ReadQuoted(s[1..]))
  }

  /** The rest of an unquoted word and the text after it; a backslash quotes the next character (section 2.2.1). */
  function ReadWord(s: string): Option<Reading>
    decreases |s|, 1
  {
    if s == [] || EndsWord(s[0]) then Some(Reading([], false, s))
    else if s[0] == '\'' then ReadQuoted(s[1..])
    else if s[0] == '\\' then
      if |s| == 1 then None
      else if s[1] == '\n' then ReadWord(s[2..])
      else Prepend(s[1], ReadWord(s[2..]))
    else if IsSpecial(s[0]) then None
    else Prepend(s[0], ReadWord(s[1..]))
  }

  /** A pair of quotes makes a word of what follows, even if there is nothing in it. */
  function AsWord(r: Option<Reading>): Option<Reading> {
    match r
    case None => None
    case Some(Reading(word, _, rest)) => Some(Reading(word, true, rest))
  }

  function Prepend(c: char, r: Option<Reading>): Option<Reading> {
    match r
    case None => None
    case Some(Reading(word, _, rest)) => Some(Reading([c] + word, true, rest))
  }

  lemma ReadPlain(c: char, more: string)
    requires !EndsWord(c) && !IsSpecial(c) && c != '\'' && c != '\\'
    ensures ReadWord([c] + more) == Prepend(c, ReadWord(more))
  {
    assert ([c] + more)[1..] == more;
  }

  /** `'\''` inside single quotes: close, a literal quote, reopen. */
  lemma ReadEscapedQuote(more: string)
    ensures ReadQuoted(['\'', '\\', '\'', '\''] + more) == Prepend('\'', ReadQuoted(more))
  {
    var inner := ['\\', '\'', '\''] + more;
    assert (['\''] + inner)[1..] == inner && ['\''] + inner == ['\'', '\\', '\'', '\''] + more;
    assert inner[2..] == ['\''] + more;
    assert (['\''] + more)[1..] == more;
    assert ReadWord(inner) == Prepend('\'', ReadWord(['\''] + more));
    assert ReadQuoted(['\''] + inner) == AsWord(ReadWord(inner));
  }

  lemma {:induction false} QuotedTextIsLiteral(s: string, rest: string)
    requires rest == [] || EndsWord(rest[0])
    ensures ReadQuoted(EscapeQuotes(s) + ['\''] + rest) == Some(Reading(s, true, rest))
  {
    var text := EscapeQuotes(s) + ['\''] + rest;
    if s == [] {
      assert text[1..] == rest;
    } else {
      QuotedTextIsLiteral(s[1..], rest);
      var more := EscapeQuotes(s[1..]) + ['\''] + rest;
      if s[0] == '\'' {
        assert text == ['\'', '\\', '\'', '\''] + more;
        ReadEscapedQuote(more);
      } else {
        assert text == [s[0]] + more && text[1..] == more;
      }
      assert s == [s[0]] + s[1..];
    }
  }

  /** Any quoted string, the empty one included, is read back as exactly one word, ending where the quoting ends. */
  lemma ShellQuoteIsOneWord(s: string, rest: string)
    requires rest == [] || EndsWord(rest[0])
    ensures ReadWord(ShellQuote(s) + rest) == Some(Reading(s, true, rest))
  {
    QuotedTextIsLiteral(s, rest);
    var text := ShellQuote(s) + rest;
    assert text[1..] == EscapeQuotes(s) + ['\''] + rest;
  }

  lemma ReadCd(rest: string)
    requires rest != [] && rest[0] == ' '
    ensures ReadWord("cd" + rest) == Some(Reading("cd", true, rest))
  {
    assert ReadWord(rest) == Some(Reading([], false, rest));
    ReadPlain('d', rest);
    ReadPlain('c', ['d'] + rest);
    assert "cd" + rest == ['c'] + (['d'] + rest) && ['c'] + (['d'] + []) == "cd";
  }

  lemma CdShape(quoted: string, command: string)
    ensures var body := "cd " + quoted + " && " + command;
            body == "cd" + body[2..] && body[2] == ' ' && body[3..] == quoted + (" && " + command)
  {
    var tail := quoted + (" && " + command);
    assert "cd " + quoted + " && " + command == "cd " + tail;
    assert ("cd " + tail)[2..] == " " + tail;
  }

  /** Without a directory the body is the command. In `cd <cwd> && <command>` the argument of `cd` is the directory and
      the command text is untouched. */
  lemma ShellBodyReads(cwd: string, command: string)
    ensures cwd == [] ==> ShellBody(cwd, command) == command
    ensures cwd != [] ==> ReadsAsCd(ShellBody(cwd, command), cwd, command)
  {
    if cwd != [] {
      CdShape(ShellQuote(cwd), command);
      ShellQuoteIsOneWord(cwd, " && " + command);
      ReadCd(ShellBody(cwd, command)[2..]);
    }
  }

  /** The word `cd`, the directory as one word, and the untouched command behind `&&`. */
  predicate ReadsAsCd(body: string, cwd: string, command: string) {
    && |body| >= 3 && ReadWord(body) == Some(Reading("cd", true, body[2..])) && body[2] == ' '
    && ReadWord(body[3..]) == Some(Reading(cwd, true, " && " + command))
  }

  // ----- truncation -----

  /** A character boundary of `s` no larger than `max`, with none in between. */
  predicate LargestBoundary(s: seq<byte>, max: nat, cut: nat) {
    cut <= max && IsCharBoundary(s, cut) && forall i :: cut < i <= max ==> !IsCharBoundary(s, i)
  }

  function Bytes(s: string): seq<byte>
    requires forall i :: 0 <= i < |s| ==> (s[i] as int) < 128
  {
    seq(|s|, i requires 0 <= i < |s| => s[i] as int)
  }

  lemma {:induction false} DecimalIsAscii(n: nat)
    ensures forall i :: 0 <= i < |Decimal(n)| ==> (Decimal(n)[i] as int) < 128
  {
    if n >= 10 {
      DecimalIsAscii(n / 10);
    }
  }

  function TruncationNotice(dropped: nat): (b: seq<byte>) {
    DecimalIsAscii(dropped);
    Bytes("\n... [truncated ") + Bytes(Decimal(dropped)) + Bytes(" bytes]")
  }

  /** The notice in characters. */
  lemma NoticeReads(dropped: nat)
    ensures var text, notice := "\n... [truncated " + Decimal(dropped) + " bytes]", TruncationNotice(dropped);
            |notice| == |text| && forall i :: 0 <= i < |text| ==> notice[i] == text[i] as int
  {
    DecimalIsAscii(dropped);
  }

  /** `append_truncated` on decoded text; the downward search for the cut is the loop. */
  method AppendTruncated(out: seq<byte>, s: seq<byte>, maxBytes: nat) returns (result: seq<byte>, cut: nat)
    ensures |s| <= maxBytes ==> result == out + s && cut == |s|
    ensures |s| > maxBytes ==> LargestBoundary(s, maxBytes, cut)
                               && result == out + s[..cut] + TruncationNotice(|s| - maxBytes)
  {
    if |s| <= maxBytes {
      return out + s, |s|;
    }
    var truncatedLen := |s| - maxBytes;
    cut := maxBytes;
    while !IsCharBoundary(s, cut)
      invariant 0 <= cut <= maxBytes
      invariant forall i :: cut < i <= maxBytes ==> !IsCharBoundary(s, i)
      decreases cut
    {
      cut := cut - 1;
    }
    result := out + s[..cut] + TruncationNotice(truncatedLen);
  }

  /**
   On well-formed text over the limit, the kept prefix is whole characters and the longest such prefix,
   it falls short of the limit by at most three bytes, and the notice undercounts the dropped bytes by as much.
   */
  lemma TruncationKeepsWholeCharacters(s: seq<byte>, maxBytes: nat, cut: nat)
    requires WellFormed(s) && |s| > maxBytes && LargestBoundary(s, maxBytes, cut)
    ensures WellFormed(s[..cut]) && maxBytes < cut + 4
    ensures forall i :: cut < i <= maxBytes ==> !WellFormed(s[..i])
    ensures var dropped := |s| - cut; var reported := |s| - maxBytes; reported <= dropped <= reported + 3
  {
    PrefixIff(s, cut);
    var k := BoundaryNearby(s, maxBytes);
    forall i | cut < i <= maxBytes ensures !WellFormed(s[..i]) {
      PrefixIff(s, i);
    }
  }
}
