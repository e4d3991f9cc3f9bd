/** Markdown files with YAML frontmatter: splitting, printing, and the two repeated. */
module Frontmatter {
  import opened Text

  const FENCE := ['-', '-', '-']
  const LINE_FENCE := ['\n', '-', '-', '-']

  datatype ParsedDoc<T> = ParsedDoc(frontmatter: T, body: string)

  datatype Error = MissingFrontmatter | ParseError(message: string)

  /** The YAML codec, which is not part of this model. */
  datatype Codec<!T> = Codec(decode: string -> Result<T, string>, encode: T -> Result<string, string>)

  /** Where the frontmatter ends and the body starts. */
  datatype Split = Split(frontmatter: string, body: string)

  function SplitFront(content: string): Option<Split> {
    var trimmed := TrimStart(content);
    if !StartsWith(trimmed, FENCE) then None
    else
      var rest := trimmed[3..];
      match FindFrom(rest, LINE_FENCE, 0)
      case None => None
      case Some(end) => Some(Split(rest[..end], rest[end + 4..]))
  }

  function Parse<T>(codec: Codec<T>, content: string): Result<ParsedDoc<T>, Error> {
    match SplitFront(content)
    case None => Err(MissingFrontmatter)
    case Some(split) =>
      match codec.decode(split.frontmatter)
      case Ok(value) => Ok(ParsedDoc(value, split.body))
      case Err(e) => Err(ParseError(e))
  }

  function Assembled(yaml: string, body: string): string {
    FENCE + ['\n'] + yaml + FENCE + ['\n'] + body
  }

  function Print<T>(codec: Codec<T>, doc: ParsedDoc<T>): Result<string, Error> {
    match codec.encode(doc.frontmatter)
    case Err(e) => Err(ParseError(e))
    case Ok(yaml) => Ok(Assembled(yaml, doc.body))
  }

  // ----- splitting -----

  /** A newline and a fence stand at index `j`. */
  predicate FenceAt(s: string, j: int) {
    0 <= j && j + 4 <= |s| && s[j] == '\n' && s[j + 1] == '-' && s[j + 2] == '-' && s[j + 3] == '-'
  }

  lemma FenceOccurs(s: string, j: nat)
    ensures OccursAt(s, LINE_FENCE, j) <==> FenceAt(s, j)
  {
    if j + 4 <= |s| {
      assert s[j..j + 4] == [s[j], s[j + 1], s[j + 2], s[j + 3]];
    }
  }

  /** The text after the opening fence, put together from its parts. */
  function Fenced(fm: string, body: string): string {
    fm + LINE_FENCE + body
  }

  /** The parts rebuild the trimmed text, and the closing fence is the first one there is. */
  predicate IsSplit(content: string, split: Split) {
    && TrimStart(content) == FENCE + Fenced(split.frontmatter, split.body)
    && forall j :: 0 <= j < |split.frontmatter| ==> !FenceAt(split.frontmatter + LINE_FENCE, j)
  }

  /** A fence that starts in the frontmatter ends by the end of the closing fence. */
  lemma FenceWithin(fm: string, body: string, j: nat)
    requires j < |fm|
    ensures FenceAt(Fenced(fm, body), j) == FenceAt(fm + LINE_FENCE, j)
  {
    var short := fm + LINE_FENCE;
    assert forall i :: 0 <= i < |short| ==> Fenced(fm, body)[i] == short[i];
  }

  lemma CutAtFence(rest: string, end: nat)
    requires OccursAt(rest, LINE_FENCE, end)
    ensures rest == Fenced(rest[..end], rest[end + 4..])
  {
    assert rest == rest[..end] + rest[end..end + 4] + rest[end + 4..];
  }

  lemma SplitRebuilds(content: string, split: Split)
    requires SplitFront(content) == Some(split)
    ensures IsSplit(content, split)
  {
    var trimmed := TrimStart(content);
    var rest := trimmed[3..];
    var end := FindFrom(rest, LINE_FENCE, 0).value;
    CutAtFence(rest, end);
    assert trimmed[0..3] == FENCE && trimmed == trimmed[0..3] + rest;
    forall j: nat | j < end ensures !FenceAt(split.frontmatter + LINE_FENCE, j) {
      FenceOccurs(rest, j);
      FenceWithin(split.frontmatter, split.body, j);
    }
  }

  lemma FencedAtEnd(fm: string, body: string)
    ensures OccursAt(Fenced(fm, body), LINE_FENCE, |fm|)
    ensures Fenced(fm, body)[..|fm|] == fm && Fenced(fm, body)[|fm| + 4..] == body
  {
    FenceOccurs(Fenced(fm, body), |fm|);
  }

  lemma SplitFinds(content: string, split: Split)
    requires IsSplit(content, split)
    ensures SplitFront(content) == Some(split)
  {
    var fm, rest := split.frontmatter, Fenced(split.frontmatter, split.body);
    var trimmed := TrimStart(content);
    assert trimmed[0..3] == FENCE && trimmed[3..] == rest;
    FencedAtEnd(fm, split.body);
    forall j: nat | j < |fm| ensures !OccursAt(rest, LINE_FENCE, j) {
      FenceWithin(fm, split.body, j);
      FenceOccurs(rest, j);
    }
    FoundAt(rest, LINE_FENCE, 0, |fm|);
  }

  /** The parser finds exactly the split at the first closing fence, and fails when there is none. */
  lemma SplitIsLeftmost(content: string, split: Split)
    ensures SplitFront(content) == Some(split) <==> IsSplit(content, split)
  {
    if SplitFront(content) == Some(split) {
      SplitRebuilds(content, split);
    }
    if IsSplit(content, split) {
      SplitFinds(content, split);
    }
  }

  /** Parsing succeeds exactly when there is a split and the codec decodes its frontmatter; the document is the decoded
      value and the split's body. A text without a split has no frontmatter, and the codec's error is passed on. */
  lemma ParseIff<T>(codec: Codec<T>, content: string, split: Split)
    ensures var decoded := codec.decode(split.frontmatter);
            IsSplit(content, split) ==>
              Parse(codec, content) == if decoded.Ok? then Ok(ParsedDoc(decoded.value, split.body))
                                       else Err(ParseError(decoded.error))
    ensures (forall s :: !IsSplit(content, s)) <==> Parse(codec, content) == Err(MissingFrontmatter)
  {
    SplitIsLeftmost(content, split);
    match SplitFront(content)
    case None =>
      forall s ensures !IsSplit(content, s) {
        SplitIsLeftmost(content, s);
      }
    case Some(s) => SplitIsLeftmost(content, s);
  }

  // ----- printing and parsing -----

  predicate OpensWithFence(s: string) {
    |s| >= 3 && s[0] == '-' && s[1] == '-' && s[2] == '-'
  }

  /** YAML text that cannot be mistaken for a fence: it ends its last line, and no line starts with one. */
  predicate IsFenceFree(yaml: string) {
    && yaml != [] && yaml[|yaml| - 1] == '\n'
    && !OpensWithFence(yaml)
    && forall j :: 0 <= j < |yaml| ==> !FenceAt(yaml, j)
  }

  /** What parsing printed text gives back when nothing in the YAML looks like a fence: one more newline each side. */
  function Shifted(yaml: string, body: string): Split
    requires yaml != []
  {
    Split(['\n'] + yaml[..|yaml| - 1], ['\n'] + body)
  }

  function Printed(yaml: string, body: string): string {
    ['\n'] + yaml + FENCE + ['\n'] + body
  }

  lemma PrintedStart(yaml: string, body: string)
    ensures TrimStart(Assembled(yaml, body)) == FENCE + Printed(yaml, body)
  {
    assert Assembled(yaml, body)[0] == '-';
    assert Assembled(yaml, body) == FENCE + Printed(yaml, body);
  }

  /** The printed text is the shifted split exactly when the YAML ends in a newline. */
  lemma PrintedIsFencedIff(yaml: string, body: string)
    requires yaml != []
    ensures Printed(yaml, body) == Fenced(Shifted(yaml, body).frontmatter, Shifted(yaml, body).body)
       <==> yaml[|yaml| - 1] == '\n'
  {
    var n := |yaml|;
    var printed, fenced := Printed(yaml, body), Fenced(Shifted(yaml, body).frontmatter, Shifted(yaml, body).body);
    assert printed[n] == yaml[n - 1] && fenced[n] == '\n';
    if yaml[n - 1] == '\n' {
      assert yaml == yaml[..n - 1] + ['\n'];
      assert printed == ['\n'] + yaml[..n - 1] + LINE_FENCE + (['\n'] + body);
    }
  }

  /** The fences before the closing one are those of the YAML itself. */
  lemma FencesOfShifted(yaml: string, body: string)
    requires yaml != [] && yaml[|yaml| - 1] == '\n'
    ensures IsFenceFree(yaml)
       <==> forall j :: 0 <= j < |yaml| ==> !FenceAt(Shifted(yaml, body).frontmatter + LINE_FENCE, j)
  {
    var n, text := |yaml|, Shifted(yaml, body).frontmatter + LINE_FENCE;
    assert forall i :: 1 <= i <= n ==> text[i] == yaml[i - 1];
    assert text[0] == '\n' && |text| == n + 4;
    forall j | 0 <= j < n
      ensures FenceAt(text, j) <==> if j == 0 then OpensWithFence(yaml) else FenceAt(yaml, j - 1)
    {
      if j + 3 > n {
        assert text[n] == '\n';
      }
    }
    if IsFenceFree(yaml) {
      forall j | 0 <= j < n ensures !FenceAt(text, j) {
        assert j > 0 ==> !FenceAt(yaml, j - 1);
      }
    }
    if forall j :: 0 <= j < n ==> !FenceAt(text, j) {
      assert !FenceAt(text, 0);
      forall j | 0 <= j < n ensures !FenceAt(yaml, j) {
        assert j < n - 1 ==> !FenceAt(text, j + 1);
      }
    }
  }

  /** Printing then splitting gives back the YAML and the body, each with a newline put in front,
      exactly when the YAML ends in a newline and no line of it starts with a fence. */
  lemma PrintThenSplitIff(yaml: string, body: string)
    requires yaml != []
    ensures SplitFront(Assembled(yaml, body)) == Some(Shifted(yaml, body)) <==> IsFenceFree(yaml)
  {
    SplitIsLeftmost(Assembled(yaml, body), Shifted(yaml, body));
    PrintedStart(yaml, body);
    PrintedIsFencedIff(yaml, body);
    SameAfterFence(Printed(yaml, body), Fenced(Shifted(yaml, body).frontmatter, Shifted(yaml, body).body));
    if yaml[|yaml| - 1] == '\n' {
      FencesOfShifted(yaml, body);
    }
  }

  lemma SameAfterFence(a: string, b: string)
    ensures FENCE + a == FENCE + b <==> a == b
  {
    assert (FENCE + a)[3..] == a && (FENCE + b)[3..] == b;
  }

  // ----- repeated cycles -----

  /** What a YAML codec promises about one value: its text is free of fences and decodes to the value,
      also with its last newline moved to the front. */
  predicate RoundTrips<T(==)>(codec: Codec<T>, value: T) {
    match codec.encode(value)
    case Err(_) => false
    case Ok(yaml) => IsFenceFree(yaml) && codec.decode(['\n'] + yaml[..|yaml| - 1]) == Ok(value)
  }

  /** Printing puts the encoded frontmatter between fence lines and the body behind; it fails as the codec does. */
  lemma PrintMeans<T>(codec: Codec<T>, doc: ParsedDoc<T>)
    ensures var yaml := codec.encode(doc.frontmatter);
            Print(codec, doc) == if yaml.Ok? then Ok("---\n" + yaml.value + "---\n" + doc.body)
                                 else Err(ParseError(yaml.error))
  {
    assert "---\n" == FENCE + ['\n'];
    if yaml: string :| codec.encode(doc.frontmatter) == Ok(yaml) {
      assert "---\n" + yaml + "---\n" + doc.body == FENCE + ['\n'] + yaml + FENCE + ['\n'] + doc.body;
    }
  }

  function Cycle<T>(codec: Codec<T>, doc: ParsedDoc<T>): Result<ParsedDoc<T>, Error> {
    match Print(codec, doc)
    case Err(e) => Err(e)
    case Ok(text) => Parse(codec, text)
  }

  function Cycles<T>(codec: Codec<T>, doc: ParsedDoc<T>, k: nat): Result<ParsedDoc<T>, Error> {
    if k == 0 then Ok(doc)
    else
      match Cycles(codec, doc, k - 1)
      case Err(e) => Err(e)
      case Ok(d) => Cycle(codec, d)
  }

  function Newlines(k: nat): string {
    seq(k, i => '\n')
  }

  lemma OneCycle<T>(codec: Codec<T>, value: T, body: string)
    requires RoundTrips(codec, value)
    ensures Cycle(codec, ParsedDoc(value, body)) == Ok(ParsedDoc(value, ['\n'] + body))
  {
    PrintThenSplitIff(codec.encode(value).value, body);
  }

  /** k print-then-parse cycles keep the frontmatter and put exactly k newlines before the body. */
  lemma {:induction false} CyclesAddNewlines<T>(codec: Codec<T>, doc: ParsedDoc<T>, k: nat)
    requires RoundTrips(codec, doc.frontmatter)
    ensures Cycles(codec, doc, k) == Ok(ParsedDoc(doc.frontmatter, Newlines(k) + doc.body))
  {
    hide Cycle, RoundTrips;
    if k == 0 {
      assert Newlines(0) + doc.body == doc.body;
    } else {
      CyclesAddNewlines(codec, doc, k - 1);
      OneCycle(codec, doc.frontmatter, Newlines(k - 1) + doc.body);
      assert ['\n'] + (Newlines(k - 1) + doc.body) == Newlines(k) + doc.body;
    }
  }
}
