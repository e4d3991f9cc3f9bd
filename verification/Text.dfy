/** Strings as sequences of characters: leftmost search, decimal formatting, Unicode white space; small arithmetic. */
module Text {
  datatype Option<+T> = None | Some(value: T)
  datatype Result<+T, +E> = Ok(value: T) | Err(error: E)

  /** `p` occurs in `s` at index `i`. */
  predicate OccursAt<T(==)>(s: seq<T>, p: seq<T>, i: nat) {
    i + |p| <= |s| && s[i..i + |p|] == p
  }

  predicate StartsWith<T(==)>(s: seq<T>, p: seq<T>) {
    OccursAt(s, p, 0)
  }

  /** The leftmost index at or after `from` where `p` occurs, as Rust's `str::find` reports it. */
  function FindFrom<T(==)>(s: seq<T>, p: seq<T>, from: nat): (r: Option<nat>)
    requires from <= |s|
    ensures r.Some? ==> from <= r.value && OccursAt(s, p, r.value)
    ensures r.Some? ==> forall j :: from <= j < r.value ==> !OccursAt(s, p, j)
    ensures r.None? ==> forall j :: from <= j ==> !OccursAt(s, p, j)
    decreases |s| - from
  {
    if OccursAt(s, p, from) then Some(from)
    else if from == |s| then None
    else FindFrom(s, p, from + 1)
  }

  lemma FoundAt<T>(s: seq<T>, p: seq<T>, from: nat, k: nat)
    requires from <= k <= |s| && OccursAt(s, p, k) && forall j :: from <= j < k ==> !OccursAt(s, p, j)
    ensures FindFrom(s, p, from) == Some(k)
  {
  }

  lemma NotFound<T>(s: seq<T>, p: seq<T>, from: nat)
    requires from <= |s| && forall j :: from <= j <= |s| ==> !OccursAt(s, p, j)
    ensures FindFrom(s, p, from) == None
  {
  }

  predicate Contains<T(==)>(s: seq<T>, p: seq<T>) {
    FindFrom(s, p, 0).Some?
  }

  lemma ContainsAt<T>(s: seq<T>, p: seq<T>, i: nat)
    requires OccursAt(s, p, i)
    ensures Contains(s, p)
  {
  }

  /** Text put in front does not hide a phrase. */
  lemma ContainsBehind<T>(a: seq<T>, b: seq<T>, p: seq<T>)
    requires Contains(b, p)
    ensures Contains(a + b, p)
  {
    var i := FindFrom(b, p, 0).value;
    assert (a + b)[|a| + i..|a| + i + |p|] == b[i..i + |p|];
    ContainsAt(a + b, p, |a| + i);
  }

  lemma ContainsBefore<T>(a: seq<T>, b: seq<T>, p: seq<T>)
    requires Contains(a, p)
    ensures Contains(a + b, p)
  {
    var i := FindFrom(a, p, 0).value;
    assert (a + b)[i..i + |p|] == a[i..i + |p|];
    ContainsAt(a + b, p, i);
  }

  // ----- concatenation of parts -----

  /** The parts `pick` takes from each element, joined in order. */
  function Joined<S, T>(xs: seq<S>, pick: S -> seq<T>): seq<T> {
    if xs == [] then [] else Joined(xs[..|xs| - 1], pick) + pick(xs[|xs| - 1])
  }

  lemma JoinedOne<S, T>(x: S, pick: S -> seq<T>)
    ensures Joined([x], pick) == pick(x)
  {
    assert [x][..0] == [];
  }

  lemma {:induction false} JoinedConcat<S, T>(xs: seq<S>, ys: seq<S>, pick: S -> seq<T>)
    ensures Joined(xs + ys, pick) == Joined(xs, pick) + Joined(ys, pick)
  {
    if ys == [] {
      assert xs + ys == xs;
    } else {
      JoinedConcat(xs, ys[..|ys| - 1], pick);
      assert (xs + ys)[..|xs + ys| - 1] == xs + ys[..|ys| - 1];
    }
  }

  // ----- decimal numbers, as `format!("{}", n)` prints them -----

  function Digit(d: nat): (c: char)
    requires d < 10
    ensures '0' <= c <= '9'
  {
    ('0' as int + d) as char
  }

  function Decimal(n: nat): (s: string)
    ensures |s| >= 1
  {
    if n < 10 then [Digit(n)] else Decimal(n / 10) + [Digit(n % 10)]
  }

  /** The number a string of digits denotes. */
  function Value(s: string): int {
    if s == [] then 0 else 10 * Value(s[..|s| - 1]) + (s[|s| - 1] as int - '0' as int)
  }

  lemma {:induction false} DecimalRoundTrip(n: nat)
    ensures Value(Decimal(n)) == n
  {
    var s := Decimal(n);
    if n < 10 {
      assert s[..0] == [];
    } else {
      DecimalRoundTrip(n / 10);
      assert s[..|s| - 1] == Decimal(n / 10);
    }
  }

  lemma DecimalInjective(m: nat, n: nat)
    requires Decimal(m) == Decimal(n)
    ensures m == n
  {
    DecimalRoundTrip(m);
    DecimalRoundTrip(n);
  }

  // ----- numbers -----

  function Min(a: nat, b: nat): nat {
    if a < b then a else b
  }

  function Pow2(n: nat): (r: nat)
    ensures r >= 1
  {
    if n == 0 then 1 else 2 * Pow2(n - 1)
  }

  /** The Unicode `White_Space` property, which Rust's `trim` functions use. */
  predicate IsWhiteSpace(c: char) {
    var n := c as int;
    || 0x09 <= n <= 0x0D || n == 0x20 || n == 0x85 || n == 0xA0 || n == 0x1680
    || 0x2000 <= n <= 0x200A || n == 0x2028 || n == 0x2029 || n == 0x202F || n == 0x205F || n == 0x3000
  }

  function TrimStart(s: string): (r: string)
    ensures exists k :: 0 <= k <= |s| && r == s[k..] && forall j :: 0 <= j < k ==> IsWhiteSpace(s[j])
    ensures r != [] ==> !IsWhiteSpace(r[0])
  {
    if s != [] && IsWhiteSpace(s[0]) then
      var r := TrimStart(s[1..]);
      assert s[0..] == s;
      var k :| 0 <= k <= |s[1..]| && r == s[1..][k..] && forall j :: 0 <= j < k ==> IsWhiteSpace(s[1..][j]);
      assert r == s[k + 1..] && forall j :: 0 <= j < k + 1 ==> IsWhiteSpace(s[j]);
      r
    else
      assert s == s[0..];
      s
  }
}
