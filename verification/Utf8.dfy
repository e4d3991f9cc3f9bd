/** Well-formed UTF-8, by the syntax of section 4 of RFC 3629, and the character boundaries inside it. */
module Utf8 {
  type byte = x: int | 0 <= x < 256

  predicate IsTail(b: byte) {
    0x80 <= b <= 0xBF
  }

  /** Length of the character `s` starts with, or 0 when `s` starts with no well-formed character. */
  function CharLength(s: seq<byte>): (n: nat)
    ensures n <= |s| && n <= 4
    ensures n > 0 ==> !IsTail(s[0]) && forall i :: 0 < i < n ==> IsTail(s[i])
  {
    if s == [] then 0
    else if s[0] <= 0x7F then 1
    else if |s| < 2 || !IsTail(s[1]) then 0
    else if 0xC2 <= s[0] <= 0xDF then 2
    else if |s| < 3 || !IsTail(s[2]) then 0
    else if (s[0] == 0xE0 && s[1] >= 0xA0) || 0xE1 <= s[0] <= 0xEC
            || (s[0] == 0xED && s[1] <= 0x9F) || 0xEE <= s[0] <= 0xEF then 3
    else if |s| < 4 || !IsTail(s[3]) then 0
    else if (s[0] == 0xF0 && s[1] >= 0x90) || 0xF1 <= s[0] <= 0xF3 || (s[0] == 0xF4 && s[1] <= 0x8F) then 4
    else 0
  }

  predicate WellFormed(s: seq<byte>) {
    s == [] || (CharLength(s) > 0 && WellFormed(s[CharLength(s)..]))
  }

  /** Rust's `is_char_boundary`. */
  predicate IsCharBoundary(s: seq<byte>, i: nat) {
    i == 0 || i == |s| || (i < |s| && !IsTail(s[i]))
  }

  /** A character is read from its own bytes only. */
  lemma CharLengthIsLocal(a: seq<byte>, b: seq<byte>)
    requires CharLength(a) > 0
    ensures CharLength(a + b) == CharLength(a)
  {
    var s := a + b;
    assert forall i :: 0 <= i < |a| ==> s[i] == a[i];
  }

  lemma {:induction false} WellFormedConcat(a: seq<byte>, b: seq<byte>)
    requires WellFormed(a) && WellFormed(b)
    ensures WellFormed(a + b)
    decreases |a|
  {
    if a == [] {
      assert a + b == b;
    } else {
      var s, n := a + b, CharLength(a);
      assert n == CharLength(s) by {
        CharLengthIsLocal(a, b);
      }
      assert WellFormed(s[n..]) by {
        assert s[n..] == a[n..] + b;
        WellFormedConcat(a[n..], b);
      }
    }
  }

  lemma FirstIsNoTail(s: seq<byte>)
    requires WellFormed(s) && s != []
    ensures !IsTail(s[0])
  {
  }

  lemma CharLengthOfPrefix(s: seq<byte>, i: nat)
    requires 0 < i <= |s| && CharLength(s) > 0
    ensures CharLength(s[..i]) == if CharLength(s) <= i then CharLength(s) else 0
    ensures !IsTail(s[0]) && (i < CharLength(s) ==> IsTail(s[i]))
  {
  }

  /** In well-formed text a prefix is whole characters exactly when it ends at a character boundary. */
  lemma {:induction false} PrefixIff(s: seq<byte>, i: nat)
    requires WellFormed(s) && i <= |s|
    ensures IsCharBoundary(s, i) <==> WellFormed(s[..i])
    ensures IsCharBoundary(s, i) ==> WellFormed(s[i..])
    decreases |s|
  {
    hide CharLength, IsTail;
    if 0 < i {
      var n := CharLength(s);
      CharLengthOfPrefix(s, i);
      if n <= i {
        PrefixIff(s[n..], i - n);
        assert s[..i][n..] == s[n..][..i - n];
        assert s[i..] == s[n..][i - n..];
        if i < |s| {
          assert s[n..] != [] && (n < i ==> s[n..][i - n] == s[i]);
          FirstIsNoTail(s[n..]);
        }
      }
    } else {
      assert s[i..] == s;
    }
  }

  /** Some character boundary lies within the four positions up to any index. */
  lemma {:induction false} BoundaryNearby(s: seq<byte>, i: nat) returns (k: nat)
    requires WellFormed(s) && i <= |s|
    ensures k <= i < k + 4 && IsCharBoundary(s, k)
    decreases |s|
  {
    if s == [] || i < CharLength(s) {
      k := 0;
    } else {
      var n := CharLength(s);
      k := BoundaryNearby(s[n..], i - n);
      k := k + n;
    }
  }

  // ----- characters and their encodings -----

  /** A Unicode scalar value. */
  predicate IsScalar(u: nat) {
    u < 0xD800 || 0xE000 <= u < 0x11_0000
  }

  /** The encoding of a scalar value, by the table of section 3 of RFC 3629. */
  function Encoded(u: nat): (s: seq<byte>)
    requires IsScalar(u)
    ensures s != []
  {
    if u < 0x80 then [u]
    else if u < 0x800 then [0xC0 + u / 0x40, 0x80 + u % 0x40]
    else if u < 0x1_0000 then [0xE0 + u / 0x1000, 0x80 + u / 0x40 % 0x40, 0x80 + u % 0x40]
    else [0xF0 + u / 0x4_0000, 0x80 + u / 0x1000 % 0x40, 0x80 + u / 0x40 % 0x40, 0x80 + u % 0x40]
  }

  lemma ReadsTwo(s: seq<byte>)
    requires |s| >= 2 && 0xC2 <= s[0] <= 0xDF && IsTail(s[1])
    ensures CharLength(s) == 2
  {
  }

  lemma ReadsThree(s: seq<byte>)
    requires |s| >= 3 && 0xE0 <= s[0] <= 0xEF && IsTail(s[1]) && IsTail(s[2])
    requires (s[0] == 0xE0 ==> s[1] >= 0xA0) && (s[0] == 0xED ==> s[1] <= 0x9F)
    ensures CharLength(s) == 3
  {
  }

  lemma ReadsFour(s: seq<byte>)
    requires |s| >= 4 && 0xF0 <= s[0] <= 0xF4 && IsTail(s[1]) && IsTail(s[2]) && IsTail(s[3])
    requires (s[0] == 0xF0 ==> s[1] >= 0x90) && (s[0] == 0xF4 ==> s[1] <= 0x8F)
    ensures CharLength(s) == 4
  {
  }

  /** An encoded character is read as a whole. */
  lemma EncodedIsRead(u: nat, rest: seq<byte>)
    requires IsScalar(u)
    ensures CharLength(Encoded(u) + rest) == |Encoded(u)|
  {
    var s := Encoded(u) + rest;
    if u < 0x80 {
      assert s[0] == u;
    } else {
      hide CharLength;
      if u < 0x800 {
        ReadsTwo(s);
      } else if u < 0x1_0000 {
        ReadsThree(s);
      } else {
        ReadsFour(s);
      }
    }
  }

  lemma Digit(high: nat, low: nat)
    requires low < 0x40
    ensures (high * 0x40 + low) / 0x40 == high && (high * 0x40 + low) % 0x40 == low
  {
  }

  lemma TwoBytes(a: nat, b: nat)
    requires 2 <= a < 0x20 && b < 0x40
    ensures var u := a * 0x40 + b;
            IsScalar(u) && Encoded(u) == [0xC0 + a, 0x80 + b]
  {
    Digit(a, b);
  }

  lemma ThreeBytes(a: nat, b: nat, c: nat)
    requires a < 0x10 && b < 0x40 && c < 0x40 && (a == 0 ==> b >= 0x20) && (a == 0xD ==> b < 0x20)
    ensures var u := (a * 0x40 + b) * 0x40 + c;
            IsScalar(u) && Encoded(u) == [0xE0 + a, 0x80 + b, 0x80 + c]
  {
    var u := (a * 0x40 + b) * 0x40 + c;
    Digit(a * 0x40 + b, c);
    Digit(a, b);
    assert 0x800 <= u < 0x1_0000;
    assert u / 0x1000 == a;
  }

  lemma FourBytes(a: nat, b: nat, c: nat, d: nat)
    requires a <= 4 && b < 0x40 && c < 0x40 && d < 0x40 && (a == 0 ==> b >= 0x10) && (a == 4 ==> b < 0x10)
    ensures var u := ((a * 0x40 + b) * 0x40 + c) * 0x40 + d;
            IsScalar(u) && Encoded(u) == [0xF0 + a, 0x80 + b, 0x80 + c, 0x80 + d]
  {
    var u := ((a * 0x40 + b) * 0x40 + c) * 0x40 + d;
    Digit((a * 0x40 + b) * 0x40 + c, d);
    Digit(a * 0x40 + b, c);
    Digit(a, b);
    assert 0x1_0000 <= u < 0x11_0000;
    assert u / 0x1000 == a * 0x40 + b && u / 0x4_0000 == a;
  }

  /** What is read as a character is the encoding of a scalar value. */
  lemma ReadIsEncoded(s: seq<byte>) returns (u: nat)
    requires CharLength(s) > 0
    ensures IsScalar(u) && s[..CharLength(s)] == Encoded(u)
  {
    hide Encoded;
    var n, first: int := CharLength(s), s[0];
    if n == 1 {
      u := first;
      OneByte(u);
      return;
    }
    var b: int := s[1];
    if n == 2 {
      u := (first - 0xC0) * 0x40 + (b - 0x80);
      TwoBytes(first - 0xC0, b - 0x80);
      return;
    }
    var c: int := s[2];
    if n == 3 {
      u := ((first - 0xE0) * 0x40 + (b - 0x80)) * 0x40 + (c - 0x80);
      ThreeBytes(first - 0xE0, b - 0x80, c - 0x80);
      return;
    }
    var d: int := s[3];
    u := (((first - 0xF0) * 0x40 + (b - 0x80)) * 0x40 + (c - 0x80)) * 0x40 + (d - 0x80);
    FourBytes(first - 0xF0, b - 0x80, c - 0x80, d - 0x80);
  }

  lemma OneByte(u: nat)
    requires u < 0x80
    ensures IsScalar(u) && Encoded(u) == [u]
  {
  }

  predicate AllScalars(us: seq<nat>) {
    forall i :: 0 <= i < |us| ==> IsScalar(us[i])
  }

  function EncodedAll(us: seq<nat>): seq<byte>
    requires AllScalars(us)
  {
    if us == [] then [] else Encoded(us[0]) + EncodedAll(us[1..])
  }

  lemma {:induction false} EncodedIsWellFormed(us: seq<nat>)
    requires AllScalars(us)
    ensures WellFormed(EncodedAll(us))
  {
    hide CharLength, Encoded;
    if us != [] {
      EncodedIsWellFormed(us[1..]);
      EncodedIsRead(us[0], EncodedAll(us[1..]));
      assert EncodedAll(us)[|Encoded(us[0])|..] == EncodedAll(us[1..]);
    }
  }

  lemma {:induction false} WellFormedIsEncoded(s: seq<byte>) returns (us: seq<nat>)
    requires WellFormed(s)
    ensures AllScalars(us) && EncodedAll(us) == s
    decreases |s|
  {
    hide CharLength, Encoded;
    if s == [] {
      us := [];
    } else {
      var u := ReadIsEncoded(s);
      var more := WellFormedIsEncoded(s[CharLength(s)..]);
      us := [u] + more;
      assert us[1..] == more && s == s[..CharLength(s)] + s[CharLength(s)..];
    }
  }

  /** The well-formed texts are exactly the encodings of sequences of scalar values. */
  lemma WellFormedIff(s: seq<byte>)
    ensures WellFormed(s) <==> exists us: seq<nat> :: AllScalars(us) && EncodedAll(us) == s
  {
    if WellFormed(s) {
      var us := WellFormedIsEncoded(s);
    } else if us: seq<nat> :| AllScalars(us) && EncodedAll(us) == s {
      EncodedIsWellFormed(us);
    }
  }
}
