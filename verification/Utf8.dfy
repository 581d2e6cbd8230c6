/**
 UTF-8: the encoder, and strict validity of a byte string as a decoder tests it. A byte string is
 valid exactly when it encodes a string of Unicode scalar values.
*/
module Utf8 {
  import opened Bytes
  import opened Encoding

  predicate Surrogate(c: CodePoint) { 0xD800 <= c <= 0xDFFF }

  // ---------- Encoding ----------

  function Point(c: CodePoint): (s: seq<Byte>)
    ensures s != [] && (c != 0 ==> 0 !in s)
  {
    if c < 0x80 then [c]
    else if c < 0x800 then [0xC0 + c / 64, 0x80 + c % 64]
    else if c < 0x10000 then [0xE0 + c / 64 / 64, 0x80 + c / 64 % 64, 0x80 + c % 64]
    else [0xF0 + c / 64 / 64 / 64, 0x80 + c / 64 / 64 % 64, 0x80 + c / 64 % 64, 0x80 + c % 64]
  }

  /** Text that strict UTF-8 can encode. */
  predicate Scalars(s: Text) { forall i :: 0 <= i < |s| ==> !Surrogate(s[i]) }

  function Encode(s: Text): seq<Byte> { Each(Point, s) }

  lemma PointReadsBack(c: CodePoint, d: CodePoint, u: seq<Byte>, v: seq<Byte>)
    requires Point(c) + u == Point(d) + v
    ensures c == d && u == v
  {
    var s, t := Point(c), Point(d);
    assert (s + u)[0] == s[0] && (t + v)[0] == t[0];
    assert |s| == |t|;
    Fixed(s, t, u, v);
    PointInjective(c, d);
  }

  lemma PointInjective(c: CodePoint, d: CodePoint)
    requires Point(c) == Point(d)
    ensures c == d
  {
    var s, t := Point(c), Point(d);
    assert |s| == |t| && s[0] == t[0];
    if |s| > 1 { assert s[1] == t[1]; }
    if |s| > 2 { assert s[2] == t[2]; }
    if |s| > 3 {
      assert s[3] == t[3];
      SameDigits(c / 64 / 64, d / 64 / 64, 64);
    }
    if |s| > 2 { SameDigits(c / 64, d / 64, 64); }
    if |s| > 1 { SameDigits(c, d, 64); }
  }

  predicate AnyPoint(c: CodePoint) { true }

  lemma EncodeInjective(s: Text, t: Text)
    requires Encode(s) == Encode(t)
    ensures s == t
  {
    forall c, d, x, y | Point(c) + x == Point(d) + y
      ensures c == d && x == y
    {
      PointReadsBack(c, d, x, y);
    }
    EachInjective(Point, AnyPoint, s, t);
  }

  lemma {:induction false} EncodeKeepsOutNul(s: Text)
    requires 0 !in s
    ensures 0 !in Encode(s)
  {
    if s != [] {
      assert forall c :: c in s[1..] ==> c in s;
      EncodeKeepsOutNul(s[1..]);
    }
  }

  // ---------- Validity ----------

  predicate Continuation(b: Byte) { 0x80 <= b <= 0xBF }

  /** Length of the well-formed sequence at the start, 0 if there is none (Unicode, table 3-7). */
  function HeadLength(s: seq<Byte>): (n: nat)
    ensures n <= |s| && n <= 4
    ensures n > 1 ==> forall i :: 0 <= i < n ==> s[i] >= 0x80
  {
    if s == [] then 0
    else if s[0] < 0x80 then 1
    else if |s| >= 2 && 0xC2 <= s[0] <= 0xDF && Continuation(s[1]) then 2
    else if |s| >= 3 && 0xE0 <= s[0] <= 0xEF && Continuation(s[1]) && Continuation(s[2])
      && (s[0] == 0xE0 ==> s[1] >= 0xA0) && (s[0] == 0xED ==> s[1] <= 0x9F) then 3
    else if |s| >= 4 && 0xF0 <= s[0] <= 0xF4 && Continuation(s[1]) && Continuation(s[2]) && Continuation(s[3])
      && (s[0] == 0xF0 ==> s[1] >= 0x90) && (s[0] == 0xF4 ==> s[1] <= 0x8F) then 4
    else 0
  }

  predicate WellFormed(s: seq<Byte>)
    decreases |s|
  {
    s == [] || (HeadLength(s) > 0 && WellFormed(s[HeadLength(s)..]))
  }

  lemma HeadExtends(head: seq<Byte>, a: seq<Byte>, b: seq<Byte>)
    requires HeadLength(head + a) == |head| && head != []
    ensures HeadLength(head + b) == |head|
  {
    assert forall i :: 0 <= i < |head| ==> (head + a)[i] == head[i] && (head + b)[i] == head[i];
  }

  lemma PointIsHead(c: CodePoint, rest: seq<Byte>)
    requires !Surrogate(c)
    ensures HeadLength(Point(c) + rest) == |Point(c)|
  {
    var s := Point(c);
    assert forall i :: 0 <= i < |s| ==> (s + rest)[i] == s[i];
  }

  /** Six more bits. */
  function Next(high: nat, b: Byte): (n: nat)
    requires Continuation(b)
    ensures n / 64 == high && n % 64 == b - 0x80 && 64 * high <= n < 64 * high + 64
  {
    64 * high + (b - 0x80)
  }

  /** The character that a well-formed sequence encodes. */
  function HeadPoint(s: seq<Byte>): (c: CodePoint)
    requires HeadLength(s) > 0
    ensures Point(c) == s[..HeadLength(s)] && !Surrogate(c)
  {
    var n := HeadLength(s);
    if n == 1 then OneByte(s); s[0]
    else if n == 2 then TwoBytes(s); Next(s[0] - 0xC0, s[1])
    else if n == 3 then ThreeBytes(s); Next(Next(s[0] - 0xE0, s[1]), s[2])
    else FourBytes(s); Next(Next(Next(s[0] - 0xF0, s[1]), s[2]), s[3])
  }

  lemma OneByte(s: seq<Byte>)
    requires HeadLength(s) == 1
    ensures Point(s[0]) == s[..1]
  {
  }

  lemma TwoBytes(s: seq<Byte>)
    requires HeadLength(s) == 2
    ensures var n := Next(s[0] - 0xC0, s[1]); n < 0x800 && Point(n) == s[..2]
  {
  }

  lemma ThreeBytes(s: seq<Byte>)
    requires HeadLength(s) == 3
    ensures var n := Next(Next(s[0] - 0xE0, s[1]), s[2]); n < 0x10000 && !Surrogate(n) && Point(n) == s[..3]
  {
  }

  lemma FourBytes(s: seq<Byte>)
    requires HeadLength(s) == 4
    ensures var n := Next(Next(Next(s[0] - 0xF0, s[1]), s[2]), s[3]); 0x10000 <= n < 0x110000 && Point(n) == s[..4]
  {
    hide Next, Point;
    var a := Next(s[0] - 0xF0, s[1]);
    var b := Next(a, s[2]);
    FourDigits(Next(b, s[3]), b, a, s[0], s[1], s[2], s[3]);
    assert s[..4] == [s[0], s[1], s[2], s[3]];
  }

  lemma FourDigits(n: nat, b: nat, a: nat, p: Byte, q: Byte, r: Byte, t: Byte)
    requires 0x10000 <= n < 0x110000 && n / 64 == b && b / 64 == a && a / 64 == p - 0xF0
    requires n % 64 == t - 0x80 && b % 64 == r - 0x80 && a % 64 == q - 0x80
    ensures Point(n) == [p, q, r, t]
  {
  }

  /** The strict decoder; the test and the encoder agree on what UTF-8 is. */
  function Decode(s: seq<Byte>): Text
    requires WellFormed(s)
    decreases |s|
  {
    if s == [] then [] else [HeadPoint(s)] + Decode(s[HeadLength(s)..])
  }

  lemma {:induction false} EncodedIsWellFormed(s: Text)
    requires Scalars(s)
    ensures WellFormed(Encode(s)) && Decode(Encode(s)) == s
  {
    if s != [] {
      var head, rest := Point(s[0]), Encode(s[1..]);
      EncodedIsWellFormed(s[1..]);
      PointIsHead(s[0], rest);
      assert (head + rest)[|head|..] == rest && (head + rest)[..|head|] == head;
      PointInjective(HeadPoint(head + rest), s[0]);
    }
  }

  lemma {:induction false} WellFormedIsEncoded(s: seq<Byte>)
    requires WellFormed(s)
    ensures Encode(Decode(s)) == s && Scalars(Decode(s))
    decreases |s|
  {
    if s != [] {
      var n := HeadLength(s);
      WellFormedIsEncoded(s[n..]);
      assert s == s[..n] + s[n..];
      assert ([HeadPoint(s)] + Decode(s[n..]))[1..] == Decode(s[n..]);
    }
  }
}
