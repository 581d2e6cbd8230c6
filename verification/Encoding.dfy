/**
 Byte encodings that can be read back from the front: delimited fields, decimals, length-prefixed
 strings and JSON strings.
*/
module Encoding {
  import opened Bytes
  import opened Options

  /** A field that ends at the first `mark` is read back with what follows it. */
  lemma Delimited(a: seq<Byte>, b: seq<Byte>, mark: Byte, u: seq<Byte>, v: seq<Byte>)
    requires mark !in a && mark !in b
    requires a + [mark] + u == b + [mark] + v
    ensures a == b && u == v
  {
    var s, t := a + [mark] + u, b + [mark] + v;
    assert forall k :: 0 <= k < |a| ==> s[k] == a[k] != mark;
    assert forall k :: 0 <= k < |b| ==> t[k] == b[k] != mark;
    assert s[|a|] == mark && t[|b|] == mark;
    assert |a| == |b|;
    assert a == s[..|a|] && b == t[..|b|];
    assert u == s[|a| + 1..] && v == t[|b| + 1..];
  }

  /** Equal concatenations with equally long fronts. */
  lemma Fixed(a: seq<Byte>, b: seq<Byte>, u: seq<Byte>, v: seq<Byte>)
    requires |a| == |b| && a + u == b + v
    ensures a == b && u == v
  {
    assert a == (a + u)[..|a|] && b == (b + v)[..|b|];
    assert u == (a + u)[|a|..] && v == (b + v)[|b|..];
  }

  // ---------- Decimal numbers and length prefixes ----------

  function Decimal(n: nat): (s: seq<Byte>)
    ensures s != [] && forall b :: b in s ==> 48 <= b <= 57
  {
    if n < 10 then [48 + n] else Decimal(n / 10) + [48 + n % 10]
  }

  lemma {:induction false} DecimalInjective(m: nat, n: nat)
    requires Decimal(m) == Decimal(n)
    ensures m == n
    decreases m
  {
    var s, t := Decimal(m), Decimal(n);
    if m < 10 && n < 10 {
      assert s[0] == t[0];
    } else if m >= 10 && n >= 10 {
      assert s[..|s| - 1] == Decimal(m / 10) && t[..|t| - 1] == Decimal(n / 10);
      assert s[|s| - 1] == 48 + m % 10 && t[|t| - 1] == 48 + n % 10;
      DecimalInjective(m / 10, n / 10);
    }
  }

  /** The length in decimal, a colon, and the bytes. */
  function Net(x: seq<Byte>): seq<Byte> { Decimal(|x|) + [58] + x }

  lemma NetReadsBack(x: seq<Byte>, y: seq<Byte>, u: seq<Byte>, v: seq<Byte>)
    requires Net(x) + u == Net(y) + v
    ensures x == y && u == v
  {
    assert Net(x) + u == Decimal(|x|) + [58] + (x + u);
    assert Net(y) + v == Decimal(|y|) + [58] + (y + v);
    Delimited(Decimal(|x|), Decimal(|y|), 58, x + u, y + v);
    DecimalInjective(|x|, |y|);
    Fixed(x, y, u, v);
  }

  // ---------- Codes, word by word ----------

  /** Among the items that matter, no code word is empty or can be confused with another, whatever follows. */
  ghost predicate PrefixFree<T(!new)>(code: T -> seq<Byte>, matters: T -> bool)
  {
    && (forall c :: matters(c) ==> code(c) != [])
    && (forall c, d, u, v :: matters(c) && matters(d) && code(c) + u == code(d) + v ==> c == d && u == v)
  }

  function Each<T>(code: T -> seq<Byte>, s: seq<T>): seq<Byte>
  {
    if s == [] then [] else code(s[0]) + Each(code, s[1..])
  }

  lemma {:induction false} EachAppend<T>(code: T -> seq<Byte>, s: seq<T>, x: T)
    ensures Each(code, s + [x]) == Each(code, s) + code(x)
  {
    if s == [] {
      assert s + [x] == [x];
      assert Each(code, [x]) == code(x) + Each(code, []);
    } else {
      assert (s + [x])[1..] == s[1..] + [x];
      EachAppend(code, s[1..], x);
    }
  }

  /** Feeding a hash item by item feeds it the concatenation. */
  method Feed<T>(before: seq<Byte>, code: T -> seq<Byte>, items: seq<T>, ghost head: seq<Byte>, ghost done: seq<T>)
    returns (fed: seq<Byte>)
    requires before == head + Each(code, done)
    ensures fed == head + Each(code, done + items)
  {
    fed := before;
    assert done + items[..0] == done;
    for i := 0 to |items|
      invariant fed == head + Each(code, done + items[..i])
    {
      assert done + items[..i + 1] == (done + items[..i]) + [items[i]];
      EachAppend(code, done + items[..i], items[i]);
      assert fed + code(items[i]) == head + (Each(code, done + items[..i]) + code(items[i]));
      fed := fed + code(items[i]);
    }
    assert items[..|items|] == items;
  }

  /** Items in a prefix-free code, closed by something no code word can be confused with. */
  lemma {:induction false} EachReadsBack<T(!new)>(code: T -> seq<Byte>, matters: T -> bool, s: seq<T>, t: seq<T>,
                                                  u: seq<Byte>, v: seq<Byte>)
    requires PrefixFree(code, matters) && (forall c :: c in s ==> matters(c)) && (forall c :: c in t ==> matters(c))
    requires forall c, w :: matters(c) ==> code(c) + w != u && code(c) + w != v
    requires Each(code, s) + u == Each(code, t) + v
    ensures s == t && u == v
    decreases |s|
  {
    EachUnfolds(code, s, u);
    EachUnfolds(code, t, v);
    if s != [] { assert s[0] in s; }
    if t != [] { assert t[0] in t; }
    if s != [] && t != [] {
      assert forall c :: c in s[1..] ==> c in s;
      assert forall c :: c in t[1..] ==> c in t;
      EachReadsBack(code, matters, s[1..], t[1..], u, v);
      assert s == [s[0]] + s[1..] && t == [t[0]] + t[1..];
    }
  }

  lemma EachUnfolds<T>(code: T -> seq<Byte>, s: seq<T>, u: seq<Byte>)
    ensures Each(code, s) + u == if s == [] then u else code(s[0]) + (Each(code, s[1..]) + u)
  {
  }

  /** A whole file in a prefix-free code reads back. */
  lemma EachInjective<T(!new)>(code: T -> seq<Byte>, matters: T -> bool, s: seq<T>, t: seq<T>)
    requires PrefixFree(code, matters) && (forall c :: c in s ==> matters(c)) && (forall c :: c in t ==> matters(c))
    requires Each(code, s) == Each(code, t)
    ensures s == t
  {
    assert Each(code, s) + [] == Each(code, t) + [];
    EachReadsBack(code, matters, s, t, [], []);
  }

  // ---------- JSON strings, ASCII only ----------

  function Hex(d: nat): Byte
    requires d < 16
  {
    if d < 10 then 48 + d else 87 + d
  }

  /** A backslash, `u`, and four lower-case hexadecimal digits. */
  function Unicode(n: nat): (s: seq<Byte>)
    requires n < 0x10000
    ensures |s| == 6 && s[0] == 92 && s[1] == 117
  {
    [92, 117, Hex(n / 16 / 16 / 16), Hex(n / 16 / 16 % 16), Hex(n / 16 % 16), Hex(n % 16)]
  }

  lemma UnicodeInjective(m: nat, n: nat)
    requires m < 0x10000 && n < 0x10000 && Unicode(m) == Unicode(n)
    ensures m == n
  {
    var s, t := Unicode(m), Unicode(n);
    assert s[2] == t[2] && s[3] == t[3] && s[4] == t[4] && s[5] == t[5];
    SameDigits(m / 16 / 16, n / 16 / 16, 16);
    SameDigits(m / 16, n / 16, 16);
    SameDigits(m, n, 16);
  }

  lemma SameDigits(m: nat, n: nat, base: nat)
    requires base > 0 && m / base == n / base && m % base == n % base
    ensures m == n
  {
    assert m == m / base * base + m % base;
    assert n == n / base * base + n % base;
  }

  /** The letter of a two-byte escape, 0 where there is none. */
  function ShortEscape(n: nat): Byte
  {
    if n == 34 then 34 else if n == 92 then 92 else if n == 8 then 98 else if n == 12 then 102
    else if n == 10 then 110 else if n == 13 then 114 else if n == 9 then 116 else 0
  }

  /** A UTF-16 code unit. */
  type Unit = n: nat | n < 0x10000

  /** One code unit as Python's `json.dumps(ensure_ascii=True)` writes it. */
  function EscapeUnit(n: Unit): (s: seq<Byte>)
    ensures s != [] && s[0] != 34 && s[0] >= 32
  {
    if ShortEscape(n) != 0 then [92, ShortEscape(n)] else if 32 <= n < 127 then [n] else Unicode(n)
  }

  /** The value of a lower-case hexadecimal digit, 16 for any other byte. */
  function HexValue(b: Byte): nat
  {
    if 0x30 <= b <= 0x39 then b - 0x30 else if 0x61 <= b <= 0x66 then b - 0x61 + 10 else 16
  }

  /** The code unit that section 7 of RFC 8259 reads in these bytes, in the forms used here. */
  function ReadUnit(s: seq<Byte>): Option<nat>
  {
    if |s| == 1 && 0x20 <= s[0] <= 0x7E && s[0] != 0x22 && s[0] != 0x5C then Some(s[0])
    else if |s| == 2 && s[0] == 0x5C then
      match s[1]
      case 0x22 => Some(0x22)
      case 0x5C => Some(0x5C)
      case 0x62 => Some(0x08)
      case 0x66 => Some(0x0C)
      case 0x6E => Some(0x0A)
      case 0x72 => Some(0x0D)
      case 0x74 => Some(0x09)
      case _ => None
    else if |s| == 6 && s[0] == 0x5C && s[1] == 0x75 && forall i :: 2 <= i < 6 ==> HexValue(s[i]) < 16
    then Some(((HexValue(s[2]) * 16 + HexValue(s[3])) * 16 + HexValue(s[4])) * 16 + HexValue(s[5]))
    else None
  }

  lemma HexReads(d: nat)
    requires d < 16
    ensures HexValue(Hex(d)) == d
  {
  }

  /** An escaped code unit is JSON for itself, in the shortest form that `json.dumps` uses for it. */
  lemma EscapeIsJson(n: Unit)
    ensures ReadUnit(EscapeUnit(n)) == Some(n)
    ensures |EscapeUnit(n)|
            == if n in {0x08, 0x09, 0x0A, 0x0C, 0x0D, 0x22, 0x5C} then 2 else if 0x20 <= n <= 0x7E then 1 else 6
  {
    HexReads(n / 16 / 16 / 16);
    HexReads(n / 16 / 16 % 16);
    HexReads(n / 16 % 16);
    HexReads(n % 16);
    hide Hex, HexValue;
    if ShortEscape(n) == 0 && !(32 <= n < 127) {
      var s := Unicode(n);
      assert forall i :: 2 <= i < 6 ==> HexValue(s[i]) < 16;
      assert n == n / 16 * 16 + n % 16 && n / 16 == n / 16 / 16 * 16 + n / 16 % 16;
      assert n / 16 / 16 == n / 16 / 16 / 16 * 16 + n / 16 / 16 % 16;
    }
  }

  /** The code units of a code point: a surrogate pair beyond the basic plane. */
  function UnitsOf(c: CodePoint): (us: seq<Unit>)
    ensures us != []
  {
    if c < 0x10000 then [c] else [0xD800 + (c - 0x10000) / 1024, 0xDC00 + (c - 0x10000) % 1024]
  }

  /** One character: a lone surrogate is escaped like any other code unit. */
  function Escape(c: CodePoint): seq<Byte>
  {
    if c < 0x10000 then EscapeUnit(c)
    else Unicode(0xD800 + (c - 0x10000) / 1024) + Unicode(0xDC00 + (c - 0x10000) % 1024)
  }

  function JsonString(s: Text): seq<Byte> { [34] + Each(Escape, s) + [34] }

  function Units(s: Text): seq<Unit> { if s == [] then [] else UnitsOf(s[0]) + Units(s[1..]) }

  function JsonUnits(us: seq<Unit>): seq<Byte> { [34] + Each(EscapeUnit, us) + [34] }

  /** An escaped string shows its code units and nothing else. */
  lemma JsonShowsUnits(s: Text)
    ensures JsonString(s) == JsonUnits(Units(s))
  {
    EscapesAreUnits(s);
  }

  lemma {:induction false} EscapesAreUnits(s: Text)
    ensures Each(Escape, s) == Each(EscapeUnit, Units(s))
  {
    if s != [] {
      EscapesAreUnits(s[1..]);
      EscapeIsUnits(s[0], Units(s[1..]));
    }
  }

  lemma EscapeIsUnits(c: CodePoint, more: seq<Unit>)
    ensures Each(EscapeUnit, UnitsOf(c) + more) == Escape(c) + Each(EscapeUnit, more)
  {
    var us := UnitsOf(c);
    if c < 0x10000 {
      assert (us + more)[1..] == more;
    } else {
      assert us + more == [us[0]] + ([us[1]] + more);
      assert ([us[0]] + ([us[1]] + more))[1..] == [us[1]] + more && ([us[1]] + more)[1..] == more;
    }
  }

  lemma EscapeUnitReadsBack(m: Unit, n: Unit, u: seq<Byte>, v: seq<Byte>)
    requires EscapeUnit(m) + u == EscapeUnit(n) + v
    ensures m == n && u == v
  {
    var s, t := EscapeUnit(m) + u, EscapeUnit(n) + v;
    assert s[0] == t[0] && s[0] == EscapeUnit(m)[0] && t[0] == EscapeUnit(n)[0];
    if s[0] != 92 {
      Fixed([m], [n], u, v);
      assert [m][0] == [n][0];
    } else {
      assert s[1] == EscapeUnit(m)[1] && t[1] == EscapeUnit(n)[1];
      if s[1] != 117 {
        Fixed([92, ShortEscape(m)], [92, ShortEscape(n)], u, v);
      } else {
        Fixed(Unicode(m), Unicode(n), u, v);
        UnicodeInjective(m, n);
      }
    }
  }

  predicate AnyUnit(n: Unit) { true }

  lemma JsonUnitsReadBack(us: seq<Unit>, vs: seq<Unit>, u: seq<Byte>, v: seq<Byte>)
    requires JsonUnits(us) + u == JsonUnits(vs) + v
    ensures us == vs && u == v
  {
    forall m, n, x, y | EscapeUnit(m) + x == EscapeUnit(n) + y
      ensures m == n && x == y
    {
      EscapeUnitReadsBack(m, n, x, y);
    }
    assert JsonUnits(us) + u == [34] + (Each(EscapeUnit, us) + ([34] + u));
    assert JsonUnits(vs) + v == [34] + (Each(EscapeUnit, vs) + ([34] + v));
    Fixed([34], [34], Each(EscapeUnit, us) + ([34] + u), Each(EscapeUnit, vs) + ([34] + v));
    forall n, w
      ensures EscapeUnit(n) + w != [34] + u && EscapeUnit(n) + w != [34] + v
    {
      assert (EscapeUnit(n) + w)[0] == EscapeUnit(n)[0] != 34;
      assert ([34] + u)[0] == 34 && ([34] + v)[0] == 34;
    }
    EachReadsBack(EscapeUnit, AnyUnit, us, vs, [34] + u, [34] + v);
    assert u == ([34] + u)[1..] && v == ([34] + v)[1..];
  }

  // ---------- What the code units leave open ----------

  predicate High(c: CodePoint) { 0xD800 <= c < 0xDC00 }

  predicate Low(c: CodePoint) { 0xDC00 <= c < 0xE000 }

  /** No high surrogate stands right before a low one. */
  predicate Unpaired(s: Text) { forall i :: 0 < i < |s| ==> !(High(s[i - 1]) && Low(s[i])) }

  /** The character that a surrogate pair stands for. */
  function Combined(high: CodePoint, low: CodePoint): (c: CodePoint)
    requires High(high) && Low(low)
    ensures c >= 0x10000 && UnitsOf(c) == [high, low]
  {
    0x10000 + (high - 0xD800) * 1024 + (low - 0xDC00)
  }

  /** Every adjacent pair of a high and a low surrogate made one character. */
  function Joined(s: Text): Text
  {
    if s == [] then []
    else if |s| >= 2 && High(s[0]) && Low(s[1]) then [Combined(s[0], s[1])] + Joined(s[2..])
    else [s[0]] + Joined(s[1..])
  }

  lemma {:induction false} JoinedKeepsUnits(s: Text)
    ensures Units(Joined(s)) == Units(s)
    decreases |s|
  {
    if s != [] {
      var pair := |s| >= 2 && High(s[0]) && Low(s[1]);
      var rest := if pair then s[2..] else s[1..];
      JoinedKeepsUnits(rest);
      assert Joined(s)[1..] == Joined(rest);
      if pair {
        assert s[1..][1..] == s[2..];
        assert UnitsOf(s[0]) + (UnitsOf(s[1]) + Units(s[2..])) == [s[0], s[1]] + Units(s[2..]);
      }
    }
  }

  lemma {:induction false} JoinedIsUnpaired(s: Text)
    ensures Unpaired(Joined(s))
    ensures s != [] ==> Joined(s) != [] && (Joined(s)[0] == s[0] || Joined(s)[0] >= 0x10000)
    decreases |s|
  {
    if s != [] {
      var pair := |s| >= 2 && High(s[0]) && Low(s[1]);
      var rest := if pair then s[2..] else s[1..];
      JoinedIsUnpaired(rest);
      var head := Joined(s)[0];
      assert Joined(s) == [head] + Joined(rest);
    }
  }

  /** Texts without such pairs are told apart by their code units. */
  lemma {:induction false} UnitsInjective(s: Text, t: Text)
    requires Unpaired(s) && Unpaired(t) && Units(s) == Units(t)
    ensures s == t
    decreases |s|
  {
    if s != [] && t != [] {
      UnpairedTail(s);
      UnpairedTail(t);
      HeadsAgree(s, t);
      assert UnitsOf(s[0]) + Units(s[1..]) == UnitsOf(t[0]) + Units(t[1..]);
      assert Units(s[1..]) == Units(s)[|UnitsOf(s[0])|..] && Units(t[1..]) == Units(t)[|UnitsOf(t[0])|..];
      UnitsInjective(s[1..], t[1..]);
      assert s == [s[0]] + s[1..] && t == [t[0]] + t[1..];
    }
  }

  lemma UnpairedTail(s: Text)
    requires Unpaired(s) && s != []
    ensures Unpaired(s[1..])
  {
    assert forall i :: 0 <= i < |s| - 1 ==> s[1..][i] == s[i + 1];
  }

  lemma HeadsAgree(s: Text, t: Text)
    requires Unpaired(s) && Unpaired(t) && s != [] && t != [] && Units(s) == Units(t)
    ensures s[0] == t[0]
  {
    FirstUnits(s);
    FirstUnits(t);
    if s[0] >= 0x10000 && t[0] >= 0x10000 { SameDigits(s[0] - 0x10000, t[0] - 0x10000, 1024); }
  }

  /** A high surrogate is followed by a low one exactly if the text begins beyond the basic plane. */
  lemma FirstUnits(s: Text)
    requires Unpaired(s) && s != []
    ensures var us := Units(s);
            && us != [] && us[0] == UnitsOf(s[0])[0]
            && (High(us[0]) && |us| > 1 && Low(us[1]) <==> s[0] >= 0x10000)
            && (s[0] >= 0x10000 ==> us[1] == UnitsOf(s[0])[1])
  {
    if s[0] < 0x10000 && |s| > 1 { assert Units(s)[1] == UnitsOf(s[1])[0]; }
  }

  lemma UnitsIffJoined(s: Text, t: Text)
    ensures Units(s) == Units(t) <==> Joined(s) == Joined(t)
  {
    JoinedKeepsUnits(s);
    JoinedKeepsUnits(t);
    JoinedIsUnpaired(s);
    JoinedIsUnpaired(t);
    if Units(s) == Units(t) { UnitsInjective(Joined(s), Joined(t)); }
  }

  lemma UnpairedIsJoined(s: Text)
    requires Unpaired(s)
    ensures Joined(s) == s
  {
    JoinedKeepsUnits(s);
    JoinedIsUnpaired(s);
    UnitsInjective(s, Joined(s));
  }

  /** What an escaped string decides: the text up to joining surrogate pairs. */
  lemma JsonStringDecides(s: Text, t: Text)
    ensures JsonString(s) == JsonString(t) <==> Joined(s) == Joined(t)
  {
    JsonShowsUnits(s);
    JsonShowsUnits(t);
    UnitsIffJoined(s, t);
    if JsonString(s) == JsonString(t) { JsonUnitsReadBack(Units(s), Units(t), [], []); }
  }
}
