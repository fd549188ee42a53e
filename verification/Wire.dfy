/** Numbers on the wire: big-endian integers in two's complement, and zigzag varints. */
module Wire {
  type byte = x: int | 0 <= x < 256

  type Bytes = seq<byte>

  // ----------------------------------------------------------------------- fixed width

  /** 256 to the power w. */
  function Span(w: nat): (n: nat)
    ensures n >= 1 && (w > 0 ==> n % 256 == 0)
  {
    if w == 0 then 1 else 256 * Span(w - 1)
  }

  function PutUint(w: nat, u: nat): (s: Bytes)
    ensures |s| == w
  {
    if w == 0 then [] else PutUint(w - 1, u / 256) + [(u % 256) as byte]
  }

  function GetUint(s: Bytes): (u: nat)
    ensures u < Span(|s|)
  {
    if s == [] then 0 else 256 * GetUint(s[..|s| - 1]) + s[|s| - 1]
  }

  lemma {:induction false} UintRoundTrip(w: nat, u: nat)
    requires u < Span(w)
    ensures GetUint(PutUint(w, u)) == u
  {
    if w > 0 {
      UintRoundTrip(w - 1, u / 256);
      var s := PutUint(w, u);
      assert s[..|s| - 1] == PutUint(w - 1, u / 256);
    }
  }

  /** The values of a signed integer of w bytes. */
  predicate Fits(w: nat, x: int) {
    -(Span(w) / 2) <= x < Span(w) / 2
  }

  function PutInt(w: nat, x: int): (s: Bytes)
    requires w > 0
    ensures |s| == w
  {
    PutUint(w, x % Span(w))
  }

  function GetInt(s: Bytes): (x: int)
    requires s != []
    ensures Fits(|s|, x)
  {
    var u := GetUint(s);
    if u < Span(|s|) / 2 then u else u - Span(|s|)
  }

  lemma IntRoundTrip(w: nat, x: int)
    requires w > 0 && Fits(w, x)
    ensures GetInt(PutInt(w, x)) == x
  {
    var n := Span(w);
    ModOfSmall(x, n);
    UintRoundTrip(w, x % n);
  }

  lemma ModOfSmall(x: int, n: int)
    requires n > 0 && -n <= x < n
    ensures x % n == if x < 0 then x + n else x
  {
    if x < 0 { assert x / n == -1; }
  }

  // ------------------------------------------------------------------ which byte is where

  lemma MulDistributes(x: int, y: int, n: int)
    ensures (x + y) * n == x * n + y * n
  {
  }

  lemma MulAtMost(x: nat, y: nat, n: nat)
    requires x <= y
    ensures x * n <= y * n
  {
    MulDistributes(x, y - x, n);
  }

  lemma Parts(u: nat, n: nat)
    requires n > 0
    ensures u == (u / n) * n + u % n && u / n >= 0 && 0 <= u % n < n
  {
  }

  /** Quotient and remainder are the only numbers that add up. */
  lemma QuotientIs(u: nat, n: nat, q: nat, r: nat)
    requires n > 0 && u == q * n + r && r < n
    ensures u / n == q
  {
    Parts(u, n);
    var d := u / n;
    if d > q {
      MulAtMost(q + 1, d, n);
      MulDistributes(q, 1, n);
    } else if d < q {
      MulAtMost(d + 1, q, n);
      MulDistributes(d, 1, n);
    }
  }

  lemma Regrouped(q: nat, b: nat, r: nat, a: nat)
    ensures (q * b + r) * a == q * (a * b) + r * a
  {
    MulDistributes(q * b, r, a);
    assert q * b * a == q * (a * b);
  }

  lemma Bounded(a: nat, b: nat, r: nat, r': nat)
    requires r < a && r' < b
    ensures a * b > 0 && r' * a + r < a * b
  {
    MulDistributes(r', 1, a);
    MulAtMost(r' + 1, b, a);
    assert b * a == a * b;
  }

  lemma DivDiv(u: nat, a: nat, b: nat)
    requires a > 0 && b > 0
    ensures a * b > 0 && (u / a) / b == u / (a * b)
  {
    Parts(u, a);
    Parts(u / a, b);
    var q, r, r' := u / a / b, u % a, (u / a) % b;
    Regrouped(q, b, r', a);
    Bounded(a, b, r, r');
    QuotientIs(u, a * b, q, r' * a + r);
  }

  /** The bytes are the number in base 256, most significant digit first. */
  ghost predicate BigEndian(s: Bytes, u: nat) {
    u < Span(|s|) && forall i :: 0 <= i < |s| ==> s[i] == Digit(u, |s| - 1 - i)
  }

  /** The digit of u at a power of 256. */
  function Digit(u: nat, power: nat): nat {
    (u / Span(power)) % 256
  }

  lemma DigitAbove(u: nat, power: nat)
    ensures Digit(u, power + 1) == Digit(u / 256, power) && Digit(u, 0) == u % 256
  {
    DivDiv(u, 256, Span(power));
    assert Span(0) == 1 && u / 1 == u;
  }

  /** Positional law: byte i of w is the digit of the power w - 1 - i. */
  lemma {:induction false} PutUintAt(w: nat, u: nat, i: nat)
    requires i < w
    ensures PutUint(w, u)[i] == Digit(u, w - 1 - i)
  {
    if i == w - 1 {
      DigitAbove(u, 0);
    } else {
      PutUintAt(w - 1, u / 256, i);
      DigitAbove(u, w - 2 - i);
    }
  }

  lemma PutUintBigEndian(w: nat, u: nat)
    requires u < Span(w)
    ensures BigEndian(PutUint(w, u), u)
  {
    forall i | 0 <= i < w ensures PutUint(w, u)[i] == Digit(u, w - 1 - i) { PutUintAt(w, u, i); }
  }

  /** Signed integers, in two's complement. */
  ghost predicate IsInt(s: Bytes, x: int) {
    s != [] && Fits(|s|, x) && BigEndian(s, if x < 0 then x + Span(|s|) else x)
  }

  lemma PutIntIsInt(w: nat, x: int)
    requires w > 0 && Fits(w, x)
    ensures IsInt(PutInt(w, x), x)
  {
    var n := Span(w);
    ModOfSmall(x, n);
    PutUintBigEndian(w, x % n);
  }

  lemma Spans()
    ensures Span(1) == 0x100 && Span(2) == 0x1_0000 && Span(4) == 0x1_0000_0000 && Span(8) == 0x1_0000_0000_0000_0000
  {
    assert Span(3) == 0x100_0000 && Span(5) == 0x100_0000_0000 && Span(6) == 0x1_0000_0000_0000 && Span(7) == 0x100_0000_0000_0000;
  }

  // --------------------------------------------------------------------------- varints

  const MAX_VARINT_LEN_64: nat := 10

  const UINT64_SPAN: nat := 0x1_0000_0000_0000_0000

  function PutUvarint(u: nat): (s: Bytes)
    ensures s != []
  {
    if u < 128 then [u as byte] else [(u % 128 + 128) as byte] + PutUvarint(u / 128)
  }

  function Zigzag(x: int): nat {
    if x >= 0 then 2 * x else -2 * x - 1
  }

  function Unzigzag(u: nat): int {
    if u % 2 == 0 then u / 2 else -(u / 2) - 1
  }

  function PutVarint(x: int): (s: Bytes)
    ensures s != []
  {
    PutUvarint(Zigzag(x))
  }

  datatype Varint = Read(value: int, size: nat) | Cut | Overflow(skip: nat)

  /** Reads a varint whose first i bytes have been read; 64 bits at most. */
  function GetUvarintFrom(s: Bytes, i: nat): (r: Varint)
    ensures r.Read? ==> r.value >= 0 && i < r.size <= i + |s|
    ensures r.Overflow? ==> r.skip <= i + |s|
  {
    if s == [] then Cut
    else if i == MAX_VARINT_LEN_64 then Overflow(i + 1)
    else if s[0] < 128 then
      if i == MAX_VARINT_LEN_64 - 1 && s[0] > 1 then Overflow(i + 1) else Read(s[0], i + 1)
    else
      match GetUvarintFrom(s[1..], i + 1)
      case Read(v, n) => Read(s[0] - 128 + 128 * v, n)
      case other => other
  }

  function GetUvarint(s: Bytes): (r: Varint)
    ensures r.Read? ==> r.value >= 0 && r.size <= |s|
    ensures r.Overflow? ==> r.skip <= |s|
  {
    GetUvarintFrom(s, 0)
  }

  function GetVarint(s: Bytes): (r: Varint)
    ensures r.Read? ==> r.size <= |s|
    ensures r.Overflow? ==> r.skip <= |s|
  {
    match GetUvarint(s)
    case Read(u, n) => Read(Unzigzag(u), n)
    case other => other
  }

  /** The values still possible, of 64 bits, after i bytes of seven bits. */
  function Room(i: nat): nat
    requires i < MAX_VARINT_LEN_64
    decreases MAX_VARINT_LEN_64 - i
  {
    if i == MAX_VARINT_LEN_64 - 1 then 2 else 128 * Room(i + 1)
  }

  lemma {:induction false} UvarintFromRoundTrip(u: nat, i: nat, rest: Bytes)
    requires i < MAX_VARINT_LEN_64 && u < Room(i)
    ensures GetUvarintFrom(PutUvarint(u) + rest, i) == Read(u, i + |PutUvarint(u)|)
    ensures i + |PutUvarint(u)| <= MAX_VARINT_LEN_64
    decreases MAX_VARINT_LEN_64 - i
  {
    if u >= 128 {
      UvarintFromRoundTrip(u / 128, i + 1, rest);
      assert (PutUvarint(u) + rest)[1..] == PutUvarint(u / 128) + rest;
    }
  }

  lemma RoomIs64Bits()
    ensures Room(0) == UINT64_SPAN
  {
    assert Room(9) == 2 && Room(8) == 0x100 && Room(7) == 0x8000 && Room(6) == 0x40_0000 && Room(5) == 0x2000_0000;
    assert Room(4) == 0x10_0000_0000 && Room(3) == 0x800_0000_0000 && Room(2) == 0x4_0000_0000_0000 && Room(1) == 0x200_0000_0000_0000;
  }

  /** Reading a written varint gives the number back and consumes exactly what was written. */
  lemma VarintRoundTrip(x: int, rest: Bytes)
    requires Fits(8, x)
    ensures GetVarint(PutVarint(x) + rest) == Read(x, |PutVarint(x)|) && |PutVarint(x)| <= MAX_VARINT_LEN_64
  {
    Spans();
    RoomIs64Bits();
    UvarintFromRoundTrip(Zigzag(x), 0, rest);
  }

  lemma {:induction false} UvarintSize(u: nat, v: nat)
    requires u <= v
    ensures |PutUvarint(u)| <= |PutUvarint(v)|
  {
    if u >= 128 { UvarintSize(u / 128, v / 128); }
  }

  // ------------------------------------------------------------- which seven bits are where

  /** 128 to the power i. */
  function Span7(i: nat): (n: nat)
    ensures n >= 1
  {
    if i == 0 then 1 else 128 * Span7(i - 1)
  }

  /** The bytes are the number in groups of seven bits, the lowest first, with the high bit set on all
      but the last, and not more of them than needed. */
  ghost predicate SevenBits(s: Bytes, u: nat) {
    && s != [] && u < Span7(|s|) && (|s| > 1 ==> u >= Span7(|s| - 1))
    && forall i :: 0 <= i < |s| ==> s[i] == Group7(u, i) + if i < |s| - 1 then 128 else 0
  }

  function Group7(u: nat, i: nat): nat {
    (u / Span7(i)) % 128
  }

  lemma Group7Above(u: nat, i: nat)
    ensures Group7(u, i + 1) == Group7(u / 128, i) && Group7(u, 0) == u % 128
  {
    DivDiv(u, 128, Span7(i));
    assert Span7(0) == 1 && u / 1 == u;
  }

  lemma {:induction false} PutUvarintSevenBits(u: nat)
    ensures SevenBits(PutUvarint(u), u)
  {
    var s := PutUvarint(u);
    Group7Above(u, 0);
    if u < 128 {
      assert Span7(1) == 128;
    } else {
      PutUvarintSevenBits(u / 128);
      var r := PutUvarint(u / 128);
      hide Group7;
      assert Span7(|s|) == 128 * Span7(|r|);
      assert |r| > 1 ==> Span7(|s| - 1) == 128 * Span7(|r| - 1);
      assert |r| == 1 ==> Span7(|s| - 1) == 128 by { assert Span7(1) == 128; }
      forall i | 0 < i < |s| ensures s[i] == Group7(u, i) + if i < |s| - 1 then 128 else 0 {
        assert s[i] == r[i - 1];
        Group7Above(u, i - 1);
      }
    }
  }

  /** A varint: the seven-bit groups of the number's place in the order 0, -1, 1, -2, 2, ... */
  ghost predicate IsVarint(s: Bytes, x: int) {
    SevenBits(s, if x >= 0 then 2 * x else -2 * x - 1)
  }

  lemma PutVarintIsVarint(x: int)
    ensures IsVarint(PutVarint(x), x)
  {
    PutUvarintSevenBits(Zigzag(x));
  }
}
