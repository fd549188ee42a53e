/** Reading from a buffer: each getter takes what it needs from the bytes left, or fails because they
    are too few or because they are wrong. */
module Decoding {
  import opened Wire
  import opened Encoding

  datatype Result<+T> = Ok(value: T, rest: Bytes) | Short | Invalid

  // ------------------------------------------------------------------------ on the bytes left

  function IntAt(w: nat, s: Bytes): (r: Result<int>)
    requires w > 0
    ensures r.Ok? ==> |r.rest| < |s|
  {
    if |s| < w then Short else Ok(GetInt(s[..w]), s[w..])
  }

  function VarintAt(s: Bytes): (r: Result<int>)
    ensures r.Ok? ==> |r.rest| <= |s|
  {
    match GetVarint(s)
    case Read(x, n) => Ok(x, s[n..])
    case Cut => Short
    case Overflow(_) => Invalid
  }

  const MAX_ARRAY_LENGTH: nat := 131070

  function ArrayLengthAt(s: Bytes): (r: Result<int>)
    ensures r.Ok? ==> |r.rest| <= |s| && r.value <= |r.rest|
  {
    if |s| < 4 then Short
    else
      var n := GetInt(s[..4]);
      if n > |s| - 4 then Short else if n > MAX_ARRAY_LENGTH then Invalid else Ok(n, s[4..])
  }

  function RawAt(n: int, s: Bytes): (r: Result<Bytes>)
    ensures r.Ok? ==> |r.rest| <= |s|
  {
    if n < 0 then Invalid else if n > |s| then Short else Ok(s[..n], s[n..])
  }

  function VarintBytesAt(s: Bytes): (r: Result<Nullable<Bytes>>)
    ensures r.Ok? ==> |r.rest| <= |s|
  {
    match VarintAt(s)
    case Short => Short
    case Invalid => Invalid
    case Ok(n, s') =>
      if n == -1 then Ok(Null, s')
      else match RawAt(n, s')
        case Short => Short
        case Invalid => Invalid
        case Ok(b, s'') => Ok(Val(b), s'')
  }

  // ----------------------------------------------------------------- what was written is read

  lemma IntRead(w: nat, x: int, rest: Bytes)
    requires w > 0 && Fits(w, x)
    ensures IntAt(w, PutInt(w, x) + rest) == Ok(x, rest)
  {
    IntRoundTrip(w, x);
    assert (PutInt(w, x) + rest)[..w] == PutInt(w, x) && (PutInt(w, x) + rest)[w..] == rest;
  }

  lemma VarintRead(x: int, rest: Bytes)
    requires Fits(8, x)
    ensures VarintAt(PutVarint(x) + rest) == Ok(x, rest)
  {
    VarintRoundTrip(x, rest);
    var v := PutVarint(x);
    assert (v + rest)[|v|..] == rest;
  }

  lemma RawRead(b: Bytes, rest: Bytes)
    ensures RawAt(|b|, b + rest) == Ok(b, rest)
  {
    assert (b + rest)[..|b|] == b && (b + rest)[|b|..] == rest;
  }

  lemma SmallFits(n: nat)
    requires n <= MAX_INT32
    ensures Fits(4, n) && Fits(8, n) && Fits(8, -1)
  {
    Spans();
  }

  lemma VarintBytesWritten(o: Nullable<Bytes>)
    ensures Written(VarintBytes(o)) == if o.Null? then PutVarint(-1) else PutVarint(|o.value|) + o.value
  {
  }

  lemma VarintBytesFound(b: Bytes, s: Bytes, rest: Bytes)
    requires VarintAt(s) == Ok(|b|, b + rest)
    ensures VarintBytesAt(s) == Ok(Val(b), rest)
  {
    RawRead(b, rest);
    hide VarintAt;
  }

  lemma VarintBytesRead(o: Nullable<Bytes>, rest: Bytes)
    requires o.Val? ==> |o.value| <= MAX_INT32
    ensures VarintBytesAt(Written(VarintBytes(o)) + rest) == Ok(o, rest)
  {
    hide *;
    VarintBytesWritten(o);
    if o.Null? {
      SmallFits(0);
      VarintRead(-1, rest);
      NullFound(PutVarint(-1) + rest, rest);
    } else {
      var b := o.value;
      SmallFits(|b|);
      VarintRead(|b|, b + rest);
      VarintBytesFound(b, PutVarint(|b|) + (b + rest), rest);
      assert PutVarint(|b|) + b + rest == PutVarint(|b|) + (b + rest);
    }
  }

  lemma NullFound(s: Bytes, rest: Bytes)
    requires VarintAt(s) == Ok(-1, rest)
    ensures VarintBytesAt(s) == Ok(Null, rest)
  {
    hide VarintAt;
  }

  // ------------------------------------------------------------------------- with a cursor

  class RealDecoder {
    const raw: Bytes
    var off: nat

    constructor (raw: Bytes)
      ensures this.raw == raw && off == 0 && Valid()
    {
      this.raw, off := raw, 0;
    }

    ghost predicate Valid()
      reads this
    {
      off <= |raw|
    }

    function Remaining(): Bytes
      requires Valid()
      reads this
    {
      raw[off..]
    }

    /** How the cursor follows a read: past what was read, or to the end when there was too little. */
    ghost predicate Follows<T>(r: Result<T>)
      reads this
    {
      Valid() && (r.Ok? ==> Remaining() == r.rest) && (r.Short? ==> off == |raw|)
    }

    method GetInt(w: nat) returns (r: Result<int>)
      requires Valid() && w > 0
      modifies this
      ensures r == IntAt(w, old(Remaining())) && Follows(r)
    {
      if |raw| - off < w { off := |raw|; return Short; }
      r := Ok(Wire.GetInt(raw[off..off + w]), raw[off + w..]);
      assert raw[off..][..w] == raw[off..off + w] && raw[off..][w..] == raw[off + w..];
      off := off + w;
    }

    method GetVarint() returns (r: Result<int>)
      requires Valid()
      modifies this
      ensures r == VarintAt(old(Remaining())) && Follows(r)
      ensures r.Invalid? ==> var v := Wire.GetVarint(old(Remaining())); v.Overflow? && off == old(off) + v.skip
    {
      var v := Wire.GetVarint(raw[off..]);
      match v
      case Cut =>
        off := |raw|;
        r := Short;
      case Overflow(n) =>
        off := off + n;
        r := Invalid;
      case Read(x, n) =>
        assert raw[off..][n..] == raw[off + n..];
        off := off + n;
        r := Ok(x, raw[off..]);
    }

    method GetArrayLength() returns (r: Result<int>)
      requires Valid()
      modifies this
      ensures r == ArrayLengthAt(old(Remaining())) && Follows(r)
    {
      if |raw| - off < 4 { off := |raw|; return Short; }
      var n := Wire.GetInt(raw[off..off + 4]);
      assert raw[off..][..4] == raw[off..off + 4] && raw[off..][4..] == raw[off + 4..];
      off := off + 4;
      if n > |raw| - off { off := |raw|; return Short; }
      if n > MAX_ARRAY_LENGTH { return Invalid; }
      r := Ok(n, raw[off..]);
    }

    method GetRawBytes(n: int) returns (r: Result<Bytes>)
      requires Valid()
      modifies this
      ensures r == RawAt(n, old(Remaining())) && Follows(r)
    {
      if n < 0 { return Invalid; }
      if n > |raw| - off { off := |raw|; return Short; }
      assert raw[off..][..n] == raw[off..off + n] && raw[off..][n..] == raw[off + n..];
      r := Ok(raw[off..off + n], raw[off + n..]);
      off := off + n;
    }

    method GetVarintBytes() returns (r: Result<Nullable<Bytes>>)
      requires Valid()
      modifies this
      ensures r == VarintBytesAt(old(Remaining())) && Follows(r)
    {
      var n := GetVarint();
      if n.Short? { return Short; }
      if n.Invalid? { return Invalid; }
      if n.value == -1 { return Ok(Null, n.rest); }
      var b := GetRawBytes(n.value);
      r := match b case Short => Short case Invalid => Invalid case Ok(v, rest) => Ok(Val(v), rest);
    }
  }
}
