/** The two passes of an encoding. The sizing pass only counts; the writing pass fills a buffer of
    exactly that size, going back to fill in each field when it is popped. */
module TwoPass {
  import opened Wire
  import opened Encoding

  // ---------------------------------------------------------------------- the sizing pass

  class PrepEncoder {
    var stack: seq<PushField>
    var length: int

    constructor ()
      ensures stack == [] && length == 0
    {
      stack, length := [], 0;
    }

    method PutPrim(p: Prim) returns (ok: bool)
      modifies this`length
      ensures ok == Sized(p).Val? && length == old(length) + if ok then |Written(p)| else 0
    {
      var size := Sized(p);
      if size.Null? { return false; }
      PrimExact(p);
      length := length + size.value;
      ok := true;
    }

    method Push(f: PushField)
      modifies this`length, this`stack, f`startOffset
      ensures stack == old(stack) + [f] && length == old(length) + f.ReserveLength() && f.startOffset == old(length)
    {
      f.SaveOffset(length);
      length := length + f.ReserveLength();
      stack := stack + [f];
    }

    function Top(): PushField
      requires stack != []
      reads this
    {
      stack[|stack| - 1]
    }

    method Pop()
      requires stack != []
      modifies this`length, this`stack, Top()`length
      ensures var f := old(Top());
              && stack == old(stack)[..|old(stack)| - 1]
              && (if f.kind == VarintLength
                  then f.length == old(length) - f.startOffset - old(f.ReserveLength())
                       && length == old(length) + f.ReserveLength() - old(f.ReserveLength())
                  else length == old(length) && f.length == old(f.length))
    {
      var f := Top();
      stack := stack[..|stack| - 1];
      if f.kind == VarintLength {
        var delta := f.AdjustLength(length);
        length := length + delta;
      }
    }
  }

  /** The sizing pass over a field and its body: push, the body, pop. `all` are the fields in use. */
  method SizeGroup(pe: PrepEncoder, f: PushField, body: seq<Call>, ghost crc: Crc, ghost all: set<PushField>) returns (ok: bool)
    requires Distinct(body) && f !in FieldsOf(body) && FieldsOf(body) <= all
    modifies pe`length, pe`stack, f, FieldsOf(body)
    ensures ok == Sizable(body)
    ensures ok ==> pe.length == old(pe.length) + |FieldBytes(f.kind, Encoded(body, crc), crc)| + |Encoded(body, crc)|
                   && pe.stack == old(pe.stack)
    ensures ok ==> LengthsSet(body, crc) && (f.kind == VarintLength ==> f.length == |Encoded(body, crc)|)
    decreases body, 1
  {
    hide Distinct, Sizable, FieldsOf, Encoded, PutVarint, PutInt, PutUint, LengthsSet;
    pe.Push(f);
    ok := Size(pe, body, crc, all);
    if !ok { return; }
    pe.Pop();
  }

  /** The sizing pass over any well-nested calls, whatever lengths earlier encodings have left in the
      fields: it accepts exactly the sizable ones, counts exactly the bytes they stand for, and leaves
      every varint field with the length of its body. */
  method Size(pe: PrepEncoder, calls: seq<Call>, ghost crc: Crc, ghost all: set<PushField>) returns (ok: bool)
    requires Distinct(calls) && FieldsOf(calls) <= all
    modifies pe`length, pe`stack, FieldsOf(calls)
    ensures ok == Sizable(calls)
    ensures ok ==> pe.length == old(pe.length) + |Encoded(calls, crc)| && pe.stack == old(pe.stack) && LengthsSet(calls, crc)
    decreases calls, 0
  {
    hide FieldBytes, Written, Sized;
    if calls == [] { return true; }
    match calls[0]
    case Put(p) =>
      ok := pe.PutPrim(p);
      if !ok { return; }
      ok := Size(pe, calls[1..], crc, all);
    case Group(f, body) =>
      ok := SizeGroup(pe, f, body, crc, all);
      if !ok { return; }
      ok := Size(pe, calls[1..], crc, all);
  }

  // --------------------------------------------------------------------- the writing pass

  class RealEncoder {
    const raw: array<byte>
    const crc: Crc
    var off: nat
    var stack: seq<PushField>

    constructor (raw: array<byte>, crc: Crc)
      ensures this.raw == raw && this.crc == crc && off == 0 && stack == []
    {
      this.raw, this.crc, off, stack := raw, crc, 0, [];
    }

    /** Writes `s` at `at`; the rest of the buffer stays as it is. */
    method WriteAt(at: nat, s: Bytes)
      requires at + |s| <= raw.Length
      modifies raw
      ensures raw[..at] == old(raw[..at]) && raw[at..at + |s|] == s && raw[at + |s|..] == old(raw[at + |s|..])
    {
      for i := 0 to |s|
        invariant raw[..at] == old(raw[..at]) && raw[at..at + i] == s[..i] && raw[at + |s|..] == old(raw[at + |s|..])
      {
        raw[at + i] := s[i];
        assert raw[at..at + i + 1] == raw[at..at + i] + [s[i]];
        assert s[..i + 1] == s[..i] + [s[i]];
      }
      assert s[..|s|] == s;
    }

    method PutPrim(p: Prim)
      requires off + |Written(p)| <= raw.Length
      modifies this`off, raw
      ensures off == old(off) + |Written(p)|
      ensures raw[..old(off)] == old(raw[..off]) && raw[old(off)..off] == Written(p)
    {
      WriteAt(off, Written(p));
      off := off + |Written(p)|;
    }

    method Push(f: PushField)
      modifies this`off, this`stack, f`startOffset
      ensures stack == old(stack) + [f] && off == old(off) + f.ReserveLength() && f.startOffset == old(off)
    {
      f.SaveOffset(off);
      off := off + f.ReserveLength();
      stack := stack + [f];
    }

    /** Goes back to where the field was pushed and fills it in. */
    method Pop()
      requires stack != []
      requires var f := stack[|stack| - 1];
               0 <= f.startOffset && f.startOffset + f.ReserveLength() <= off <= raw.Length
               && (f.kind == VarintLength ==> f.length == off - f.startOffset - f.ReserveLength())
      modifies this`stack, raw
      ensures var f := old(stack)[|old(stack)| - 1];
              var at, body := f.startOffset, f.startOffset + f.ReserveLength();
              && stack == old(stack)[..|old(stack)| - 1]
              && raw[..at] == old(raw[..at])
              && raw[at..body] == FieldBytes(f.kind, old(raw[body..off]), crc)
              && raw[body..] == old(raw[body..])
    {
      hide PutInt, PutUint, PutVarint;
      var f := stack[|stack| - 1];
      stack := stack[..|stack| - 1];
      var at := f.startOffset;
      match f.kind
      case Length32 => WriteAt(at, PutInt(4, off - at - 4));
      case Crc32 => WriteAt(at, PutUint(4, crc(raw[at + 4..off])));
      case VarintLength => WriteAt(at, PutVarint(f.length));
    }
  }

  lemma SameSlice(s: Bytes, t: Bytes, i: nat, j: nat)
    requires i <= j <= |s| == |t| && s[i..] == t[i..]
    ensures s[i..j] == t[i..j]
  {
    assert s[i..j] == s[i..][..j - i] && t[i..j] == t[i..][..j - i];
  }

  lemma SamePrefix(s: Bytes, t: Bytes, i: nat, j: nat)
    requires i <= j <= |s| == |t| && s[..j] == t[..j]
    ensures s[..i] == t[..i]
  {
    assert s[..i] == s[..j][..i] && t[..i] == t[..j][..i];
  }

  lemma SameMiddle(s: Bytes, t: Bytes, i: nat, j: nat)
    requires i <= j <= |s| == |t| && s[..j] == t[..j]
    ensures s[i..j] == t[i..j]
  {
    assert s[i..j] == s[..j][i..] && t[i..j] == t[..j][i..];
  }

  lemma JoinSlices(s: Bytes, i: nat, j: nat, k: nat)
    requires i <= j <= k <= |s|
    ensures s[i..k] == s[i..j] + s[j..k]
  {
  }

  method WriteGroup(re: RealEncoder, f: PushField, body: seq<Call>, ghost all: set<PushField>)
    requires Distinct(body) && f !in FieldsOf(body) && FieldsOf(body) <= all && LengthsSet(body, re.crc)
    requires f.kind == VarintLength ==> f.length == |Encoded(body, re.crc)|
    requires var e := Encoded(body, re.crc); re.off + |FieldBytes(f.kind, e, re.crc)| + |e| <= re.raw.Length
    modifies re`off, re`stack, re.raw, f`startOffset, FieldsOf(body)`startOffset
    ensures var e := FieldBytes(f.kind, Encoded(body, re.crc), re.crc) + Encoded(body, re.crc);
            && re.off == old(re.off) + |e| <= re.raw.Length && re.stack == old(re.stack)
            && re.raw[..old(re.off)] == old(re.raw[..re.off]) && re.raw[old(re.off)..re.off] == e
    decreases body, 1
  {
    hide Distinct, Sizable, FieldsOf, Encoded, PutVarint, PutInt, PutUint, LengthsSet;
    ghost var start := re.off;
    re.Push(f);
    ghost var inside := re.off;
    Write(re, body, all);
    ghost var e := Encoded(body, re.crc);
    ghost var buf := re.raw[..];
    SamePrefix(old(re.raw[..]), buf, start, inside);
    assert buf[inside..re.off] == e;
    re.Pop();
    SameSlice(buf, re.raw[..], inside, re.off);
    JoinSlices(re.raw[..], start, inside, re.off);
  }

  /** The writing pass, after a sizing pass: from the current offset on, the buffer holds exactly the
      bytes the calls stand for, and nothing before it has changed. */
  method Write(re: RealEncoder, calls: seq<Call>, ghost all: set<PushField>)
    requires Distinct(calls) && FieldsOf(calls) <= all && LengthsSet(calls, re.crc)
    requires re.off + |Encoded(calls, re.crc)| <= re.raw.Length
    modifies re`off, re`stack, re.raw, FieldsOf(calls)`startOffset
    ensures re.off == old(re.off) + |Encoded(calls, re.crc)| <= re.raw.Length && re.stack == old(re.stack)
    ensures re.raw[..old(re.off)] == old(re.raw[..re.off]) && re.raw[old(re.off)..re.off] == Encoded(calls, re.crc)
    decreases calls, 0
  {
    hide FieldBytes, Written;
    if calls == [] { return; }
    ghost var start := re.off;
    match calls[0] {
      case Put(p) => re.PutPrim(p);
      case Group(f, body) => WriteGroup(re, f, body, all);
    }
    ghost var mid := re.off;
    ghost var buf := re.raw[..];
    Write(re, calls[1..], all);
    SamePrefix(buf, re.raw[..], start, mid);
    SameMiddle(buf, re.raw[..], start, mid);
    JoinSlices(re.raw[..], start, mid, re.off);
  }

  // --------------------------------------------------------------------------- both passes

  /** Two-pass exactness: an encoding succeeds exactly when the sizing pass accepts the calls and the
      total is at most `max`; then the buffer, which has exactly the counted size, is filled exactly
      to its end with the bytes the calls stand for. */
  method Encode(calls: seq<Call>, crc: Crc, max: nat, ghost all: set<PushField>) returns (r: Nullable<Bytes>)
    requires Distinct(calls) && FieldsOf(calls) <= all
    modifies FieldsOf(calls)
    ensures r.Val? <==> Sizable(calls) && |Encoded(calls, crc)| <= max
    ensures r.Val? ==> r.value == Encoded(calls, crc)
    ensures r.Val? ==> LengthsSet(calls, crc)
  {
    hide Encoded, Distinct, Sizable, LengthsSet, FieldsOf;
    var pe := new PrepEncoder();
    var ok := Size(pe, calls, crc, all);
    if !ok || pe.length < 0 || pe.length > max { return Null; }
    var raw := new byte[pe.length];
    var re := new RealEncoder(raw, crc);
    Write(re, calls, all);
    assert re.off == raw.Length;
    assert raw[0..re.off] == raw[..];
    r := Val(raw[..]);
  }
}
