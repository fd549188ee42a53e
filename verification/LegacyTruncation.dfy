/** Legacy message sets that end in the middle of a message. */
module LegacyTruncation {
  import opened Wire
  import opened Encoding
  import opened Decoding
  import opened BatchCodec
  import opened LegacyCodec
  import opened Truncation

  ghost predicate AllValid(ms: seq<MessageBlock>) {
    forall i :: 0 <= i < |ms| ==> ValidBlock(ms[i]) && Millis(ms[i].msg.timestamp).Val?
  }

  ghost function SetBytes(ms: seq<MessageBlock>, crc: Crc): Bytes
    requires AllValid(ms)
  {
    if ms == [] then [] else BlockBytes(ms[0], crc) + SetBytes(ms[1..], crc)
  }

  ghost function CompleteBlocks(ms: seq<MessageBlock>, k: nat, crc: Crc): nat
    requires AllValid(ms)
  {
    if ms == [] || k < |BlockBytes(ms[0], crc)| then 0 else 1 + CompleteBlocks(ms[1..], k - |BlockBytes(ms[0], crc)|, crc)
  }

  lemma {:induction false} CompleteBlocksBound(ms: seq<MessageBlock>, k: nat, crc: Crc)
    requires AllValid(ms)
    ensures CompleteBlocks(ms, k, crc) <= |ms| && (ms != [] && CompleteBlocks(ms, k, crc) == 0 ==> k < |BlockBytes(ms[0], crc)|)
  {
    hide ValidBlock, BlockBytes;
    if ms != [] && k >= |BlockBytes(ms[0], crc)| { CompleteBlocksBound(ms[1..], k - |BlockBytes(ms[0], crc)|, crc); }
  }

  /** The magic byte of a message is its version. */
  lemma BlockMagic(b: MessageBlock, crc: Crc, s: Bytes)
    requires ValidBlock(b) && Millis(b.msg.timestamp).Val?
    requires |s| >= 17 && |BlockBytes(b, crc)| >= 17 && s[..17] == BlockBytes(b, crc)[..17]
    ensures MagicAt(s) == Val(b.msg.version)
  {
    var m := b.msg;
    var millis := Millis(m.timestamp).value;
    SmallAttributes(m);
    IntRoundTrip(1, m.version);
    var full := BlockBytes(b, crc);
    var body := MessageBody(m, millis);
    hide Fits, PutUint, PutInt, AttributesOf, PutBytes;
    assert full == PutInt(8, b.offset) + (PutInt(4, |MessageBytes(m, millis, crc)|) + (PutUint(4, crc(body)) + body));
    assert body[..1] == PutInt(1, m.version);
    assert full[16..17] == body[..1];
    assert s[16..17] == s[..17][16..] == full[..17][16..] == full[16..17];
  }

  lemma BlockIsLong(b: MessageBlock, crc: Crc)
    requires Millis(b.msg.timestamp).Val?
    ensures |BlockBytes(b, crc)| >= 18
  {
    hide PutInt, PutUint, AttributesOf, PutBytes;
  }

  /** A message cut behind its magic byte announces more than is left. */
  lemma BlockCut(b: MessageBlock, unwrap: Unwrap, crc: Crc, j: nat)
    requires ValidBlock(b) && Millis(b.msg.timestamp).Val? && 17 <= j < |BlockBytes(b, crc)|
    ensures BlockAt(BlockBytes(b, crc)[..j], unwrap, crc) == BlockResult.Cut(b.offset)
  {
    var m := MessageBytes(b.msg, Millis(b.msg.timestamp).value, crc);
    SmallFits(|m|);
    assert Fits(8, b.offset);
    hide PutInt, IntAt, MessageAt, MessageBytes, Fits, ValidBlock;
    IntCut(8, b.offset, PutInt(4, |m|) + m, j);
    IntCut(4, |m|, m, j - 8);
  }

  /** Truncation tolerance, message sets: any number of bytes of a set decodes without error to its
      complete messages, and is flagged partial exactly when bytes are left over. */
  lemma {:induction false} CutSet(ms: seq<MessageBlock>, k: nat, unwrap: Unwrap, crc: Crc)
    requires AllValid(ms) && k <= |SetBytes(ms, crc)|
    ensures var n := CompleteBlocks(ms, k, crc);
            && n <= |ms| && |SetBytes(ms[..n], crc)| <= k
            && var r := MessageSetAt(SetBytes(ms, crc)[..k], unwrap, crc);
               r.Ok? && r.value == MessageSet(ms[..n], |SetBytes(ms[..n], crc)| < k, false) && (!r.value.partial ==> r.rest == [])
    decreases ms
  {
    hide ValidBlock, BlockBytes, MessageSetAt, Millis;
    CompleteBlocksBound(ms, k, crc);
    if ms == [] {
      assert SetBytes(ms, crc)[..k] == [];
      NothingLeft(unwrap, crc);
    } else {
      var b := ms[0];
      var n := |BlockBytes(b, crc)|;
      BlockIsLong(b, crc);
      var s := SetBytes(ms, crc)[..k];
      if k < n {
        assert s == BlockBytes(b, crc)[..k];
        CutFirst(b, unwrap, crc, k);
        assert SetBytes([], crc) == [] && ms[..0] == [];
      } else {
        var rest := SetBytes(ms[1..], crc)[..k - n];
        assert s == BlockBytes(b, crc) + rest;
        OneBlock(b, rest, unwrap, crc);
        CutSet(ms[1..], k - n, unwrap, crc);
        var c := CompleteBlocks(ms[1..], k - n, crc);
        assert ms[..c + 1] == [b] + ms[1..][..c];
        assert ms[..c + 1][1..] == ms[1..][..c];
      }
    }
  }

  lemma NothingLeft(unwrap: Unwrap, crc: Crc)
    ensures MessageSetAt([], unwrap, crc) == Ok(MessageSet([], false, false), [])
  {
  }

  /** A whole message in front of whatever follows. */
  lemma OneBlock(b: MessageBlock, rest: Bytes, unwrap: Unwrap, crc: Crc)
    requires ValidBlock(b) && Millis(b.msg.timestamp).Val?
    ensures MessageSetAt(BlockBytes(b, crc) + rest, unwrap, crc) == After([b], MessageSetAt(rest, unwrap, crc))
  {
    hide BlockBytes, BlockAt, MagicAt;
    var s := BlockBytes(b, crc) + rest;
    BlockIsLong(b, crc);
    BlockRead(b, rest, unwrap, crc);
    assert s[..17] == BlockBytes(b, crc)[..17];
    BlockMagic(b, crc, s);
  }

  lemma VersionSmall(b: MessageBlock)
    requires ValidBlock(b)
    ensures b.msg.version <= 1
  {
  }

  lemma CutFirst(b: MessageBlock, unwrap: Unwrap, crc: Crc, k: nat)
    requires ValidBlock(b) && Millis(b.msg.timestamp).Val? && k < |BlockBytes(b, crc)|
    ensures var r := MessageSetAt(BlockBytes(b, crc)[..k], unwrap, crc); r.Ok? && r.value == MessageSet([], k > 0, false) && (k == 0 ==> r.rest == [])
  {
    hide BlockBytes, BlockAt, MessageBody;
    BlockIsLong(b, crc);
    if k >= 17 {
      BlockMagic(b, crc, BlockBytes(b, crc)[..k]);
      BlockCut(b, unwrap, crc, k);
    }
  }

  /** The same for a fetched block: the complete messages as one record set, or, when there is none
      but some bytes are there, a block without records that is reported partial. */
  lemma CutLegacyFetch(ms: seq<MessageBlock>, k: nat, env: Env)
    requires AllValid(ms) && k <= |SetBytes(ms, env.ieee)|
    ensures var n := CompleteBlocks(ms, k, env.ieee);
            var r := Scan(SetBytes(ms, env.ieee)[..k], [], Null, env);
            && n <= |ms| && r.Val?
            && (n > 0 ==> r.value.sets == [Legacy(MessageSet(ms[..n], |SetBytes(ms[..n], env.ieee)| < k, false))])
            && (n == 0 && k > 0 ==> IsPartial(r.value) && TotalRecords(r.value.sets) == 0)
            && (k == 0 ==> r.value == FetchBlock([], false, Null))
  {
    hide ValidBlock, BlockBytes, BlockAt, MagicAt, MessageSetAt, SetAt, Scan, TotalRecords, IsPartial, BatchAt;
    var crc := env.ieee;
    CutSet(ms, k, env.unwrap, crc);
    CompleteBlocksBound(ms, k, crc);
    var n := CompleteBlocks(ms, k, crc);
    var s := SetBytes(ms, crc)[..k];
    if ms != [] { BlockIsLong(ms[0], crc); }
    if k == 0 {
      ScanNothing(env);
    } else {
      var b := ms[0];
      if k >= 17 {
        assert s[..17] == BlockBytes(b, crc)[..17];
        BlockMagic(b, crc, s);
        VersionSmall(b);
        var r := MessageSetAt(s, env.unwrap, crc);
        SetOfLegacy(s, env);
        assert n == 0 ==> SetBytes(ms[..n], crc) == [];
        ScanLegacy(s, r.value, r.rest, env, ms[..n]);
      } else {
        TooShortForMagic(s, env);
        ScanShort(s, env);
      }
    }
  }

  lemma ScanNothing(env: Env)
    ensures Scan([], [], Null, env) == Val(FetchBlock([], false, Null))
  {
  }

  lemma ScanShort(s: Bytes, env: Env)
    requires s != [] && SetAt(s, env) == Short
    ensures var r := Scan(s, [], Null, env); r.Val? && IsPartial(r.value) && TotalRecords(r.value.sets) == 0
  {
    hide SetAt;
  }

  lemma SetOfLegacy(s: Bytes, env: Env)
    requires MagicAt(s).Val? && MagicAt(s).value < 2 && MessageSetAt(s, env.unwrap, env.ieee).Ok?
    ensures var r := MessageSetAt(s, env.unwrap, env.ieee); SetAt(s, env) == Ok(Legacy(r.value), r.rest)
  {
    hide BatchAt, MessageSetAt, MagicAt;
  }

  lemma ScanLegacy(s: Bytes, set': MessageSet, rest: Bytes, env: Env, whole: seq<MessageBlock>)
    requires s != [] && SetAt(s, env) == Ok(Legacy(set'), rest) && !set'.overflow && set'.messages == whole
    requires whole == [] ==> set'.partial
    requires !set'.partial ==> rest == []
    ensures var r := Scan(s, [], Null, env);
            && r.Val?
            && (whole != [] ==> r.value.sets == [Legacy(set')])
            && (whole == [] ==> IsPartial(r.value) && TotalRecords(r.value.sets) == 0)
  {
    hide SetAt;
    var one := Legacy(set');
    assert [] + [one] == [one];
    assert TotalRecords([one]) == NumRecords(one) + TotalRecords([one][1..]);
  }
}
