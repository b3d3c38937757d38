/** Byte walks over token accounts (src/rug_guard.rs:47-131). */
module TokenParsers {
  import opened Options
  import opened Bytes

  // ---- Token-2022 extensions -------------------------------------------

  const TLV_START: nat := 166
  const TRANSFER_FEE_CONFIG: nat := 1
  const NEWER_FEE_BPS_OFFSET: nat := 106

  /** The walk over type-length-value entries from `offset`. */
  function FeeFrom(data: seq<Byte>, offset: nat): Option<nat>
    decreases |data| - offset
  {
    if offset + 4 > |data| then None
    else
      var kind := LittleEndian(data[offset..offset + 2]);
      var end := offset + 4 + LittleEndian(data[offset + 2..offset + 4]);
      if end > |data| then None
      else if kind == TRANSFER_FEE_CONFIG then
        var start := offset + 4 + NEWER_FEE_BPS_OFFSET;
        if start + 2 > end then None else Some(LittleEndian(data[start..start + 2]))
      else FeeFrom(data, end)
  }

  /** What the walk makes of a whole account. */
  function TransferFee(data: seq<Byte>): Option<nat> {
    if |data| < TLV_START || data[165] != 1 then None else FeeFrom(data, TLV_START)
  }

  method ParseTransferFeeBps(data: seq<Byte>) returns (r: Option<nat>)
    ensures r == TransferFee(data)
  {
    if |data| < TLV_START || data[165] != 1 {
      return None;
    }
    var offset := TLV_START;
    while offset + 4 <= |data|
      invariant offset <= |data| && FeeFrom(data, TLV_START) == FeeFrom(data, offset)
      decreases |data| - offset
    {
      var kind := LittleEndian(data[offset..offset + 2]);
      var length := LittleEndian(data[offset + 2..offset + 4]);
      var valueStart := offset + 4;
      var valueEnd := valueStart + length;
      if valueEnd > |data| {
        return None;
      }
      if kind == TRANSFER_FEE_CONFIG {
        var bpsStart := valueStart + NEWER_FEE_BPS_OFFSET;
        var bpsEnd := bpsStart + 2;
        if bpsEnd > valueEnd {
          return None;
        }
        return Some(LittleEndian(data[bpsStart..bpsEnd]));
      }
      offset := valueEnd;
    }
    return None;
  }

  datatype Extension = Extension(kind: nat, value: seq<Byte>)

  predicate Encodable(e: Extension) { e.kind < 65536 && |e.value| < 65536 }

  function EncodeExtension(e: Extension): seq<Byte> {
    Encoded(e.kind, 2) + Encoded(|e.value|, 2) + e.value
  }

  function EncodeAll(es: seq<Extension>): seq<Byte> {
    if es == [] then [] else EncodeExtension(es[0]) + EncodeAll(es[1..])
  }

  /** The newer-fee basis points of the first transfer-fee extension, if it is long enough. */
  function NewerFee(es: seq<Extension>): Option<nat> {
    if es == [] then None
    else if es[0].kind != 1 then NewerFee(es[1..])
    else if |es[0].value| < 108 then None
    else Some(LittleEndian(es[0].value[106..108]))
  }

  /** What the walk reads at the head of one encoded extension. */
  lemma ReadsExtension(pre: seq<Byte>, e: Extension, post: seq<Byte>)
    requires Encodable(e)
    ensures var data := pre + EncodeExtension(e) + post;
            && |pre| + 4 + |e.value| <= |data|
            && LittleEndian(data[|pre|..|pre| + 2]) == e.kind
            && LittleEndian(data[|pre| + 2..|pre| + 4]) == |e.value|
            && data[|pre| + 4..|pre| + 4 + |e.value|] == e.value
  {
    var kind, length := Encoded(e.kind, 2), Encoded(|e.value|, 2);
    assert Limit(2) == 65536;
    DecodesEncoded(e.kind, 2);
    DecodesEncoded(|e.value|, 2);
    Regroup(pre, kind, length + e.value, post);
    Middle(pre, kind, length + e.value + post);
    Regroup(pre + kind, length, e.value, post);
    Middle(pre + kind, length, e.value + post);
    Middle(pre + kind + length, e.value, post);
    SameExtension(pre, kind, length, e.value, post);
  }

  lemma SameExtension(pre: seq<Byte>, kind: seq<Byte>, length: seq<Byte>, value: seq<Byte>, post: seq<Byte>)
    ensures var data := pre + (kind + length + value) + post;
            && data == pre + kind + (length + value + post)
            && data == (pre + kind) + length + (value + post)
            && data == (pre + kind + length) + value + post
  {
  }

  /** One turn of the walk, given what stands at `offset`. */
  lemma WalkStep(data: seq<Byte>, offset: nat, e: Extension)
    requires offset + 4 + |e.value| <= |data|
    requires LittleEndian(data[offset..offset + 2]) == e.kind
    requires LittleEndian(data[offset + 2..offset + 4]) == |e.value|
    requires data[offset + 4..offset + 4 + |e.value|] == e.value
    ensures FeeFrom(data, offset)
            == if e.kind != TRANSFER_FEE_CONFIG then FeeFrom(data, offset + 4 + |e.value|)
               else if |e.value| < 108 then None
               else Some(LittleEndian(e.value[106..108]))
  {
    if |e.value| >= 108 {
      SliceOfSlice(data, offset + 4, offset + 4 + |e.value|, 106, 108);
    }
  }

  /** One turn of the walk over an encoded extension. */
  lemma WalkReadsOne(pre: seq<Byte>, e: Extension, post: seq<Byte>)
    requires Encodable(e)
    ensures var data := pre + EncodeExtension(e) + post;
            FeeFrom(data, |pre|)
            == if e.kind != TRANSFER_FEE_CONFIG then FeeFrom(data, |pre + EncodeExtension(e)|)
               else if |e.value| < 108 then None
               else Some(LittleEndian(e.value[106..108]))
  {
    ReadsExtension(pre, e, post);
    WalkStep(pre + EncodeExtension(e) + post, |pre|, e);
  }

  lemma WalkStops(data: seq<Byte>, offset: nat)
    requires offset <= |data| < offset + 4
    ensures FeeFrom(data, offset) == None
  {
  }

  lemma {:induction false} WalkReadsList(pre: seq<Byte>, es: seq<Extension>, tail: seq<Byte>)
    requires (forall i | 0 <= i < |es| :: Encodable(es[i])) && |tail| < 4
    ensures FeeFrom(pre + EncodeAll(es) + tail, |pre|) == NewerFee(es)
    decreases es
  {
    if es == [] {
      WalkStops(pre + EncodeAll(es) + tail, |pre|);
    } else {
      var e, rest := EncodeExtension(es[0]), EncodeAll(es[1..]);
      Regroup(pre, e, rest, tail);
      WalkReadsOne(pre, es[0], rest + tail);
      WalkReadsList(pre + e, es[1..], tail);
    }
  }

  /**
   * On the encoding of any extension list the walk returns the newer fee of the
   * first transfer-fee extension of at least 108 bytes, and nothing if the first
   * is shorter or there is none. Up to three stray trailing bytes change nothing.
   */
  lemma TransferFeeOfEncoding(base: seq<Byte>, es: seq<Extension>, tail: seq<Byte>)
    requires |base| == 165 && (forall i | 0 <= i < |es| :: Encodable(es[i])) && |tail| < 4
    ensures var data := base + [1] + EncodeAll(es) + tail;
            TransferFee(data) == NewerFee(es)
  {
    WalkReadsList(base + [1], es, tail);
    AccountWalk(base, EncodeAll(es), tail);
  }

  /** An account of 165 bytes with the mint marker is walked from byte 166. */
  lemma AccountWalk(base: seq<Byte>, body: seq<Byte>, tail: seq<Byte>)
    requires |base| == 165
    ensures TransferFee(base + [1] + body + tail) == FeeFrom(base + [1] + body + tail, |base + [1]|)
  {
    var data := base + [1] + body + tail;
    assert |data| >= 166 && data[165] == 1;
  }

  // ---- Metaplex metadata -----------------------------------------------

  function U32At(data: seq<Byte>, offset: nat): Option<nat> {
    if offset + 4 <= |data| then Some(LittleEndian(data[offset..offset + 4])) else None
  }

  /** `read_u32`: advances only when four bytes are there. */
  method ReadU32(data: seq<Byte>, offset: nat) returns (r: Option<nat>, next: nat)
    ensures r == U32At(data, offset) && next == if r.Some? then offset + 4 else offset
  {
    var end := offset + 4;
    if end > |data| {
      return None, offset;
    }
    return Some(LittleEndian(data[offset..end])), end;
  }

  /** Where `n` length-prefixed strings from `offset` end. */
  function AfterStrings(data: seq<Byte>, offset: nat, n: nat): Option<nat>
    decreases n
  {
    if n == 0 then Some(offset)
    else
      var length := U32At(data, offset);
      if length.None? || offset + 4 + length.value > |data| then None
      else AfterStrings(data, offset + 4 + length.value, n - 1)
  }

  /** Where the optional creator list whose tag is at `offset` ends. */
  function AfterCreators(data: seq<Byte>, offset: nat): Option<nat> {
    if offset >= |data| then None
    else if data[offset] == 0 then Some(offset + 1)
    else if data[offset] == 1 then
      var count := U32At(data, offset + 1);
      if count.None? || offset + 5 + count.value * 34 > |data| then None
      else Some(offset + 5 + count.value * 34)
    else None
  }

  /** The rest of the walk, once the strings are behind it. */
  function FlagAfterStrings(data: seq<Byte>, strings: Option<nat>): Option<bool> {
    if strings.None? then None
    else
      var creators := AfterCreators(data, strings.value + 2);
      if creators.None? || creators.value + 1 >= |data| then None
      else Some(data[creators.value + 1] != 0)
  }

  const STRING_FIELDS: nat := 3

  function MutableFlag(data: seq<Byte>): Option<bool> {
    if data == [] || data[0] != 4 then None
    else FlagAfterStrings(data, AfterStrings(data, 65, STRING_FIELDS))
  }

  /** The loop over name, symbol and uri. */
  method SkipStringFields(data: seq<Byte>, start: nat) returns (r: Option<nat>)
    ensures r == AfterStrings(data, start, STRING_FIELDS)
  {
    var offset: nat := start;
    for i := 0 to STRING_FIELDS
      invariant AfterStrings(data, start, STRING_FIELDS) == AfterStrings(data, offset, STRING_FIELDS - i)
    {
      var length, next := ReadU32(data, offset);
      if length.None? || next + length.value > |data| {
        return None;
      }
      offset := next + length.value;
    }
    return Some(offset);
  }

  method SkipCreatorList(data: seq<Byte>, start: nat) returns (r: Option<nat>)
    ensures r == AfterCreators(data, start)
  {
    if start >= |data| {
      return None;
    }
    var tag := data[start];
    if tag == 0 {
      return Some(start + 1);
    } else if tag == 1 {
      var count, next := ReadU32(data, start + 1);
      if count.None? {
        return None;
      }
      var end := next + count.value * 34;
      return if end > |data| then None else Some(end);
    }
    return None;
  }

  method ParseIsMutable(data: seq<Byte>) returns (r: Option<bool>)
    ensures r == MutableFlag(data)
  {
    if |data| == 0 || data[0] != 4 {
      return None;
    }
    var strings := SkipStringFields(data, 65);
    if strings.None? {
      return None;
    }
    var creators := SkipCreatorList(data, strings.value + 2);
    if creators.None? || creators.value + 1 >= |data| {
      return None;
    }
    return Some(data[creators.value + 1] != 0);
  }

  function EncodeString(s: seq<Byte>): seq<Byte> { Encoded(|s|, 4) + s }

  function EncodeStrings(ss: seq<seq<Byte>>): seq<Byte> {
    if ss == [] then [] else EncodeString(ss[0]) + EncodeStrings(ss[1..])
  }

  /** A creator list is absent, or 34 bytes per creator behind a count. */
  function EncodeCreators(creators: Option<seq<Byte>>): seq<Byte>
    requires creators.Some? ==> |creators.value| % 34 == 0
  {
    if creators.None? then [0] else [1] + (Encoded(|creators.value| / 34, 4) + creators.value)
  }

  lemma ReadsU32(pre: seq<Byte>, n: nat, post: seq<Byte>)
    requires n < 0x1_0000_0000
    ensures U32At(pre + Encoded(n, 4) + post, |pre|) == Some(n)
  {
    assert Limit(4) == 0x1_0000_0000;
    DecodesEncoded(n, 4);
    Middle(pre, Encoded(n, 4), post);
  }

  lemma SkipsOne(pre: seq<Byte>, text: seq<Byte>, post: seq<Byte>, n: nat)
    requires |text| < 0x1_0000_0000
    ensures var data := pre + EncodeString(text) + post;
            AfterStrings(data, |pre|, n + 1) == AfterStrings(data, |pre + EncodeString(text)|, n)
  {
    Regroup(pre, Encoded(|text|, 4), text, post);
    ReadsU32(pre, |text|, text + post);
  }

  lemma {:induction false} SkipsStrings(pre: seq<Byte>, ss: seq<seq<Byte>>, post: seq<Byte>)
    requires forall i | 0 <= i < |ss| :: |ss[i]| < 0x1_0000_0000
    ensures AfterStrings(pre + EncodeStrings(ss) + post, |pre|, |ss|) == Some(|pre| + |EncodeStrings(ss)|)
    decreases ss
  {
    if ss != [] {
      var first, rest := EncodeString(ss[0]), EncodeStrings(ss[1..]);
      Regroup(pre, first, rest, post);
      SkipsOne(pre, ss[0], rest + post, |ss| - 1);
      SkipsStrings(pre + first, ss[1..], post);
    }
  }

  lemma SkipsCreators(pre: seq<Byte>, creators: Option<seq<Byte>>, post: seq<Byte>)
    requires creators.Some? ==> |creators.value| % 34 == 0 && |creators.value| / 34 < 0x1_0000_0000
    ensures AfterCreators(pre + EncodeCreators(creators) + post, |pre|) == Some(|pre| + |EncodeCreators(creators)|)
  {
    if creators.Some? {
      var count, body := Encoded(|creators.value| / 34, 4), creators.value;
      Regroup(pre, [1], count + body, post);
      Regroup(pre + [1], count, body, post);
      ReadsU32(pre + [1], |creators.value| / 34, body + post);
      CountedList(pre + [1] + (count + body + post), |pre|, |creators.value| / 34);
    }
  }

  lemma CountedList(data: seq<Byte>, offset: nat, count: nat)
    requires offset < |data| && data[offset] == 1 && U32At(data, offset + 1) == Some(count)
    requires offset + 5 + count * 34 <= |data|
    ensures AfterCreators(data, offset) == Some(offset + 5 + count * 34)
  {
  }

  /** Serialised metadata: key and authorities, name, symbol and uri, fee, creators, sold and mutable flags. */
  function EncodeMetadata(head: seq<Byte>, text: seq<Byte>, fee: seq<Byte>, list: seq<Byte>, flags: seq<Byte>): seq<Byte> {
    head + text + fee + list + flags
  }

  lemma MetadataParts(
    head: seq<Byte>, text: seq<Byte>, fee: seq<Byte>, list: seq<Byte>, flags: seq<Byte>, suffix: seq<Byte>)
    requires |flags| == 2
    ensures var data := EncodeMetadata(head, text, fee, list, flags) + suffix;
            && data == head + text + (fee + list + flags + suffix)
            && data == (head + text + fee) + list + (flags + suffix)
            && |head| + |text| + |fee| + |list| + 1 < |data|
            && data[|head| + |text| + |fee| + |list| + 1] == flags[1]
            && data[..|head|] == head
  {
  }

  /** For every serialised metadata account, whatever follows it, the walk returns its mutability flag. */
  lemma MutableFlagOfEncoding(
    head: seq<Byte>, strings: seq<seq<Byte>>, fee: seq<Byte>, creators: Option<seq<Byte>>,
    flags: seq<Byte>, suffix: seq<Byte>)
    requires |head| == 65 && head[0] == 4 && |strings| == 3 && |fee| == 2 && |flags| == 2
    requires forall i | 0 <= i < |strings| :: |strings[i]| < 0x1_0000_0000
    requires creators.Some? ==> |creators.value| % 34 == 0 && |creators.value| / 34 < 0x1_0000_0000
    ensures MutableFlag(EncodeMetadata(head, EncodeStrings(strings), fee, EncodeCreators(creators), flags) + suffix)
         == Some(flags[1] != 0)
  {
    var text, list := EncodeStrings(strings), EncodeCreators(creators);
    SkipsStrings(head, strings, fee + list + flags + suffix);
    SkipsCreators(head + text + fee, creators, flags + suffix);
    FlagOfParts(head, text, fee, list, flags, suffix);
  }

  lemma FlagOfParts(
    head: seq<Byte>, text: seq<Byte>, fee: seq<Byte>, list: seq<Byte>, flags: seq<Byte>, suffix: seq<Byte>)
    requires |head| == 65 && head[0] == 4 && |fee| == 2 && |flags| == 2
    requires AfterStrings(head + text + (fee + list + flags + suffix), |head|, STRING_FIELDS) == Some(|head| + |text|)
    requires AfterCreators((head + text + fee) + list + (flags + suffix), |head + text + fee|)
             == Some(|head + text + fee| + |list|)
    ensures MutableFlag(EncodeMetadata(head, text, fee, list, flags) + suffix) == Some(flags[1] != 0)
  {
    var data := EncodeMetadata(head, text, fee, list, flags) + suffix;
    MetadataParts(head, text, fee, list, flags, suffix);
    assert data[0] == data[..|head|][0];
    FlagAt(data, |head| + |text|, |head| + |text| + |fee| + |list|);
  }

  lemma FlagAt(data: seq<Byte>, strings: nat, creators: nat)
    requires AfterCreators(data, strings + 2) == Some(creators) && creators + 1 < |data|
    ensures FlagAfterStrings(data, Some(strings)) == Some(data[creators + 1] != 0)
  {
  }
}
