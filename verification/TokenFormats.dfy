/**
 * The two byte walks (src/rug_guard.rs:47-123) exactly, on all bytes: they return a
 * value if and only if the bytes start with an account serialised with that value.
 */
module TokenFormats {
  import opened Options
  import opened Bytes
  import opened TokenParsers

  // ---- Token-2022 extensions -------------------------------------------

  ghost predicate AllEncodable(es: seq<Extension>) { forall i | 0 <= i < |es| :: Encodable(es[i]) }

  /** A list that holds a fee is found whatever follows it. */
  lemma {:induction false} WalkFindsFee(pre: seq<Byte>, es: seq<Extension>, tail: seq<Byte>)
    requires AllEncodable(es) && NewerFee(es).Some?
    ensures FeeFrom(pre + EncodeAll(es) + tail, |pre|) == NewerFee(es)
    decreases es
  {
    var e, rest := EncodeExtension(es[0]), EncodeAll(es[1..]);
    Regroup(pre, e, rest, tail);
    WalkReadsOne(pre, es[0], rest + tail);
    if es[0].kind != 1 {
      WalkFindsFee(pre + e, es[1..], tail);
    }
  }

  function ExtensionAt(data: seq<Byte>, offset: nat): Extension
    requires offset + 4 <= |data| && offset + 4 + LittleEndian(data[offset + 2..offset + 4]) <= |data|
  {
    Extension(LittleEndian(data[offset..offset + 2]),
              data[offset + 4..offset + 4 + LittleEndian(data[offset + 2..offset + 4])])
  }

  lemma ExtensionStands(data: seq<Byte>, offset: nat)
    requires offset + 4 <= |data| && offset + 4 + LittleEndian(data[offset + 2..offset + 4]) <= |data|
    ensures var e := ExtensionAt(data, offset);
            && Encodable(e) && data[offset..] == EncodeExtension(e) + data[offset + 4 + |e.value|..]
  {
    var kind, length := data[offset..offset + 2], data[offset + 2..offset + 4];
    assert Limit(2) == 65536;
    DecodedWithin(kind);
    DecodedWithin(length);
    EncodesDecoded(kind);
    EncodesDecoded(length);
    var e := ExtensionAt(data, offset);
    assert EncodeExtension(e) == kind + length + e.value;
    assert data[offset..] == kind + length + e.value + data[offset + 4 + |e.value|..];
  }

  /** What the walk returns is the fee of a list that stands at `offset`. */
  lemma {:induction false} FoundFeeIsEncoded(data: seq<Byte>, offset: nat) returns (es: seq<Extension>, tail: seq<Byte>)
    requires offset <= |data| && FeeFrom(data, offset).Some?
    ensures AllEncodable(es) && data[offset..] == EncodeAll(es) + tail && NewerFee(es) == FeeFrom(data, offset)
    decreases |data| - offset
  {
    ExtensionStands(data, offset);
    var e := ExtensionAt(data, offset);
    var end := offset + 4 + |e.value|;
    WalkStep(data, offset, e);
    if e.kind == 1 {
      es, tail := [e], data[end..];
      assert EncodeAll(es) == EncodeExtension(e) + EncodeAll([]);
    } else {
      var more;
      more, tail := FoundFeeIsEncoded(data, end);
      es := [e] + more;
      assert es[1..] == more;
      assert EncodeExtension(e) + (EncodeAll(more) + tail) == EncodeAll(es) + tail;
    }
  }

  /** An account of `base`, the mint marker, the extensions `es`, and anything after them. */
  ghost predicate IsAccount(data: seq<Byte>, base: seq<Byte>, es: seq<Extension>, tail: seq<Byte>) {
    |base| == 165 && AllEncodable(es) && data == base + [1] + EncodeAll(es) + tail
  }

  lemma AccountStands(data: seq<Byte>, es: seq<Extension>, tail: seq<Byte>)
    requires |data| >= 166 && data[165] == 1 && AllEncodable(es) && data[166..] == EncodeAll(es) + tail
    ensures IsAccount(data, data[..165], es, tail)
  {
    var base, body := data[..165], EncodeAll(es);
    assert data[165..166] == [1];
    Regroup(base, [1], body, tail);
    assert data == base + [1] + data[166..];
  }

  lemma AccountIsFound(data: seq<Byte>, base: seq<Byte>, es: seq<Extension>, tail: seq<Byte>)
    requires IsAccount(data, base, es, tail) && NewerFee(es).Some?
    ensures TransferFee(data) == NewerFee(es)
  {
    WalkFindsFee(base + [1], es, tail);
    AccountWalk(base, EncodeAll(es), tail);
  }

  /** On all bytes: a fee is returned exactly when it is the newer fee of the extensions serialised there. */
  lemma TransferFeeIff(data: seq<Byte>, fee: nat)
    ensures TransferFee(data) == Some(fee)
            <==> exists base, es, tail :: IsAccount(data, base, es, tail) && NewerFee(es) == Some(fee)
  {
    if TransferFee(data) == Some(fee) {
      var es, tail := FoundFeeIsEncoded(data, 166);
      AccountStands(data, es, tail);
    }
    if base, es, tail :| IsAccount(data, base, es, tail) && NewerFee(es) == Some(fee) {
      AccountIsFound(data, base, es, tail);
    }
  }

  // ---- Metaplex metadata -----------------------------------------------

  /** The fields the walk steps over, the list of 34-byte creators if there is one, and the two flags. */
  datatype Metadata = Metadata(
    head: seq<Byte>, name: seq<Byte>, symbol: seq<Byte>, uri: seq<Byte>, fee: seq<Byte>,
    creators: Option<seq<Byte>>, primarySold: Byte, mutable: Byte)

  predicate Serialisable(md: Metadata) {
    && |md.head| == 65 && md.head[0] == 4
    && |md.name| < 0x1_0000_0000 && |md.symbol| < 0x1_0000_0000 && |md.uri| < 0x1_0000_0000 && |md.fee| == 2
    && (md.creators.Some? ==> |md.creators.value| % 34 == 0 && |md.creators.value| / 34 < 0x1_0000_0000)
  }

  function Serialised(md: Metadata): seq<Byte>
    requires Serialisable(md)
  {
    EncodeMetadata(md.head, EncodeStrings([md.name, md.symbol, md.uri]), md.fee,
                   EncodeCreators(md.creators), [md.primarySold, md.mutable])
  }

  lemma U32Stands(data: seq<Byte>, offset: nat)
    requires offset + 4 <= |data|
    ensures U32At(data, offset).value < 0x1_0000_0000
    ensures data[offset..offset + 4] == Encoded(U32At(data, offset).value, 4)
  {
    assert Limit(4) == 0x1_0000_0000;
    DecodedWithin(data[offset..offset + 4]);
    EncodesDecoded(data[offset..offset + 4]);
  }

  lemma StringStands(data: seq<Byte>, offset: nat, n: nat) returns (next: nat)
    requires n > 0 && offset <= |data| && AfterStrings(data, offset, n).Some?
    ensures offset + 4 <= next <= |data| && next - (offset + 4) < 0x1_0000_0000
    ensures AfterStrings(data, next, n - 1) == AfterStrings(data, offset, n)
    ensures data[offset..offset + 4] == Encoded(next - (offset + 4), 4)
  {
    U32Stands(data, offset);
    next := offset + 4 + U32At(data, offset).value;
  }

  lemma {:induction false} StringsStand(data: seq<Byte>, offset: nat, n: nat) returns (ss: seq<seq<Byte>>)
    requires offset <= |data| && AfterStrings(data, offset, n).Some?
    ensures |ss| == n && forall i | 0 <= i < n :: |ss[i]| < 0x1_0000_0000
    ensures offset <= AfterStrings(data, offset, n).value <= |data|
    ensures data[offset..AfterStrings(data, offset, n).value] == EncodeStrings(ss)
    decreases n
  {
    if n == 0 {
      ss := [];
    } else {
      var next := StringStands(data, offset, n);
      var end := AfterStrings(data, offset, n).value;
      var more := StringsStand(data, next, n - 1);
      ss := [data[offset + 4..next]] + more;
      PrependString(data[offset + 4..next], more);
      CutThree(data, offset, offset + 4, next, end);
    }
  }

  lemma PrependString(text: seq<Byte>, more: seq<seq<Byte>>)
    ensures EncodeStrings([text] + more) == Encoded(|text|, 4) + text + EncodeStrings(more)
  {
    assert ([text] + more)[1..] == more;
  }

  lemma CutThree(data: seq<Byte>, a: nat, b: nat, c: nat, d: nat)
    requires a <= b <= c <= d <= |data|
    ensures data[a..d] == data[a..b] + data[b..c] + data[c..d]
  {
  }

  lemma CreatorsStand(data: seq<Byte>, offset: nat) returns (creators: Option<seq<Byte>>)
    requires AfterCreators(data, offset).Some?
    ensures creators.Some? ==> |creators.value| % 34 == 0 && |creators.value| / 34 < 0x1_0000_0000
    ensures offset < AfterCreators(data, offset).value <= |data|
    ensures data[offset..AfterCreators(data, offset).value] == EncodeCreators(creators)
  {
    if data[offset] == 0 {
      creators := None;
      assert data[offset..offset + 1] == [0];
    } else {
      var count := U32At(data, offset + 1).value;
      U32Stands(data, offset + 1);
      creators := Some(data[offset + 5..offset + 5 + count * 34]);
      ListStands(data, offset, count);
    }
  }

  lemma ListStands(data: seq<Byte>, offset: nat, count: nat)
    requires offset + 5 + count * 34 <= |data| && data[offset] == 1
    requires data[offset + 1..offset + 5] == Encoded(count, 4)
    ensures var body := data[offset + 5..offset + 5 + count * 34];
            && |body| % 34 == 0 && |body| / 34 == count
            && data[offset..offset + 5 + count * 34] == EncodeCreators(Some(body))
  {
    ThirtyFours(count);
    var end := offset + 5 + count * 34;
    var body := data[offset + 5..end];
    assert |body| == count * 34;
    ListEncoding(count, body, data[offset + 1..offset + 5]);
    OneByte(data, offset);
    CutThree(data, offset, offset + 1, offset + 5, end);
    assert data[offset..end] == [1] + data[offset + 1..offset + 5] + body;
  }

  lemma ThirtyFours(count: nat)
    ensures count * 34 % 34 == 0 && count * 34 / 34 == count
  {
  }

  lemma OneByte(data: seq<Byte>, offset: nat)
    requires offset < |data|
    ensures data[offset..offset + 1] == [data[offset]]
  {
  }

  lemma ListEncoding(count: nat, body: seq<Byte>, counted: seq<Byte>)
    requires |body| % 34 == 0 && |body| / 34 == count && counted == Encoded(count, 4)
    ensures EncodeCreators(Some(body)) == [1] + counted + body
  {
    assert [1] + (counted + body) == [1] + counted + body;
  }

  lemma Cut(data: seq<Byte>, a: nat, b: nat, c: nat, d: nat, e: nat)
    requires a <= b <= c <= d <= e <= |data|
    ensures data == data[..a] + data[a..b] + data[b..c] + data[c..d] + data[d..e] + data[e..]
  {
  }

  lemma Assembled(data: seq<Byte>, md: Metadata, s: nat, c: nat)
    requires Serialisable(md) && 65 <= s && s + 2 <= c && c + 2 <= |data|
    requires data[..65] == md.head && data[65..s] == EncodeStrings([md.name, md.symbol, md.uri])
    requires data[s..s + 2] == md.fee && data[s + 2..c] == EncodeCreators(md.creators)
    requires data[c..c + 2] == [md.primarySold, md.mutable]
    ensures data == Serialised(md) + data[c + 2..]
  {
    Cut(data, 65, s, s + 2, c, c + 2);
  }

  /** Where the walk stops: behind the strings, and at the flags. */
  lemma WalkStopsAt(data: seq<Byte>) returns (s: nat, c: nat)
    requires MutableFlag(data).Some?
    ensures |data| > 65 && data[0] == 4 && AfterStrings(data, 65, 3) == Some(s) && AfterCreators(data, s + 2) == Some(c)
    ensures c + 2 <= |data| && MutableFlag(data) == Some(data[c + 1] != 0)
  {
    assert AfterStrings(data, 65, 3).Some?;
    assert U32At(data, 65).Some?;
    s := AfterStrings(data, 65, 3).value;
    c := AfterCreators(data, s + 2).value;
  }

  lemma ThreeStringsStand(data: seq<Byte>, s: nat) returns (name: seq<Byte>, symbol: seq<Byte>, uri: seq<Byte>)
    requires |data| > 65 && AfterStrings(data, 65, 3) == Some(s)
    ensures |name| < 0x1_0000_0000 && |symbol| < 0x1_0000_0000 && |uri| < 0x1_0000_0000
    ensures 65 <= s <= |data| && data[65..s] == EncodeStrings([name, symbol, uri])
  {
    var ss := StringsStand(data, 65, 3);
    name, symbol, uri := ss[0], ss[1], ss[2];
    assert ss == [name, symbol, uri];
  }

  lemma TwoFlags(data: seq<Byte>, c: nat)
    requires c + 2 <= |data|
    ensures data[c..c + 2] == [data[c], data[c + 1]]
  {
  }

  /** What the walk returns is the flag of metadata serialised at the start of the bytes. */
  lemma FoundFlagIsSerialised(data: seq<Byte>) returns (md: Metadata, suffix: seq<Byte>)
    requires MutableFlag(data).Some?
    ensures Serialisable(md) && data == Serialised(md) + suffix && MutableFlag(data) == Some(md.mutable != 0)
  {
    var s, c := WalkStopsAt(data);
    var name, symbol, uri := ThreeStringsStand(data, s);
    var creators := CreatorsStand(data, s + 2);
    md := Metadata(data[..65], name, symbol, uri, data[s..s + 2], creators, data[c], data[c + 1]);
    suffix := data[c + 2..];
    TwoFlags(data, c);
    Assembled(data, md, s, c);
  }

  ghost predicate StartsWith(data: seq<Byte>, md: Metadata, suffix: seq<Byte>) {
    Serialisable(md) && data == Serialised(md) + suffix
  }

  /** On all bytes: a flag is returned exactly when it is the mutability flag of metadata serialised at their start. */
  lemma MutableFlagIff(data: seq<Byte>, flag: bool)
    ensures MutableFlag(data) == Some(flag)
            <==> exists md, suffix :: StartsWith(data, md, suffix) && flag == (md.mutable != 0)
  {
    if MutableFlag(data) == Some(flag) {
      var md, suffix := FoundFlagIsSerialised(data);
      assert StartsWith(data, md, suffix);
    }
    if md, suffix :| StartsWith(data, md, suffix) && flag == (md.mutable != 0) {
      MutableFlagOfEncoding(md.head, [md.name, md.symbol, md.uri], md.fee, md.creators,
                            [md.primarySold, md.mutable], suffix);
    }
  }
}
