/**
 * Detecting the target's pump.fun trades: the fast parser over raw shreds
 * (src/shreds_listener.rs:410-530) and the full one over executed transactions
 * (src/geyser_listener.rs:561-790).
 */
module Detection {
  import opened Options
  import opened AltCache
  import opened AltResolution
  import opened Bytes

  datatype Instruction = Instruction(program: nat, accounts: seq<Byte>, data: seq<Byte>)

  datatype Side = Buy | Sell
  /** The fields both parsers report from the instruction itself. */
  datatype Trade = Trade(side: Side, mint: Key, tokens: Option<nat>)

  const SHREDS_BUY: seq<Byte> := [0x66, 0x06, 0x3d, 0x12, 0x01, 0xda, 0xeb, 0xea]
  const SHREDS_SELL: seq<Byte> := [0x33, 0xe6, 0x85, 0xa4, 0x01, 0x7f, 0x83, 0xad]
  const GEYSER_BUY: seq<Byte> := [102, 6, 61, 18, 1, 218, 235, 234]
  const GEYSER_SELL: seq<Byte> := [51, 230, 133, 164, 1, 127, 131, 173]

  function TokensOf(data: seq<Byte>): Option<nat> {
    if |data| >= 16 then Some(LittleEndian(data[8..16])) else None
  }

  /** Index of the first key equal to `k`. */
  function Position(keys: seq<Key>, k: Key): (r: Option<nat>)
    ensures r.Some? ==> r.value < |keys| && keys[r.value] == k && k !in keys[..r.value]
    ensures r.None? ==> k !in keys
  {
    if keys == [] then None
    else if keys[0] == k then Some(0)
    else
      var rest := Position(keys[1..], k);
      assert keys == [keys[0]] + keys[1..];
      if rest.None? then None
      else
        assert keys[..rest.value + 1] == [keys[0]] + keys[1..][..rest.value];
        Some(rest.value + 1)
  }

  // ---- the fast parser -------------------------------------------------

  datatype ResolvedKeys = ResolvedKeys(keys: seq<Key>, full: Option<seq<Key>>) {
    function Get(idx: nat): Option<Key> {
      if idx < |keys| then Some(keys[idx])
      else if full.Some? && idx < |full.value| then Some(full.value[idx])
      else None
    }
  }

  predicate Has(ix: Instruction, pump: nat, tag: seq<Byte>) {
    ix.program == pump && |ix.data| >= 8 && ix.data[..8] == tag && |ix.accounts| >= 3
  }

  /** A pump.fun buy or sell, as the fast parser recognises it. */
  predicate IsTrade(ix: Instruction, pump: nat) { Has(ix, pump, SHREDS_BUY) || Has(ix, pump, SHREDS_SELL) }

  function SideOf(ix: Instruction): Side { if |ix.data| >= 8 && ix.data[..8] == SHREDS_BUY then Buy else Sell }

  /** Instruction `k` is the first trade, and `r` is its report, if its mint resolves. */
  ghost predicate FirstTrade(ixs: seq<Instruction>, rk: ResolvedKeys, pump: nat, k: int, r: Option<Trade>) {
    && 0 <= k < |ixs| && IsTrade(ixs[k], pump) && (forall i | 0 <= i < k :: !IsTrade(ixs[i], pump))
    && var mint := rk.Get(ixs[k].accounts[2]);
       r == if mint.Some? then Some(Trade(SideOf(ixs[k]), mint.value, TokensOf(ixs[k].data))) else None
  }

  /** What the fast parser reports: the first trade instruction, if there is one and its mint resolves. */
  ghost predicate ShredsReport(ixs: seq<Instruction>, rk: ResolvedKeys, program: Key, r: Option<Trade>) {
    var pump := Position(rk.keys, program);
    if pump.None? || forall i | 0 <= i < |ixs| :: !IsTrade(ixs[i], pump.value) then r.None?
    else exists k :: FirstTrade(ixs, rk, pump.value, k, r)
  }

  method ParsePumpFromVtx(ixs: seq<Instruction>, rk: ResolvedKeys, program: Key) returns (r: Option<Trade>)
    ensures ShredsReport(ixs, rk, program, r)
  {
    var pump := Position(rk.keys, program);
    if pump.None? {
      return None;
    }
    for k := 0 to |ixs|
      invariant forall i | 0 <= i < k :: !IsTrade(ixs[i], pump.value)
    {
      var ix := ixs[k];
      if ix.program != pump.value || |ix.data| < 8 {
        continue;
      }
      if ix.data[..8] == SHREDS_BUY && |ix.accounts| >= 3 {
        var mint := rk.Get(ix.accounts[2]);
        r := if mint.None? then None else Some(Trade(Buy, mint.value, TokensOf(ix.data)));
        assert FirstTrade(ixs, rk, pump.value, k, r);
        return;
      }
      if ix.data[..8] == SHREDS_SELL && |ix.accounts| >= 3 {
        var mint := rk.Get(ix.accounts[2]);
        r := if mint.None? then None else Some(Trade(Sell, mint.value, TokensOf(ix.data)));
        assert FirstTrade(ixs, rk, pump.value, k, r);
        return;
      }
    }
    return None;
  }

  // ---- the full parser -------------------------------------------------

  /** `build_account_keys`: static keys, then the loaded writable and readonly addresses. */
  method BuildAccountKeys(fixed: seq<Key>, writable: seq<Key>, readonly: seq<Key>) returns (keys: seq<Key>)
    ensures keys == fixed + writable + readonly
  {
    keys := fixed;
    for i := 0 to |writable|
      invariant keys == fixed + writable[..i]
    {
      keys := keys + [writable[i]];
    }
    for i := 0 to |readonly|
      invariant keys == fixed + writable + readonly[..i]
    {
      keys := keys + [readonly[i]];
    }
  }

  function Tag(side: Side): seq<Byte> { if side.Buy? then GEYSER_BUY else GEYSER_SELL }

  predicate Reports(ix: Instruction, keys: seq<Key>, pump: nat, side: Side) {
    Has(ix, pump, Tag(side)) && ix.accounts[2] < |keys|
  }

  function TradeOf(ix: Instruction, keys: seq<Key>, pump: nat, side: Side): Trade
    requires Reports(ix, keys, pump, side)
  {
    Trade(side, keys[ix.accounts[2]], TokensOf(ix.data))
  }

  /** Instruction `k` is the first of `ixs` to report `side`. */
  ghost predicate FirstAt(ixs: seq<Instruction>, keys: seq<Key>, pump: nat, side: Side, k: int) {
    && 0 <= k < |ixs| && Reports(ixs[k], keys, pump, side)
    && forall i | 0 <= i < k :: !Reports(ixs[i], keys, pump, side)
  }

  /** The report of the first instruction of `ixs` that reports `side`, if any. */
  ghost predicate FirstReport(ixs: seq<Instruction>, keys: seq<Key>, pump: nat, side: Side, r: Option<Trade>) {
    if r.None? then forall i | 0 <= i < |ixs| :: !Reports(ixs[i], keys, pump, side)
    else exists k :: FirstAt(ixs, keys, pump, side, k) && r == Some(TradeOf(ixs[k], keys, pump, side))
  }

  function ReportOf(ix: Instruction, keys: seq<Key>, pump: nat, side: Side): Option<Trade> {
    if Reports(ix, keys, pump, side) then Some(TradeOf(ix, keys, pump, side)) else None
  }

  /** `check_instruction`. */
  method CheckInstruction(ix: Instruction, keys: seq<Key>, pump: nat)
    returns (buy: Option<Trade>, sell: Option<Trade>)
    ensures buy == ReportOf(ix, keys, pump, Buy) && sell == ReportOf(ix, keys, pump, Sell)
  {
    buy, sell := None, None;
    if ix.program != pump || |ix.data| < 8 {
      return;
    }
    if ix.data[..8] == GEYSER_BUY && |ix.accounts| >= 3 {
      if ix.accounts[2] < |keys| {
        buy := Some(Trade(Buy, keys[ix.accounts[2]], TokensOf(ix.data)));
      }
      assert ix.data[0] == GEYSER_BUY[0];
    } else if ix.data[..8] == GEYSER_SELL && |ix.accounts| >= 3 {
      if ix.accounts[2] < |keys| {
        sell := Some(Trade(Sell, keys[ix.accounts[2]], TokensOf(ix.data)));
      }
    }
  }

  /** The report that wins when each later one is ignored. */
  function FirstOf(ixs: seq<Instruction>, keys: seq<Key>, pump: nat, side: Side): Option<Trade> {
    if ixs == [] then None
    else
      var before := FirstOf(ixs[..|ixs| - 1], keys, pump, side);
      if before.Some? then before else ReportOf(ixs[|ixs| - 1], keys, pump, side)
  }

  lemma {:induction false} FirstOfIsFirst(ixs: seq<Instruction>, keys: seq<Key>, pump: nat, side: Side)
    ensures FirstReport(ixs, keys, pump, side, FirstOf(ixs, keys, pump, side))
  {
    if ixs != [] {
      var n := |ixs| - 1;
      FirstOfIsFirst(ixs[..n], keys, pump, side);
      FirstReportExtends(ixs[..n], ixs[n], keys, pump, side, FirstOf(ixs[..n], keys, pump, side));
      assert ixs == ixs[..n] + [ixs[n]];
    }
  }

  lemma FirstOfPush(ixs: seq<Instruction>, ix: Instruction, keys: seq<Key>, pump: nat, side: Side)
    ensures FirstOf(ixs + [ix], keys, pump, side)
         == if FirstOf(ixs, keys, pump, side).Some? then FirstOf(ixs, keys, pump, side) else ReportOf(ix, keys, pump, side)
  {
    assert (ixs + [ix])[..|ixs|] == ixs;
  }

  lemma FirstReportExtends(
    ixs: seq<Instruction>, ix: Instruction, keys: seq<Key>, pump: nat, side: Side, r: Option<Trade>)
    requires FirstReport(ixs, keys, pump, side, r)
    ensures FirstReport(ixs + [ix], keys, pump, side, if r.None? then ReportOf(ix, keys, pump, side) else r)
  {
    var all := ixs + [ix];
    assert all[|ixs|] == ix;
    if r.Some? {
      var k :| FirstAt(ixs, keys, pump, side, k) && r == Some(TradeOf(ixs[k], keys, pump, side));
      assert FirstAt(all, keys, pump, side, k);
    } else if Reports(ix, keys, pump, side) {
      assert FirstAt(all, keys, pump, side, |ixs|);
    }
  }

  /** One instruction loop, after loops that scanned `done` and found `buy0` and `sell0`. */
  method Scan(
    ixs: seq<Instruction>, keys: seq<Key>, pump: nat, buy0: Option<Trade>, sell0: Option<Trade>,
    ghost done: seq<Instruction>)
    returns (buy: Option<Trade>, sell: Option<Trade>)
    requires buy0 == FirstOf(done, keys, pump, Buy) && sell0 == FirstOf(done, keys, pump, Sell)
    ensures buy == FirstOf(done + ixs, keys, pump, Buy) && sell == FirstOf(done + ixs, keys, pump, Sell)
  {
    buy, sell := buy0, sell0;
    ghost var seen := done;
    for i := 0 to |ixs|
      invariant seen == done + ixs[..i]
      invariant buy == FirstOf(seen, keys, pump, Buy) && sell == FirstOf(seen, keys, pump, Sell)
    {
      var b, s := CheckInstruction(ixs[i], keys, pump);
      FirstOfPush(seen, ixs[i], keys, pump, Buy);
      FirstOfPush(seen, ixs[i], keys, pump, Sell);
      seen := seen + [ixs[i]];
      assert ixs[..i + 1] == ixs[..i] + [ixs[i]];
      if b.Some? && buy.None? {
        buy := b;
      }
      if s.Some? && sell.None? {
        sell := s;
      }
    }
    assert seen == done + ixs;
  }

  function Flat(groups: seq<seq<Instruction>>): seq<Instruction> {
    if groups == [] then [] else Flat(groups[..|groups| - 1]) + groups[|groups| - 1]
  }

  /** The groups one after another. */
  lemma {:induction false} FlatAppends(a: seq<seq<Instruction>>, b: seq<seq<Instruction>>)
    ensures Flat(a + b) == Flat(a) + Flat(b)
    ensures forall g :: Flat([g]) == g
  {
    if b != [] {
      FlatAppends(a, b[..|b| - 1]);
      assert (a + b)[..|a + b| - 1] == a + b[..|b| - 1];
    } else {
      assert a + b == a;
    }
    forall g ensures Flat([g]) == g {
      assert [g][..0] == [];
      assert Flat([g]) == Flat([]) + g;
    }
  }

  /** Top-level instructions first, then the inner groups in order. */
  method ParsePumpFromProto(
    top: seq<Instruction>, inner: seq<seq<Instruction>>, keys: seq<Key>, program: Key)
    returns (buy: Option<Trade>, sell: Option<Trade>)
    ensures Position(keys, program).None? ==> buy.None? && sell.None?
    ensures Position(keys, program).Some? ==>
              && buy == FirstOf(top + Flat(inner), keys, Position(keys, program).value, Buy)
              && sell == FirstOf(top + Flat(inner), keys, Position(keys, program).value, Sell)
  {
    var found := Position(keys, program);
    if found.None? {
      return None, None;
    }
    var pump := found.value;
    buy, sell := Scan(top, keys, pump, None, None, []);
    ghost var seen := [] + top;
    for g := 0 to |inner|
      invariant seen == top + Flat(inner[..g])
      invariant buy == FirstOf(seen, keys, pump, Buy) && sell == FirstOf(seen, keys, pump, Sell)
    {
      buy, sell := Scan(inner[g], keys, pump, buy, sell, seen);
      assert inner[..g + 1][..g] == inner[..g];
      seen := seen + inner[g];
    }
    assert inner[..|inner|] == inner;
  }

  // ---- refinement ------------------------------------------------------

  lemma {:induction false} PositionInPrefix(keys: seq<Key>, more: seq<Key>, k: Key)
    requires k in keys
    ensures Position(keys + more, k) == Position(keys, k)
  {
    if keys[0] != k {
      assert keys == [keys[0]] + keys[1..];
      assert (keys + more)[1..] == keys[1..] + more;
      PositionInPrefix(keys[1..], more, k);
    }
  }

  /** One instruction the fast parser reports is reported alike by the full one. */
  lemma TradeAgrees(ix: Instruction, rk: ResolvedKeys, loaded: seq<Key>, pump: nat)
    requires rk.full.Some? ==> rk.full.value == rk.keys + loaded
    requires IsTrade(ix, pump) && rk.Get(ix.accounts[2]).Some?
    ensures Reports(ix, rk.keys + loaded, pump, SideOf(ix))
    ensures TradeOf(ix, rk.keys + loaded, pump, SideOf(ix))
         == Trade(SideOf(ix), rk.Get(ix.accounts[2]).value, TokensOf(ix.data))
  {
  }

  /** What the fast parser skips, the full one does not report. */
  lemma SkippedAgrees(ix: Instruction, keys: seq<Key>, pump: nat, side: Side)
    requires !IsTrade(ix, pump)
    ensures !Reports(ix, keys, pump, side)
  {
  }

  lemma FirstIsUnique(ixs: seq<Instruction>, keys: seq<Key>, pump: nat, side: Side, k: int, r: Option<Trade>)
    requires FirstAt(ixs, keys, pump, side, k) && FirstReport(ixs, keys, pump, side, r)
    ensures r == Some(TradeOf(ixs[k], keys, pump, side))
  {
    var j :| FirstAt(ixs, keys, pump, side, j) && r == Some(TradeOf(ixs[j], keys, pump, side));
  }

  /**
   * Whatever the fast parser reports, the full parser reports as its first trade of
   * that side: same mint, same token amount.
   */
  lemma FastRefinesFull(
    top: seq<Instruction>, inner: seq<Instruction>, rk: ResolvedKeys, loaded: seq<Key>, program: Key,
    d: Trade)
    requires ShredsReport(top, rk, program, Some(d))
    requires rk.full.Some? ==> rk.full.value == rk.keys + loaded
    ensures Position(rk.keys + loaded, program).Some?
    ensures FirstOf(top + inner, rk.keys + loaded, Position(rk.keys + loaded, program).value, d.side) == Some(d)
  {
    var keys, all := rk.keys + loaded, top + inner;
    var pump := Position(rk.keys, program).value;
    PositionInPrefix(rk.keys, loaded, program);
    var k :| FirstTrade(top, rk, pump, k, Some(d));
    TradeAgrees(top[k], rk, loaded, pump);
    forall i | 0 <= i < k ensures !Reports(all[i], keys, pump, d.side) {
      SkippedAgrees(top[i], keys, pump, d.side);
    }
    assert FirstAt(all, keys, pump, d.side, k);
    FirstOfIsFirst(all, keys, pump, d.side);
    FirstIsUnique(all, keys, pump, d.side, k, FirstOf(all, keys, pump, d.side));
  }

  /** Every table of `c` is a prefix of the same table in `d`. */
  ghost predicate Extends(c: Chain, d: Chain) { forall k | k in c :: OnChain(d, k, c[k]) }

  /** The key list of a message does not depend on when the chain is read, once every index exists. */
  lemma KeysAreTimeless(c: Chain, d: Chain, msg: AltCache.Message)
    requires Extends(c, d) || Extends(d, c)
    requires KeysOnChain(c, msg).Some? && KeysOnChain(d, msg).Some?
    ensures KeysOnChain(c, msg) == KeysOnChain(d, msg)
  {
    if msg.V0? {
      if Extends(c, d) {
        FullKeysGrow(msg.keys, ChainTables(c, msg.lookups), ChainTables(d, msg.lookups), msg.lookups);
      } else {
        FullKeysGrow(msg.keys, ChainTables(d, msg.lookups), ChainTables(c, msg.lookups), msg.lookups);
      }
    }
  }

  /** What an executed transaction loads from its lookup tables: all writable, then all readonly addresses. */
  ghost predicate Loads(executed: Chain, msg: AltCache.Message, writable: seq<Key>, readonly: seq<Key>) {
    match msg
    case Legacy(_) => writable == [] && readonly == []
    case V0(_, lookups) =>
      var tables := ChainTables(executed, lookups);
      && Complete(tables, lookups)
      && writable == WritableKeys(tables, lookups, |lookups|)
      && readonly == ReadonlyKeys(tables, lookups, |lookups|)
  }

  lemma LoadedIsOnChain(executed: Chain, msg: AltCache.Message, writable: seq<Key>, readonly: seq<Key>)
    requires Loads(executed, msg, writable, readonly)
    ensures KeysOnChain(executed, msg) == Some(msg.keys + writable + readonly)
  {
    if msg.V0? {
      FullKeysAre(msg.keys, ChainTables(executed, msg.lookups), msg.lookups);
    } else {
      assert msg.keys + [] + [] == msg.keys;
    }
  }

  /**
   * End to end: a transaction whose keys the hot loop resolved in any run of the
   * cache, and which executed against an earlier or later chain, is reported by the
   * full parser, over the static and loaded keys of its execution, exactly as the
   * fast one reported it.
   */
  lemma FastDetectionRefinesFull(
    trace: seq<World>, acts: seq<Action>, i: nat, executed: Chain, writable: seq<Key>, readonly: seq<Key>,
    top: seq<Instruction>, inner: seq<Instruction>, program: Key, d: Trade)
    requires IsRun(trace, acts) && i < |trace| && trace[i].resolver.Resolved?
    requires Extends(trace[i].chain, executed) || Extends(executed, trace[i].chain)
    requires Loads(executed, trace[i].resolver.msg, writable, readonly)
    requires ShredsReport(top, ResolvedKeys(trace[i].resolver.msg.keys, trace[i].resolver.full), program, Some(d))
    ensures var all := trace[i].resolver.msg.keys + writable + readonly;
            && Position(all, program).Some?
            && FirstOf(top + inner, all, Position(all, program).value, d.side) == Some(d)
  {
    var Resolved(msg, full) := trace[i].resolver;
    LoadedIsOnChain(executed, msg, writable, readonly);
    if full.Some? {
      FullKeysAreOnChain(trace, acts, i);
      KeysAreTimeless(trace[i].chain, executed, msg);
    }
    var loaded := writable + readonly;
    assert msg.keys + writable + readonly == msg.keys + loaded;
    FastRefinesFull(top, inner, ResolvedKeys(msg.keys, full), loaded, program, d);
  }

  // ---- trades as they are encoded --------------------------------------

  /** A pump.fun buy or sell: the instruction's discriminator, the token amount, and the mint as third account. */
  function EncodedTrade(
    side: Side, pump: nat, tokens: nat, mint: Byte, first: Byte, second: Byte, more: seq<Byte>, rest: seq<Byte>): Instruction
  {
    Instruction(
      pump, [first, second, mint] + more,
      (match side case Buy => [102, 6, 61, 18, 1, 218, 235, 234] case Sell => [51, 230, 133, 164, 1, 127, 131, 173])
      + Encoded(tokens, 8) + rest)
  }

  lemma EncodedFields(
    side: Side, pump: nat, tokens: nat, mint: Byte, first: Byte, second: Byte, more: seq<Byte>, rest: seq<Byte>)
    requires tokens < 0x1_0000_0000_0000_0000
    ensures var ix := EncodedTrade(side, pump, tokens, mint, first, second, more, rest);
            && IsTrade(ix, pump) && SideOf(ix) == side && Has(ix, pump, Tag(side))
            && (forall other | other != side :: !Has(ix, pump, Tag(other)))
            && ix.accounts[2] == mint && TokensOf(ix.data) == Some(tokens)
  {
    var ix := EncodedTrade(side, pump, tokens, mint, first, second, more, rest);
    assert Limit(8) == 0x1_0000_0000_0000_0000;
    DecodesEncoded(tokens, 8);
    Middle(Tag(side), Encoded(tokens, 8), rest);
    assert ix.data[..8] == Tag(side);
    assert SHREDS_BUY[0] != SHREDS_SELL[0];
  }

  /** Both parsers read an encoded trade alike: its side, the key its mint index names, its token amount. */
  lemma EncodedTradeIsReported(
    side: Side, pump: nat, tokens: nat, mint: Byte, first: Byte, second: Byte, more: seq<Byte>, rest: seq<Byte>,
    keys: seq<Key>, loaded: seq<Key>, program: Key, r: Option<Trade>)
    requires tokens < 0x1_0000_0000_0000_0000
    requires Position(keys, program) == Some(pump)
    requires ShredsReport([EncodedTrade(side, pump, tokens, mint, first, second, more, rest)],
                          ResolvedKeys(keys, Some(keys + loaded)), program, r)
    ensures var ix := EncodedTrade(side, pump, tokens, mint, first, second, more, rest);
            var all := keys + loaded;
            && r == (if mint < |all| then Some(Trade(side, all[mint], Some(tokens))) else None)
            && r == ReportOf(ix, all, pump, side)
            && (forall other | other != side :: ReportOf(ix, all, pump, other) == None)
  {
    EncodedFields(side, pump, tokens, mint, first, second, more, rest);
    var ix := EncodedTrade(side, pump, tokens, mint, first, second, more, rest);
    var rk := ResolvedKeys(keys, Some(keys + loaded));
    assert IsTrade([ix][0], pump);
    var k :| FirstTrade([ix], rk, pump, k, r);
    assert k == 0;
    assert rk.Get(mint) == if mint < |keys + loaded| then Some((keys + loaded)[mint]) else None;
  }

  /** While its lookup tables are not resolved, a mint among the static keys is still found, and no other. */
  lemma UnresolvedGet(keys: seq<Key>, idx: nat)
    ensures ResolvedKeys(keys, None).Get(idx) == if idx < |keys| then Some(keys[idx]) else None
  {
  }

  /** Whatever is reported is an instruction of the program that starts with its side's discriminator. */
  lemma ReportedIsEncoded(ix: Instruction, keys: seq<Key>, pump: nat, side: Side)
    ensures Reports(ix, keys, pump, side)
            <==> && ix.program == pump && |ix.accounts| >= 3 && ix.accounts[2] < |keys|
                 && (match side
                     case Buy => [102, 6, 61, 18, 1, 218, 235, 234] <= ix.data
                     case Sell => [51, 230, 133, 164, 1, 127, 131, 173] <= ix.data)
    ensures Reports(ix, keys, pump, side) ==>
              TradeOf(ix, keys, pump, side)
              == Trade(side, keys[ix.accounts[2]],
                       if |ix.data| >= 16 then Some(LittleEndian(ix.data[8..16])) else None)
  {
    assert Tag(side) <= ix.data <==> |ix.data| >= 8 && ix.data[..8] == Tag(side);
  }
}
