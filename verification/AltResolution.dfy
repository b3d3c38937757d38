/**
 * Every interleaving of chain growth, background fetches, evictions,
 * invalidations and the hot loop's key resolution (src/shreds_listener.rs:69-210).
 */
module AltResolution {
  import opened Options
  import opened AltCache

  datatype FetchStage = Spawned | Reading | Holding(table: Table) | Leaving
  datatype Fetch = Fetch(alt: Key, stage: FetchStage)

  /** The hot loop: between transactions, reading tables one by one, or holding a resolved list. */
  datatype Resolver =
    | Ready
    | Gathering(keys: seq<Key>, lookups: seq<Lookup>, tables: seq<Option<Table>>)
    | Resolved(msg: Message, full: Option<seq<Key>>)

  datatype World = World(
    chain: Chain, entries: Entries, inFlight: set<Key>, fetches: map<nat, Fetch>, resolver: Resolver)

  datatype Action =
    | Grow(alt: Key, more: Table)
    | Spawn(fetch: nat, alt: Key)
    | Begin(fetch: nat)
    | Read(fetch: nat, ok: bool)
    | Store(fetch: nat)
    | End(fetch: nat)
    | Message(msg: AltCache.Message)
    | GetTable
    | Assemble(bad: nat)
    | Next

  predicate FetchNext(w: World, a: Action, w': World) {
    match a
    case Spawn(f, alt) =>
      f !in w.fetches && w' == w.(fetches := w.fetches[f := Fetch(alt, Spawned)])
    case Begin(f) =>
      && f in w.fetches && w.fetches[f].stage.Spawned?
      && var alt := w.fetches[f].alt;
      w' == if alt in w.inFlight || Cached(w.entries, alt).Some?
            then w.(fetches := w.fetches - {f})
            else w.(fetches := w.fetches[f := Fetch(alt, Reading)], inFlight := w.inFlight + {alt})
    case Read(f, ok) =>
      && f in w.fetches && w.fetches[f].stage.Reading?
      && var alt := w.fetches[f].alt;
      w' == w.(fetches := w.fetches[f := Fetch(alt, if ok && alt in w.chain then Holding(w.chain[alt]) else Leaving)])
    case Store(f) =>
      && f in w.fetches && w.fetches[f].stage.Holding?
      && var alt := w.fetches[f].alt;
      w' == w.(entries := Put(w.entries, alt, w.fetches[f].stage.table),
               fetches := w.fetches[f := Fetch(alt, Leaving)])
    case End(f) =>
      && f in w.fetches && w.fetches[f].stage.Leaving?
      && w' == w.(fetches := w.fetches - {f}, inFlight := w.inFlight - {w.fetches[f].alt})
    case _ => false
  }

  function Values(tables: seq<Option<Table>>): seq<Table>
    requires forall t | t in tables :: t.Some?
  {
    seq(|tables|, i requires 0 <= i < |tables| => assert tables[i] in tables; tables[i].value)
  }

  predicate ResolveNext(w: World, a: Action, w': World) {
    match a
    case Message(msg) =>
      && w.resolver.Ready?
      && (match msg
          case Legacy(_) => w' == w.(resolver := Resolved(msg, None))
          case V0(keys, lookups) =>
            w' == w.(resolver := if lookups == [] then Resolved(msg, Some(keys)) else Gathering(keys, lookups, [])))
    case GetTable =>
      && w.resolver.Gathering? && |w.resolver.tables| < |w.resolver.lookups|
      && var k := w.resolver.lookups[|w.resolver.tables|].key;
      w' == w.(entries := Promoted(w.entries, k),
               resolver := w.resolver.(tables := w.resolver.tables + [Cached(w.entries, k)]))
    case Assemble(bad) =>
      && w.resolver.Gathering? && |w.resolver.tables| == |w.resolver.lookups|
      && var Gathering(keys, lookups, tables) := w.resolver;
      && var msg := V0(keys, lookups);
      if exists t :: t in tables && t.None? then w' == w.(resolver := Resolved(msg, None))
      else
        var full := FullKeys(keys, Values(tables), lookups);
        if full.Some? then w' == w.(resolver := Resolved(msg, full))
        else && BadLookup(Values(tables), lookups, bad)
             && w' == w.(resolver := Resolved(msg, None), entries := Without(w.entries, lookups[bad].key))
    case Next =>
      w.resolver.Resolved? && w' == w.(resolver := Ready)
    case _ => false
  }

  predicate GrowNext(w: World, a: Action, w': World) {
    match a
    case Grow(alt, more) =>
      w' == w.(chain := w.chain[alt := (if alt in w.chain then w.chain[alt] else []) + more])
    case _ => false
  }

  predicate Steps(w: World, a: Action, w': World) {
    GrowNext(w, a, w') || FetchNext(w, a, w') || ResolveNext(w, a, w')
  }

  predicate IsRun(trace: seq<World>, acts: seq<Action>) {
    && |trace| == |acts| + 1
    && trace[0].entries == [] && trace[0].inFlight == {} && trace[0].fetches == map[] && trace[0].resolver.Ready?
    && forall i {:trigger acts[i]} | 0 <= i < |acts| :: Steps(trace[i], acts[i], trace[i + 1])
  }

  // ---- invariant -------------------------------------------------------

  predicate OnChain(c: Chain, k: Key, t: Table) { k in c && t <= c[k] }

  predicate Active(f: Fetch) { !f.stage.Spawned? }

  ghost predicate CacheInv(w: World) {
    && WellFormed(w.entries)
    && forall e | e in w.entries :: OnChain(w.chain, e.key, e.table)
  }

  ghost predicate FetchInv(w: World) {
    && (forall f | f in w.fetches && Active(w.fetches[f]) :: w.fetches[f].alt in w.inFlight)
    && (forall f, g | f in w.fetches && g in w.fetches && f != g && Active(w.fetches[f]) && Active(w.fetches[g]) ::
          w.fetches[f].alt != w.fetches[g].alt)
    && (forall f | f in w.fetches && w.fetches[f].stage.Holding? ::
          OnChain(w.chain, w.fetches[f].alt, w.fetches[f].stage.table))
  }

  predicate Fetching(w: World, f: nat, k: Key) { f in w.fetches && Active(w.fetches[f]) && w.fetches[f].alt == k }

  /** Every key marked in flight has a running fetch that will unmark it. */
  ghost predicate OwnedInv(w: World) {
    forall k | k in w.inFlight :: exists f :: Fetching(w, f, k)
  }

  /** Tables the chain holds for these lookups now. */
  function ChainTables(c: Chain, lookups: seq<Lookup>): seq<Table> {
    seq(|lookups|, i requires 0 <= i < |lookups| => if lookups[i].key in c then c[lookups[i].key] else [])
  }

  /** The list every other reader of the chain would build for `msg`. */
  function KeysOnChain(c: Chain, msg: AltCache.Message): Option<seq<Key>> {
    match msg
    case Legacy(keys) => Some(keys)
    case V0(keys, lookups) => FullKeys(keys, ChainTables(c, lookups), lookups)
  }

  ghost predicate ResolverInv(w: World) {
    match w.resolver
    case Ready => true
    case Gathering(_, lookups, tables) =>
      && |tables| <= |lookups|
      && forall i | 0 <= i < |tables| && tables[i].Some? :: OnChain(w.chain, lookups[i].key, tables[i].value)
    case Resolved(msg, full) => full.Some? ==> msg.V0? && KeysOnChain(w.chain, msg) == full
  }

  ghost predicate Inv(w: World) { CacheInv(w) && FetchInv(w) && OwnedInv(w) && ResolverInv(w) }

  lemma OwnedFrame(w: World, w': World)
    requires OwnedInv(w) && w'.fetches == w.fetches && w'.inFlight == w.inFlight
    ensures OwnedInv(w')
  {
    forall k | k in w'.inFlight ensures exists f :: Fetching(w', f, k) {
      var f :| Fetching(w, f, k);
      assert Fetching(w', f, k);
    }
  }

  lemma GrowKeepsInv(w: World, a: Action, w': World)
    requires Inv(w) && GrowNext(w, a, w')
    ensures Inv(w')
  {
    OwnedFrame(w, w');
    assert forall k, t | OnChain(w.chain, k, t) :: OnChain(w'.chain, k, t);
    if w.resolver.Resolved? && w.resolver.full.Some? {
      var V0(keys, lookups) := w.resolver.msg;
      FullKeysGrow(keys, ChainTables(w.chain, lookups), ChainTables(w'.chain, lookups), lookups);
    }
  }

  lemma FetchKeepsInv(w: World, a: Action, w': World)
    requires Inv(w) && FetchNext(w, a, w')
    ensures Inv(w')
  {
    if a.Store? {
      PutKeeps(w.entries, w.fetches[a.fetch].alt, w.fetches[a.fetch].stage.table);
    }
    FetchKeepsFetches(w, a, w');
    FetchKeepsOwned(w, a, w');
  }

  lemma FetchKeepsFetches(w: World, a: Action, w': World)
    requires FetchInv(w) && FetchNext(w, a, w')
    ensures FetchInv(w')
  {
  }

  lemma FetchKeepsOwned(w: World, a: Action, w': World)
    requires OwnedInv(w) && FetchNext(w, a, w')
    ensures OwnedInv(w')
  {
    forall k | k in w'.inFlight ensures exists f :: Fetching(w', f, k) {
      if k in w.inFlight {
        var f :| Fetching(w, f, k);
        assert Fetching(w', f, k);
      } else {
        assert Fetching(w', a.fetch, k);
      }
    }
  }

  lemma ResolveKeepsInv(w: World, a: Action, w': World)
    requires Inv(w) && ResolveNext(w, a, w')
    ensures Inv(w')
  {
    OwnedFrame(w, w');
    match a {
      case GetTable =>
        var k := w.resolver.lookups[|w.resolver.tables|].key;
        PromotedKeeps(w.entries, k);
        CachedAt(w.entries, k);
      case Assemble(bad) =>
        var Gathering(keys, lookups, tables) := w.resolver;
        if forall t | t in tables :: t.Some? {
          if FullKeys(keys, Values(tables), lookups).Some? {
            assert Grown(Values(tables), ChainTables(w.chain, lookups));
            FullKeysGrow(keys, Values(tables), ChainTables(w.chain, lookups), lookups);
          } else {
            WithoutKeeps(w.entries, lookups[bad].key);
          }
        }
      case Message(msg) =>
        if msg.V0? {
          assert msg.keys == msg.keys + [] + [];
        }
      case Next =>
    }
  }

  lemma {:induction false} RunInv(trace: seq<World>, acts: seq<Action>, i: nat)
    requires IsRun(trace, acts) && i < |trace|
    ensures Inv(trace[i])
  {
    if i > 0 {
      RunInv(trace, acts, i - 1);
      var w, a, w' := trace[i - 1], acts[i - 1], trace[i];
      if GrowNext(w, a, w') {
        GrowKeepsInv(w, a, w');
      } else if FetchNext(w, a, w') {
        FetchKeepsInv(w, a, w');
      } else {
        ResolveKeepsInv(w, a, w');
      }
    }
  }

  // ---- theorems --------------------------------------------------------

  /** Every cached table is a prefix of the on-chain one, and at most one fetch per table is running. */
  lemma CacheIsSound(trace: seq<World>, acts: seq<Action>, i: nat)
    requires IsRun(trace, acts) && i < |trace|
    ensures var w := trace[i];
            && |w.entries| <= 128
            && (forall k | Cached(w.entries, k).Some? :: OnChain(w.chain, k, Cached(w.entries, k).value))
            && (forall f, g | f in w.fetches && g in w.fetches && Active(w.fetches[f]) && Active(w.fetches[g])
                           && w.fetches[f].alt == w.fetches[g].alt :: f == g)
            && (forall k :: k in w.inFlight <==>
                  exists f :: Fetching(w, f, k))
  {
    RunInv(trace, acts, i);
    forall k | Cached(trace[i].entries, k).Some? ensures OnChain(trace[i].chain, k, Cached(trace[i].entries, k).value) {
      CachedAt(trace[i].entries, k);
    }
  }

  /** A full key list is static keys, writable lookups, readonly lookups, all as the chain has them. */
  lemma FullKeysAreOnChain(trace: seq<World>, acts: seq<Action>, i: nat)
    requires IsRun(trace, acts) && i < |trace|
    requires trace[i].resolver.Resolved? && trace[i].resolver.full.Some?
    ensures KeysOnChain(trace[i].chain, trace[i].resolver.msg) == trace[i].resolver.full
    ensures var Resolved(msg, full) := trace[i].resolver;
            && msg.V0?
            && var tables := ChainTables(trace[i].chain, msg.lookups);
            && Complete(tables, msg.lookups)
            && full.value == msg.keys + WritableKeys(tables, msg.lookups, |msg.lookups|)
                                      + ReadonlyKeys(tables, msg.lookups, |msg.lookups|)
  {
    RunInv(trace, acts, i);
    var msg := trace[i].resolver.msg;
    FullKeysAre(msg.keys, ChainTables(trace[i].chain, msg.lookups), msg.lookups);
  }

  /** The key a step touches in the cache: found by a lookup, or stored. */
  function Used(w: World, a: Action): seq<Key> {
    match a
    case Store(f) => if f in w.fetches then [w.fetches[f].alt] else []
    case GetTable =>
      if w.resolver.Gathering? && |w.resolver.tables| < |w.resolver.lookups|
         && Cached(w.entries, w.resolver.lookups[|w.resolver.tables|].key).Some?
      then [w.resolver.lookups[|w.resolver.tables|].key] else []
    case _ => []
  }

  /** `uses[n]` lists the keys touched by the first `n` steps, in order. */
  ghost predicate AreUses(trace: seq<World>, acts: seq<Action>, uses: seq<seq<Key>>) {
    && |uses| == |trace| == |acts| + 1 && uses[0] == []
    && forall i {:trigger acts[i]} | 0 <= i < |acts| :: uses[i + 1] == uses[i] + Used(trace[i], acts[i])
  }

  lemma StepStaysRecent(w: World, a: Action, w': World, uses: seq<Key>)
    requires WellFormed(w.entries) && Recent(w.entries, uses) && Steps(w, a, w')
    ensures Recent(w'.entries, uses + Used(w, a))
  {
    assert uses + [] == uses;
    if a.Store? {
      PutIsRecent(w.entries, w.fetches[a.fetch].alt, w.fetches[a.fetch].stage.table, uses);
    } else if a.GetTable? {
      var k := w.resolver.lookups[|w.resolver.tables|].key;
      if Cached(w.entries, k).Some? {
        PromotedIsRecent(w.entries, k, uses);
      }
    } else if a.Assemble? && w'.entries != w.entries {
      WithoutStaysRecent(w.entries, w.resolver.lookups[a.bad].key, uses);
    }
  }

  lemma RunWellFormed(trace: seq<World>, acts: seq<Action>, i: nat)
    requires IsRun(trace, acts) && i < |trace|
    ensures WellFormed(trace[i].entries)
  {
    RunInv(trace, acts, i);
  }

  /** In every interleaving the cache stands in the order of last uses, so that a store evicts the least recently used table. */
  lemma {:induction false} CacheIsRecent(trace: seq<World>, acts: seq<Action>, uses: seq<seq<Key>>, i: nat)
    requires IsRun(trace, acts) && AreUses(trace, acts, uses) && i < |trace|
    ensures Recent(trace[i].entries, uses[i])
  {
    if i > 0 {
      CacheIsRecent(trace, acts, uses, i - 1);
      RunWellFormed(trace, acts, i - 1);
      StepStaysRecent(trace[i - 1], acts[i - 1], trace[i], uses[i - 1]);
    }
  }
}
