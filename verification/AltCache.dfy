/**
 * The cache of address lookup tables and the assembly of a transaction's keys
 * (src/shreds_listener.rs:34-210), against tables that only grow on chain.
 */
module AltCache {
  import opened Options

  type Key = string
  type Table = seq<Key>
  type Chain = map<Key, Table>

  datatype Lookup = Lookup(key: Key, writable: seq<nat>, readonly: seq<nat>)
  datatype Message = Legacy(keys: seq<Key>) | V0(keys: seq<Key>, lookups: seq<Lookup>)

  // ---- resolving indexes -----------------------------------------------

  predicate InRange(t: Table, indexes: seq<nat>) { forall j | 0 <= j < |indexes| :: indexes[j] < |t| }

  function Picked(t: Table, indexes: seq<nat>): seq<Key>
    requires InRange(t, indexes)
  {
    seq(|indexes|, j requires 0 <= j < |indexes| => t[indexes[j]])
  }

  function Indexes(l: Lookup, writable: bool): seq<nat> { if writable then l.writable else l.readonly }

  /** The writable (or readonly) addresses of the first `n` lookups, if every index is in its table. */
  function Gathered(tables: seq<Table>, lookups: seq<Lookup>, writable: bool, n: nat): Option<seq<Key>>
    requires n <= |lookups| == |tables|
  {
    if n == 0 then Some([])
    else
      var before := Gathered(tables, lookups, writable, n - 1);
      var indexes := Indexes(lookups[n - 1], writable);
      if before.Some? && InRange(tables[n - 1], indexes)
      then Some(before.value + Picked(tables[n - 1], indexes))
      else None
  }

  /** Static keys, then every writable lookup, then every readonly one. */
  function FullKeys(keys: seq<Key>, tables: seq<Table>, lookups: seq<Lookup>): Option<seq<Key>>
    requires |lookups| == |tables|
  {
    var w := Gathered(tables, lookups, true, |lookups|);
    var r := Gathered(tables, lookups, false, |lookups|);
    if w.Some? && r.Some? then Some(keys + w.value + r.value) else None
  }

  // ---- the list, written out ------------------------------------------

  /** Every index of every lookup is in its table. */
  predicate Complete(tables: seq<Table>, lookups: seq<Lookup>)
    requires |lookups| == |tables|
  {
    forall i | 0 <= i < |lookups| ::
      && (forall j | 0 <= j < |lookups[i].writable| :: lookups[i].writable[j] < |tables[i]|)
      && (forall j | 0 <= j < |lookups[i].readonly| :: lookups[i].readonly[j] < |tables[i]|)
  }

  /** The writable addresses of the first `n` lookups, table by table. */
  function WritableKeys(tables: seq<Table>, lookups: seq<Lookup>, n: nat): seq<Key>
    requires n <= |lookups| == |tables| && Complete(tables, lookups)
  {
    if n == 0 then []
    else
      var t, w := tables[n - 1], lookups[n - 1].writable;
      WritableKeys(tables, lookups, n - 1) + seq(|w|, j requires 0 <= j < |w| => t[w[j]])
  }

  /** The readonly addresses of the first `n` lookups, table by table. */
  function ReadonlyKeys(tables: seq<Table>, lookups: seq<Lookup>, n: nat): seq<Key>
    requires n <= |lookups| == |tables| && Complete(tables, lookups)
  {
    if n == 0 then []
    else
      var t, r := tables[n - 1], lookups[n - 1].readonly;
      ReadonlyKeys(tables, lookups, n - 1) + seq(|r|, j requires 0 <= j < |r| => t[r[j]])
  }

  lemma {:induction false} GatheredWritable(tables: seq<Table>, lookups: seq<Lookup>, n: nat)
    requires n <= |lookups| == |tables| && Complete(tables, lookups)
    ensures Gathered(tables, lookups, true, n) == Some(WritableKeys(tables, lookups, n))
  {
    if n > 0 {
      GatheredWritable(tables, lookups, n - 1);
      var t, w := tables[n - 1], lookups[n - 1].writable;
      assert InRange(t, w) && Picked(t, w) == seq(|w|, j requires 0 <= j < |w| => t[w[j]]);
    }
  }

  lemma {:induction false} GatheredReadonly(tables: seq<Table>, lookups: seq<Lookup>, n: nat)
    requires n <= |lookups| == |tables| && Complete(tables, lookups)
    ensures Gathered(tables, lookups, false, n) == Some(ReadonlyKeys(tables, lookups, n))
  {
    if n > 0 {
      GatheredReadonly(tables, lookups, n - 1);
      var t, r := tables[n - 1], lookups[n - 1].readonly;
      assert InRange(t, r) && Picked(t, r) == seq(|r|, j requires 0 <= j < |r| => t[r[j]]);
    }
  }

  lemma IncompleteAt(tables: seq<Table>, lookups: seq<Lookup>) returns (i: nat)
    requires |lookups| == |tables| && !Complete(tables, lookups)
    ensures i < |lookups| && !(InRange(tables[i], lookups[i].writable) && InRange(tables[i], lookups[i].readonly))
  {
    if forall i | 0 <= i < |lookups| ::
      InRange(tables[i], lookups[i].writable) && InRange(tables[i], lookups[i].readonly)
    {
      forall i | 0 <= i < |lookups|
        ensures forall j | 0 <= j < |lookups[i].writable| :: lookups[i].writable[j] < |tables[i]|
        ensures forall j | 0 <= j < |lookups[i].readonly| :: lookups[i].readonly[j] < |tables[i]|
      {
        assert InRange(tables[i], lookups[i].writable) && InRange(tables[i], lookups[i].readonly);
      }
      assert false;
    }
    i :| 0 <= i < |lookups| && !(InRange(tables[i], lookups[i].writable) && InRange(tables[i], lookups[i].readonly));
  }

  /**
   * Solana's canonical order: static keys, the writable addresses of every lookup,
   * then the readonly ones, and no list at all when one index is missing.
   */
  lemma FullKeysAre(keys: seq<Key>, tables: seq<Table>, lookups: seq<Lookup>)
    requires |lookups| == |tables|
    ensures FullKeys(keys, tables, lookups)
         == if Complete(tables, lookups)
            then Some(keys + WritableKeys(tables, lookups, |lookups|) + ReadonlyKeys(tables, lookups, |lookups|))
            else None
  {
    if Complete(tables, lookups) {
      GatheredWritable(tables, lookups, |lookups|);
      GatheredReadonly(tables, lookups, |lookups|);
    } else {
      var i := IncompleteAt(tables, lookups);
      GatheredStops(tables, lookups, InRange(tables[i], lookups[i].readonly), i, |lookups|);
    }
  }

  predicate BadLookup(tables: seq<Table>, lookups: seq<Lookup>, k: nat)
    requires |lookups| == |tables|
  {
    k < |lookups| && !(InRange(tables[k], lookups[k].writable) && InRange(tables[k], lookups[k].readonly))
  }

  /** Pushes the indexed addresses of one table; stops at the first index it does not have. */
  method PushTable(start: seq<Key>, t: Table, indexes: seq<nat>) returns (full: seq<Key>, ok: bool)
    ensures ok <==> InRange(t, indexes)
    ensures ok ==> full == start + Picked(t, indexes)
  {
    full := start;
    for j := 0 to |indexes|
      invariant InRange(t, indexes[..j])
      invariant full == start + Picked(t, indexes[..j])
    {
      if indexes[j] >= |t| {
        return full, false;
      }
      assert indexes[..j + 1] == indexes[..j] + [indexes[j]];
      full := full + [t[indexes[j]]];
    }
    assert indexes[..|indexes|] == indexes;
    ok := true;
  }

  /** One pass of pushes over the lookups. */
  method PushAll(keys: seq<Key>, tables: seq<Table>, lookups: seq<Lookup>, writable: bool)
    returns (full: seq<Key>, bad: Option<nat>)
    requires |lookups| == |tables|
    ensures bad.None? ==> Gathered(tables, lookups, writable, |lookups|).Some?
                          && full == keys + Gathered(tables, lookups, writable, |lookups|).value
    ensures bad.Some? ==> Gathered(tables, lookups, writable, |lookups|).None? && BadLookup(tables, lookups, bad.value)
  {
    full := keys;
    for k := 0 to |lookups|
      invariant Gathered(tables, lookups, writable, k).Some?
      invariant full == keys + Gathered(tables, lookups, writable, k).value
    {
      var ok;
      full, ok := PushTable(full, tables[k], Indexes(lookups[k], writable));
      if !ok {
        GatheredStops(tables, lookups, writable, k, |lookups|);
        return full, Some(k);
      }
    }
    bad := None;
  }

  lemma {:induction false} GatheredStops(tables: seq<Table>, lookups: seq<Lookup>, writable: bool, k: nat, n: nat)
    requires k < n <= |lookups| == |tables| && !InRange(tables[k], Indexes(lookups[k], writable))
    ensures Gathered(tables, lookups, writable, n).None?
  {
    if k < n - 1 {
      GatheredStops(tables, lookups, writable, k, n - 1);
    }
  }

  method BuildFullKeys(keys: seq<Key>, tables: seq<Table>, lookups: seq<Lookup>)
    returns (full: Option<seq<Key>>, bad: nat)
    requires |lookups| == |tables|
    ensures full == FullKeys(keys, tables, lookups)
    ensures full == if Complete(tables, lookups)
                    then Some(keys + WritableKeys(tables, lookups, |lookups|) + ReadonlyKeys(tables, lookups, |lookups|))
                    else None
    ensures full.None? ==> BadLookup(tables, lookups, bad)
  {
    FullKeysAre(keys, tables, lookups);
    var acc, stop := PushAll(keys, tables, lookups, true);
    if stop.Some? {
      return None, stop.value;
    }
    acc, stop := PushAll(acc, tables, lookups, false);
    if stop.Some? {
      return None, stop.value;
    }
    return Some(acc), 0;
  }

  // ---- tables only grow ------------------------------------------------

  /** Table by table, `past` is a prefix of `now`. */
  ghost predicate Grown(past: seq<Table>, now: seq<Table>) {
    |past| == |now| && forall i | 0 <= i < |past| :: past[i] <= now[i]
  }

  lemma {:induction false} GatheredGrows(
    past: seq<Table>, now: seq<Table>, lookups: seq<Lookup>, writable: bool, n: nat)
    requires Grown(past, now) && n <= |lookups| == |past|
    requires Gathered(past, lookups, writable, n).Some?
    ensures Gathered(now, lookups, writable, n) == Gathered(past, lookups, writable, n)
  {
    if n > 0 {
      GatheredGrows(past, now, lookups, writable, n - 1);
      var indexes := Indexes(lookups[n - 1], writable);
      assert Picked(now[n - 1], indexes) == Picked(past[n - 1], indexes);
    }
  }

  /** What resolves against older tables resolves to the same keys against newer ones. */
  lemma FullKeysGrow(keys: seq<Key>, past: seq<Table>, now: seq<Table>, lookups: seq<Lookup>)
    requires Grown(past, now) && |lookups| == |past| && FullKeys(keys, past, lookups).Some?
    ensures FullKeys(keys, now, lookups) == FullKeys(keys, past, lookups)
  {
    GatheredGrows(past, now, lookups, true, |lookups|);
    GatheredGrows(past, now, lookups, false, |lookups|);
  }

  // ---- the LRU cache ---------------------------------------------------

  const CAPACITY: nat := 128

  datatype Entry = Entry(key: Key, table: Table)

  /** Most recently used first. */
  type Entries = seq<Entry>

  function Cached(es: Entries, k: Key): Option<Table> {
    if es == [] then None else if es[0].key == k then Some(es[0].table) else Cached(es[1..], k)
  }

  function Without(es: Entries, k: Key): (r: Entries)
    ensures |r| <= |es|
  {
    if es == [] then [] else if es[0].key == k then es[1..] else [es[0]] + Without(es[1..], k)
  }

  function Promoted(es: Entries, k: Key): Entries {
    if Cached(es, k).Some? then [Entry(k, Cached(es, k).value)] + Without(es, k) else es
  }

  function Put(es: Entries, k: Key, t: Table): Entries {
    var all := [Entry(k, t)] + Without(es, k);
    if |all| > CAPACITY then all[..CAPACITY] else all
  }

  ghost predicate WellFormed(es: Entries) {
    |es| <= CAPACITY && forall i, j | 0 <= i < j < |es| :: es[i].key != es[j].key
  }

  lemma {:induction false} CachedAt(es: Entries, k: Key)
    ensures Cached(es, k).Some? ==> Entry(k, Cached(es, k).value) in es
    ensures Cached(es, k).None? ==> forall e | e in es :: e.key != k
  {
    if es != [] {
      CachedAt(es[1..], k);
      assert es == [es[0]] + es[1..];
    }
  }

  /** Removing a key removes its only entry and nothing else. */
  lemma {:induction false} WithoutKeeps(es: Entries, k: Key)
    requires WellFormed(es)
    ensures WellFormed(Without(es, k))
    ensures forall e :: e in Without(es, k) <==> e in es && e.key != k
    ensures |Without(es, k)| == |es| - if Cached(es, k).Some? then 1 else 0
  {
    if es != [] {
      assert es == [es[0]] + es[1..];
      WithoutKeeps(es[1..], k);
      if es[0].key != k {
        var r := Without(es, k);
        assert r == [es[0]] + Without(es[1..], k);
        forall j | 1 <= j < |r| ensures r[j].key != es[0].key {
          assert r[j] in Without(es[1..], k);
        }
      }
    }
  }

  lemma PromotedKeeps(es: Entries, k: Key)
    requires WellFormed(es)
    ensures WellFormed(Promoted(es, k)) && forall e :: e in Promoted(es, k) <==> e in es
  {
    CachedAt(es, k);
    WithoutKeeps(es, k);
  }

  /** A full cache that gains a key loses only its least recently used entry. */
  lemma Evicts(es: Entries, k: Key, t: Table)
    requires WellFormed(es) && |Without(es, k)| == CAPACITY
    ensures |es| == CAPACITY && [Entry(k, t)] + Without(es, k) == Put(es, k, t) + [es[CAPACITY - 1]]
  {
    CachedAt(es, k);
    WithoutKeeps(es, k);
    WithoutAbsent(es, k);
    SplitLast([Entry(k, t)] + es);
  }

  lemma SplitLast(all: Entries)
    requires |all| == CAPACITY + 1
    ensures all == all[..CAPACITY] + [all[CAPACITY]]
  {
  }

  /** `put` stores the new table and evicts only the least recently used entry of a full cache. */
  lemma PutKeeps(es: Entries, k: Key, t: Table)
    requires WellFormed(es)
    ensures var r := Put(es, k, t);
            && WellFormed(r) && Cached(r, k) == Some(t)
            && (forall e | e in r :: e == Entry(k, t) || (e in es && e.key != k))
            && (forall e | e in es && e.key != k && e !in r :: |es| == CAPACITY && e == es[CAPACITY - 1])
  {
    WithoutKeeps(es, k);
    var all := [Entry(k, t)] + Without(es, k);
    assert forall j | 1 <= j < |all| :: all[j] in Without(es, k);
    if |all| > CAPACITY {
      Evicts(es, k, t);
      assert forall e | e in all :: e in Put(es, k, t) || e == es[CAPACITY - 1];
    }
  }

  lemma {:induction false} WithoutAbsent(es: Entries, k: Key)
    requires forall e | e in es :: e.key != k
    ensures Without(es, k) == es
  {
    if es != [] {
      assert es[0] in es;
      WithoutAbsent(es[1..], k);
    }
  }

  lemma {:induction false} CachedIs(es: Entries, e: Entry)
    requires WellFormed(es) && e in es
    ensures Cached(es, e.key) == Some(e.table)
  {
    assert es == [es[0]] + es[1..];
    if es[0] != e {
      var j :| 0 <= j < |es| && es[j] == e;
      assert es[0].key != es[j].key;
      CachedIs(es[1..], e);
    }
  }

  /** Reading a table changes recency only. */
  lemma PromotedCaches(es: Entries, k: Key, x: Key)
    requires WellFormed(es)
    ensures Cached(Promoted(es, k), x) == Cached(es, x)
  {
    PromotedKeeps(es, k);
    CachedAt(es, x);
    CachedAt(Promoted(es, k), x);
    if Cached(es, x).Some? {
      CachedIs(Promoted(es, k), Entry(x, Cached(es, x).value));
    }
  }

  /** The key list of a message whose lookups find the tables `es` holds; None if one is missing or too short. */
  function Resolved(es: Entries, msg: Message): Option<seq<Key>> {
    match msg
    case Legacy(_) => None
    case V0(keys, lookups) =>
      if lookups == [] then Some(keys)
      else if forall i | 0 <= i < |lookups| :: Cached(es, lookups[i].key).Some? then
        FullKeys(keys, CachedTables(es, lookups), lookups)
      else None
  }

  function CachedTables(es: Entries, lookups: seq<Lookup>): seq<Table> {
    seq(|lookups|, i requires 0 <= i < |lookups| =>
      if Cached(es, lookups[i].key).Some? then Cached(es, lookups[i].key).value else [])
  }

  /**
   * What is resolved for a v0 message: nothing while one of its tables is not cached or
   * lacks an index, otherwise static, writable and readonly keys from the cached tables.
   */
  lemma ResolvedAre(es: Entries, keys: seq<Key>, lookups: seq<Lookup>)
    ensures var cached := forall i | 0 <= i < |lookups| :: Cached(es, lookups[i].key).Some?;
            var tables := CachedTables(es, lookups);
            Resolved(es, V0(keys, lookups))
            == if cached && Complete(tables, lookups)
               then Some(keys + WritableKeys(tables, lookups, |lookups|) + ReadonlyKeys(tables, lookups, |lookups|))
               else None
  {
    FullKeysAre(keys, CachedTables(es, lookups), lookups);
    assert lookups == [] ==> keys + [] + [] == keys;
  }

  // ---- least recently used ---------------------------------------------

  /** One more than the position of the last use of `k`, or zero. */
  function LastUse(uses: seq<Key>, k: Key): nat {
    if uses == [] then 0
    else if uses[|uses| - 1] == k then |uses|
    else LastUse(uses[..|uses| - 1], k)
  }

  /** The entries stand in the order of their last uses, latest first. */
  ghost predicate Recent(es: Entries, uses: seq<Key>) {
    forall i, j | 0 <= i < j < |es| :: LastUse(uses, es[i].key) > LastUse(uses, es[j].key)
  }

  lemma {:induction false} LastUseWithin(uses: seq<Key>, k: Key)
    ensures LastUse(uses, k) <= |uses|
  {
    if uses != [] {
      LastUseWithin(uses[..|uses| - 1], k);
    }
  }

  lemma UsedNow(uses: seq<Key>, k: Key, x: Key)
    ensures LastUse(uses + [k], x) == if x == k then |uses| + 1 else LastUse(uses, x)
    ensures LastUse(uses, x) <= |uses|
  {
    assert (uses + [k])[..|uses|] == uses;
    LastUseWithin(uses, x);
  }

  lemma {:induction false} WithoutStaysRecent(es: Entries, k: Key, uses: seq<Key>)
    requires WellFormed(es) && Recent(es, uses)
    ensures Recent(Without(es, k), uses)
  {
    if es != [] && es[0].key != k {
      var rest := es[1..];
      WithoutStaysRecent(rest, k, uses);
      WithoutKeeps(rest, k);
      var r := Without(rest, k);
      forall j | 0 <= j < |r| ensures LastUse(uses, es[0].key) > LastUse(uses, r[j].key) {
        assert r[j] in rest;
        var i :| 0 <= i < |rest| && rest[i] == r[j];
        assert es[i + 1] == r[j];
      }
    }
  }

  /** A key used now goes to the front of entries that do not hold it. */
  lemma FrontIsRecent(es: Entries, e: Entry, uses: seq<Key>)
    requires Recent(es, uses) && forall f | f in es :: f.key != e.key
    ensures Recent([e] + es, uses + [e.key])
  {
    forall f | f in [e] + es ensures LastUse(uses + [e.key], f.key) == if f == e then |uses| + 1 else LastUse(uses, f.key) {
      UsedNow(uses, e.key, f.key);
    }
    forall f | f in es ensures LastUse(uses, f.key) <= |uses| {
      UsedNow(uses, e.key, f.key);
    }
  }

  lemma PromotedIsRecent(es: Entries, k: Key, uses: seq<Key>)
    requires WellFormed(es) && Recent(es, uses) && Cached(es, k).Some?
    ensures Recent(Promoted(es, k), uses + [k])
  {
    WithoutKeeps(es, k);
    WithoutStaysRecent(es, k, uses);
    FrontIsRecent(Without(es, k), Entry(k, Cached(es, k).value), uses);
  }

  lemma PutIsRecent(es: Entries, k: Key, t: Table, uses: seq<Key>)
    requires WellFormed(es) && Recent(es, uses)
    ensures Recent(Put(es, k, t), uses + [k])
  {
    WithoutKeeps(es, k);
    WithoutStaysRecent(es, k, uses);
    FrontIsRecent(Without(es, k), Entry(k, t), uses);
  }

  /** What `put` evicts was used before everything it keeps. */
  lemma EvictedIsOldest(es: Entries, k: Key, t: Table, uses: seq<Key>, e: Entry)
    requires WellFormed(es) && Recent(es, uses)
    requires e in es && e.key != k && e !in Put(es, k, t)
    ensures |es| == CAPACITY && forall f | f in es && f != e :: LastUse(uses, f.key) > LastUse(uses, e.key)
  {
    PutKeeps(es, k, t);
  }

  class Cache {
    var entries: Entries
    var inFlight: set<Key>

    constructor ()
      ensures entries == [] && inFlight == {}
    {
      entries, inFlight := [], {};
    }

    method Get(k: Key) returns (r: Option<Table>)
      modifies this`entries
      ensures r == Cached(old(entries), k) && entries == Promoted(old(entries), k)
    {
      r := Cached(entries, k);
      if r.Some? {
        entries := [Entry(k, r.value)] + Without(entries, k);
      }
    }

    method Store(k: Key, t: Table)
      modifies this`entries
      ensures entries == Put(old(entries), k, t)
    {
      entries := [Entry(k, t)] + Without(entries, k);
      if |entries| > CAPACITY {
        entries := entries[..CAPACITY];
      }
    }

    method Invalidate(k: Key)
      modifies this`entries
      ensures entries == Without(old(entries), k)
    {
      entries := Without(entries, k);
    }

    method BeginFetch(k: Key) returns (fetch: bool)
      modifies this`inFlight
      ensures fetch <==> k !in old(inFlight) && Cached(entries, k).None?
      ensures inFlight == if fetch then old(inFlight) + {k} else old(inFlight)
    {
      if k in inFlight {
        return false;
      }
      if Cached(entries, k).Some? {
        return false;
      }
      inFlight := inFlight + {k};
      return true;
    }

    method EndFetch(k: Key)
      modifies this`inFlight
      ensures inFlight == old(inFlight) - {k}
    {
      inFlight := inFlight - {k};
    }

    /**
     * `resolve_keys` with no other task between its steps: the resolved list, the
     * keys whose background fetch it asks for, and at most one entry invalidated.
     */
    method ResolveKeys(msg: Message) returns (full: Option<seq<Key>>, prefetch: seq<Key>)
      requires WellFormed(entries)
      modifies this`entries
      ensures WellFormed(entries) && full == Resolved(old(entries), msg)
      ensures full.Some? ==> prefetch == [] && forall k :: Cached(entries, k) == Cached(old(entries), k)
      ensures msg.V0? && full.None? ==> prefetch != []
      ensures forall k | k !in prefetch :: Cached(entries, k) == Cached(old(entries), k)
      ensures forall k | k in prefetch :: Cached(entries, k).None?
    {
      prefetch := [];
      if msg.Legacy? {
        return None, [];
      }
      var lookups := msg.lookups;
      if lookups == [] {
        return Some(msg.keys), [];
      }
      var tables: seq<Table> := [];
      for i := 0 to |lookups|
        invariant WellFormed(entries) && |tables| == i
        invariant forall k :: Cached(entries, k) == Cached(old(entries), k)
        invariant forall j | 0 <= j < i && Cached(old(entries), lookups[j].key).Some? ::
                    tables[j] == Cached(old(entries), lookups[j].key).value
        invariant forall k | k in prefetch :: Cached(old(entries), k).None?
        invariant prefetch == [] <==> forall j | 0 <= j < i :: Cached(old(entries), lookups[j].key).Some?
      {
        ghost var before := entries;
        var t := Get(lookups[i].key);
        PromotedKeeps(before, lookups[i].key);
        forall k ensures Cached(entries, k) == Cached(before, k) {
          PromotedCaches(before, lookups[i].key, k);
        }
        if t.Some? {
          tables := tables + [t.value];
        } else {
          tables := tables + [[]];
          prefetch := prefetch + [lookups[i].key];
        }
      }
      if prefetch != [] {
        return None, prefetch;
      }
      assert tables == CachedTables(old(entries), lookups);
      var bad;
      full, bad := BuildFullKeys(msg.keys, tables, lookups);
      if full.None? {
        ghost var before := entries;
        Invalidate(lookups[bad].key);
        prefetch := [lookups[bad].key];
        WithoutKeeps(before, lookups[bad].key);
        forall k ensures Cached(entries, k) == if k == lookups[bad].key then None else Cached(before, k) {
          WithoutCaches(before, lookups[bad].key, k);
        }
      }
    }
  }

  lemma WithoutCaches(es: Entries, k: Key, x: Key)
    requires WellFormed(es)
    ensures Cached(Without(es, k), x) == if x == k then None else Cached(es, x)
  {
    WithoutKeeps(es, k);
    CachedAt(es, x);
    CachedAt(Without(es, k), x);
    if x != k && Cached(es, x).Some? {
      CachedIs(Without(es, k), Entry(x, Cached(es, x).value));
    }
  }
}
