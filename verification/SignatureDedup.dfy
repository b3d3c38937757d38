/** Signature deduplication in the select loop (src/main.rs:643-671). Times are nanoseconds. */
module SignatureDedup {
  const TTL: nat := 120_000_000_000
  const CLEANUP_AFTER: nat := 100

  datatype Table = Table(seen: map<string, nat>, counter: nat)

  /** One received signature: when it was inserted, and when a cleanup triggered by it would run. */
  datatype Sighting = Sighting(sig: string, at: nat, cleanAt: nat)

  function Elapsed(now: nat, since: nat): nat { if since <= now then now - since else 0 }

  function Retained(seen: map<string, nat>, now: nat): map<string, nat> {
    map s | s in seen && Elapsed(now, seen[s]) < TTL :: seen[s]
  }

  predicate Dispatches(t: Table, e: Sighting) { e.sig !in t.seen }

  function After(t: Table, e: Sighting): Table {
    var seen := t.seen[e.sig := e.at];
    if !Dispatches(t, e) then t.(seen := seen)
    else if t.counter + 1 > CLEANUP_AFTER then Table(Retained(seen, e.cleanAt), 0)
    else Table(seen, t.counter + 1)
  }

  class SelectLoop {
    var seenSigs: map<string, nat>
    var cleanupCounter: nat

    function Contents(): Table reads this { Table(seenSigs, cleanupCounter) }

    constructor ()
      ensures Contents() == Table(map[], 0)
    {
      seenSigs, cleanupCounter := map[], 0;
    }

    method Receive(e: Sighting) returns (dispatch: bool)
      modifies this
      ensures dispatch == Dispatches(old(Contents()), e)
      ensures Contents() == After(old(Contents()), e)
    {
      var previous := e.sig in seenSigs;
      seenSigs := seenSigs[e.sig := e.at];
      if previous {
        return false;
      }
      cleanupCounter := cleanupCounter + 1;
      if cleanupCounter > CLEANUP_AFTER {
        seenSigs := Retained(seenSigs, e.cleanAt);
        cleanupCounter := 0;
      }
      return true;
    }
  }

  /** The table after the first `n` sightings. */
  function Run(es: seq<Sighting>, n: nat): Table
    requires n <= |es|
  {
    if n == 0 then Table(map[], 0) else After(Run(es, n - 1), es[n - 1])
  }

  ghost predicate Monotone(es: seq<Sighting>) {
    && (forall i | 0 <= i < |es| :: es[i].at <= es[i].cleanAt)
    && (forall i, j | 0 <= i < j < |es| :: es[i].cleanAt <= es[j].at)
  }

  /** `k` is the last sighting of `sig` before the `n`-th. */
  ghost predicate LastSighting(es: seq<Sighting>, n: nat, sig: string, k: nat) {
    && k < n <= |es| && es[k].sig == sig
    && forall i | k < i < n :: es[i].sig != sig
  }

  /** A signature stays in the table at its last sighting's time until a cleanup finds it expired. */
  lemma {:induction false} SeenOrExpired(es: seq<Sighting>, n: nat, sig: string, k: nat)
    requires Monotone(es) && LastSighting(es, n, sig, k)
    ensures var t := Run(es, n);
            || (sig in t.seen && t.seen[sig] == es[k].at)
            || (sig !in t.seen && es[n - 1].cleanAt - es[k].at >= TTL)
  {
    if k < n - 1 {
      SeenOrExpired(es, n - 1, sig, k);
      assert es[n - 2].cleanAt <= es[n - 1].at <= es[n - 1].cleanAt;
    }
  }

  lemma {:induction false} NeverSeen(es: seq<Sighting>, n: nat, sig: string)
    requires n <= |es| && forall i | 0 <= i < n :: es[i].sig != sig
    ensures sig !in Run(es, n).seen
  {
    if n > 0 {
      NeverSeen(es, n - 1, sig);
    }
  }

  /** The sighting that makes step `n` a cleanup. */
  predicate Cleans(es: seq<Sighting>, n: nat)
    requires n < |es|
  {
    Dispatches(Run(es, n), es[n]) && Run(es, n).counter + 1 > CLEANUP_AFTER
  }

  /** How many of the first `n` sightings were dispatched. */
  function Dispatched(es: seq<Sighting>, n: nat): nat
    requires n <= |es|
  {
    if n == 0 then 0 else Dispatched(es, n - 1) + if Dispatches(Run(es, n - 1), es[n - 1]) then 1 else 0
  }

  lemma {:induction false} CounterIsDispatched(es: seq<Sighting>, n: nat)
    requires n <= |es|
    ensures Run(es, n).counter == Dispatched(es, n) % 101
  {
    if n > 0 {
      CounterIsDispatched(es, n - 1);
    }
  }

  /** A sighting runs the cleanup exactly when it is dispatched as the next multiple of 101. */
  lemma CleansEvery101st(es: seq<Sighting>, n: nat)
    requires n < |es|
    ensures Cleans(es, n) <==> Dispatched(es, n + 1) > Dispatched(es, n) && Dispatched(es, n + 1) % 101 == 0
  {
    CounterIsDispatched(es, n);
  }

  /** A cleanup forgets nothing younger than 120 s and keeps nothing as old; every other step forgets nothing. */
  lemma OnlyExpiredForgotten(es: seq<Sighting>, n: nat, sig: string)
    requires n < |es| && sig in Run(es, n).seen && sig != es[n].sig
    ensures sig !in Run(es, n + 1).seen
            <==> Cleans(es, n) && es[n].cleanAt >= Run(es, n).seen[sig] + 120_000_000_000
  {
  }

  /** The cleanup run by sighting `c` finds the sighting `k` expired. */
  ghost predicate Forgets(es: seq<Sighting>, c: nat, k: nat)
    requires c < |es| && k < |es|
  {
    Cleans(es, c) && es[c].cleanAt - es[k].at >= TTL
  }

  /** A signature is forgotten exactly when a cleanup after its last sighting found that sighting expired. */
  lemma {:induction false} ForgottenIff(es: seq<Sighting>, n: nat, sig: string, k: nat)
    requires Monotone(es) && LastSighting(es, n, sig, k)
    ensures sig !in Run(es, n).seen <==> exists c: nat :: k <= c < n && Forgets(es, c, k)
  {
    SeenOrExpired(es, n, sig, k);
    if k < n - 1 {
      ForgottenIff(es, n - 1, sig, k);
      SeenOrExpired(es, n - 1, sig, k);
    }
    if Forgets(es, n - 1, k) {
      assert sig !in Run(es, n).seen;
    }
  }

  /** A second dispatch, exactly: a cleanup in between found the last sighting, not the first, expired. */
  lemma RedispatchIff(es: seq<Sighting>, j: nat, k: nat)
    requires Monotone(es) && j < |es| && LastSighting(es, j, es[j].sig, k)
    ensures Dispatches(Run(es, j), es[j]) <==> exists c: nat :: k <= c < j && Forgets(es, c, k)
  {
    ForgottenIff(es, j, es[j].sig, k);
  }

  /** A signature is dispatched again only when its last sighting is at least the TTL old. */
  lemma NoEarlyRedispatch(es: seq<Sighting>, j: nat, k: nat)
    requires Monotone(es) && j < |es| && LastSighting(es, j, es[j].sig, k)
    requires Dispatches(Run(es, j), es[j])
    ensures es[j].at - es[k].at >= 120_000_000_000
  {
    RedispatchIff(es, j, k);
  }

  /** A signature never seen before is always dispatched. */
  lemma FirstSightingDispatches(es: seq<Sighting>, j: nat)
    requires j < |es| && forall i | 0 <= i < j :: es[i].sig != es[j].sig
    ensures Dispatches(Run(es, j), es[j])
  {
    NeverSeen(es, j, es[j].sig);
  }

  // ---- the last sighting counts, not the first -------------------------

  const SECONDS: nat := 1_000_000_000

  function Sighted(sig: string, seconds: nat): Sighting { Sighting(sig, seconds * SECONDS, seconds * SECONDS) }

  function OtherSig(i: nat): string { seq(i + 2, _ => 'x') }

  /** One signature at 0 s and 100 s, a hundred others at 130 s, and the first again at 131 s. */
  function Burst(): seq<Sighting> {
    [Sighted("s", 0), Sighted("s", 100)] + seq(CLEANUP_AFTER, i requires 0 <= i => Sighted(OtherSig(i), 130)) + [Sighted("s", 131)]
  }

  lemma {:induction false} CounterClimbs(n: nat)
    requires 2 <= n <= CLEANUP_AFTER + 1
    ensures Run(Burst(), n).counter == n - 1
  {
    var es := Burst();
    if n == 2 {
      assert Run(es, 1) == After(Run(es, 0), es[0]);
      assert Run(es, 2) == After(Run(es, 1), es[1]);
    } else {
      CounterClimbs(n - 1);
      BurstDispatches(n - 1);
    }
  }

  lemma BurstDispatches(n: nat)
    requires 2 <= n < CLEANUP_AFTER + 2
    ensures Dispatches(Run(Burst(), n), Burst()[n])
  {
    var es := Burst();
    assert |es[n].sig| == n;
    forall i | 0 <= i < n ensures |es[i].sig| != n {
    }
    FirstSightingDispatches(es, n);
  }

  lemma BurstForgets()
    ensures Forgets(Burst(), CLEANUP_AFTER + 1, 0)
  {
    CounterClimbs(CLEANUP_AFTER + 1);
    BurstDispatches(CLEANUP_AFTER + 1);
  }

  lemma BurstMonotone()
    ensures Monotone(Burst()) && LastSighting(Burst(), CLEANUP_AFTER + 2, "s", 1)
  {
    var es := Burst();
    forall i | 1 < i < CLEANUP_AFTER + 2 ensures es[i].sig != "s" {
      assert |es[i].sig| == i;
    }
  }

  lemma BurstRefuses()
    ensures !Dispatches(Run(Burst(), CLEANUP_AFTER + 2), Burst()[CLEANUP_AFTER + 2])
  {
    BurstMonotone();
    var es, j := Burst(), CLEANUP_AFTER + 2;
    assert es[j].at - es[1].at < TTL;
    if Dispatches(Run(es, j), es[j]) {
      NoEarlyRedispatch(es, j, 1);
      assert false;
    }
  }

  /** A cleanup that finds the first sighting expired leaves the signature refused, for it was seen again. */
  lemma LongSeenStillRefused() returns (es: seq<Sighting>, c: nat, j: nat)
    ensures Monotone(es) && 0 < c < j < |es| && es[0].sig == es[j].sig
    ensures Forgets(es, c, 0) && !Dispatches(Run(es, j), es[j])
  {
    es, c, j := Burst(), CLEANUP_AFTER + 1, CLEANUP_AFTER + 2;
    BurstForgets();
    BurstMonotone();
    BurstRefuses();
  }

  // ---- size of the table -----------------------------------------------

  /** How many signatures the last cleanup in the first `n` sightings kept. */
  function KeptAtCleanup(es: seq<Sighting>, n: nat): nat
    requires n <= |es|
  {
    if n == 0 then 0
    else if Cleans(es, n - 1) then |Run(es, n).seen|
    else KeptAtCleanup(es, n - 1)
  }

  /** Every signature a cleanup keeps was sighted less than the TTL before it. */
  lemma CleanupKeepsFresh(es: seq<Sighting>, n: nat, sig: string)
    requires n < |es| && Cleans(es, n) && sig in Run(es, n + 1).seen
    ensures Elapsed(es[n].cleanAt, Run(es, n + 1).seen[sig]) < TTL
  {
  }

  /** The table holds what the last cleanup kept plus at most 100 newer signatures. */
  lemma {:induction false} TableBounded(es: seq<Sighting>, n: nat)
    requires n <= |es|
    ensures |Run(es, n).seen| == KeptAtCleanup(es, n) + Run(es, n).counter
    ensures Run(es, n).counter <= 100
  {
    if n > 0 {
      TableBounded(es, n - 1);
      var t, e := Run(es, n - 1), es[n - 1];
      assert t.seen[e.sig := e.at].Keys == t.seen.Keys + {e.sig};
    }
  }
}
