/** Per-provider circuit breaker (src/swqos_sender.rs:45-135). Times are nanoseconds. */
module CircuitBreaker {
  import opened Options

  const SECOND: nat := 1_000_000_000

  datatype CircuitState = Closed | HalfOpen | Open

  datatype Circuit = Circuit(failures: nat, openedAt: Option<nat>)

  datatype Limits = Limits(threshold: nat, cooldownSecs: nat)

  /** `opened.elapsed().as_secs()`: whole seconds, zero if the clock reads earlier. */
  function ElapsedSecs(now: nat, since: nat): nat { if since <= now then (now - since) / SECOND else 0 }

  /** A provider without a circuit has never failed. */
  function StateOf(l: Limits, c: Option<Circuit>, now: nat): CircuitState {
    if c.None? || c.value.failures < l.threshold then Closed
    else if c.value.openedAt.None? then Open
    else if ElapsedSecs(now, c.value.openedAt.value) >= l.cooldownSecs then HalfOpen
    else Open
  }

  function AfterSuccess(c: Option<Circuit>): Option<Circuit> {
    if c.None? then None else Some(Circuit(0, None))
  }

  function AfterFailure(l: Limits, c: Option<Circuit>, now: nat): Circuit {
    var last := if c.None? then Circuit(0, None) else c.value;
    var failures := last.failures + 1;
    Circuit(failures,
            if failures >= l.threshold && last.openedAt.None? then Some(now) else last.openedAt)
  }

  class ProviderHealthTracker {
    var circuits: map<string, Circuit>
    const limits: Limits

    function Of(provider: string): Option<Circuit>
      reads this
    {
      if provider in circuits then Some(circuits[provider]) else None
    }

    constructor (limits: Limits)
      ensures circuits == map[] && this.limits == limits
    {
      circuits, this.limits := map[], limits;
    }

    method State(provider: string, now: nat) returns (s: CircuitState)
      ensures s == StateOf(limits, Of(provider), now)
    {
      if provider in circuits {
        var c := circuits[provider];
        if c.failures < limits.threshold {
          return Closed;
        }
        match c.openedAt {
          case Some(since) =>
            return if ElapsedSecs(now, since) >= limits.cooldownSecs then HalfOpen else Open;
          case None =>
            return Open;
        }
      }
      return Closed;
    }

    method RecordSuccess(provider: string)
      modifies this
      ensures Of(provider) == AfterSuccess(old(Of(provider)))
      ensures forall p | p != provider :: Of(p) == old(Of(p))
    {
      if provider in circuits {
        circuits := circuits[provider := Circuit(0, None)];
      }
    }

    method RecordFailure(provider: string, now: nat)
      modifies this
      ensures Of(provider) == Some(AfterFailure(limits, old(Of(provider)), now))
      ensures forall p | p != provider :: Of(p) == old(Of(p))
    {
      if provider !in circuits {
        circuits := circuits[provider := Circuit(0, None)];
      }
      var c := circuits[provider];
      c := c.(failures := c.failures + 1);
      if c.failures >= limits.threshold && c.openedAt.None? {
        c := c.(openedAt := Some(now));
      }
      circuits := circuits[provider := c];
    }
  }

  // ---- the circuit is a function of the provider's history -------------

  datatype Event = Success | Failure(at: nat)

  function Circuits(l: Limits, log: seq<Event>): Option<Circuit> {
    if log == [] then None
    else
      var before := Circuits(l, log[..|log| - 1]);
      match log[|log| - 1]
      case Success => AfterSuccess(before)
      case Failure(at) => Some(AfterFailure(l, before, at))
  }

  /** Length of the run of failures at the end of the log. */
  function TrailingFailures(log: seq<Event>): (n: nat)
    ensures n <= |log|
    ensures forall i | |log| - n <= i < |log| :: log[i].Failure?
    ensures n < |log| ==> log[|log| - n - 1].Success?
  {
    if log == [] || log[|log| - 1].Success? then 0 else TrailingFailures(log[..|log| - 1]) + 1
  }

  lemma {:induction false} CircuitIsHistory(l: Limits, log: seq<Event>)
    requires l.threshold >= 1
    ensures Circuits(l, log).None? ==> TrailingFailures(log) == 0
    ensures var n := TrailingFailures(log);
            Circuits(l, log).Some? ==>
              && Circuits(l, log).value.failures == n
              && Circuits(l, log).value.openedAt
                 == if n < l.threshold then None else Some(log[|log| - n + l.threshold - 1].at)
  {
    if log != [] {
      CircuitIsHistory(l, log[..|log| - 1]);
    }
  }

  /**
   * For a threshold of at least one: Closed exactly while the trailing failure run is
   * below it; otherwise Open for the cooldown after the failure that first
   * reached it, then HalfOpen until a success.
   */
  lemma StateIsHistory(l: Limits, log: seq<Event>, now: nat)
    requires l.threshold >= 1
    ensures var n := TrailingFailures(log);
            StateOf(l, Circuits(l, log), now)
            == if n < l.threshold then Closed
               else if l.cooldownSecs > 0 && now < log[|log| - n + l.threshold - 1].at + l.cooldownSecs * 1_000_000_000
               then Open
               else HalfOpen
  {
    CircuitIsHistory(l, log);
    var n := TrailingFailures(log);
    if n >= l.threshold {
      SecondsElapsed(now, log[|log| - n + l.threshold - 1].at, l.cooldownSecs);
    }
  }

  /** Whole seconds have passed when their nanoseconds have. */
  lemma SecondsElapsed(now: nat, since: nat, secs: nat)
    ensures ElapsedSecs(now, since) >= secs <==> secs == 0 || now >= since + secs * 1_000_000_000
  {
  }

  /** A failed half-open probe does not re-open the circuit: only a success ends HalfOpen. */
  lemma FailedProbeStaysHalfOpen(l: Limits, c: Option<Circuit>, now: nat, later: nat)
    requires StateOf(l, c, now) == HalfOpen && now <= later
    ensures StateOf(l, Some(AfterFailure(l, c, now)), later) == HalfOpen
  {
    Later(now, later, c.value.openedAt.value);
  }

  lemma Later(now: nat, later: nat, since: nat)
    requires now <= later
    ensures ElapsedSecs(now, since) <= ElapsedSecs(later, since)
  {
  }

  /** With threshold zero a provider that ever failed is never Closed again, whatever succeeds. */
  lemma {:induction false} ZeroThresholdNeverCloses(l: Limits, log: seq<Event>, now: nat)
    requires l.threshold == 0
    ensures StateOf(l, Circuits(l, log), now) == Closed <==> forall i | 0 <= i < |log| :: log[i].Success?
  {
    if log != [] {
      var before := log[..|log| - 1];
      ZeroThresholdNeverCloses(l, before, now);
      assert forall i | 0 <= i < |before| :: before[i] == log[i];
    }
  }
}
