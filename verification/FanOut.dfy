/**
 * Concurrent fan-out of one transaction to every usable provider
 * (src/swqos_sender.rs:395-608) as a state machine: any number of
 * `send_concurrent` calls share one semaphore, and the steps of their provider
 * tasks, their collectors and the aborts interleave freely.
 */
module FanOut {
  import opened Options
  import opened CircuitBreaker

  datatype Provider = Provider(name: string, owner: Option<string>)

  /** What one call sees: its providers, their circuit states, and the leader to avoid, if any. */
  datatype Offer = Offer(providers: seq<Provider>, circuits: map<string, CircuitState>, avoid: Option<string>)

  predicate IsOpen(f: Offer, p: Provider) { p.name in f.circuits && f.circuits[p.name].Open? }
  predicate IsLeader(f: Offer, p: Provider) { f.avoid.Some? && p.owner == f.avoid }
  predicate Usable(f: Offer, p: Provider) { !IsOpen(f, p) && !IsLeader(f, p) }

  /** Its circuit is not open, or has never failed; and it is not the leader to avoid. */
  predicate MayServe(f: Offer, p: Provider) {
    (p.name in f.circuits ==> f.circuits[p.name] != Open) && (f.avoid == None || p.owner != f.avoid)
  }

  /** The usable ones among the first `n` providers, in order. */
  function ActiveOf(f: Offer, n: nat): (active: seq<Provider>)
    requires n <= |f.providers|
    ensures forall p | p in active :: p in f.providers && Usable(f, p)
    ensures forall i | 0 <= i < n && Usable(f, f.providers[i]) :: f.providers[i] in active
  {
    if n == 0 then []
    else ActiveOf(f, n - 1) + if Usable(f, f.providers[n - 1]) then [f.providers[n - 1]] else []
  }

  /** The two filter passes: open circuits first, then providers that own the current leader slot. */
  method SelectActive(f: Offer) returns (active: seq<Provider>, skippedOpen: seq<Provider>, skippedLeader: seq<Provider>)
    ensures active == ActiveOf(f, |f.providers|)
    ensures |active| + |skippedOpen| + |skippedLeader| == |f.providers|
    ensures forall p | p in active :: p in f.providers && MayServe(f, p)
    ensures forall p | p in f.providers && MayServe(f, p) :: p in active
    ensures forall p | p in skippedOpen :: p.name in f.circuits && f.circuits[p.name] == Open
    ensures forall p | p in skippedLeader :: p.owner.Some? && p.owner == f.avoid
  {
    active, skippedOpen, skippedLeader := [], [], [];
    for i := 0 to |f.providers|
      invariant active == ActiveOf(f, i) && |active| + |skippedOpen| + |skippedLeader| == i
      invariant forall p | p in skippedOpen :: IsOpen(f, p)
      invariant forall p | p in skippedLeader :: !IsOpen(f, p) && IsLeader(f, p)
    {
      var p := f.providers[i];
      if IsOpen(f, p) {
        skippedOpen := skippedOpen + [p];
      } else if IsLeader(f, p) {
        skippedLeader := skippedLeader + [p];
      } else {
        active := active + [p];
      }
    }
  }

  // ---- state -----------------------------------------------------------

  datatype Outcome = Signed(sig: string) | Failed(error: string)
  datatype Report = Report(task: nat, outcome: Outcome)

  datatype Stage =
    | Waiting                 // for a permit
    | Sending                 // permit held
    | Answered(o: Outcome)    // health recorded; permit held; report not yet in the channel
    | Reported                // in the channel; permit about to be dropped
    | Done
    | Aborted

  datatype Collector = Collecting | Draining(sig: string) | Ok(sig: string) | AllFailed

  /** One `send_concurrent` call past its filters; task `i` serves `active[i]`. */
  datatype Call = Call(
    offer: Offer, active: seq<Provider>, tasks: seq<Stage>, aborting: bool,
    channel: seq<Report>, results: seq<Report>, collector: Collector)

  datatype State = State(calls: map<nat, Call>, available: nat)

  datatype Action =
    | Start(offer: Offer)
    | Acquire(task: nat)
    | SemaphoreClosed(task: nat)
    | Answer(task: nat, o: Outcome)
    | Push(task: nat)
    | Exit(task: nat)
    | Abort(task: nat)
    | Receive
    | Drain
    | DrainEnd
    | ChannelClosed

  predicate HoldsPermit(t: Stage) { t.Sending? || t.Answered? || t.Reported? }

  predicate Over(t: Stage) { t.Done? || t.Aborted? }

  /** A task step of call `k`; `gain` is the change in available permits. */
  predicate TaskNext(k: Call, a: Action, k': Call, available: nat, gain: int) {
    match a
    case Acquire(i) =>
      && i < |k.tasks| && k.tasks[i].Waiting? && available > 0
      && k' == k.(tasks := k.tasks[i := Sending]) && gain == -1
    case SemaphoreClosed(i) =>
      && i < |k.tasks| && k.tasks[i].Waiting?
      && k' == k.(tasks := k.tasks[i := Done], channel := k.channel + [Report(i, Failed("semaphore closed"))])
      && gain == 0
    case Answer(i, o) =>
      && i < |k.tasks| && k.tasks[i].Sending?
      && k' == k.(tasks := k.tasks[i := Answered(o)]) && gain == 0
    case Push(i) =>
      && i < |k.tasks| && k.tasks[i].Answered?
      && k' == k.(tasks := k.tasks[i := Reported], channel := k.channel + [Report(i, k.tasks[i].o)])
      && gain == 0
    case Exit(i) =>
      && i < |k.tasks| && k.tasks[i].Reported?
      && k' == k.(tasks := k.tasks[i := Done]) && gain == 1
    case Abort(i) =>
      // cancellation takes effect at an await, before the report is in the channel
      && i < |k.tasks| && k.aborting && (k.tasks[i].Waiting? || k.tasks[i].Sending? || k.tasks[i].Answered?)
      && k' == k.(tasks := k.tasks[i := Aborted]) && gain == if HoldsPermit(k.tasks[i]) then 1 else 0
    case _ => false
  }

  /** A step of the collection loop. */
  predicate CollectNext(k: Call, a: Action, k': Call) {
    match a
    case Receive =>
      && k.collector.Collecting? && k.channel != []
      && var r := k.channel[0];
      && var taken := k.(channel := k.channel[1..], results := k.results + [r]);
      k' == if r.outcome.Signed? then taken.(collector := Draining(r.outcome.sig), aborting := true) else taken
    case Drain =>
      && k.collector.Draining? && k.channel != []
      && k' == k.(channel := k.channel[1..], results := k.results + [k.channel[0]])
    case DrainEnd =>
      k.collector.Draining? && k.channel == [] && k' == k.(collector := Ok(k.collector.sig))
    case ChannelClosed =>
      && k.collector.Collecting? && k.channel == [] && (forall t | t in k.tasks :: Over(t))
      && k' == k.(collector := AllFailed)
    case _ => false
  }

  function Fresh(f: Offer): Call {
    var active := ActiveOf(f, |f.providers|);
    Call(f, active, seq(|active|, _ => Waiting), false, [], [], Collecting)
  }

  predicate Next(s: State, c: nat, a: Action, s': State) {
    match a
    case Start(f) =>
      && c !in s.calls && Fresh(f).active != []
      && s' == s.(calls := s.calls[c := Fresh(f)])
    case _ =>
      && c in s.calls && c in s'.calls && s'.calls == s.calls[c := s'.calls[c]]
      && (|| TaskNext(s.calls[c], a, s'.calls[c], s.available, s'.available - s.available)
          || (CollectNext(s.calls[c], a, s'.calls[c]) && s'.available == s.available))
  }

  predicate IsRun(size: nat, trace: seq<State>, who: seq<nat>, acts: seq<Action>) {
    && |trace| == |acts| + 1 && |who| == |acts|
    && trace[0] == State(map[], size)
    && forall i {:trigger acts[i]} | 0 <= i < |acts| :: Next(trace[i], who[i], acts[i], trace[i + 1])
  }

  // ---- outcome of one call ---------------------------------------------

  /** Reports in the order they are received. */
  function Log(k: Call): seq<Report> { k.results + k.channel }

  predicate HasReported(t: Stage) { t.Reported? || t.Done? }

  ghost predicate Logged(log: seq<Report>, i: nat) {
    exists j :: 0 <= j < |log| && log[j].task == i
  }

  /** The log holds exactly one report of every task that has reported, and no other. */
  ghost predicate OneReportEach(log: seq<Report>, tasks: seq<Stage>) {
    && (forall i, j | 0 <= i < j < |log| :: log[i].task != log[j].task)
    && (forall j | 0 <= j < |log| :: log[j].task < |tasks|)
    && (forall i: nat | i < |tasks| :: HasReported(tasks[i]) <==> Logged(log, i))
  }

  ghost predicate AllResultsFailed(k: Call) {
    forall j | 0 <= j < |k.results| :: k.results[j].outcome.Failed?
  }

  ghost predicate FirstSuccess(k: Call, sig: string) {
    exists j :: 0 <= j < |k.results| && k.results[j].outcome == Signed(sig)
             && forall i | 0 <= i < j :: k.results[i].outcome.Failed?
  }

  ghost predicate CallInv(k: Call) {
    && k.active == ActiveOf(k.offer, |k.offer.providers|) && |k.tasks| == |k.active|
    && OneReportEach(Log(k), k.tasks)
    && (!k.aborting ==> Aborted !in k.tasks)
    && match k.collector
       case Collecting => !k.aborting && AllResultsFailed(k)
       case Draining(sig) => FirstSuccess(k, sig)
       case Ok(sig) => FirstSuccess(k, sig)
       case AllFailed =>
         !k.aborting && AllResultsFailed(k) && k.channel == [] && forall t | t in k.tasks :: t.Done?
  }

  lemma PushKeepsReports(log: seq<Report>, tasks: seq<Stage>, r: Report, stage: Stage)
    requires OneReportEach(log, tasks) && r.task < |tasks| && !HasReported(tasks[r.task]) && HasReported(stage)
    ensures OneReportEach(log + [r], tasks[r.task := stage])
  {
    var log', tasks' := log + [r], tasks[r.task := stage];
    assert !Logged(log, r.task);
    forall i: nat | i < |tasks'| ensures HasReported(tasks'[i]) <==> Logged(log', i) {
      if Logged(log, i) {
        var j :| 0 <= j < |log| && log[j].task == i;
        assert log'[j].task == i;
      }
      assert log'[|log|].task == r.task;
    }
  }

  lemma TaskKeepsReports(k: Call, a: Action, k': Call, available: nat, gain: int)
    requires OneReportEach(Log(k), k.tasks) && TaskNext(k, a, k', available, gain)
    ensures OneReportEach(Log(k'), k'.tasks)
  {
    if a.Push? || a.SemaphoreClosed? {
      var r := k'.channel[|k.channel|];
      assert Log(k') == Log(k) + [r];
      PushKeepsReports(Log(k), k.tasks, r, k'.tasks[a.task]);
    } else {
      assert Log(k') == Log(k);
    }
  }

  lemma TaskKeepsCall(k: Call, a: Action, k': Call, available: nat, gain: int)
    requires CallInv(k) && TaskNext(k, a, k', available, gain)
    ensures CallInv(k')
  {
    TaskKeepsReports(k, a, k', available, gain);
    assert k'.results == k.results && k.tasks[a.task] in k.tasks;
  }

  lemma CollectKeepsCall(k: Call, a: Action, k': Call)
    requires CallInv(k) && CollectNext(k, a, k')
    ensures CallInv(k')
  {
    assert Log(k') == Log(k);
    if a.Receive? && k.channel[0].outcome.Signed? {
      var j := |k.results|;
      assert k'.results[j] == k.channel[0];
      assert forall i | 0 <= i < j :: k'.results[i] == k.results[i];
    } else if a.Drain? {
      var j :| 0 <= j < |k.results| && k.results[j].outcome == Signed(k.collector.sig)
            && forall i | 0 <= i < j :: k.results[i].outcome.Failed?;
      assert k'.results[j] == k.results[j];
      assert forall i | 0 <= i < j :: k'.results[i] == k.results[i];
    }
  }

  // ---- the shared semaphore --------------------------------------------

  /** Tasks of all calls that hold a permit. */
  function Holders(s: State): set<(nat, nat)> {
    set c, i | c in s.calls && 0 <= i < |s.calls[c].tasks| && HoldsPermit(s.calls[c].tasks[i]) :: (c, i)
  }

  ghost predicate Inv(size: nat, s: State) {
    && (forall c | c in s.calls :: CallInv(s.calls[c]))
    && |Holders(s)| + s.available == size
  }

  /** One task changes stage: the holders change by exactly the permits taken or returned. */
  lemma StageKeepsPermits(s: State, c: nat, i: nat, stage: Stage, s': State)
    requires c in s.calls && c in s'.calls && s'.calls == s.calls[c := s'.calls[c]]
    requires i < |s.calls[c].tasks| && s'.calls[c].tasks == s.calls[c].tasks[i := stage]
    ensures |Holders(s')| == |Holders(s)|
                             - (if HoldsPermit(s.calls[c].tasks[i]) then 1 else 0)
                             + (if HoldsPermit(stage) then 1 else 0)
  {
    HolderAt(s, c, i);
    HolderAt(s', c, i);
    forall p | p in Holders(s') - {(c, i)} ensures p in Holders(s) {
      HolderAt(s, p.0, p.1);
      HolderAt(s', p.0, p.1);
    }
    forall p | p in Holders(s) - {(c, i)} ensures p in Holders(s') {
      HolderAt(s, p.0, p.1);
      HolderAt(s', p.0, p.1);
    }
    ResizeOne(Holders(s), Holders(s'), (c, i));
  }

  lemma ResizeOne<T>(a: set<T>, b: set<T>, x: T)
    requires forall p | p in b && p != x :: p in a
    requires forall p | p in a && p != x :: p in b
    ensures |b| == |a| - (if x in a then 1 else 0) + (if x in b then 1 else 0)
  {
    var rest := a - {x};
    assert a == if x in a then rest + {x} else rest;
    assert b == if x in b then rest + {x} else rest;
  }

  lemma HolderAt(s: State, c: nat, i: nat)
    ensures (c, i) in Holders(s) <==> c in s.calls && i < |s.calls[c].tasks| && HoldsPermit(s.calls[c].tasks[i])
  {
  }

  lemma StartKeepsInv(size: nat, s: State, c: nat, f: Offer, s': State)
    requires Inv(size, s) && Next(s, c, Start(f), s')
    ensures Inv(size, s')
  {
    assert Holders(s') == Holders(s);
    assert Log(s'.calls[c]) == [];
  }

  lemma CollectKeepsInv(size: nat, s: State, c: nat, a: Action, s': State)
    requires Inv(size, s) && c in s.calls && c in s'.calls && s' == s.(calls := s.calls[c := s'.calls[c]])
    requires CollectNext(s.calls[c], a, s'.calls[c])
    ensures Inv(size, s')
  {
    CollectKeepsCall(s.calls[c], a, s'.calls[c]);
    assert s'.calls[c].tasks == s.calls[c].tasks;
    assert Holders(s') == Holders(s);
  }

  lemma TaskKeepsInv(size: nat, s: State, c: nat, a: Action, s': State)
    requires Inv(size, s) && c in s.calls && c in s'.calls && s'.calls == s.calls[c := s'.calls[c]]
    requires TaskNext(s.calls[c], a, s'.calls[c], s.available, s'.available - s.available)
    ensures Inv(size, s')
  {
    TaskKeepsCall(s.calls[c], a, s'.calls[c], s.available, s'.available - s.available);
    TaskChangesOne(s.calls[c], a, s'.calls[c], s.available, s'.available - s.available);
    StageKeepsPermits(s, c, a.task, s'.calls[c].tasks[a.task], s');
  }

  lemma TaskChangesOne(k: Call, a: Action, k': Call, available: nat, gain: int)
    requires TaskNext(k, a, k', available, gain)
    ensures !a.Start? && !a.Receive? && !a.Drain? && !a.DrainEnd? && !a.ChannelClosed?
    ensures a.task < |k.tasks| == |k'.tasks| && k'.tasks == k.tasks[a.task := k'.tasks[a.task]]
    ensures gain == (if HoldsPermit(k.tasks[a.task]) then 1 else 0) - (if HoldsPermit(k'.tasks[a.task]) then 1 else 0)
  {
  }

  lemma NextKeepsInv(size: nat, s: State, c: nat, a: Action, s': State)
    requires Inv(size, s) && Next(s, c, a, s')
    ensures Inv(size, s')
  {
    if a.Start? {
      StartKeepsInv(size, s, c, a.offer, s');
    } else if CollectNext(s.calls[c], a, s'.calls[c]) {
      CollectKeepsInv(size, s, c, a, s');
    } else {
      TaskKeepsInv(size, s, c, a, s');
    }
  }

  lemma {:induction false} RunInv(size: nat, trace: seq<State>, who: seq<nat>, acts: seq<Action>, i: nat)
    requires IsRun(size, trace, who, acts) && i < |trace|
    ensures Inv(size, trace[i])
  {
    if i == 0 {
      assert Holders(trace[0]) == {};
    } else {
      RunInv(size, trace, who, acts, i - 1);
      NextKeepsInv(size, trace[i - 1], who[i - 1], acts[i - 1], trace[i]);
    }
  }

  // ---- theorems --------------------------------------------------------

  /** Across all concurrent calls at most `size` tasks hold a permit, and none is ever lost to an abort. */
  lemma PermitsBounded(size: nat, trace: seq<State>, who: seq<nat>, acts: seq<Action>, i: nat)
    requires IsRun(size, trace, who, acts) && i < |trace|
    ensures |Holders(trace[i])| == size - trace[i].available
  {
    RunInv(size, trace, who, acts, i);
  }

  /** `Ok(sig)` is the first success received, from a provider whose circuit was not open and that was not the leader. */
  lemma OkIsFirstSuccess(size: nat, trace: seq<State>, who: seq<nat>, acts: seq<Action>, i: nat, c: nat)
    requires IsRun(size, trace, who, acts) && i < |trace| && c in trace[i].calls
    requires trace[i].calls[c].collector.Ok?
    ensures var k := trace[i].calls[c];
            exists j ::
              && 0 <= j < |k.results| && k.results[j].outcome == Signed(k.collector.sig)
              && (forall h | 0 <= h < j :: k.results[h].outcome.Failed?)
              && k.results[j].task < |k.active| && MayServe(k.offer, k.active[k.results[j].task])
  {
    RunInv(size, trace, who, acts, i);
    var k := trace[i].calls[c];
    assert FirstSuccess(k, k.collector.sig);
    var j :| 0 <= j < |k.results| && k.results[j].outcome == Signed(k.collector.sig)
          && forall h | 0 <= h < j :: k.results[h].outcome.Failed?;
    assert Log(k)[j] == k.results[j];
    assert k.active[k.results[j].task] in k.active;
  }

  /** The all-failed error means every task finished with exactly one report, a failure, and none was aborted. */
  lemma AllFailedIsComplete(size: nat, trace: seq<State>, who: seq<nat>, acts: seq<Action>, i: nat, c: nat)
    requires IsRun(size, trace, who, acts) && i < |trace| && c in trace[i].calls
    requires trace[i].calls[c].collector.AllFailed?
    ensures var k := trace[i].calls[c];
            && |k.tasks| == |k.active| && (forall t | t in k.tasks :: t.Done?)
            && (forall r | r in k.results :: r.outcome.Failed?)
            && (forall h, j | 0 <= h < j < |k.results| :: k.results[h].task != k.results[j].task)
            && (forall t: nat | t < |k.active| :: Logged(k.results, t))
  {
    RunInv(size, trace, who, acts, i);
    var k := trace[i].calls[c];
    assert Log(k) == k.results;
    forall t: nat | t < |k.active| ensures Logged(k.results, t) {
      assert k.tasks[t] in k.tasks;
    }
  }
}
