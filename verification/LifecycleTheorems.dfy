/** What every run of the lifecycle keeps, read off the invariant of `LifecycleSafety`. */
module LifecycleTheorems {
  import opened Options
  import opened Positions
  import opened Lifecycle
  import opened LifecycleSafety

  // ---- order exclusivity and conservation ------------------------------

  /** At most one order per mint is queued or executing, and its position is flagged or about to be. */
  lemma OrderExclusivity(r: Rules, trace: seq<State>, acts: seq<Action>, i: nat)
    requires !r.mirrorSells && IsRun(r, trace, acts) && i < |trace|
    ensures Exclusive(trace[i])
    ensures forall o | o in Outstanding(trace[i]) ::
              && o.mint in trace[i].positions
              && (trace[i].positions[o.mint].pendingSell || BetweenSendAndFlag(trace[i], o.mint))
  {
    RunInv(r, trace, acts, i);
    forall o | o in Outstanding(trace[i])
      ensures o.mint in trace[i].positions
      ensures trace[i].positions[o.mint].pendingSell || BetweenSendAndFlag(trace[i], o.mint)
    {
      assert OrderOk(trace[i], o);
    }
  }

  /** Tokens put into live positions equal held + sold + written off, and no position exceeds its original. */
  lemma Conservation(r: Rules, trace: seq<State>, acts: seq<Action>, i: nat, m: Mint)
    requires !r.mirrorSells && IsRun(r, trace, acts) && i < |trace|
    ensures var s := trace[i];
            Of(s.ledger.added, m) == Held(s.positions, m) + Of(s.ledger.sold, m) + Of(s.ledger.written, m)
    ensures m in trace[i].positions ==> trace[i].positions[m].amount <= trace[i].positions[m].original
  {
    RunInv(r, trace, acts, i);
  }

  /** The saturating subtraction of a completed sell is exact: the position holds all it sells. */
  lemma SellNeverTruncates(r: Rules, trace: seq<State>, acts: seq<Action>, i: nat)
    requires !r.mirrorSells && IsRun(r, trace, acts) && i < |acts|
    requires ExecNext(trace[i], SellOk, trace[i + 1])
    ensures var o := trace[i].exec.order;
            && o.mint in trace[i].positions
            && Held(trace[i + 1].positions, o.mint) == Held(trace[i].positions, o.mint) - o.amount
  {
    RunInv(r, trace, acts, i);
    assert Outstanding(trace[i])[0] == trace[i].exec.order;
    assert OrderOk(trace[i], trace[i].exec.order);
  }

  // ---- buy exclusion ---------------------------------------------------

  ghost predicate OpensNothing(s: State, s': State) {
    s'.tasks == s.tasks && s'.pending == s.pending && s'.positions.Keys <= s.positions.Keys
  }

  lemma EntryOpensNothing(s: State, a: Action, s': State)
    requires s.monitor.Entry? && s.monitor.snap.buyPrice > 0.0 && EntryNext(s, a, s')
    ensures OpensNothing(s, s')
  {
  }

  lemma TickOpensNothing(s: State, a: Action, s': State)
    requires TickNext(s, a, s') || RevalNext(s, a, s')
    ensures OpensNothing(s, s')
  {
  }

  lemma ExecOpensNothing(r: Rules, s: State, a: Action, s': State)
    requires ExecNext(s, a, s') || MirrorNext(r, s, a, s')
    ensures OpensNothing(s, s')
  {
  }

  /** Steps of the other actors touch no task and open no position. */
  lemma OthersOpenNothing(r: Rules, s: State, a: Action, s': State)
    requires Next(r, s, a, s') && !BuyNext(r, s, a, s')
    ensures OpensNothing(s, s')
  {
    if TickNext(s, a, s') || RevalNext(s, a, s') {
      TickOpensNothing(s, a, s');
    } else if ExecNext(s, a, s') || MirrorNext(r, s, a, s') {
      ExecOpensNothing(r, s, a, s');
    } else {
      EntryOpensNothing(s, a, s');
    }
  }

  lemma {:induction false} RunTasks(r: Rules, trace: seq<State>, acts: seq<Action>, i: nat)
    requires IsRun(r, trace, acts) && i < |trace|
    ensures TasksInv(trace[i])
  {
    if i > 0 {
      RunTasks(r, trace, acts, i - 1);
      if BuyNext(r, trace[i - 1], acts[i - 1], trace[i]) {
        BuyKeepsTasks(r, trace[i - 1], acts[i - 1], trace[i]);
      } else {
        OthersOpenNothing(r, trace[i - 1], acts[i - 1], trace[i]);
      }
    }
  }

  /** Whatever the settings: one buy task per mint, and `add_position` never replaces an entry. */
  lemma BuyExclusion(r: Rules, trace: seq<State>, acts: seq<Action>, i: nat)
    requires IsRun(r, trace, acts) && i < |acts|
    ensures var s := trace[i];
            && (forall t, u | t in s.tasks && u in s.tasks && s.tasks[t].mint == s.tasks[u].mint :: t == u)
            && (BuyNext(r, s, acts[i], trace[i + 1]) && acts[i].BuyLand? && !s.tasks[acts[i].task].stage.holding
                ==> s.tasks[acts[i].task].mint !in s.positions)
  {
    RunTasks(r, trace, acts, i);
  }

  /** Mints of the live buy tasks. */
  function TaskMints(ts: map<nat, BuyTask>): set<Mint> {
    set t | t in ts :: ts[t].mint
  }

  lemma MintsPut(ts: map<nat, BuyTask>, t: nat, b: BuyTask)
    requires t in ts ==> b.mint == ts[t].mint
    ensures TaskMints(ts[t := b]) == TaskMints(ts) + {b.mint}
  {
    var ts' := ts[t := b];
    assert ts'[t].mint == b.mint;
    forall m | m in TaskMints(ts) ensures m in TaskMints(ts') {
      var u :| u in ts && ts[u].mint == m;
      assert u in ts' && ts'[u].mint == m;
    }
  }

  lemma MintsDrop(ts: map<nat, BuyTask>, t: nat)
    requires t in ts && forall u | u in ts && u != t :: ts[u].mint != ts[t].mint
    ensures TaskMints(ts - {t}) == TaskMints(ts) - {ts[t].mint}
  {
    var ts' := ts - {t};
    forall m | m in TaskMints(ts) && m != ts[t].mint ensures m in TaskMints(ts') {
      var u :| u in ts && ts[u].mint == m;
      assert u in ts' && ts'[u].mint == m;
    }
  }

  lemma BuyKeepsOwned(r: Rules, s: State, a: Action, s': State)
    requires TasksInv(s) && s.pending == TaskMints(s.tasks) && BuyNext(r, s, a, s')
    ensures s'.pending == TaskMints(s'.tasks)
  {
    if a.BuyRelease? {
      MintsDrop(s.tasks, a.task);
    } else if s'.tasks != s.tasks {
      MintsPut(s.tasks, a.task, s'.tasks[a.task]);
      if !a.BuyAcquire? {
        assert s.tasks[a.task].mint in TaskMints(s.tasks);
        assert TaskMints(s'.tasks) == TaskMints(s.tasks);
      }
    }
  }

  lemma NextKeepsOwned(r: Rules, s: State, a: Action, s': State)
    requires TasksInv(s) && s.pending == TaskMints(s.tasks) && Next(r, s, a, s')
    ensures s'.pending == TaskMints(s'.tasks)
  {
    if BuyNext(r, s, a, s') {
      BuyKeepsOwned(r, s, a, s');
    } else {
      OthersOpenNothing(r, s, a, s');
    }
  }

  lemma InitOwned(s: State)
    requires Init(s)
    ensures s.pending == TaskMints(s.tasks)
  {
  }

  /** The reserved mints are exactly those of the tasks that will release them: no reservation leaks. */
  lemma {:induction false} ReservationsOwned(r: Rules, trace: seq<State>, acts: seq<Action>, i: nat)
    requires IsRun(r, trace, acts) && i < |trace|
    ensures trace[i].pending == TaskMints(trace[i].tasks)
  {
    if i == 0 {
      InitOwned(trace[0]);
    } else {
      ReservationsOwned(r, trace, acts, i - 1);
      RunTasks(r, trace, acts, i - 1);
      NextKeepsOwned(r, trace[i - 1], acts[i - 1], trace[i]);
    }
  }

  ghost predicate NeverHolding(s: State) {
    forall t | t in s.tasks ::
      && s.tasks[t].stage != Looked(true) && s.tasks[t].stage != Buying(true)
      && (s.tasks[t].stage.Reserved? ==> s.tasks[t].mint !in s.positions)
  }

  lemma NextKeepsNeverHolding(r: Rules, s: State, a: Action, s': State)
    requires !r.allowAccumulate && TasksInv(s) && NeverHolding(s) && Next(r, s, a, s')
    ensures NeverHolding(s')
  {
    if !BuyNext(r, s, a, s') {
      OthersOpenNothing(r, s, a, s');
    }
  }

  /** With accumulation off no buy task ever finds its mint held, so `accumulate_position` never runs. */
  lemma {:induction false} NoAccumulation(r: Rules, trace: seq<State>, acts: seq<Action>, i: nat)
    requires !r.allowAccumulate && IsRun(r, trace, acts) && i < |trace|
    ensures NeverHolding(trace[i])
  {
    if i > 0 {
      NoAccumulation(r, trace, acts, i - 1);
      RunTasks(r, trace, acts, i - 1);
      NextKeepsNeverHolding(r, trace[i - 1], acts[i - 1], trace[i]);
    }
  }

  // ---- amounts ---------------------------------------------------------

  lemma NextKeepsBook(r: Rules, s: State, a: Action, s': State)
    requires AbsentInv(s) && BookInv(s) && Next(r, s, a, s')
    ensures BookInv(s')
  {
    if BuyNext(r, s, a, s') {
      BuyGrows(r, s, a, s');
    } else if TickNext(s, a, s') || RevalNext(s, a, s') {
      TickKeepsAmounts(s, a, s');
    } else if ExecNext(s, a, s') || MirrorNext(r, s, a, s') {
      ExecKeepsAmounts(r, s, a, s');
    } else {
      EntryKeepsAmounts(s, a, s');
    }
  }

  lemma TickKeepsAmounts(s: State, a: Action, s': State)
    requires BookInv(s) && (TickNext(s, a, s') || RevalNext(s, a, s'))
    ensures BookInv(s')
  {
  }

  lemma EntryKeepsAmounts(s: State, a: Action, s': State)
    requires BookInv(s) && s.monitor.Entry? && s.monitor.snap.buyPrice > 0.0 && EntryNext(s, a, s')
    ensures BookInv(s')
  {
  }

  lemma ExecKeepsAmounts(r: Rules, s: State, a: Action, s': State)
    requires BookInv(s) && (ExecNext(s, a, s') || MirrorNext(r, s, a, s'))
    ensures BookInv(s')
  {
  }

  /** In every run, whatever the settings, no position holds more than its original amount. */
  lemma {:induction false} NeverAboveOriginal(r: Rules, trace: seq<State>, acts: seq<Action>, i: nat)
    requires IsRun(r, trace, acts) && i < |trace|
    ensures forall m | m in trace[i].positions :: trace[i].positions[m].amount <= trace[i].positions[m].original
  {
    if i > 0 {
      NeverAboveOriginal(r, trace, acts, i - 1);
      RunTasks(r, trace, acts, i - 1);
      NextKeepsBook(r, trace[i - 1], acts[i - 1], trace[i]);
    }
  }

  // ---- lifetime of a position ------------------------------------------

  /** Completed levels are kept and the high-watermark does not fall. */
  ghost predicate Monotone(h: Holding, h': Holding) {
    && (forall i | i in h.tpDone :: i in h'.tpDone)
    && (forall i | i in h.slDone :: i in h'.slDone)
    && (h.watermark.Some? ==> h'.watermark.Some? && h.watermark.value <= h'.watermark.value)
  }

  /** What the monitor has snapshot of a high-watermark is still there, unless the position is a new one. */
  ghost predicate WatermarkInv(s: State) {
    !s.monitor.Idle? ==>
      forall m | m in s.monitor.work && m in s.positions ::
        s.positions[m].watermark.None? || s.positions[m].watermark == s.monitor.work[m].watermark
  }

  lemma BuyMonotone(r: Rules, s: State, a: Action, s': State)
    requires AbsentInv(s) && WatermarkInv(s) && BuyNext(r, s, a, s')
    ensures WatermarkInv(s')
    ensures forall m | m in s.positions && m in s'.positions :: Monotone(s.positions[m], s'.positions[m])
  {
    BuyFrame(r, s, a, s');
  }

  lemma TickMonotone(s: State, a: Action, s': State)
    requires WatermarkInv(s) && TickNext(s, a, s')
    ensures WatermarkInv(s')
    ensures forall m | m in s.positions && m in s'.positions :: Monotone(s.positions[m], s'.positions[m])
  {
  }

  lemma EntryMonotone(s: State, a: Action, s': State)
    requires WatermarkInv(s) && s.monitor.Entry? && s.monitor.snap.buyPrice > 0.0 && EntryNext(s, a, s')
    ensures WatermarkInv(s')
    ensures forall m | m in s.positions && m in s'.positions :: Monotone(s.positions[m], s'.positions[m])
  {
  }

  lemma OtherMonotone(r: Rules, s: State, a: Action, s': State)
    requires WatermarkInv(s) && (RevalNext(s, a, s') || ExecNext(s, a, s') || MirrorNext(r, s, a, s'))
    ensures WatermarkInv(s')
    ensures forall m | m in s.positions && m in s'.positions :: Monotone(s.positions[m], s'.positions[m])
  {
  }

  lemma NextMonotone(r: Rules, s: State, a: Action, s': State)
    requires AbsentInv(s) && WatermarkInv(s) && Next(r, s, a, s')
    ensures WatermarkInv(s')
    ensures forall m | m in s.positions && m in s'.positions :: Monotone(s.positions[m], s'.positions[m])
  {
    if BuyNext(r, s, a, s') {
      BuyMonotone(r, s, a, s');
    } else if TickNext(s, a, s') {
      TickMonotone(s, a, s');
    } else if RevalNext(s, a, s') || ExecNext(s, a, s') || MirrorNext(r, s, a, s') {
      OtherMonotone(r, s, a, s');
    } else {
      EntryMonotone(s, a, s');
    }
  }

  lemma {:induction false} RunWatermarks(r: Rules, trace: seq<State>, acts: seq<Action>, i: nat)
    requires IsRun(r, trace, acts) && i < |trace|
    ensures WatermarkInv(trace[i])
  {
    if i > 0 {
      RunWatermarks(r, trace, acts, i - 1);
      RunTasks(r, trace, acts, i - 1);
      NextMonotone(r, trace[i - 1], acts[i - 1], trace[i]);
    }
  }

  /**
   * In every run, whatever the settings: as long as a position lives, its completed
   * levels are kept and its high-watermark never falls.
   */
  lemma {:induction false} LifetimeMonotone(
    r: Rules, trace: seq<State>, acts: seq<Action>, i: nat, j: nat, m: Mint)
    requires IsRun(r, trace, acts) && i <= j < |trace|
    requires forall k | i <= k <= j :: m in trace[k].positions
    ensures Monotone(trace[i].positions[m], trace[j].positions[m])
  {
    if i < j {
      LifetimeMonotone(r, trace, acts, i, j - 1, m);
      RunWatermarks(r, trace, acts, j - 1);
      RunTasks(r, trace, acts, j - 1);
      NextMonotone(r, trace[j - 1], acts[j - 1], trace[j]);
      MonotoneTransitive(trace[i].positions[m], trace[j - 1].positions[m], trace[j].positions[m]);
    }
  }

  lemma MonotoneTransitive(h: Holding, k: Holding, l: Holding)
    requires Monotone(h, k) && Monotone(k, l)
    ensures Monotone(h, l)
  {
  }

  function LevelsDone(h: Holding, reason: SellReason): seq<nat> {
    if reason.TakeProfit? then h.tpDone else h.slDone
  }

  predicate Completes(s: State, s': State, m: Mint, reason: SellReason, level: nat) {
    && ExecNext(s, SellOk, s')
    && s.exec.order.mint == m && s.exec.order.reason == reason && s.exec.order.level == level
  }

  lemma CompletionRecorded(s: State, s': State, m: Mint, reason: SellReason, level: nat)
    requires Completes(s, s', m, reason, level) && m in s'.positions
    requires reason.TakeProfit? || reason.StopLoss?
    ensures level in LevelsDone(s'.positions[m], reason)
  {
  }

  lemma CompletesUndone(s: State, s': State, m: Mint, reason: SellReason, level: nat)
    requires Inv(s) && Completes(s, s', m, reason, level)
    requires reason.TakeProfit? || reason.StopLoss?
    ensures m in s.positions && level !in LevelsDone(s.positions[m], reason)
  {
    assert Outstanding(s)[0] == s.exec.order;
    assert OrderOk(s, s.exec.order);
  }

  lemma DoneWhileHeld(
    r: Rules, trace: seq<State>, acts: seq<Action>, i: nat, j: nat, m: Mint, reason: SellReason, level: nat)
    requires IsRun(r, trace, acts) && i < j < |trace|
    requires reason.TakeProfit? || reason.StopLoss?
    requires Completes(trace[i], trace[i + 1], m, reason, level)
    requires forall k | i < k <= j :: m in trace[k].positions
    ensures level in LevelsDone(trace[j].positions[m], reason)
  {
    CompletionRecorded(trace[i], trace[i + 1], m, reason, level);
    LifetimeMonotone(r, trace, acts, i + 1, j, m);
  }

  /** Between two completions of one level the position was closed: at most once per lifetime. */
  lemma LevelOncePerLifetime(
    r: Rules, trace: seq<State>, acts: seq<Action>, i: nat, j: nat, m: Mint, reason: SellReason, level: nat)
    requires !r.mirrorSells && IsRun(r, trace, acts) && i < j < |acts|
    requires reason.TakeProfit? || reason.StopLoss?
    requires Completes(trace[i], trace[i + 1], m, reason, level)
    requires Completes(trace[j], trace[j + 1], m, reason, level)
    ensures exists k :: i < k <= j && m !in trace[k].positions
  {
    if forall k | i < k <= j :: m in trace[k].positions {
      DoneWhileHeld(r, trace, acts, i, j, m, reason, level);
      RunInv(r, trace, acts, j);
      CompletesUndone(trace[j], trace[j + 1], m, reason, level);
      assert false;
    }
  }

  // ---- abandoned positions ---------------------------------------------

  /** Holds at least `least` tokens, is flagged as selling or about to be, and no order is left to clear the flag. */
  ghost predicate Abandoned(s: State, m: Mint, least: nat) {
    && m in s.positions && (s.positions[m].pendingSell || BetweenSendAndFlag(s, m))
    && least <= s.positions[m].amount
    && forall o | o in Outstanding(s) :: o.mint != m
  }

  lemma BuyKeepsAbandoned(r: Rules, s: State, a: Action, s': State, m: Mint, least: nat)
    requires TasksInv(s) && BookInv(s) && Abandoned(s, m, least) && BuyNext(r, s, a, s')
    ensures Abandoned(s', m, least)
  {
    BuyGrows(r, s, a, s');
  }

  lemma ExecKeepsAbandoned(s: State, a: Action, s': State, m: Mint, least: nat)
    requires Inv(s) && Abandoned(s, m, least) && ExecNext(s, a, s')
    ensures Abandoned(s', m, least)
  {
    if a.Dequeue? || a.CheckHeld? {
      assert forall o | o in Outstanding(s') :: o in Outstanding(s);
    } else {
      FinishFrame(s, s');
      FinishKeepsOrders(s, s');
      assert Outstanding(s)[0] == s.exec.order;
    }
  }

  /** The monitor is not working on an abandoned mint: every snapshot entry it would act on is unflagged. */
  lemma TickKeepsAbandoned(s: State, a: Action, s': State, m: Mint, least: nat)
    requires MonitorInv(s) && Abandoned(s, m, least) && (TickNext(s, a, s') || RevalNext(s, a, s'))
    ensures Abandoned(s', m, least)
  {
    assert Outstanding(s') == Outstanding(s);
  }

  lemma EntryKeepsAbandoned(s: State, a: Action, s': State, m: Mint, least: nat)
    requires MonitorInv(s) && Abandoned(s, m, least) && s.monitor.Entry? && EntryNext(s, a, s')
    ensures Abandoned(s', m, least)
  {
    if s'.queue == s.queue {
      assert Outstanding(s') == Outstanding(s);
    } else {
      assert Outstanding(s') == Outstanding(s) + [s'.queue[|s.queue|]];
      assert Stable(s, s.monitor.mint, s.monitor.snap);
    }
  }

  lemma NextKeepsAbandoned(r: Rules, s: State, a: Action, s': State, m: Mint, least: nat)
    requires !r.mirrorSells && Inv(s) && Abandoned(s, m, least) && Next(r, s, a, s')
    ensures Abandoned(s', m, least)
  {
    if BuyNext(r, s, a, s') {
      BuyKeepsAbandoned(r, s, a, s', m, least);
    } else if ExecNext(s, a, s') {
      ExecKeepsAbandoned(s, a, s', m, least);
    } else if TickNext(s, a, s') || RevalNext(s, a, s') {
      TickKeepsAbandoned(s, a, s', m, least);
    } else {
      EntryKeepsAbandoned(s, a, s', m, least);
    }
  }

  lemma {:induction false} RunKeepsAbandoned(
    r: Rules, trace: seq<State>, acts: seq<Action>, i: nat, j: nat, m: Mint, least: nat)
    requires !r.mirrorSells && IsRun(r, trace, acts) && i <= j < |trace|
    requires Abandoned(trace[i], m, least)
    ensures Abandoned(trace[j], m, least)
  {
    if i < j {
      RunKeepsAbandoned(r, trace, acts, i, j - 1, m, least);
      RunInv(r, trace, acts, j - 1);
      NextKeepsAbandoned(r, trace[j - 1], acts[j - 1], trace[j], m, least);
    }
  }

  /**
   * An order the executor drops without reporting (`continue`) leaves its position
   * unsellable for the rest of the run, whether its flag was already set or not:
   * never priced, revalidated or sold again.
   */
  lemma DroppedOrderAbandons(r: Rules, trace: seq<State>, acts: seq<Action>, i: nat, j: nat)
    requires !r.mirrorSells && IsRun(r, trace, acts) && i < j < |trace|
    requires ExecNext(trace[i], SellDrop, trace[i + 1])
    ensures Abandoned(trace[j], trace[i].exec.order.mint, trace[i].exec.order.amount)
  {
    var o := trace[i].exec.order;
    RunInv(r, trace, acts, i);
    FinishKeepsOrders(trace[i], trace[i + 1]);
    RunKeepsAbandoned(r, trace, acts, i + 1, j, o.mint, o.amount);
  }

  /**
   * The steps that take the last order of a position away while it is flagged or about
   * to be: a silent drop; an order finished, sold in part or failed, before its flag is
   * set; a fresh buy added between the send for the previous position and its flag.
   */
  predicate Orphans(s: State, a: Action, m: Mint) {
    match a
    case SellDrop => s.exec.Selling? && s.exec.order.mint == m
    case SellErr => s.exec.Selling? && s.exec.order.mint == m && BetweenSendAndFlag(s, m)
    case SellOk =>
      && s.exec.Selling? && s.exec.order.mint == m && BetweenSendAndFlag(s, m)
      && s.exec.order.amount < Held(s.positions, m)
    case BuyLand(t, _) =>
      t in s.tasks && s.tasks[t] == BuyTask(m, Buying(false)) && BetweenSendAndFlag(s, m)
    case _ => false
  }

  lemma BuyOrphansIff(r: Rules, s: State, a: Action, s': State, m: Mint)
    requires Inv(s) && BuyNext(r, s, a, s') && !Abandoned(s, m, 0)
    ensures Abandoned(s', m, 0) <==> Orphans(s, a, m)
  {
    BuyGrows(r, s, a, s');
    BuyFrame(r, s, a, s');
    forall o | o in Outstanding(s) ensures o.mint in s.positions {
      assert OrderOk(s, o);
    }
  }

  lemma ExecOrphansIff(s: State, a: Action, s': State, m: Mint)
    requires Inv(s) && ExecNext(s, a, s') && !Abandoned(s, m, 0)
    ensures Abandoned(s', m, 0) <==> Orphans(s, a, m)
  {
    if a.Dequeue? {
      assert Outstanding(s') == Outstanding(s);
    } else if a.CheckHeld? {
      assert OrderOk(s, Outstanding(s)[0]);
      assert Outstanding(s') == Outstanding(s);
    } else {
      FinishFrame(s, s');
      FinishKeepsOrders(s, s');
      assert Outstanding(s) == [s.exec.order] + Outstanding(s');
    }
  }

  /** Neither pricing nor revalidation takes an order away or flags a position. */
  lemma TickOrphansNothing(s: State, a: Action, s': State, m: Mint)
    requires Inv(s) && (TickNext(s, a, s') || RevalNext(s, a, s')) && !Abandoned(s, m, 0)
    ensures !Abandoned(s', m, 0) && !Orphans(s, a, m)
  {
    assert Outstanding(s') == Outstanding(s);
    forall o | o in Outstanding(s) && o.mint == m ensures !Abandoned(s', m, 0) {
      assert o in Outstanding(s');
    }
  }

  lemma EntryOrphansNothing(s: State, a: Action, s': State, m: Mint)
    requires Inv(s) && s.monitor.Entry? && EntryNext(s, a, s') && !Abandoned(s, m, 0)
    ensures !Abandoned(s', m, 0) && !Orphans(s, a, m)
  {
    if s'.queue == s.queue {
      assert Outstanding(s') == Outstanding(s);
    } else {
      assert Outstanding(s') == Outstanding(s) + [s'.queue[|s.queue|]];
      assert s'.queue[|s.queue|] in Outstanding(s');
    }
  }

  /** A position is abandoned in a step exactly when that step orphans it. */
  lemma OrphansIff(r: Rules, s: State, a: Action, s': State, m: Mint)
    requires !r.mirrorSells && Inv(s) && Next(r, s, a, s') && !Abandoned(s, m, 0)
    ensures Abandoned(s', m, 0) <==> Orphans(s, a, m)
  {
    if BuyNext(r, s, a, s') {
      BuyOrphansIff(r, s, a, s', m);
    } else if ExecNext(s, a, s') {
      ExecOrphansIff(s, a, s', m);
    } else if TickNext(s, a, s') || RevalNext(s, a, s') {
      TickOrphansNothing(s, a, s', m);
    } else {
      EntryOrphansNothing(s, a, s', m);
    }
  }

  lemma AbandonedStep(r: Rules, s: State, a: Action, s': State, m: Mint)
    requires !r.mirrorSells && Inv(s) && Next(r, s, a, s')
    ensures Abandoned(s', m, 0) <==> Abandoned(s, m, 0) || Orphans(s, a, m)
  {
    if Abandoned(s, m, 0) {
      NextKeepsAbandoned(r, s, a, s', m, 0);
    } else {
      OrphansIff(r, s, a, s', m);
    }
  }

  /** Loaded with its flag set, or orphaned by one of the first `n` steps. */
  ghost predicate Orphaned(trace: seq<State>, acts: seq<Action>, n: nat, m: Mint)
    requires n <= |acts| && |trace| == |acts| + 1
  {
    || Abandoned(trace[0], m, 0)
    || exists k: nat {:trigger acts[k]} :: k < n && Orphans(trace[k], acts[k], m)
  }

  lemma OrphanedStep(trace: seq<State>, acts: seq<Action>, n: nat, m: Mint)
    requires n < |acts| && |trace| == |acts| + 1
    ensures Orphaned(trace, acts, n + 1, m) <==> Orphaned(trace, acts, n, m) || Orphans(trace[n], acts[n], m)
  {
  }

  /** A position is abandoned exactly when it was loaded flagged or some earlier step orphaned it. */
  lemma {:induction false} AbandonedIff(r: Rules, trace: seq<State>, acts: seq<Action>, i: nat, m: Mint)
    requires !r.mirrorSells && IsRun(r, trace, acts) && i < |trace|
    ensures Abandoned(trace[i], m, 0) <==> Orphaned(trace, acts, i, m)
  {
    if i > 0 {
      AbandonedIff(r, trace, acts, i - 1, m);
      RunInv(r, trace, acts, i - 1);
      AbandonedStep(r, trace[i - 1], acts[i - 1], trace[i], m);
      OrphanedStep(trace, acts, i - 1, m);
    }
  }

  /** In the initial state only a flag loaded from the file is abandoned. */
  lemma LoadedAbandoned(s: State, m: Mint)
    requires Init(s)
    ensures Abandoned(s, m, 0) <==> m in s.positions && s.positions[m].pendingSell
  {
  }

  ghost predicate HasOrder(s: State, m: Mint) { exists o :: o in Outstanding(s) && o.mint == m }

  /** The promise behind the flag: every position with its flag set, or about to be, has an order that will clear it. */
  ghost predicate FlagsClearable(s: State) {
    forall m | m in s.positions && (s.positions[m].pendingSell || BetweenSendAndFlag(s, m)) :: HasOrder(s, m)
  }

  lemma ClearableIffNoneAbandoned(s: State)
    ensures FlagsClearable(s) <==> forall m :: !Abandoned(s, m, 0)
  {
    forall m: Mint ensures Abandoned(s, m, 0) <==>
      m in s.positions && (s.positions[m].pendingSell || BetweenSendAndFlag(s, m)) && !HasOrder(s, m)
    {
    }
  }

  /** No position was loaded flagged, and none of the first `n` steps orphaned one. */
  ghost predicate NoneOrphaned(trace: seq<State>, acts: seq<Action>, n: nat)
    requires n <= |acts| && |trace| == |acts| + 1
  {
    && (forall m | m in trace[0].positions :: !trace[0].positions[m].pendingSell)
    && forall m, k: nat | k < n :: !Orphans(trace[k], acts[k], m)
  }

  /** The promise holds exactly as long as no position was loaded flagged and no step has orphaned one. */
  lemma FlagsClearableIff(r: Rules, trace: seq<State>, acts: seq<Action>, i: nat)
    requires !r.mirrorSells && IsRun(r, trace, acts) && i < |trace|
    ensures FlagsClearable(trace[i]) <==> NoneOrphaned(trace, acts, i)
  {
    forall m: Mint ensures Abandoned(trace[i], m, 0) <==> Orphaned(trace, acts, i, m) {
      AbandonedIff(r, trace, acts, i, m);
    }
    forall m: Mint
      ensures Abandoned(trace[0], m, 0) <==> m in trace[0].positions && trace[0].positions[m].pendingSell
    {
      LoadedAbandoned(trace[0], m);
    }
    ClearableIffNoneAbandoned(trace[i]);
    if forall m :: !Abandoned(trace[i], m, 0) {
      forall m | m in trace[0].positions ensures !trace[0].positions[m].pendingSell {
        assert !Abandoned(trace[i], m, 0);
      }
      forall m, k: nat | k < i ensures !Orphans(trace[k], acts[k], m) {
        assert !Abandoned(trace[i], m, 0);
      }
    }
  }

  // ---- position cap ----------------------------------------------------

  /** Tasks past the count check that will add, not accumulate. */
  function InFlight(s: State): set<nat> {
    set t | t in s.tasks && s.tasks[t].stage == Buying(false)
  }

  function Max(a: int, b: int): int { if a < b then b else a }

  lemma AddKeepsCap(s: State, s': State, t: nat)
    requires t in s.tasks && s.tasks[t].stage == Buying(false) && s.tasks[t].mint !in s.positions
    requires s'.tasks == WithStage(s, t, Finished)
    requires s'.positions.Keys == s.positions.Keys + {s.tasks[t].mint}
    ensures |s'.positions| + |InFlight(s')| == |s.positions| + |InFlight(s)|
  {
    assert InFlight(s') == InFlight(s) - {t};
    assert |s'.positions.Keys| == |s.positions.Keys| + 1;
  }

  lemma LandKeepsCap(r: Rules, s: State, a: Action, s': State)
    requires TasksInv(s) && BuyNext(r, s, a, s') && a.BuyLand?
    ensures |s'.positions| + |InFlight(s')| <= |s.positions| + |InFlight(s)|
  {
    var t := a.task;
    if s.tasks[t].stage.holding {
      assert s'.positions.Keys == s.positions.Keys;
      assert |s'.positions.Keys| == |s.positions.Keys|;
      assert InFlight(s') == InFlight(s);
    } else {
      AddKeepsCap(s, s', t);
    }
  }

  lemma CountKeepsCap(r: Rules, s: State, a: Action, s': State)
    requires BuyNext(r, s, a, s') && a.BuyCount?
    ensures s'.positions == s.positions
    ensures InFlight(s') == InFlight(s) || |s.positions| < a.cap
  {
  }

  lemma OtherBuysKeepCap(r: Rules, s: State, a: Action, s': State)
    requires BuyNext(r, s, a, s') && !a.BuyLand? && !a.BuyCount?
    ensures s'.positions == s.positions && |InFlight(s')| <= |InFlight(s)|
  {
    assert InFlight(s') <= InFlight(s);
    SmallerBook(InFlight(s), InFlight(s'));
  }

  lemma StepKeepsCap(r: Rules, s: State, a: Action, s': State, cap: nat, inFlight: nat, bound: int)
    requires TasksInv(s) && Next(r, s, a, s')
    requires a.BuyCount? ==> a.cap <= cap
    requires |InFlight(s')| <= inFlight && cap + inFlight - 1 <= bound
    requires |s.positions| + |InFlight(s)| <= bound
    ensures |s'.positions| + |InFlight(s')| <= bound
  {
    if !BuyNext(r, s, a, s') {
      OthersOpenNothing(r, s, a, s');
      SmallerBook(s.positions.Keys, s'.positions.Keys);
      assert InFlight(s') == InFlight(s);
    } else if a.BuyLand? {
      LandKeepsCap(r, s, a, s');
    } else if a.BuyCount? {
      CountKeepsCap(r, s, a, s');
    } else {
      OtherBuysKeepCap(r, s, a, s');
    }
  }

  lemma SmallerBook<T>(big: set<T>, small: set<T>)
    requires small <= big
    ensures |small| <= |big|
  {
    assert big == small + (big - small);
  }

  /** Every count check used a cap of at most `cap`. */
  ghost predicate CapsWithin(acts: seq<Action>, cap: nat) {
    forall k | 0 <= k < |acts| && acts[k].BuyCount? :: acts[k].cap <= cap
  }

  /** Never more than `n` buys between the count check and their add. */
  ghost predicate BuysWithin(trace: seq<State>, n: nat) {
    forall k | 0 <= k < |trace| :: |InFlight(trace[k])| <= n
  }

  lemma {:induction false} RunKeepsCap(
    r: Rules, trace: seq<State>, acts: seq<Action>, cap: nat, inFlight: nat, bound: int, i: nat)
    requires IsRun(r, trace, acts) && i < |trace|
    requires CapsWithin(acts, cap) && BuysWithin(trace, inFlight)
    requires |trace[0].positions| <= bound && cap + inFlight - 1 <= bound
    ensures |trace[i].positions| + |InFlight(trace[i])| <= bound
  {
    if i == 0 {
      assert InFlight(trace[0]) == {};
    } else {
      RunKeepsCap(r, trace, acts, cap, inFlight, bound, i - 1);
      RunTasks(r, trace, acts, i - 1);
      StepKeepsCap(r, trace[i - 1], acts[i - 1], trace[i], cap, inFlight, bound);
    }
  }

  /**
   * With cap `cap` and never more than `inFlight` buys between the count check
   * and their add, at most `cap + inFlight - 1` positions are open (or as many
   * as were loaded, if that was more).
   */
  lemma CapOvershoot(r: Rules, trace: seq<State>, acts: seq<Action>, cap: nat, inFlight: nat, i: nat)
    requires IsRun(r, trace, acts) && i < |trace|
    requires CapsWithin(acts, cap) && BuysWithin(trace, inFlight)
    ensures |trace[i].positions| <= Max(|trace[0].positions|, cap + inFlight - 1)
  {
    RunKeepsCap(r, trace, acts, cap, inFlight, Max(|trace[0].positions|, cap + inFlight - 1), i);
  }

  /** A cap of zero lets no buy past the count check. */
  lemma {:induction false} ZeroCapNoBuys(r: Rules, trace: seq<State>, acts: seq<Action>, i: nat)
    requires IsRun(r, trace, acts) && i < |trace| && CapsWithin(acts, 0)
    ensures |InFlight(trace[i])| == 0
  {
    if i == 0 {
      assert InFlight(trace[0]) == {};
    } else {
      ZeroCapNoBuys(r, trace, acts, i - 1);
      RunTasks(r, trace, acts, i - 1);
      ZeroCapStep(r, trace[i - 1], acts[i - 1], trace[i]);
    }
  }

  lemma ZeroCapStep(r: Rules, s: State, a: Action, s': State)
    requires TasksInv(s) && Next(r, s, a, s') && InFlight(s) == {} && (a.BuyCount? ==> a.cap == 0)
    ensures InFlight(s') == {}
  {
    if !BuyNext(r, s, a, s') {
      OthersOpenNothing(r, s, a, s');
      assert InFlight(s') == InFlight(s);
    } else if a.BuyCount? {
      CountKeepsCap(r, s, a, s');
    } else if a.BuyLand? {
      assert InFlight(s') <= InFlight(s);
    } else {
      OtherBuysKeepCap(r, s, a, s');
    }
  }
}
