/**
 * Safety of every run of the lifecycle with mirror sells off: order
 * exclusivity, conservation of tokens, buy exclusion, one completion per level.
 */
module LifecycleSafety {
  import opened Options
  import opened Positions
  import opened Lifecycle

  // ---- the invariant ---------------------------------------------------

  /** A task that found its mint not held still finds it so. */
  ghost predicate AbsentInv(s: State) {
    forall t | t in s.tasks && (s.tasks[t].stage == Looked(false) || s.tasks[t].stage == Buying(false)) ::
      s.tasks[t].mint !in s.positions
  }

  /** Every task's mint is reserved, for that task alone. */
  ghost predicate ReservedInv(s: State) {
    && (forall t | t in s.tasks :: s.tasks[t].mint in s.pending)
    && (forall t, u | t in s.tasks && u in s.tasks && t != u :: s.tasks[t].mint != s.tasks[u].mint)
  }

  ghost predicate TasksInv(s: State) { ReservedInv(s) && AbsentInv(s) }

  ghost predicate BookInv(s: State) {
    forall m | m in s.positions :: s.positions[m].amount <= s.positions[m].original
  }

  ghost predicate OrderOk(s: State, o: SellOrder) {
    && o.mint in s.positions
    && var h := s.positions[o.mint];
    && (h.pendingSell || BetweenSendAndFlag(s, o.mint))
    && o.amount <= h.amount
    && (!o.isFinal ==> o.amount < h.amount)
    && (o.reason.TakeProfit? ==> o.level !in h.tpDone)
    && (o.reason.StopLoss? ==> o.level !in h.slDone)
    && !o.reason.MirrorSell?
  }

  ghost predicate OrdersInv(s: State) {
    && Exclusive(s)
    && forall o | o in Outstanding(s) :: OrderOk(s, o)
  }

  /** No order for `m` is outstanding, and its position has only grown since `snap` was read. */
  ghost predicate Stable(s: State, m: Mint, snap: Holding) {
    && m in s.positions
    && var h := s.positions[m];
    && !h.pendingSell
    && snap.amount <= h.amount
    && h.tpDone == snap.tpDone && h.slDone == snap.slDone
    && forall o | o in Outstanding(s) :: o.mint != m
  }

  ghost predicate WorkInv(s: State, work: Book) {
    forall m | m in work && !work[m].pendingSell ::
      Stable(s, m, work[m]) && s.positions[m].watermark == work[m].watermark
  }

  ghost predicate EntryInv(s: State)
    requires s.monitor.Entry?
  {
    var Entry(cfg, work, m, snap, price, stage) := s.monitor;
    && ValidSettings(cfg) && snap.buyPrice > 0.0 && !snap.pendingSell && m !in work
    && match stage
       case Sent(reason) => reason.TakeProfit? ==> Pnl(snap.buyPrice, price) > 0.0
       case StopLosses(tpSent) => if tpSent then Pnl(snap.buyPrice, price) > 0.0 else Stable(s, m, snap)
       case _ => Stable(s, m, snap)
  }

  ghost predicate MonitorInv(s: State) {
    match s.monitor
    case Idle => true
    case Ticking(cfg, work) => ValidSettings(cfg) && WorkInv(s, work)
    case Entry(_, work, _, _, _, _) => EntryInv(s) && WorkInv(s, work)
    case Revalidating(work) => WorkInv(s, work)
  }

  /** Tokens ever put into live positions = held + sold + written off. */
  ghost predicate LedgerInv(s: State) {
    forall m: Mint ::
      Of(s.ledger.added, m) == Held(s.positions, m) + Of(s.ledger.sold, m) + Of(s.ledger.written, m)
  }

  ghost predicate Inv(s: State) {
    TasksInv(s) && BookInv(s) && OrdersInv(s) && MonitorInv(s) && LedgerInv(s)
  }

  lemma InitInv(s: State)
    requires Init(s)
    ensures Inv(s)
  {
  }

  // ---- preservation, actor by actor ------------------------------------

  /** Every position survives with at least its tokens, its flag, its levels and its watermark. */
  ghost predicate Grown(ps: Book, ps': Book) {
    forall m | m in ps ::
      && m in ps'
      && ps[m].amount <= ps'[m].amount && ps'[m].pendingSell == ps[m].pendingSell
      && ps'[m].tpDone == ps[m].tpDone && ps'[m].slDone == ps[m].slDone
      && ps'[m].watermark == ps[m].watermark
  }

  lemma GrowthKeepsOrders(s: State, s': State)
    requires Inv(s) && Grown(s.positions, s'.positions)
    requires Outstanding(s') == Outstanding(s)
    requires forall m :: BetweenSendAndFlag(s, m) ==> BetweenSendAndFlag(s', m)
    ensures OrdersInv(s')
  {
    forall o | o in Outstanding(s') ensures OrderOk(s', o) {
      assert OrderOk(s, o);
    }
  }

  lemma GrowthKeepsMonitor(s: State, s': State)
    requires Inv(s) && Grown(s.positions, s'.positions)
    requires Outstanding(s') == Outstanding(s) && s'.monitor == s.monitor
    ensures MonitorInv(s')
  {
  }

  lemma BuyKeepsTasks(r: Rules, s: State, a: Action, s': State)
    requires TasksInv(s) && BuyNext(r, s, a, s')
    ensures TasksInv(s')
  {
    BuyKeepsReserved(r, s, a, s');
    BuyKeepsAbsent(r, s, a, s');
  }

  lemma BuyKeepsReserved(r: Rules, s: State, a: Action, s': State)
    requires ReservedInv(s) && BuyNext(r, s, a, s')
    ensures ReservedInv(s')
  {
  }

  lemma BuyKeepsAbsent(r: Rules, s: State, a: Action, s': State)
    requires TasksInv(s) && BuyNext(r, s, a, s')
    ensures AbsentInv(s')
  {
  }

  lemma BuyGrows(r: Rules, s: State, a: Action, s': State)
    requires AbsentInv(s) && BookInv(s) && BuyNext(r, s, a, s')
    ensures Grown(s.positions, s'.positions) && BookInv(s')
    ensures Outstanding(s') == Outstanding(s) && s'.monitor == s.monitor
  {
    BuyFrame(r, s, a, s');
    if a.BuyLand? {
      LandGrows(s, a, s');
    } else {
      assert s'.positions == s.positions;
    }
  }

  /** A buy task touches neither orders nor monitor, and only a filled buy touches the book. */
  lemma BuyFrame(r: Rules, s: State, a: Action, s': State)
    requires BuyNext(r, s, a, s')
    ensures s'.queue == s.queue && s'.exec == s.exec && s'.monitor == s.monitor
    ensures !a.BuyLand? ==> s'.positions == s.positions
    ensures a.BuyLand? ==>
      && a.task in s.tasks && s.tasks[a.task].stage.Buying?
      && var m := s.tasks[a.task].mint;
         s'.positions == Filled(s.positions, m, s.tasks[a.task].stage.holding, a.fill)
  {
  }

  lemma LandGrows(s: State, a: Action, s': State)
    requires a.BuyLand? && a.task in s.tasks && s.tasks[a.task].stage.Buying? && BookInv(s)
    requires s.tasks[a.task].stage == Buying(false) ==> s.tasks[a.task].mint !in s.positions
    requires var m := s.tasks[a.task].mint;
             s'.positions == Filled(s.positions, m, s.tasks[a.task].stage.holding, a.fill)
    ensures Grown(s.positions, s'.positions) && BookInv(s')
  {
  }

  lemma BuyKeepsLedger(r: Rules, s: State, a: Action, s': State)
    requires AbsentInv(s) && LedgerInv(s) && BuyNext(r, s, a, s')
    ensures LedgerInv(s')
  {
  }

  lemma BuyKeepsInv(r: Rules, s: State, a: Action, s': State)
    requires Inv(s) && BuyNext(r, s, a, s')
    ensures Inv(s')
  {
    BuyKeepsTasks(r, s, a, s');
    BuyGrows(r, s, a, s');
    BuyKeepsLedger(r, s, a, s');
    GrowthKeepsOrders(s, s');
    GrowthKeepsMonitor(s, s');
  }

  lemma TickKeepsOrders(s: State, a: Action, s': State)
    requires Inv(s) && TickNext(s, a, s')
    ensures OrdersInv(s')
  {
    assert Outstanding(s') == Outstanding(s);
    forall o | o in Outstanding(s') ensures OrderOk(s', o) {
      assert OrderOk(s, o);
    }
  }

  lemma TickKeepsMonitor(s: State, a: Action, s': State)
    requires Inv(s) && TickNext(s, a, s')
    ensures MonitorInv(s')
  {
    assert Outstanding(s') == Outstanding(s);
    if a.TickStart? {
      forall m | m in s.positions && !s.positions[m].pendingSell ensures Stable(s', m, s.positions[m]) {
        forall o | o in Outstanding(s) ensures o.mint != m {
          assert OrderOk(s, o);
        }
      }
    }
  }

  lemma TickKeepsInv(s: State, a: Action, s': State)
    requires Inv(s) && TickNext(s, a, s')
    ensures Inv(s')
  {
    TickKeepsOrders(s, a, s');
    TickKeepsMonitor(s, a, s');
  }

  /** A send appends an order for the mint in hand, which had none. */
  lemma SendKeepsInv(s: State, o: SellOrder, s': State)
    requires Inv(s) && s.monitor.Entry? && Stable(s, s.monitor.mint, s.monitor.snap)
    requires s' == s.(queue := s.queue + [o], monitor := s.monitor.(stage := Sent(o.reason)))
    requires o.mint == s.monitor.mint && OrderOk(s', o)
    requires o.reason.TakeProfit? ==> Pnl(s.monitor.snap.buyPrice, s.monitor.price) > 0.0
    ensures Inv(s')
  {
    assert Outstanding(s') == Outstanding(s) + [o];
    forall p | p in Outstanding(s') ensures OrderOk(s', p) {
      if p in Outstanding(s) {
        assert OrderOk(s, p);
      }
    }
  }

  /** A take-profit and a stop-loss trigger cannot both be met by one price. */
  lemma NoStopLossAfterTakeProfit(s: State, a: Action)
    requires MonitorInv(s) && s.monitor.Entry? && s.monitor.stage == StopLosses(true) && a.SlSend?
    ensures !FirstToFire(s.monitor.cfg.sl, a.level, s.monitor.snap.slDone,
                         Pnl(s.monitor.snap.buyPrice, s.monitor.price), s.monitor.snap.original, false)
  {
  }

  lemma SetPendingKeepsInv(s: State, s': State)
    requires Inv(s) && s.monitor.Entry? && EntryNext(s, SetPending, s')
    ensures Inv(s')
  {
    assert Outstanding(s') == Outstanding(s);
    forall o | o in Outstanding(s') ensures OrderOk(s', o) {
      assert OrderOk(s, o);
    }
  }

  /** Steps of an entry that neither send nor flag: the rug test and the empty level loops. */
  lemma QuietEntryKeepsInv(s: State, a: Action, s': State)
    requires Inv(s) && s.monitor.Entry? && EntryNext(s, a, s')
    requires s'.queue == s.queue && !a.SetPending?
    ensures Inv(s')
  {
    QuietEntryGrows(s, a, s');
    GrowthKeepsOrders(s, s');
    assert s.monitor.stage.StopLosses? || Stable(s', s.monitor.mint, s.monitor.snap);
    assert WorkInv(s', s.monitor.work);
  }

  lemma QuietEntryGrows(s: State, a: Action, s': State)
    requires s.monitor.Entry? && s.monitor.snap.buyPrice > 0.0 && EntryNext(s, a, s')
    requires s'.queue == s.queue && !a.SetPending?
    ensures Grown(s.positions, s'.positions) && Outstanding(s') == Outstanding(s)
    ensures forall m :: !BetweenSendAndFlag(s, m)
  {
  }

  lemma EntryKeepsInv(s: State, a: Action, s': State)
    requires Inv(s) && s.monitor.Entry? && EntryNext(s, a, s')
    ensures Inv(s')
  {
    var Entry(cfg, work, m, h, price, stage) := s.monitor;
    if s'.queue != s.queue {
      var o := s'.queue[|s.queue|];
      assert s'.queue == s.queue + [o];
      assert Stable(s, m, h);
      SendKeepsInv(s, o, s');
    } else if a.SetPending? {
      SetPendingKeepsInv(s, s');
    } else {
      QuietEntryKeepsInv(s, a, s');
    }
  }

  lemma RevalKeepsInv(s: State, a: Action, s': State)
    requires Inv(s) && RevalNext(s, a, s')
    ensures Inv(s')
  {
    assert Outstanding(s') == Outstanding(s);
    forall o | o in Outstanding(s') ensures OrderOk(s', o) {
      assert OrderOk(s, o);
    }
    if a.RevalStart? {
      forall m | m in s.positions && !s.positions[m].pendingSell ensures Stable(s', m, s.positions[m]) {
        forall o | o in Outstanding(s) ensures o.mint != m {
          assert OrderOk(s, o);
        }
      }
    }
  }

  ghost predicate Finishes(s: State, s': State) {
    ExecNext(s, SellOk, s') || ExecNext(s, SellErr, s') || ExecNext(s, SellDrop, s')
  }

  /** Finishing an order leaves every other mint's position alone. */
  lemma FinishFrame(s: State, s': State)
    requires s.exec.Selling? && Finishes(s, s')
    ensures s'.exec.Waiting? && s'.queue == s.queue && s'.monitor == s.monitor
    ensures s'.tasks == s.tasks && s'.pending == s.pending
    ensures forall m | m != s.exec.order.mint ::
              (m in s'.positions <==> m in s.positions) && (m in s.positions ==> s'.positions[m] == s.positions[m])
    ensures s.exec.order.mint in s'.positions ==> s.exec.order.mint in s.positions
  {
  }

  /** Dropping the executor's order from the outstanding ones leaves orders about other mints. */
  lemma RestAreOthers(s: State, s': State, p: SellOrder)
    requires Exclusive(s) && s.exec.Selling? && s'.exec.Waiting? && s'.queue == s.queue && p in Outstanding(s')
    ensures p in Outstanding(s) && p.mint != s.exec.order.mint
  {
    var i :| 0 <= i < |s.queue| && s.queue[i] == p;
    assert Outstanding(s)[0] == s.exec.order && Outstanding(s)[i + 1] == p;
  }

  lemma FinishKeepsOrders(s: State, s': State)
    requires Inv(s) && s.exec.Selling? && Finishes(s, s')
    ensures OrdersInv(s') && OrderOk(s, s.exec.order)
    ensures forall p | p in Outstanding(s') :: p in Outstanding(s) && p.mint != s.exec.order.mint
  {
    FinishFrame(s, s');
    assert Outstanding(s)[0] == s.exec.order;
    assert Outstanding(s') == Outstanding(s)[1..];
    forall p | p in Outstanding(s')
      ensures OrderOk(s', p) && p in Outstanding(s) && p.mint != s.exec.order.mint
    {
      RestAreOthers(s, s', p);
      assert OrderOk(s, p);
    }
  }

  lemma FinishKeepsBook(s: State, s': State)
    requires BookInv(s) && s.exec.Selling? && Finishes(s, s')
    ensures BookInv(s')
  {
    FinishFrame(s, s');
  }

  /** A completed sell never truncates, so the ledger stays balanced. */
  lemma FinishKeepsLedger(s: State, s': State)
    requires LedgerInv(s) && s.exec.Selling? && Finishes(s, s') && OrderOk(s, s.exec.order)
    ensures LedgerInv(s')
  {
    FinishFrame(s, s');
    FinishBalances(s, s');
    forall m: Mint | m != s.exec.order.mint ensures Held(s'.positions, m) == Held(s.positions, m) {
    }
  }

  /** What the position loses the ledger counts as sold. */
  lemma FinishBalances(s: State, s': State)
    requires s.exec.Selling? && Finishes(s, s') && OrderOk(s, s.exec.order)
    ensures var m := s.exec.order.mint;
            Held(s'.positions, m) + Of(s'.ledger.sold, m) == Held(s.positions, m) + Of(s.ledger.sold, m)
    ensures s'.ledger.added == s.ledger.added && s'.ledger.written == s.ledger.written
    ensures forall m | m != s.exec.order.mint :: Of(s'.ledger.sold, m) == Of(s.ledger.sold, m)
  {
  }

  lemma FinishKeepsTasks(s: State, s': State)
    requires TasksInv(s) && s.exec.Selling? && Finishes(s, s')
    ensures TasksInv(s')
  {
    FinishFrame(s, s');
  }

  lemma FinishKeepsWork(s: State, s': State, m: Mint, snap: Holding)
    requires Inv(s) && s.exec.Selling? && Finishes(s, s') && Stable(s, m, snap)
    ensures Stable(s', m, snap) && s'.positions[m] == s.positions[m]
  {
    assert Outstanding(s)[0] == s.exec.order;
    FinishKeepsOrders(s, s');
  }

  lemma FinishKeepsMonitor(s: State, s': State)
    requires Inv(s) && s.exec.Selling? && Finishes(s, s')
    ensures MonitorInv(s')
  {
    if !s.monitor.Idle? {
      var work := s.monitor.work;
      forall m | m in work && !work[m].pendingSell
        ensures Stable(s', m, work[m]) && s'.positions[m].watermark == work[m].watermark
      {
        FinishKeepsWork(s, s', m, work[m]);
      }
    }
    if s.monitor.Entry? && Stable(s, s.monitor.mint, s.monitor.snap) {
      FinishKeepsWork(s, s', s.monitor.mint, s.monitor.snap);
    }
  }

  lemma ExecKeepsInv(s: State, a: Action, s': State)
    requires Inv(s) && ExecNext(s, a, s')
    ensures Inv(s')
  {
    if a.Dequeue? {
      assert Outstanding(s') == Outstanding(s);
    } else if a.CheckHeld? {
      assert OrderOk(s, Outstanding(s)[0]);
      assert Outstanding(s') == Outstanding(s);
    } else {
      FinishKeepsOrders(s, s');
      FinishKeepsBook(s, s');
      FinishKeepsLedger(s, s');
      FinishKeepsTasks(s, s');
      FinishKeepsMonitor(s, s');
    }
  }

  lemma NextKeepsInv(r: Rules, s: State, a: Action, s': State)
    requires !r.mirrorSells && Inv(s) && Next(r, s, a, s')
    ensures Inv(s')
  {
    if BuyNext(r, s, a, s') {
      BuyKeepsInv(r, s, a, s');
    } else if TickNext(s, a, s') {
      TickKeepsInv(s, a, s');
    } else if RevalNext(s, a, s') {
      RevalKeepsInv(s, a, s');
    } else if ExecNext(s, a, s') {
      ExecKeepsInv(s, a, s');
    } else {
      EntryKeepsInv(s, a, s');
    }
  }

  lemma {:induction false} RunInv(r: Rules, trace: seq<State>, acts: seq<Action>, i: nat)
    requires !r.mirrorSells && IsRun(r, trace, acts) && i < |trace|
    ensures Inv(trace[i])
  {
    if i == 0 {
      InitInv(trace[0]);
    } else {
      RunInv(r, trace, acts, i - 1);
      NextKeepsInv(r, trace[i - 1], acts[i - 1], trace[i]);
    }
  }
}
