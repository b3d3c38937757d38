/**
 * The position lifecycle as a state machine: any number of buy tasks, the
 * monitor task and the sell executor interleave, and every section under a
 * lock or on a channel is one step. Prices, liquidity, balances and the
 * outcome of network calls are chosen freely by the environment.
 */
module Lifecycle {
  import opened Options
  import opened Positions

  /** Where a buy task is between `try_acquire_buy` and `release_buy`. */
  datatype BuyStage =
    | Reserved                    // acquired; `has_position` not read yet
    | Looked(holding: bool)       // `already_holding` read
    | Buying(holding: bool)       // past the position-count check
    | Finished                    // guard dropped; release still to run
  datatype BuyTask = BuyTask(mint: Mint, stage: BuyStage)

  /** Where the monitor is inside one snapshot entry of the TP/SL tick. */
  datatype EntryStage =
    | Fresh                       // watermark written
    | RugHit                      // rug test positive; order not sent yet
    | TakeProfits                 // before the take-profit loop
    | Sent(reason: SellReason)    // order queued; `set_pending_sell` still to run
    | StopLosses(tpSent: bool)    // before the stop-loss loop
  datatype Monitor =
    | Idle
    | Ticking(cfg: Settings, work: Book)
    | Entry(cfg: Settings, work: Book, mint: Mint, snap: Holding, price: real, stage: EntryStage)
    | Revalidating(work: Book)

  datatype Executor = Waiting | Dequeued(order: SellOrder) | Selling(order: SellOrder)

  type Totals = map<Mint, nat>
  function Of(l: Totals, m: Mint): nat { if m in l then l[m] else 0 }
  function Plus(l: Totals, m: Mint, x: nat): Totals { l[m := Of(l, m) + x] }

  /** Token totals per mint since the start; history only, no step reads it. */
  datatype Ledger = Ledger(added: Totals, sold: Totals, written: Totals, lost: Totals)

  datatype State = State(
    positions: Book, pending: set<Mint>, tasks: map<nat, BuyTask>,
    monitor: Monitor, queue: seq<SellOrder>, exec: Executor, ledger: Ledger)

  /** What the environment may do: mirror sells on, and accumulating buys allowed. */
  datatype Rules = Rules(mirrorSells: bool, allowAccumulate: bool)

  datatype Action =
    | BuyAcquire(task: nat, mint: Mint, allow: bool)
    | BuyLook(task: nat)
    | BuyCount(task: nat, cap: nat)
    | BuyAbort(task: nat)
    | BuyLand(task: nat, fill: Fill)
    | BuyRelease(task: nat)
    | TickStart(cfg: Settings)
    | EntrySkip(mint: Mint)
    | EntryMigrate(mint: Mint)
    | EntryPrice(mint: Mint, price: real)
    | TrailingSend(delivered: bool)
    | RugObserve(age: int, liquidity: Option<real>)
    | RugSend(delivered: bool)
    | TpSend(level: nat, delivered: bool)
    | TpPass
    | SetPending
    | SlSend(level: nat, delivered: bool)
    | SlPass
    | RevalStart
    | RevalKeep(mint: Mint)
    | RevalRemove(mint: Mint)
    | TickEnd
    | Dequeue
    | CheckHeld
    | SellOk
    | SellErr
    | SellDrop
    | MirrorDetect(mint: Mint, targetSold: Option<nat>)

  // ---- buy tasks (src/main.rs:708-1203) --------------------------------

  function WithStage(s: State, t: nat, stage: BuyStage): map<nat, BuyTask>
    requires t in s.tasks
  {
    s.tasks[t := s.tasks[t].(stage := stage)]
  }

  predicate BuyNext(r: Rules, s: State, a: Action, s': State) {
    match a
    case BuyAcquire(t, m, allow) =>
      && t !in s.tasks && (allow ==> r.allowAccumulate)
      && (match AcquireOutcome(s.positions, s.pending, m, allow)
          case Acquired => s' == s.(pending := s.pending + {m}, tasks := s.tasks[t := BuyTask(m, Reserved)])
          case _ => s' == s)
    case BuyLook(t) =>
      && t in s.tasks && s.tasks[t].stage.Reserved?
      && s' == s.(tasks := WithStage(s, t, Looked(s.tasks[t].mint in s.positions)))
    case BuyCount(t, cap) =>
      && t in s.tasks && s.tasks[t].stage.Looked?
      && var holding := s.tasks[t].stage.holding;
      && var full := !holding && |s.positions| >= cap;
      s' == s.(tasks := WithStage(s, t, if full then Finished else Buying(holding)))
    case BuyAbort(t) =>
      && t in s.tasks && !s.tasks[t].stage.Finished?
      && s' == s.(tasks := WithStage(s, t, Finished))
    case BuyLand(t, f) =>
      && t in s.tasks && s.tasks[t].stage.Buying?
      && var m := s.tasks[t].mint;
      && var holding := s.tasks[t].stage.holding;
      s' == s.(positions := Filled(s.positions, m, holding, f),
               tasks := WithStage(s, t, Finished),
               ledger := if holding && m !in s.positions
                         then s.ledger.(lost := Plus(s.ledger.lost, m, f.amount))
                         else s.ledger.(added := Plus(s.ledger.added, m, f.amount)))
    case BuyRelease(t) =>
      && t in s.tasks && s.tasks[t].stage.Finished?
      && s' == s.(pending := s.pending - {s.tasks[t].mint}, tasks := s.tasks - {t})
    case _ => false
  }

  // ---- monitor task (src/position_monitor.rs:381-775) ------------------

  /** The entry sends `o`; a closed channel leaves everything but the stage unchanged. */
  predicate Sends(s: State, o: SellOrder, delivered: bool, refused: Monitor, s': State)
    requires s.monitor.Entry?
  {
    if delivered
    then s' == s.(queue := s.queue + [o], monitor := s.monitor.(stage := Sent(o.reason)))
    else s' == s.(monitor := refused)
  }

  predicate TickNext(s: State, a: Action, s': State) {
    match a
    case TickStart(cfg) =>
      && s.monitor.Idle? && ValidSettings(cfg) && s.positions != map[]
      && s' == s.(monitor := Ticking(cfg, s.positions))
    case EntrySkip(m) =>
      // migrated, already selling, price unavailable, or no buy price
      && s.monitor.Ticking? && m in s.monitor.work
      && s' == s.(monitor := Ticking(s.monitor.cfg, s.monitor.work - {m}))
    case EntryMigrate(m) =>
      && s.monitor.Ticking? && m in s.monitor.work
      && !s.monitor.work[m].migrated && !s.monitor.work[m].pendingSell
      && s' == s.(positions := WithMigrated(s.positions, m),
                  monitor := Ticking(s.monitor.cfg, s.monitor.work - {m}))
    case EntryPrice(m, price) =>
      && s.monitor.Ticking? && m in s.monitor.work
      && var h := s.monitor.work[m];
      && !h.migrated && !h.pendingSell && price > 0.0 && h.buyPrice > 0.0
      && s' == s.(positions := WithWatermark(s.positions, m, Peak(h, price)),
                  monitor := Entry(s.monitor.cfg, s.monitor.work - {m}, m, h, price, Fresh))
    case TickEnd =>
      && (s.monitor.Ticking? || s.monitor.Revalidating?) && s.monitor.work == map[]
      && s' == s.(monitor := Idle)
    case _ => false
  }

  predicate EntryNext(s: State, a: Action, s': State)
    requires s.monitor.Entry? && s.monitor.snap.buyPrice > 0.0
  {
    var Entry(cfg, work, m, h, price, stage) := s.monitor;
    var trailing := TrailingStopTriggered(Peak(h, price), h.buyPrice, price, cfg.trailingStopBps);
    var pnl := Pnl(h.buyPrice, price);
    match a
    case TrailingSend(delivered) =>
      && stage.Fresh? && trailing
      && Sends(s, FullExit(m, h, TrailingStop), delivered, Ticking(cfg, work), s')
    case RugObserve(age, liquidity) =>
      && stage.Fresh? && !trailing
      && var observed := cfg.rugEnabled && WithinRugWindow(age, cfg.rugWindowSecs);
      && s' == s.(
           positions := if observed && h.entryLiquidity.None? && liquidity.Some?
                        then WithEntryLiquidity(s.positions, m, liquidity.value) else s.positions,
           monitor := s.monitor.(stage := if RugTriggered(cfg, h, price, age, liquidity)
                                          then RugHit else TakeProfits))
    case RugSend(delivered) =>
      && stage.RugHit?
      && Sends(s, FullExit(m, h, RugDetected), delivered, Ticking(cfg, work), s')
    case TpSend(i, delivered) =>
      && stage.TakeProfits? && FirstToFire(cfg.tp, i, h.tpDone, pnl, h.original, true)
      && Sends(s, LevelOrder(m, h, cfg.tp, i, TakeProfit), delivered,
               s.monitor.(stage := StopLosses(false)), s')
    case TpPass =>
      && stage.TakeProfits? && NoneFires(cfg.tp, h.tpDone, pnl, h.original, true)
      && s' == s.(monitor := s.monitor.(stage := StopLosses(false)))
    case SlSend(i, delivered) =>
      && stage.StopLosses? && FirstToFire(cfg.sl, i, h.slDone, pnl, h.original, false)
      && Sends(s, LevelOrder(m, h, cfg.sl, i, StopLoss), delivered, Ticking(cfg, work), s')
    case SlPass =>
      && stage.StopLosses? && NoneFires(cfg.sl, h.slDone, pnl, h.original, false)
      && s' == s.(monitor := Ticking(cfg, work))
    case SetPending =>
      && stage.Sent?
      && s' == s.(positions := WithFlag(s.positions, m, true),
                  monitor := if stage.reason.TakeProfit?
                             then s.monitor.(stage := StopLosses(true))
                             else Ticking(cfg, work))
    case _ => false
  }

  function Held(ps: Book, m: Mint): nat { if m in ps then ps[m].amount else 0 }

  predicate RevalNext(s: State, a: Action, s': State) {
    match a
    case RevalStart =>
      s.monitor.Idle? && s.positions != map[] && s' == s.(monitor := Revalidating(s.positions))
    case RevalKeep(m) =>
      && s.monitor.Revalidating? && m in s.monitor.work
      && s' == s.(monitor := Revalidating(s.monitor.work - {m}))
    case RevalRemove(m) =>
      && s.monitor.Revalidating? && m in s.monitor.work && !s.monitor.work[m].pendingSell
      && s' == s.(positions := s.positions - {m},
                  monitor := Revalidating(s.monitor.work - {m}),
                  ledger := s.ledger.(written := Plus(s.ledger.written, m, Held(s.positions, m))))
    case _ => false
  }

  // ---- sell executor (src/main.rs:1377-1596) ---------------------------

  predicate ExecNext(s: State, a: Action, s': State) {
    match a
    case Dequeue =>
      && s.exec.Waiting? && s.queue != []
      && s' == s.(exec := Dequeued(s.queue[0]), queue := s.queue[1..])
    case CheckHeld =>
      && s.exec.Dequeued?
      && s' == s.(exec := if s.exec.order.mint in s.positions then Selling(s.exec.order) else Waiting)
    case SellOk =>
      && s.exec.Selling?
      && var o := s.exec.order;
      s' == s.(positions := AfterSell(s.positions, o.mint, o.amount, o.reason, o.level),
               exec := Waiting,
               ledger := s.ledger.(sold := Plus(s.ledger.sold, o.mint, o.amount)))
    case SellErr =>
      && s.exec.Selling?
      && s' == s.(positions := WithFlag(s.positions, s.exec.order.mint, false), exec := Waiting)
    case SellDrop =>
      s.exec.Selling? && s' == s.(exec := Waiting)
    case _ => false
  }

  /** Mirror sells bypass `pending_sell` (src/main.rs:1210-1260). */
  predicate MirrorNext(r: Rules, s: State, a: Action, s': State) {
    match a
    case MirrorDetect(m, sold) =>
      && r.mirrorSells && m in s.positions
      && s' == s.(queue := s.queue + [MirrorOrder(m, s.positions[m], sold)])
    case _ => false
  }

  predicate Next(r: Rules, s: State, a: Action, s': State) {
    || BuyNext(r, s, a, s')
    || TickNext(s, a, s')
    || (s.monitor.Entry? && s.monitor.snap.buyPrice > 0.0 && EntryNext(s, a, s'))
    || RevalNext(s, a, s')
    || ExecNext(s, a, s')
    || MirrorNext(r, s, a, s')
  }

  /** After startup validation: nothing queued or reserved, every stored amount within its original. */
  predicate Init(s: State) {
    && (forall m | m in s.positions :: s.positions[m].amount <= s.positions[m].original)
    && s.pending == {} && s.tasks == map[] && s.monitor.Idle? && s.queue == [] && s.exec.Waiting?
    && s.ledger == Ledger(map m | m in s.positions :: s.positions[m].amount, map[], map[], map[])
  }

  /** `trace` is a run under `r`, its i-th step labelled `acts[i]`. */
  predicate IsRun(r: Rules, trace: seq<State>, acts: seq<Action>) {
    && |trace| == |acts| + 1
    && Init(trace[0])
    && forall i {:trigger acts[i]} | 0 <= i < |acts| :: Next(r, trace[i], acts[i], trace[i + 1])
  }

  /** Orders dequeued but not finished, then those still queued. */
  function Outstanding(s: State): seq<SellOrder> {
    (if s.exec.Waiting? then [] else [s.exec.order]) + s.queue
  }

  predicate Exclusive(s: State) {
    var os := Outstanding(s);
    forall i, j | 0 <= i < j < |os| :: os[i].mint != os[j].mint
  }

  /** The monitor has queued an order for `m` and not yet run `set_pending_sell`. */
  predicate BetweenSendAndFlag(s: State, m: Mint) {
    s.monitor.Entry? && s.monitor.stage.Sent? && s.monitor.mint == m
  }
}
