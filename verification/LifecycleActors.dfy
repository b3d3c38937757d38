/**
 * The actors' own code, one entry, order or buy at a time and undisturbed: each
 * body is a path of the state machine, so the machine's runs include what the
 * code does and its theorems apply to it.
 */
module LifecycleActors {
  import opened Options
  import opened Positions
  import opened Lifecycle

  ghost predicate Path(r: Rules, trace: seq<State>, acts: seq<Action>, s: State, t: State) {
    && |trace| == |acts| + 1 && trace[0] == s && trace[|acts|] == t
    && forall i {:trigger acts[i]} | 0 <= i < |acts| :: Next(r, trace[i], acts[i], trace[i + 1])
  }

  ghost predicate Reaches(r: Rules, s: State, t: State) {
    exists trace, acts :: Path(r, trace, acts, s, t)
  }

  lemma Stay(r: Rules, s: State)
    ensures Reaches(r, s, s)
  {
    assert Path(r, [s], [], s, s);
  }

  lemma Step(r: Rules, s: State, t: State, a: Action, u: State)
    requires Reaches(r, s, t) && Next(r, t, a, u)
    ensures Reaches(r, s, u)
  {
    var trace, acts :| Path(r, trace, acts, s, t);
    var trace', acts' := trace + [u], acts + [a];
    forall i | 0 <= i < |acts'| ensures Next(r, trace'[i], acts'[i], trace'[i + 1]) {
      if i < |acts| {
        assert Next(r, trace[i], acts[i], trace[i + 1]);
      }
    }
    assert Path(r, trace', acts', s, u);
  }

  /** The machine state seen by the shared monitor object. */
  ghost predicate Agrees(s: State, pm: PositionMonitor)
    reads pm
  {
    s.positions == pm.positions && s.pending == pm.pendingBuys
  }

  // ---- one entry of the TP/SL tick (src/position_monitor.rs:404-663) ---

  datatype PriceFetch = Price(p: real) | MigrationSignal | Unavailable

  /** Sends an order and flags the position; a closed channel does neither. */
  method SendAndFlag(pm: PositionMonitor, o: SellOrder, delivered: bool) returns (sent: seq<SellOrder>)
    modifies pm`positions
    ensures sent == if delivered then [o] else []
    ensures pm.positions == if delivered then WithFlag(old(pm.positions), o.mint, true) else old(pm.positions)
  {
    sent := [];
    if delivered {
      sent := [o];
      pm.SetPendingSell(o.mint, true);
    }
  }

  ghost predicate AtStage(s: State, m: Mint, snap: Holding, price: real, stage: EntryStage) {
    && s.monitor.Entry? && s.monitor.mint == m && s.monitor.snap == snap && s.monitor.price == price
    && s.monitor.stage == stage && snap.buyPrice > 0.0
  }

  /** The send and the flag are two machine steps. */
  lemma SendAndFlagPath(
    r: Rules, s: State, t: State, a: Action, o: SellOrder, delivered: bool, refused: Monitor, flagged: Monitor)
    returns (u: State)
    requires t.monitor.Entry? && t.monitor.snap.buyPrice > 0.0 && Reaches(r, s, t) && o.mint == t.monitor.mint
    requires forall v :: Sends(t, o, delivered, refused, v) ==> EntryNext(t, a, v)
    requires flagged == if o.reason.TakeProfit? then t.monitor.(stage := StopLosses(true))
                        else Ticking(t.monitor.cfg, t.monitor.work)
    ensures Reaches(r, s, u)
    ensures u == t.(positions := if delivered then WithFlag(t.positions, o.mint, true) else t.positions,
                    queue := t.queue + if delivered then [o] else [],
                    monitor := if delivered then flagged else refused)
  {
    if delivered {
      var v := t.(queue := t.queue + [o], monitor := t.monitor.(stage := Sent(o.reason)));
      assert Sends(t, o, delivered, refused, v);
      Step(r, s, t, a, v);
      u := v.(positions := WithFlag(t.positions, o.mint, true), monitor := flagged);
      assert EntryNext(v, SetPending, u);
      Step(r, s, v, SetPending, u);
    } else {
      u := t.(monitor := refused);
      assert Sends(t, o, delivered, refused, u);
      Step(r, s, t, a, u);
      assert t.queue + [] == t.queue;
    }
  }

  /** A loop in which no level fires is one machine step. */
  lemma PassPath(r: Rules, s: State, t: State, a: Action, after: Monitor) returns (u: State)
    requires t.monitor.Entry? && t.monitor.snap.buyPrice > 0.0 && Reaches(r, s, t)
    requires EntryNext(t, a, t.(monitor := after))
    ensures u == t.(monitor := after) && Reaches(r, s, u)
  {
    u := t.(monitor := after);
    Step(r, s, t, a, u);
  }

  /** What the two level loops order: the first take-profit level to fire, else the first stop-loss level. */
  ghost predicate LevelDecision(cfg: Settings, m: Mint, snap: Holding, pnl: real, orders: seq<SellOrder>) {
    || (exists i :: FirstToFire(cfg.tp, i, snap.tpDone, pnl, snap.original, true)
                    && orders == [LevelOrder(m, snap, cfg.tp, i, TakeProfit)])
    || (&& NoneFires(cfg.tp, snap.tpDone, pnl, snap.original, true)
        && (|| (exists i :: FirstToFire(cfg.sl, i, snap.slDone, pnl, snap.original, false)
                            && orders == [LevelOrder(m, snap, cfg.sl, i, StopLoss)])
            || (NoneFires(cfg.sl, snap.slDone, pnl, snap.original, false) && orders == [])))
  }

  /** What one entry orders, in the order the tests are made. */
  ghost predicate EntryDecision(
    cfg: Settings, m: Mint, snap: Holding, fetched: PriceFetch, age: int, liquidity: Option<real>, orders: seq<SellOrder>)
  {
    if snap.migrated || snap.pendingSell || !fetched.Price? || fetched.p <= 0.0 || snap.buyPrice <= 0.0 then
      orders == []
    else if TrailingStopTriggered(Peak(snap, fetched.p), snap.buyPrice, fetched.p, cfg.trailingStopBps) then
      orders == [FullExit(m, snap, TrailingStop)]
    else if RugTriggered(cfg, snap, fetched.p, age, liquidity) then
      orders == [FullExit(m, snap, RugDetected)]
    else
      LevelDecision(cfg, m, snap, Pnl(snap.buyPrice, fetched.p), orders)
  }

  /** The book once the orders sent for `m` are flagged. */
  function Marked(ps: Book, m: Mint, orders: seq<SellOrder>): Book {
    if orders == [] then ps else WithFlag(ps, m, true)
  }

  /** Every other position is as it was. */
  ghost predicate SameElsewhere(ps: Book, ps': Book, m: Mint) {
    ps'.Keys == ps.Keys && forall x | x in ps && x != m :: ps'[x] == ps[x]
  }

  /** The entry is the first to read the pool's liquidity inside the rug window. */
  predicate FirstReading(cfg: Settings, snap: Holding, age: int, liquidity: Option<real>) {
    cfg.rugEnabled && 0 <= age <= cfg.rugWindowSecs && snap.entryLiquidity == None && liquidity.Some?
  }

  /** What one entry leaves of the book, field by field. */
  ghost predicate EntryBook(
    cfg: Settings, ps: Book, ps': Book, m: Mint, snap: Holding, fetched: PriceFetch, age: int, liquidity: Option<real>,
    orders: seq<SellOrder>)
  {
    && SameElsewhere(ps, ps', m)
    && (m in ps ==>
          var h, h' := ps[m], ps'[m];
          if snap.migrated || snap.pendingSell || fetched.Unavailable? then h' == h
          else if fetched.MigrationSignal? || fetched.p <= 0.0 then h' == h.(migrated := true)
          else if snap.buyPrice <= 0.0 then h' == h
          else
            && h'.watermark.Some? && h'.watermark.value >= fetched.p
            && (snap.watermark.Some? ==> h'.watermark.value >= snap.watermark.value)
            && (h'.watermark == Some(fetched.p) || h'.watermark == snap.watermark)
            && h'.pendingSell == (h.pendingSell || orders != [])
            && h'.entryLiquidity
               == (if FirstReading(cfg, snap, age, liquidity)
                      && !TrailingStopTriggered(h'.watermark.value, snap.buyPrice, fetched.p, cfg.trailingStopBps)
                   then liquidity else h.entryLiquidity)
            && h' == h.(watermark := h'.watermark, pendingSell := h'.pendingSell, entryLiquidity := h'.entryLiquidity))
  }

  lemma PricedBook(
    cfg: Settings, ps: Book, m: Mint, snap: Holding, price: real, age: int, liquidity: Option<real>, orders: seq<SellOrder>)
    requires !snap.migrated && !snap.pendingSell && price > 0.0 && snap.buyPrice > 0.0
    ensures var watched := WithWatermark(ps, m, Peak(snap, price));
            var stopped := TrailingStopTriggered(Peak(snap, price), snap.buyPrice, price, cfg.trailingStopBps);
            EntryBook(cfg, ps,
                      Marked(if FirstReading(cfg, snap, age, liquidity) && !stopped
                             then WithEntryLiquidity(watched, m, liquidity.value) else watched, m, orders),
                      m, snap, Price(price), age, liquidity, orders)
  {
    PeakIs(snap, price);
  }

  /** Both level loops, from before the take-profit loop to the end of the entry. */
  method CheckLevels(
    pm: PositionMonitor, cfg: Settings, m: Mint, snap: Holding, price: real, delivered: bool,
    ghost r: Rules, ghost s: State, ghost t: State)
    returns (orders: seq<SellOrder>, ghost u: State)
    requires AtStage(t, m, snap, price, TakeProfits) && t.monitor.cfg == cfg && Agrees(t, pm) && Reaches(r, s, t)
    requires ValidSettings(cfg)
    modifies pm`positions
    ensures if delivered then LevelDecision(cfg, m, snap, Pnl(snap.buyPrice, price), orders) else orders == []
    ensures pm.positions == Marked(old(pm.positions), m, orders)
    ensures Agrees(u, pm) && Reaches(r, s, u)
    ensures u == t.(positions := pm.positions, queue := t.queue + orders, monitor := Ticking(cfg, t.monitor.work))
  {
    var pnl := Pnl(snap.buyPrice, price);
    ghost var v: State;
    orders := [];
    var tp := FindLevel(cfg.tp, snap.tpDone, pnl, snap.original, true);
    if tp.Some? {
      var o := LevelOrder(m, snap, cfg.tp, tp.value, TakeProfit);
      v := SendAndFlagPath(r, s, t, TpSend(tp.value, delivered), o, delivered,
                           t.monitor.(stage := StopLosses(false)), t.monitor.(stage := StopLosses(true)));
      orders := SendAndFlag(pm, o, delivered);
    } else {
      v := PassPath(r, s, t, TpPass, t.monitor.(stage := StopLosses(false)));
    }
    assert v.queue == t.queue + orders;
    var sl := FindLevel(cfg.sl, snap.slDone, pnl, snap.original, false);
    if sl.Some? {
      assert tp.None?; // one price cannot meet a take-profit and a stop-loss trigger
      var o := LevelOrder(m, snap, cfg.sl, sl.value, StopLoss);
      u := SendAndFlagPath(r, s, v, SlSend(sl.value, delivered), o, delivered,
                           Ticking(cfg, t.monitor.work), Ticking(cfg, t.monitor.work));
      var more := SendAndFlag(pm, o, delivered);
      assert t.queue + orders + more == t.queue + (orders + more);
      orders := orders + more;
    } else {
      u := PassPath(r, s, v, SlPass, Ticking(cfg, t.monitor.work));
    }
  }

  /** The rug test and its sell, then the levels. */
  method CheckRugAndLevels(
    pm: PositionMonitor, cfg: Settings, m: Mint, snap: Holding, price: real,
    age: int, liquidity: Option<real>, delivered: bool, ghost r: Rules, ghost s: State, ghost t: State)
    returns (orders: seq<SellOrder>, ghost u: State)
    requires AtStage(t, m, snap, price, Fresh) && t.monitor.cfg == cfg && Agrees(t, pm) && Reaches(r, s, t)
    requires ValidSettings(cfg)
    requires !TrailingStopTriggered(Peak(snap, price), snap.buyPrice, price, cfg.trailingStopBps)
    modifies pm`positions
    ensures if !delivered then orders == []
            else if RugTriggered(cfg, snap, price, age, liquidity) then orders == [FullExit(m, snap, RugDetected)]
            else LevelDecision(cfg, m, snap, Pnl(snap.buyPrice, price), orders)
    ensures pm.positions
         == Marked(if FirstReading(cfg, snap, age, liquidity)
                   then WithEntryLiquidity(old(pm.positions), m, liquidity.value) else old(pm.positions), m, orders)
    ensures Agrees(u, pm) && Reaches(r, s, u)
    ensures u == t.(positions := pm.positions, queue := t.queue + orders, monitor := Ticking(cfg, t.monitor.work))
  {
    var rug := false;
    if cfg.rugEnabled && WithinRugWindow(age, cfg.rugWindowSecs) {
      if snap.entryLiquidity.None? && liquidity.Some? && m in pm.positions {
        pm.positions := pm.positions[m := pm.positions[m].(entryLiquidity := liquidity)];
      }
      rug := RugTriggered(cfg, snap, price, age, liquidity);
    }
    ghost var v := t.(positions := pm.positions,
                      monitor := t.monitor.(stage := if rug then RugHit else TakeProfits));
    assert EntryNext(t, RugObserve(age, liquidity), v);
    Step(r, s, t, RugObserve(age, liquidity), v);
    if rug {
      var o := FullExit(m, snap, RugDetected);
      u := SendAndFlagPath(r, s, v, RugSend(delivered), o, delivered,
                           Ticking(cfg, t.monitor.work), Ticking(cfg, t.monitor.work));
      orders := SendAndFlag(pm, o, delivered);
    } else {
      orders, u := CheckLevels(pm, cfg, m, snap, price, delivered, r, s, v);
    }
  }

  /** A priced entry: the watermark, then the trailing stop, the rug test and the levels. */
  method CheckPriced(
    pm: PositionMonitor, cfg: Settings, m: Mint, snap: Holding, price: real,
    age: int, liquidity: Option<real>, delivered: bool, ghost r: Rules, ghost s: State)
    returns (orders: seq<SellOrder>, ghost u: State)
    requires s.monitor.Ticking? && s.monitor.cfg == cfg && m in s.monitor.work && s.monitor.work[m] == snap
    requires Agrees(s, pm) && ValidSettings(cfg) && Reaches(r, s, s)
    requires !snap.migrated && !snap.pendingSell && price > 0.0 && snap.buyPrice > 0.0
    modifies pm`positions
    ensures if delivered then EntryDecision(cfg, m, snap, Price(price), age, liquidity, orders) else orders == []
    ensures EntryBook(cfg, old(pm.positions), pm.positions, m, snap, Price(price), age, liquidity, orders)
    ensures Agrees(u, pm) && Reaches(r, s, u)
    ensures u == s.(positions := pm.positions, queue := s.queue + orders,
                    monitor := Ticking(cfg, s.monitor.work - {m}))
  {
    ghost var rest := s.monitor.work - {m};
    var peak := Peak(snap, price);
    ghost var before := pm.positions;
    if m in pm.positions {
      pm.positions := pm.positions[m := pm.positions[m].(watermark := Some(peak))];
    }
    ghost var t := s.(positions := pm.positions, monitor := Entry(cfg, rest, m, snap, price, Fresh));
    assert TickNext(s, EntryPrice(m, price), t);
    Step(r, s, s, EntryPrice(m, price), t);
    if TrailingStopTriggered(peak, snap.buyPrice, price, cfg.trailingStopBps) {
      var o := FullExit(m, snap, TrailingStop);
      u := SendAndFlagPath(r, s, t, TrailingSend(delivered), o, delivered, Ticking(cfg, rest), Ticking(cfg, rest));
      orders := SendAndFlag(pm, o, delivered);
    } else {
      orders, u := CheckRugAndLevels(pm, cfg, m, snap, price, age, liquidity, delivered, r, s, t);
    }
    PricedBook(cfg, before, m, snap, price, age, liquidity, orders);
  }

  /** One snapshot entry of the tick: the order decided for it, and a path of the machine. */
  method CheckEntry(
    pm: PositionMonitor, cfg: Settings, m: Mint, snap: Holding, fetched: PriceFetch,
    age: int, liquidity: Option<real>, delivered: bool, ghost r: Rules, ghost s: State)
    returns (orders: seq<SellOrder>, ghost u: State)
    requires s.monitor.Ticking? && s.monitor.cfg == cfg && m in s.monitor.work && s.monitor.work[m] == snap
    requires Agrees(s, pm) && ValidSettings(cfg)
    modifies pm`positions
    ensures if delivered then EntryDecision(cfg, m, snap, fetched, age, liquidity, orders) else orders == []
    ensures EntryBook(cfg, old(pm.positions), pm.positions, m, snap, fetched, age, liquidity, orders)
    ensures Agrees(u, pm) && Reaches(r, s, u)
    ensures u == s.(positions := pm.positions, queue := s.queue + orders,
                    monitor := Ticking(cfg, s.monitor.work - {m}))
  {
    Stay(r, s);
    orders := [];
    ghost var rest := s.monitor.work - {m};
    u := s.(monitor := Ticking(cfg, rest));
    assert TickNext(s, EntrySkip(m), u);
    assert s.queue + [] == s.queue;
    if snap.migrated || snap.pendingSell || fetched.Unavailable? {
      Step(r, s, s, EntrySkip(m), u);
      return;
    }
    if fetched.MigrationSignal? || fetched.p <= 0.0 {
      pm.MarkMigrated(m);
      u := u.(positions := pm.positions);
      assert TickNext(s, EntryMigrate(m), u);
      Step(r, s, s, EntryMigrate(m), u);
      return;
    }
    if snap.buyPrice <= 0.0 {
      Step(r, s, s, EntrySkip(m), u);
      return;
    }
    orders, u := CheckPriced(pm, cfg, m, snap, fetched.p, age, liquidity, delivered, r, s);
  }

  // ---- one entry of the revalidation tick (src/position_monitor.rs:699-748) ---

  /** The wallet's balance of a mint: no token account, an amount, or no answer. */
  datatype ChainBalance = NoAccount | Balance(amount: nat) | NoAnswer

  method RevalidateEntry(
    pm: PositionMonitor, m: Mint, snap: Holding, balance: ChainBalance, ghost r: Rules, ghost s: State)
    returns (ghost u: State)
    requires s.monitor.Revalidating? && m in s.monitor.work && s.monitor.work[m] == snap && Agrees(s, pm)
    modifies pm`positions
    ensures pm.positions == if !snap.pendingSell && (balance.NoAccount? || balance == Balance(0))
                            then old(pm.positions) - {m} else old(pm.positions)
    ensures Agrees(u, pm) && Reaches(r, s, u) && u.monitor == Revalidating(s.monitor.work - {m})
  {
    Stay(r, s);
    u := s.(monitor := Revalidating(s.monitor.work - {m}));
    assert RevalNext(s, RevalKeep(m), u);
    if !snap.pendingSell && (balance.NoAccount? || balance == Balance(0)) {
      pm.positions := pm.positions - {m};
      u := u.(positions := pm.positions,
              ledger := s.ledger.(written := Plus(s.ledger.written, m, Held(s.positions, m))));
      assert RevalNext(s, RevalRemove(m), u);
      Step(r, s, s, RevalRemove(m), u);
    } else {
      Step(r, s, s, RevalKeep(m), u);
    }
  }

  // ---- one order of the sell executor (src/main.rs:1377-1594) ----------

  datatype SellOutcome = Sold | SellFailed | Skipped

  method ExecuteOrder(pm: PositionMonitor, o: SellOrder, outcome: SellOutcome, ghost r: Rules, ghost s: State)
    returns (ghost u: State)
    requires s.exec == Dequeued(o) && Agrees(s, pm)
    modifies pm`positions
    ensures Agrees(u, pm) && Reaches(r, s, u) && u.exec.Waiting? && u.queue == s.queue
    ensures pm.positions
         == if o.mint !in old(pm.positions) || outcome.Skipped? then old(pm.positions)
            else if outcome.Sold? then AfterSell(old(pm.positions), o.mint, o.amount, o.reason, o.level)
            else WithFlag(old(pm.positions), o.mint, false)
  {
    Stay(r, s);
    if o.mint !in pm.positions {
      u := s.(exec := Waiting);
      assert ExecNext(s, CheckHeld, u);
      Step(r, s, s, CheckHeld, u);
      return;
    }
    ghost var t := s.(exec := Selling(o));
    assert ExecNext(s, CheckHeld, t);
    Step(r, s, s, CheckHeld, t);
    ghost var a;
    match outcome {
      case Sold =>
        pm.UpdateAfterSell(o.mint, o.amount, o.reason, o.level);
        a := SellOk;
        u := t.(positions := pm.positions, exec := Waiting,
                ledger := t.ledger.(sold := Plus(t.ledger.sold, o.mint, o.amount)));
      case SellFailed =>
        pm.SetPendingSell(o.mint, false);
        a := SellErr;
        u := t.(positions := pm.positions, exec := Waiting);
      case Skipped =>
        a := SellDrop;
        u := t.(exec := Waiting);
    }
    assert ExecNext(t, a, u);
    Step(r, s, t, a, u);
  }

  // ---- one buy task (src/main.rs:708-1203) -----------------------------

  /** The book after an undisturbed buy: changed only if the mint was free, allowed, and within the cap. */
  function AfterBuy(ps: Book, pending: set<Mint>, m: Mint, allow: bool, cap: nat, filled: Option<Fill>): Book {
    if AcquireOutcome(ps, pending, m, allow) != Acquired || filled.None? || (m !in ps && |ps| >= cap) then ps
    else Filled(ps, m, m in ps, filled.value)
  }

  /** The body of a buy task; `filled` is the bought holding, or None when the buy is refused or fails. */
  method RunBuy(
    pm: PositionMonitor, m: Mint, allow: bool, cap: nat, filled: Option<Fill>,
    ghost task: nat, ghost r: Rules, ghost s: State)
    returns (ghost u: State)
    requires Agrees(s, pm) && task !in s.tasks && (allow ==> r.allowAccumulate)
    modifies pm
    ensures Agrees(u, pm) && Reaches(r, s, u) && u.tasks == s.tasks && pm.pendingBuys == old(pm.pendingBuys)
    ensures pm.positions == AfterBuy(old(pm.positions), old(pm.pendingBuys), m, allow, cap, filled)
  {
    Stay(r, s);
    var acquired := pm.TryAcquireBuy(m, allow);
    if acquired != Acquired {
      u := s;
      return;
    }
    var holding := m in pm.positions;
    var full := !holding && |pm.positions| >= cap;
    ghost var s3 := ReservePath(r, s, task, m, allow, cap);
    ghost var s4 := s3;
    if !full {
      if filled.Some? {
        s4 := Land(pm, m, holding, filled.value, task, r, s, s3);
      } else {
        s4 := AbortPath(r, s, s3, task);
      }
    }
    pm.ReleaseBuy(m);
    assert s4.tasks == s.tasks[task := BuyTask(m, Finished)];
    u := ReleasePath(r, s, s4, task, m, s.tasks);
  }

  lemma AbortPath(r: Rules, s: State, t: State, task: nat) returns (u: State)
    requires Reaches(r, s, t) && task in t.tasks && t.tasks[task].stage.Buying?
    ensures Reaches(r, s, u) && u == t.(tasks := WithStage(t, task, Finished))
  {
    u := t.(tasks := WithStage(t, task, Finished));
    assert BuyNext(r, t, BuyAbort(task), u);
    Step(r, s, t, BuyAbort(task), u);
  }

  lemma ReleasePath(r: Rules, s: State, t: State, task: nat, m: Mint, others: map<nat, BuyTask>) returns (u: State)
    requires Reaches(r, s, t) && task !in others && t.tasks == others[task := BuyTask(m, Finished)]
    ensures Reaches(r, s, u) && u == t.(pending := t.pending - {m}, tasks := others)
  {
    u := t.(pending := t.pending - {m}, tasks := others);
    assert t.tasks - {task} == others;
    assert BuyNext(r, t, BuyRelease(task), u);
    Step(r, s, t, BuyRelease(task), u);
  }

  /** Acquiring, reading `has_position` and checking the count are three machine steps. */
  lemma ReservePath(r: Rules, s: State, task: nat, m: Mint, allow: bool, cap: nat) returns (u: State)
    requires task !in s.tasks && (allow ==> r.allowAccumulate)
    requires AcquireOutcome(s.positions, s.pending, m, allow) == Acquired
    ensures Reaches(r, s, u)
    ensures var holding := m in s.positions;
            u == s.(pending := s.pending + {m},
                    tasks := s.tasks[task := BuyTask(m, if !holding && |s.positions| >= cap
                                                        then Finished else Buying(holding))])
  {
    Stay(r, s);
    var holding := m in s.positions;
    var s1 := s.(pending := s.pending + {m}, tasks := s.tasks[task := BuyTask(m, Reserved)]);
    assert BuyNext(r, s, BuyAcquire(task, m, allow), s1);
    Step(r, s, s, BuyAcquire(task, m, allow), s1);
    var s2 := s1.(tasks := s.tasks[task := BuyTask(m, Looked(holding))]);
    assert s2.tasks == WithStage(s1, task, Looked(holding));
    assert BuyNext(r, s1, BuyLook(task), s2);
    Step(r, s, s1, BuyLook(task), s2);
    var stage := if !holding && |s.positions| >= cap then Finished else Buying(holding);
    u := s2.(tasks := s.tasks[task := BuyTask(m, stage)]);
    assert u.tasks == WithStage(s2, task, stage);
    assert BuyNext(r, s2, BuyCount(task, cap), u);
    Step(r, s, s2, BuyCount(task, cap), u);
  }

  method Land(
    pm: PositionMonitor, m: Mint, holding: bool, f: Fill,
    ghost task: nat, ghost r: Rules, ghost s: State, ghost t: State)
    returns (ghost u: State)
    requires Agrees(t, pm) && Reaches(r, s, t)
    requires task in t.tasks && t.tasks[task] == BuyTask(m, Buying(holding))
    modifies pm`positions
    ensures Agrees(u, pm) && Reaches(r, s, u) && u.tasks == WithStage(t, task, Finished)
    ensures pm.positions == Filled(old(pm.positions), m, holding, f)
  {
    ghost var a := BuyLand(task, f);
    ghost var ledger := t.ledger;
    if holding {
      ledger := if m in t.positions
                then ledger.(added := Plus(ledger.added, m, f.amount))
                else ledger.(lost := Plus(ledger.lost, m, f.amount));
      pm.AccumulatePosition(m, f.amount, f.price);
    } else {
      ledger := ledger.(added := Plus(ledger.added, m, f.amount));
      pm.AddPosition(m, NewHolding(f));
    }
    u := t.(positions := pm.positions, tasks := WithStage(t, task, Finished), ledger := ledger);
    assert BuyNext(r, t, a, u);
    Step(r, s, t, a, u);
  }
}
