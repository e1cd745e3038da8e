/** What a pass reports, and that the reported numbers are the changes of the store. */
module Counters {
  import opened Prelude
  import opened Paper
  import opened Ledger
  import opened LedgerInvariant
  import opened Lifecycle
  import opened CatchUp
  import opened Bars

  datatype Counts = Counts(fills: nat, exits: nat, superseded: nat, snapshots: nat) {
    function Plus(r: BarResult): Counts {
      Counts(fills + r.filled, exits + r.exits, superseded + r.superseded, snapshots + if r.snapshotWritten then 1 else 0)
    }
  }

  const NOTHING := Counts(0, 0, 0, 0)

  /** Number of orders that cancelling a list really cancels. */
  function CancelCount(l: Ledger, cands: seq<Candidate>): nat
    decreases cands
  {
    if cands == [] then 0
    else (if IsPending(l.store.orders, cands[0].order) then 1 else 0) + CancelCount(Cancel(l, cands[0].order), cands[1..])
  }

  /** Sum of the reports of the bars of a window. */
  function RunCounts(c: CostFn, cfg: Config, l: Ledger, stamps: seq<int>, bars: seq<Bar>, cands: seq<Candidate>): Counts
    requires forall t :: t in stamps ==> t in Stamps(bars)
    decreases stamps
  {
    if stamps == [] then NOTHING
    else
      var n := |stamps| - 1;
      assert forall t :: t in stamps[..n] ==> t in stamps;
      var mid := RunBars(c, cfg, l, stamps[..n], bars, cands);
      RunCounts(c, cfg, l, stamps[..n], bars, cands).Plus(
        ProcessBar(c, mid, cfg.symbol, BarAt(bars, stamps[n]), cands, cfg.interval))
  }

  /** One more bar of the window: where it leads and what it reports. */
  lemma WindowStep(c: CostFn, cfg: Config, l: Ledger, window: seq<int>, n: nat, bars: seq<Bar>, cands: seq<Candidate>)
    requires n < |window| && forall t :: t in window ==> t in Stamps(bars)
    ensures
      && (forall t :: t in window[..n] ==> t in Stamps(bars)) && (forall t :: t in window[..n + 1] ==> t in Stamps(bars))
      && window[n] in Stamps(bars)
      && var r := ProcessBar(c, RunBars(c, cfg, l, window[..n], bars, cands), cfg.symbol, BarAt(bars, window[n]), cands,
                             cfg.interval);
         && RunBars(c, cfg, l, window[..n + 1], bars, cands) == r.ledger
         && RunCounts(c, cfg, l, window[..n + 1], bars, cands) == RunCounts(c, cfg, l, window[..n], bars, cands).Plus(r)
  {
    hide ProcessBar;
    assert window[..n + 1][..n] == window[..n];
    assert window[n] in window;
  }

  lemma NoWindow(c: CostFn, cfg: Config, l: Ledger, bars: seq<Bar>, cands: seq<Candidate>)
    ensures RunBars(c, cfg, l, [], bars, cands) == l && RunCounts(c, cfg, l, [], bars, cands) == NOTHING
  {
  }

  /** Orders cancelled by a pass because their bar is missing. */
  function PassCancelled(cfg: Config, s: Store, candles: seq<Bar>): nat
    requires candles != []
  {
    var cands := UnitCandidates(cfg, s);
    CancelCount(Restore(FreshLedger(s, cfg.startEquity, cfg.seed)),
                MissingBarCandidates(cands, LoadedBars(cands, OpenIn(s, cfg.symbol), candles), candles[|candles| - 1].ts))
  }

  /** The report of a whole pass. */
  function PassCounts(c: CostFn, cfg: Config, s: Store, candles: seq<Bar>): Counts
    requires candles != []
  {
    var cands := UnitCandidates(cfg, s);
    RunCounts(c, cfg, AfterMissing(cfg, s, candles), PassWindow(cfg, s, candles).bars,
              LoadedBars(cands, OpenIn(s, cfg.symbol), candles), cands)
  }

  // ---- reports are changes ------------------------------------------------------------------

  function PendingCount(orders: seq<OrderRow>): nat {
    |PendingFrom(orders)|
  }

  lemma {:induction false} SettledCount(orders: seq<OrderRow>, h: nat, o: OrderRow)
    requires IsPending(orders, h) && o.status != PENDING
    ensures PendingCount(orders[h := o]) == PendingCount(orders) - 1
  {
    var n := |orders| - 1;
    if h == n {
      assert orders[h := o][..n] == orders[..n];
    } else {
      assert orders[h := o][..n] == orders[..n][h := o];
      SettledCount(orders[..n], h, o);
    }
  }

  /** Between two stores so many positions opened, orders settled and snapshots were written. */
  ghost predicate Changed(s: Store, s': Store, entered: nat, settled: nat, written: nat) {
    && |s'.positions| == |s.positions| + entered
    && PendingCount(s.orders) == PendingCount(s'.orders) + settled
    && |s'.snapshots| == |s.snapshots| + written
  }

  lemma CancelChanges(l: Ledger, h: nat)
    ensures Changed(l.store, Cancel(l, h).store, 0, if IsPending(l.store.orders, h) then 1 else 0, 0)
  {
    if IsPending(l.store.orders, h) {
      SettledCount(l.store.orders, h, l.store.orders[h].(status := CANCELLED));
    }
  }

  lemma {:induction false} CancelAllChanges(l: Ledger, cands: seq<Candidate>)
    ensures Changed(l.store, CancelAll(l, cands).store, 0, CancelCount(l, cands), 0)
    decreases cands
  {
    hide Cancel;
    if cands != [] {
      CancelChanges(l, cands[0].order);
      CancelAllChanges(Cancel(l, cands[0].order), cands[1..]);
    }
  }

  lemma FillChanges(c: CostFn, l: Ledger, h: nat, price: real, ts: int)
    ensures
      var n := if Fillable(l, h) then 1 else 0;
      Changed(l.store, Fill(c, l, h, price, ts).store, n, n, 0)
  {
    if Fillable(l, h) {
      var o := l.store.orders[h];
      SettledCount(l.store.orders, h, FilledOrder(o, PositionOf(c, o.seed, EntryOf(o, price, ts))));
    }
  }

  lemma CloseChanges(c: CostFn, l: Ledger, symbol: string, price: real, reason: ExitReason, ts: int)
    requires OpenFor(l.wallet.positions, symbol).Some?
    ensures Changed(l.store, CloseBoth(c, l, symbol, price, reason, ts).store, 0, 0, 0)
  {
  }

  lemma ActionChanges(c: CostFn, p: Progress, symbol: string, bar: Bar, cand: Candidate, action: FillAction)
    ensures
      var p' := ExecuteOne(c, p, symbol, bar, cand, action);
      && p'.filled >= p.filled && p'.superseded >= p.superseded
      && Changed(p.ledger.store, p'.ledger.store, p'.filled - p.filled,
                 p'.filled - p.filled + p'.superseded - p.superseded, 0)
  {
    hide CloseBoth, Fill, Cancel, Fillable, PendingCount;
    var l := p.ledger;
    CancelChanges(l, cand.order);
    if action == Flip && OpenFor(l.wallet.positions, symbol).Some? {
      CloseChanges(c, l, symbol, bar.open, Signal, bar.ts);
    }
    var l1 := if action == Flip then SignalClose(c, l, symbol, bar.open, bar.ts) else l;
    FillChanges(c, l1, cand.order, bar.open, bar.ts);
  }

  lemma {:induction false} ExecutionChanges(c: CostFn, p: Progress, symbol: string, bar: Bar, cands: seq<Candidate>,
                                            actions: seq<FillAction>)
    requires |cands| == |actions|
    ensures
      var p' := Execute(c, p, symbol, bar, cands, actions);
      && p'.filled >= p.filled && p'.superseded >= p.superseded
      && Changed(p.ledger.store, p'.ledger.store, p'.filled - p.filled,
                 p'.filled - p.filled + p'.superseded - p.superseded, 0)
    decreases cands
  {
    hide ExecuteOne, PendingCount;
    if cands != [] {
      ActionChanges(c, p, symbol, bar, cands[0], actions[0]);
      ExecutionChanges(c, ExecuteOne(c, p, symbol, bar, cands[0], actions[0]), symbol, bar, cands[1..], actions[1..]);
    }
  }

  lemma BarChanges(c: CostFn, l: Ledger, symbol: string, bar: Bar, cands: seq<Candidate>, interval: Option<int>)
    ensures
      var r := ProcessBar(c, l, symbol, bar, cands, interval);
      Changed(l.store, r.ledger.store, r.filled, r.filled + r.superseded, if r.snapshotWritten then 1 else 0)
  {
    hide Execute, Restore, CloseBoth, PendingCount, SnapshotDue, Arbitrate;
    var l0, due := Restore(l), DueAt(cands, bar.ts);
    RestoreKeepsStore(l);
    ExecutionChanges(c, Progress(l0, 0, 0), symbol, bar, due, Arbitrate(OpenSide(l0.wallet, symbol), due));
    var p := FillsAtOpen(c, l0, symbol, bar, cands);
    var hit := ExitHit(p.ledger.wallet, symbol, bar.close);
    if hit.Some? {
      CloseChanges(c, p.ledger, symbol, hit.value.0, hit.value.1, bar.ts);
    }
  }

  lemma {:induction false} RunChanges(c: CostFn, cfg: Config, l: Ledger, stamps: seq<int>, bars: seq<Bar>,
                                      cands: seq<Candidate>)
    requires forall t :: t in stamps ==> t in Stamps(bars)
    ensures
      var n := RunCounts(c, cfg, l, stamps, bars, cands);
      Changed(l.store, RunBars(c, cfg, l, stamps, bars, cands).store, n.fills, n.fills + n.superseded, n.snapshots)
  {
    hide ProcessBar, PendingCount;
    if stamps != [] {
      var n := |stamps| - 1;
      assert forall t :: t in stamps[..n] ==> t in stamps;
      RunChanges(c, cfg, l, stamps[..n], bars, cands);
      assert stamps[n] in stamps;
      BarChanges(c, RunBars(c, cfg, l, stamps[..n], bars, cands), cfg.symbol, BarAt(bars, stamps[n]), cands, cfg.interval);
    }
  }

  /**
   * The report of a pass is what it did: so many positions were opened, so many orders left the queue as filled,
   * superseded or missing, so many snapshots were written.
   */
  lemma ReportIsChange(c: CostFn, cfg: Config, s: Store, candles: seq<Bar>)
    requires candles != []
    ensures
      var n := PassCounts(c, cfg, s, candles);
      Changed(s, Pass(c, cfg, s, candles), n.fills, n.fills + n.superseded + PassCancelled(cfg, s, candles), n.snapshots)
  {
    hide CancelAll, CancelCount, RunCounts, RunBars, Restore, PendingCount, UnitCandidates, LoadedBars,
         MissingBarCandidates;
    var cands, l := UnitCandidates(cfg, s), Restore(FreshLedger(s, cfg.startEquity, cfg.seed));
    var loaded := LoadedBars(cands, OpenIn(s, cfg.symbol), candles);
    var window := PassWindow(cfg, s, candles).bars;
    RestoreKeepsStore(FreshLedger(s, cfg.startEquity, cfg.seed));
    CancelAllChanges(l, MissingBarCandidates(cands, loaded, candles[|candles| - 1].ts));
    RunChanges(c, cfg, AfterMissing(cfg, s, candles), window, loaded, cands);
    assert window[..|window|] == window;
  }

  // ---- reported exits -----------------------------------------------------------------------

  /** Rows closed at their stop-loss or take-profit. */
  function ExitCount(rows: seq<PositionRow>): nat {
    if rows == [] then 0
    else
      var n := |rows| - 1;
      ExitCount(rows[..n]) + if rows[n].status.CLOSED? && rows[n].status.exitReason != Signal then 1 else 0
  }

  lemma {:induction false} ExitCountSet(rows: seq<PositionRow>, h: nat, r: PositionRow)
    requires h < |rows| && rows[h].status.OPEN?
    ensures
      ExitCount(rows[h := r]) == ExitCount(rows) + if r.status.CLOSED? && r.status.exitReason != Signal then 1 else 0
  {
    var n := |rows| - 1;
    if h == n {
      assert rows[h := r][..n] == rows[..n];
    } else {
      assert rows[h := r][..n] == rows[..n][h := r];
      ExitCountSet(rows[..n], h, r);
    }
  }

  lemma CloseExits(c: CostFn, l: Ledger, symbol: string, price: real, reason: ExitReason, ts: int)
    requires Sound(l) && OpenFor(l.wallet.positions, symbol).Some?
    ensures
      var l' := CloseBoth(c, l, symbol, price, reason, ts);
      Sound(l') && ExitCount(l'.store.positions) == ExitCount(l.store.positions) + if reason != Signal then 1 else 0
  {
    hide Sound, Grows;
    CloseKeeps(c, l, symbol, price, reason, ts);
    OpenAgrees(l, symbol);
    var h := FindOpen(l.store.positions, symbol).value;
    var t := TradeOf(c, l.wallet.seed, OpenFor(l.wallet.positions, symbol).value, price, reason, ts);
    CloseBothEffect(c, l, symbol, price, reason, ts, h, t);
    ExitCountSet(l.store.positions, h, ClosedRow(l.store.positions[h], t));
  }

  lemma FillExits(c: CostFn, l: Ledger, h: nat, price: real, ts: int)
    ensures ExitCount(Fill(c, l, h, price, ts).store.positions) == ExitCount(l.store.positions)
  {
    FillEffect(c, l, h, price, ts);
    var rows, rows' := l.store.positions, Fill(c, l, h, price, ts).store.positions;
    if rows' != rows {
      assert rows'[..|rows|] == rows;
    }
  }

  lemma CancelExits(l: Ledger, h: nat)
    ensures Cancel(l, h).store.positions == l.store.positions
  {
  }

  lemma ActionExits(c: CostFn, p: Progress, symbol: string, bar: Bar, cand: Candidate, action: FillAction)
    requires Sound(p.ledger)
    ensures
      var p' := ExecuteOne(c, p, symbol, bar, cand, action);
      Sound(p'.ledger) && ExitCount(p'.ledger.store.positions) == ExitCount(p.ledger.store.positions)
  {
    hide Sound, Grows, CloseBoth, Fill, Cancel, Fillable, ExitCount;
    var l := p.ledger;
    CancelKeeps(l, cand.order);
    CancelExits(l, cand.order);
    if action == Flip && OpenFor(l.wallet.positions, symbol).Some? {
      CloseExits(c, l, symbol, bar.open, Signal, bar.ts);
    }
    var l1 := if action == Flip then SignalClose(c, l, symbol, bar.open, bar.ts) else l;
    FillKeeps(c, l1, cand.order, bar.open, bar.ts);
    FillExits(c, l1, cand.order, bar.open, bar.ts);
  }

  lemma {:induction false} ExecutionExits(c: CostFn, p: Progress, symbol: string, bar: Bar, cands: seq<Candidate>,
                                          actions: seq<FillAction>)
    requires |cands| == |actions| && Sound(p.ledger)
    ensures
      var p' := Execute(c, p, symbol, bar, cands, actions);
      Sound(p'.ledger) && ExitCount(p'.ledger.store.positions) == ExitCount(p.ledger.store.positions)
    decreases cands
  {
    hide ExecuteOne, Sound;
    if cands != [] {
      ActionExits(c, p, symbol, bar, cands[0], actions[0]);
      ExecutionExits(c, ExecuteOne(c, p, symbol, bar, cands[0], actions[0]), symbol, bar, cands[1..], actions[1..]);
    }
  }

  lemma SoundStore(l: Ledger)
    requires Sound(l)
    ensures StoreSound(l.store)
  {
  }

  /** A bar reports an exit exactly when it closed a row at a threshold. */
  lemma BarExits(c: CostFn, l: Ledger, symbol: string, bar: Bar, cands: seq<Candidate>, interval: Option<int>)
    requires StoreSound(l.store)
    ensures
      var r := ProcessBar(c, l, symbol, bar, cands, interval);
      StoreSound(r.ledger.store) && ExitCount(r.ledger.store.positions) == ExitCount(l.store.positions) + r.exits
  {
    hide Sound, StoreSound, Grows, Execute, Restore, CloseBoth, SnapshotDue, Arbitrate, DueAt, ExitCount;
    var l0, due := Restore(l), DueAt(cands, bar.ts);
    RestoreKeepsStore(l);
    RestoreMirrors(l);
    ExecutionExits(c, Progress(l0, 0, 0), symbol, bar, due, Arbitrate(OpenSide(l0.wallet, symbol), due));
    var p := FillsAtOpen(c, l0, symbol, bar, cands);
    var hit := ExitHit(p.ledger.wallet, symbol, bar.close);
    if hit.Some? {
      CloseExits(c, p.ledger, symbol, hit.value.0, hit.value.1, bar.ts);
    }
    var l1 := ExitAt(c, p.ledger, symbol, bar.close, bar.ts);
    ValuationKeeps(l1, symbol, bar.close, bar.ts);
    ValuationKeeps(MarkPrice(l1, symbol, bar.close), symbol, bar.close, bar.ts);
    SoundStore(ProcessBar(c, l, symbol, bar, cands, interval).ledger);
  }

  lemma {:induction false} RunExits(c: CostFn, cfg: Config, l: Ledger, stamps: seq<int>, bars: seq<Bar>,
                                    cands: seq<Candidate>)
    requires StoreSound(l.store) && forall t :: t in stamps ==> t in Stamps(bars)
    ensures
      var s' := RunBars(c, cfg, l, stamps, bars, cands).store;
      StoreSound(s') &&
      ExitCount(s'.positions) == ExitCount(l.store.positions) + RunCounts(c, cfg, l, stamps, bars, cands).exits
  {
    hide ProcessBar, StoreSound, ExitCount;
    if stamps != [] {
      var n := |stamps| - 1;
      assert forall t :: t in stamps[..n] ==> t in stamps;
      RunExits(c, cfg, l, stamps[..n], bars, cands);
      assert stamps[n] in stamps;
      BarExits(c, RunBars(c, cfg, l, stamps[..n], bars, cands), cfg.symbol, BarAt(bars, stamps[n]), cands, cfg.interval);
    }
  }

  lemma {:induction false} CancelAllExits(l: Ledger, cands: seq<Candidate>)
    requires Sound(l)
    ensures Sound(CancelAll(l, cands)) && CancelAll(l, cands).store.positions == l.store.positions
    decreases cands
  {
    hide Sound, Cancel, Grows;
    if cands != [] {
      CancelKeeps(l, cands[0].order);
      CancelExits(l, cands[0].order);
      CancelAllExits(Cancel(l, cands[0].order), cands[1..]);
    }
  }

  /** The exits a pass reports are the rows it closed at a stop-loss or take-profit. */
  lemma ReportedExits(c: CostFn, cfg: Config, s: Store, candles: seq<Bar>)
    requires StoreSound(s) && candles != []
    ensures
      ExitCount(Pass(c, cfg, s, candles).positions) ==
      ExitCount(s.positions) + PassCounts(c, cfg, s, candles).exits
  {
    hide Sound, StoreSound, CancelAll, RunCounts, RunBars, Restore, ExitCount, UnitCandidates, LoadedBars,
         MissingBarCandidates;
    var cands, start := UnitCandidates(cfg, s), FreshLedger(s, cfg.startEquity, cfg.seed);
    var loaded := LoadedBars(cands, OpenIn(s, cfg.symbol), candles);
    var window := PassWindow(cfg, s, candles).bars;
    RestoreKeepsStore(start);
    RestoreMirrors(start);
    CancelAllExits(Restore(start), MissingBarCandidates(cands, loaded, candles[|candles| - 1].ts));
    SoundStore(AfterMissing(cfg, s, candles));
    RunExits(c, cfg, AfterMissing(cfg, s, candles), window, loaded, cands);
    assert window[..|window|] == window;
  }
}
