/** The lifecycle, the orchestrator's unit pass and the backtest loop as methods over the brokers. */
module Services {
  import opened Prelude
  import opened Paper
  import opened Ledger
  import opened LedgerInvariant
  import opened Lifecycle
  import opened CatchUp
  import opened Counters
  import opened PaperBrokers
  import opened LedgerBrokers
  import D = Driver

  /** What a unit-bar did. */
  datatype BarCounts = BarCounts(filled: nat, exits: nat, superseded: nat, snapshotWritten: bool)

  /** One round of the arbitration loop moves one action from the rest to the done. */
  lemma ArbitrateOneMore(done: seq<FillAction>, current: Option<Direction>, filled: bool, cands: seq<Candidate>, i: nat)
    requires i < |cands|
    ensures
      var (action, current', filled') := ArbitrateOne(current, filled, cands[i].side);
      done + ArbitrateFrom(current, filled, cands[i..]) ==
        (done + [action]) + ArbitrateFrom(current', filled', cands[i + 1..])
  {
    assert cands[i..][1..] == cands[i + 1..];
  }

  method ArbitrateFills(openSide: Option<Direction>, cands: seq<Candidate>) returns (actions: seq<FillAction>)
    ensures actions == Arbitrate(openSide, cands)
  {
    hide ArbitrateFrom;
    var current, filled, i := openSide, false, 0;
    actions := [];
    assert cands[0..] == cands;
    while i < |cands|
      invariant 0 <= i <= |cands|
      invariant actions + ArbitrateFrom(current, filled, cands[i..]) == Arbitrate(openSide, cands)
    {
      ArbitrateOneMore(actions, current, filled, cands, i);
      var side := cands[i].side;
      if current.None? && !filled {
        actions := actions + [FillNow];
        current, filled := Some(side), true;
      } else if current == Some(side) {
        actions := actions + [Superseded];
      } else if current.Some? && !filled {
        actions := actions + [Flip];
        current, filled := Some(side), true;
      } else {
        actions := actions + [Superseded];
      }
      i := i + 1;
    }
    assert ArbitrateFrom(current, filled, cands[i..]) == [];
  }

  lemma ResolveOneMore(s: Store, done: seq<Candidate>, handles: seq<nat>, i: nat)
    requires i < |handles|
    ensures
      var h := handles[i];
      var now := if h < |s.orders| && Resolve(s, h).Some? then done + [Resolve(s, h).value] else done;
      done + ResolveAll(s, handles[i..]) == now + ResolveAll(s, handles[i + 1..])
  {
    assert handles[i..][1..] == handles[i + 1..];
  }

  lemma NoneToResolve(s: Store, handles: seq<nat>, i: nat)
    requires i == |handles|
    ensures ResolveAll(s, handles[i..]) == []
  {
  }

  class PaperLifecycle {
    const broker: LedgerBroker
    const snapshotInterval: Option<int>

    constructor (broker: LedgerBroker, snapshotInterval: Option<int>)
      ensures this.broker == broker && this.snapshotInterval == snapshotInterval
    {
      this.broker, this.snapshotInterval := broker, snapshotInterval;
    }

    /** Pending orders with a resolvable fill bar, by fill bar, then age. */
    method Candidates() returns (cands: seq<Candidate>)
      ensures cands == PendingCandidates(broker.store.View())
    {
      var handles := broker.store.ListPendingOrders();
      ghost var s := broker.store.View();
      hide ResolveAll, Resolve;
      var resolved, i := [], 0;
      assert handles[0..] == handles;
      while i < |handles|
        invariant 0 <= i <= |handles| && broker.store.View() == s
        invariant resolved + ResolveAll(s, handles[i..]) == ResolveAll(s, handles)
      {
        ResolveOneMore(s, resolved, handles, i);
        if handles[i] < |broker.store.orders| {
          var bucket := Resolve(broker.store.View(), handles[i]);
          if bucket.Some? {
            resolved := resolved + [bucket.value];
          }
        }
        i := i + 1;
      }
      NoneToResolve(s, handles, i);
      assert resolved + [] == resolved;
      cands := SortByKey(resolved, CandidateKey());
    }

    method SnapshotIsDue(ts: int) returns (due: bool)
      ensures due == SnapshotDue(broker.store.snapshots, ts, snapshotInterval)
    {
      var latest := broker.store.Latest();
      if latest.None? {
        return true;
      }
      var withinInterval := snapshotInterval.Some? && ts < latest.value.ts + snapshotInterval.value;
      due := !(latest.value.ts >= ts || withinInterval);
    }

    /** Fills and flips of the due candidates at the bar's open. */
    method FillDue(symbol: string, bar: Bar, cands: seq<Candidate>) returns (filled: nat, superseded: nat)
      modifies broker.Repr
      ensures
        Progress(broker.View(), filled, superseded) ==
          FillsAtOpen(broker.paper.cost, old(broker.View()), symbol, bar, cands)
    {
      hide Fill, Cancel, SignalClose, Fillable, DueAt, Arbitrate, FindOpen;
      var open := broker.paper.positions.Find(symbol);
      var due := DueAt(cands, bar.ts);
      var actions := ArbitrateFills(if open.None? then None else Some(open.value.side), due);
      filled, superseded := 0, 0;
      var i := 0;
      while i < |due|
        invariant 0 <= i <= |due| == |actions|
        invariant
          Execute(broker.paper.cost, Progress(broker.View(), filled, superseded), symbol, bar, due[i..], actions[i..]) ==
          FillsAtOpen(broker.paper.cost, old(broker.View()), symbol, bar, cands)
      {
        assert due[i..][1..] == due[i + 1..] && actions[i..][1..] == actions[i + 1..];
        ghost var p := Progress(broker.View(), filled, superseded);
        if actions[i] == Superseded {
          var cancelled := broker.CancelPending(due[i].order);
          superseded := superseded + if cancelled then 1 else 0;
        } else {
          if actions[i] == Flip {
            var _ := broker.CloseAtSignal(symbol, bar.open, bar.ts);
          }
          var done := broker.FillPending(due[i].order, bar.open, bar.ts);
          filled := filled + if done then 1 else 0;
        }
        assert Progress(broker.View(), filled, superseded) ==
          ExecuteOne(broker.paper.cost, p, symbol, bar, due[i], actions[i]);
        i := i + 1;
      }
    }

    /** One unit-bar: restore, fill or flip at the open, exit at the close, mark, snapshot. */
    method ProcessUnitBar(symbol: string, bar: Bar, cands: seq<Candidate>) returns (counts: BarCounts)
      modifies broker.Repr
      ensures
        var r := ProcessBar(broker.paper.cost, old(broker.View()), symbol, bar, cands, snapshotInterval);
        broker.View() == r.ledger && counts == BarCounts(r.filled, r.exits, r.superseded, r.snapshotWritten)
    {
      broker.RestoreState();
      var filled, superseded := FillDue(symbol, bar, cands);
      var exited := broker.ExitOnClose(symbol, bar.close, bar.ts);
      broker.MarkPosition(symbol, bar.close);
      var open := broker.paper.positions.Find(symbol);
      var written := false;
      if filled > 0 || exited || open.Some? {
        written := SnapshotIsDue(bar.ts);
        if written {
          broker.EquitySnapshot(bar.ts);
        }
      }
      counts := BarCounts(filled, if exited then 1 else 0, superseded, written);
    }
  }

  // ---- the unit pass ----------------------------------------------------------------------

  lemma {:induction false} OpenForSnoc(ps: seq<Position>, p: Position, symbol: string)
    ensures
      OpenFor(ps + [p], symbol) ==
      if OpenFor(ps, symbol).Some? then OpenFor(ps, symbol) else if p.symbol == symbol then Some(p) else None
  {
    if ps != [] {
      assert (ps + [p])[1..] == ps[1..] + [p];
      OpenForSnoc(ps[1..], p, symbol);
    }
  }

  /** Looking a symbol up among the restored positions finds the store's first OPEN row. */
  lemma {:induction false} RestoredOpen(rows: seq<PositionRow>, symbol: string)
    ensures
      OpenFor(OpenPositions(rows), symbol) ==
      if FindOpen(rows, symbol).None? then None else Some(ToPosition(rows[FindOpen(rows, symbol).value]))
  {
    if rows != [] {
      var n := |rows| - 1;
      var before := OpenPositions(rows[..n]);
      RestoredOpen(rows[..n], symbol);
      if rows[n].status.OPEN? {
        OpenForSnoc(before, ToPosition(rows[n]), symbol);
      } else {
        assert OpenPositions(rows) == before;
        assert FindOpen(rows, symbol) == FindOpen(rows[..n], symbol);
      }
    }
  }

  /** What a fresh broker finds for a unit. */
  lemma RestoredUnit(cfg: Config, s: Store)
    ensures
      var l := Restore(FreshLedger(s, cfg.startEquity, cfg.seed));
      l.store == s && OpenFor(l.wallet.positions, cfg.symbol) == OpenIn(s, cfg.symbol)
  {
    RestoredOpen(s.positions, cfg.symbol);
  }

  function OpenUnits(rows: seq<PositionRow>): set<(string, Timeframe)> {
    set k | 0 <= k < |rows| && rows[k].status.OPEN? :: (rows[k].symbol, rows[k].timeframe)
  }

  lemma NoOpenUnits()
    ensures OpenUnits([]) == {}
  {
  }

  lemma OpenUnitsSnoc(rows: seq<PositionRow>, i: nat)
    requires i < |rows|
    ensures
      OpenUnits(rows[..i + 1]) ==
      OpenUnits(rows[..i]) + (if rows[i].status.OPEN? then {(rows[i].symbol, rows[i].timeframe)} else {})
  {
    assert forall k :: 0 <= k < i ==> rows[..i][k] == rows[k] && rows[..i + 1][k] == rows[k];
  }

  lemma DiscoveredUnit(unit: Config, s: Store, cands: seq<Candidate>, waiting: set<(string, Timeframe)>)
    requires cands == PendingCandidates(s)
    requires waiting == set k | 0 <= k < |cands| :: (cands[k].symbol, cands[k].timeframe)
    ensures (unit.symbol, unit.timeframe) in waiting + OpenUnits(s.positions) <==> Discovered(unit, s)
  {
    hide PendingCandidates;
    var own := UnitCandidates(unit, s);
    if own != [] {
      assert own[0] in own;
      var k :| 0 <= k < |cands| && cands[k] == own[0];
    }
    if k :| 0 <= k < |cands| && cands[k].symbol == unit.symbol && cands[k].timeframe == unit.timeframe {
      assert cands[k] in own;
    }
  }

  class Orchestrator {
    const cost: CostFn
    const cfg: Config

    constructor (cost: CostFn, cfg: Config) {
      this.cost, this.cfg := cost, cfg;
    }

    /** Cancel a list of orders one by one. */
    method CancelEach(broker: LedgerBroker, cands: seq<Candidate>) returns (cancelled: nat)
      modifies broker.Repr
      ensures broker.View() == CancelAll(old(broker.View()), cands)
      ensures cancelled == CancelCount(old(broker.View()), cands)
    {
      cancelled := 0;
      var i := 0;
      while i < |cands|
        invariant 0 <= i <= |cands|
        invariant CancelAll(broker.View(), cands[i..]) == CancelAll(old(broker.View()), cands)
        invariant cancelled + CancelCount(broker.View(), cands[i..]) == CancelCount(old(broker.View()), cands)
      {
        assert cands[i..][1..] == cands[i + 1..];
        var done := broker.CancelPending(cands[i].order);
        cancelled := cancelled + if done then 1 else 0;
        i := i + 1;
      }
    }

    /** Process the bars of a window in order, each from a restored broker. */
    method ProcessWindow(lifecycle: PaperLifecycle, window: seq<int>, bars: seq<Bar>, cands: seq<Candidate>)
      returns (processed: nat, counts: Counts)
      requires lifecycle.snapshotInterval == cfg.interval && lifecycle.broker.paper.cost == cost
      requires forall t :: t in window ==> t in Stamps(bars)
      modifies lifecycle.broker.Repr
      ensures lifecycle.broker.View() == RunBars(cost, cfg, old(lifecycle.broker.View()), window, bars, cands)
      ensures processed == |window| && counts == RunCounts(cost, cfg, old(lifecycle.broker.View()), window, bars, cands)
    {
      hide ProcessBar, RunBars, RunCounts, BarAt;
      ghost var start := lifecycle.broker.View();
      NoWindow(cost, cfg, start, bars, cands);
      assert window[..0] == [];
      processed, counts := 0, NOTHING;
      while processed < |window|
        invariant 0 <= processed <= |window|
        invariant
          forall t :: t in window[..processed] ==> t in Stamps(bars)
        invariant
          lifecycle.broker.View() == RunBars(cost, cfg, start, window[..processed], bars, cands)
        invariant counts == RunCounts(cost, cfg, start, window[..processed], bars, cands)
      {
        WindowStep(cost, cfg, start, window, processed, bars, cands);
        var r := lifecycle.ProcessUnitBar(cfg.symbol, BarAt(bars, window[processed]), cands);
        counts := Counts(counts.fills + r.filled, counts.exits + r.exits, counts.superseded + r.superseded,
                         counts.snapshots + if r.snapshotWritten then 1 else 0);
        processed := processed + 1;
      }
      assert window[..processed] == window;
    }

    /** One pass over a unit from a fresh broker; the candles are the unit's closed ones. */
    method ProcessUnit(store: LedgerStore, candles: seq<Bar>)
      returns (processed: nat, depth: nat, counts: Counts, cancelled: nat)
      modifies store
      ensures store.View() == Pass(cost, cfg, old(store.View()), candles)
      ensures
        candles != [] ==>
          var w := PassWindow(cfg, old(store.View()), candles);
          && processed == |w.bars| && depth == w.depth
          && counts == PassCounts(cost, cfg, old(store.View()), candles)
          && cancelled == PassCancelled(cfg, old(store.View()), candles)
      ensures candles == [] ==> processed == depth == cancelled == 0 && counts == NOTHING
    {
      hide CancelAll, CancelCount, RunBars, RunCounts, Restore, OutstandingStamps, LoadedBars, MissingBarCandidates,
           PendingCandidates, OfUnit, FindOpen, OpenPositions, OpenFor, CatchupWindow;
      ghost var s := store.View();
      var broker := new LedgerBroker(store, cost, cfg.startEquity, cfg.seed);
      var lifecycle := new PaperLifecycle(broker, cfg.interval);
      broker.RestoreState();
      RestoredUnit(cfg, s);
      var all := lifecycle.Candidates();
      var cands := OfUnit(all, cfg.symbol, cfg.timeframe);
      if candles == [] {
        return 0, 0, NOTHING, 0;
      }
      var current := broker.paper.positions.Find(cfg.symbol);
      assert current == OpenIn(s, cfg.symbol) && cands == UnitCandidates(cfg, s);
      var loaded := LoadedBars(cands, current, candles);
      cancelled := CancelEach(broker, MissingBarCandidates(cands, loaded, candles[|candles| - 1].ts));
      var stamps := OutstandingStamps(cands, loaded, current);
      ghost var w := PassWindow(cfg, s, candles);
      var window := CatchupWindow(stamps, cfg.maxBars);
      assert window == w;
      depth := window.depth;
      processed, counts := ProcessWindow(lifecycle, window.bars, loaded, cands);
      assert w.bars[..|w.bars|] == w.bars;
    }

    /** The units a cycle visits: those of waiting orders with a known fill bar, and those of open positions. */
    method DiscoverUnits(store: LedgerStore) returns (units: set<(string, Timeframe)>)
      modifies store
      ensures store.View() == old(store.View())
      ensures
        forall symbol, timeframe ::
          (symbol, timeframe) in units <==> Discovered(cfg.(symbol := symbol, timeframe := timeframe), store.View())
    {
      hide Restore, PendingCandidates, OfUnit, Discovered, OpenUnits, FindOpen, OpenPositions, OpenFor;
      NoOpenUnits();
      ghost var s := store.View();
      var broker := new LedgerBroker(store, cost, cfg.startEquity, cfg.seed);
      var lifecycle := new PaperLifecycle(broker, cfg.interval);
      broker.RestoreState();
      RestoredUnit(cfg, s);
      var cands := lifecycle.Candidates();
      units := {};
      var i := 0;
      while i < |cands|
        invariant 0 <= i <= |cands|
        invariant units == set k | 0 <= k < i :: (cands[k].symbol, cands[k].timeframe)
      {
        units := units + {(cands[i].symbol, cands[i].timeframe)};
        i := i + 1;
      }
      ghost var waiting := units;
      i := 0;
      while i < |store.positions|
        invariant 0 <= i <= |store.positions| && store.View() == s
        invariant units == waiting + OpenUnits(s.positions[..i])
      {
        OpenUnitsSnoc(s.positions, i);
        if store.positions[i].status.OPEN? {
          units := units + {(store.positions[i].symbol, store.positions[i].timeframe)};
        }
        i := i + 1;
      }
      assert s.positions[..i] == s.positions;
      forall symbol, timeframe
        ensures (symbol, timeframe) in units <==> Discovered(cfg.(symbol := symbol, timeframe := timeframe), s)
      {
        DiscoveredUnit(cfg.(symbol := symbol, timeframe := timeframe), s, cands, waiting);
      }
    }

    /** A cycle, as far as this unit is concerned: a pass over it if discovery finds it. */
    method ProcessLifecycle(store: LedgerStore, candles: seq<Bar>)
      modifies store
      ensures store.View() == Cycle(cost, cfg, old(store.View()), candles)
    {
      hide Discovered, Pass, PassWindow, PassCounts, PassCancelled;
      var units := DiscoverUnits(store);
      if (cfg.symbol, cfg.timeframe) in units {
        var _, _, _, _ := ProcessUnit(store, candles);
      }
    }
  }

  // ---- the backtest loop ------------------------------------------------------------------

  class BacktestDriver {
    const broker: PaperBroker
    const timeframe: Timeframe
    var pendingFills: map<string, D.PendingFill>
    var equityPoints: seq<(int, real)>

    constructor (broker: PaperBroker, timeframe: Timeframe)
      ensures this.broker == broker && this.timeframe == timeframe && pendingFills == map[] && equityPoints == []
    {
      this.broker, this.timeframe := broker, timeframe;
      pendingFills, equityPoints := map[], [];
    }

    /** The loop state of one symbol. */
    ghost function View(symbol: string): D.Run
      reads this, broker, broker.positions
    {
      D.Run(broker.View(), if symbol in pendingFills then Some(pendingFills[symbol]) else None, equityPoints)
    }

    method ScheduleFill(symbol: string, totalBars: nat, i: nat, intent: D.Intent)
      modifies this
      ensures equityPoints == old(equityPoints)
      ensures
        var act := D.ScheduleFill(broker.View(), symbol, i + 1 >= totalBars, intent);
        pendingFills == if act.Some? then old(pendingFills)[symbol := act.value] else old(pendingFills)
    {
      if i + 1 >= totalBars {
        return;
      }
      var current := broker.positions.Find(symbol);
      if intent.direction == FLAT {
        return;
      }
      if current.Some? && current.value.side == intent.direction {
        return;
      }
      var act := D.PendingFill(current.Some?, intent.direction, intent.units, intent.stopLoss, intent.takeProfit);
      pendingFills := pendingFills[symbol := act];
    }

    method ApplyFill(symbol: string, act: D.PendingFill, price: real, ts: int)
      modifies broker, broker.positions
      ensures broker.View() == D.ApplyFill(broker.cost, old(broker.View()), symbol, timeframe, act, price, ts)
    {
      if act.closeExisting {
        var _ := broker.CloseAtSignal(symbol, price, ts);
      }
      broker.EnterAtNextOpen(
        Entry(symbol, timeframe, act.direction, price, ts, act.stopLoss, act.takeProfit, Some(act.units)));
    }

    /** One bar: pending fill at the open, exit at the close, decision, mark and valuation. */
    method ProcessBar(symbol: string, decide: D.Decider, bars: seq<Bar>, i: nat)
      requires i < |bars|
      modifies this, broker, broker.positions
      ensures View(symbol) == D.StepBar(broker.cost, symbol, timeframe, decide, bars, i, old(View(symbol)))
    {
      hide D.ApplyFill, EvaluateExit, Mark, TotalEquity, D.RecordEquity;
      var bar := bars[i];
      if symbol in pendingFills {
        var act := pendingFills[symbol];
        pendingFills := pendingFills - {symbol};
        ApplyFill(symbol, act, bar.open, bar.ts);
      }
      var _ := broker.ExitOnClose(symbol, bar.close, bar.ts);
      var intent := decide(bars[..i + 1], broker.View());
      if intent.Some? {
        ScheduleFill(symbol, |bars|, i, intent.value);
      }
      broker.MarkPosition(symbol, bar.close);
      var equity := broker.State();
      equityPoints := D.RecordEquity(equityPoints, bar.ts, equity);
    }

    /** The loop over one symbol's bars of the fill timeframe. */
    method RunFine(symbol: string, decide: D.Decider, bars: seq<Bar>)
      modifies this, broker, broker.positions
      ensures View(symbol) == D.RunFrom(broker.cost, symbol, timeframe, decide, old(View(symbol)), bars, |bars|)
    {
      hide D.StepBar;
      var i := 0;
      while i < |bars|
        invariant 0 <= i <= |bars|
        invariant View(symbol) == D.RunFrom(broker.cost, symbol, timeframe, decide, old(View(symbol)), bars, i)
      {
        ProcessBar(symbol, decide, bars, i);
        i := i + 1;
      }
    }
  }
}
