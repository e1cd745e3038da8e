/** What a restart recovers: everything but the cash that moved after the last snapshot. */
module Recovery {
  import opened Prelude
  import opened Paper
  import opened Ledger
  import opened LedgerInvariant
  import opened Lifecycle
  import opened CatchUp
  import opened Bars
  import opened Restart
  import opened EarlyBars

  // ---- reconciliation ---------------------------------------------------------------------

  ghost predicate OpenSymbol(ps: seq<Position>, symbol: string) {
    exists p :: p in ps && p.symbol == symbol
  }

  /** `PaperLifecycle.reconcile`: same open symbols and same pending orders in store and memory. */
  ghost predicate Reconciles(l: Ledger) {
    && (forall symbol :: OpenSymbol(OpenPositions(l.store.positions), symbol) <==> OpenSymbol(l.wallet.positions, symbol))
    && (forall h :: h in PendingOrders(l.store.orders) <==> h in l.pending)
  }

  lemma SameMembers(a: seq<Position>, b: seq<Position>)
    requires multiset(a) == multiset(b)
    ensures forall p :: p in a <==> p in b
  {
    forall p
      ensures p in a <==> p in b
    {
      assert p in multiset(a) <==> p in multiset(b);
    }
  }

  lemma SoundReconciles(l: Ledger)
    requires Sound(l)
    ensures Reconciles(l)
  {
    hide StoreSound, OpenPositions, ClosedTrades, PendingFrom, SortByKey;
    SameMembers(l.wallet.positions, OpenPositions(l.store.positions));
    PendingMembers(l.store.orders);
    SortKeepsBag(PendingFrom(l.store.orders), OrderKey(l.store.orders));
  }

  /** Reconciliation holds in every reachable state, so the abort it guards is never taken. */
  lemma EveryRunReconciles(c: CostFn, startEquity: real, seed: int, buckets: map<nat, int>, ops: seq<LedgerOp>)
    ensures Reconciles(Run(c, FreshLedger(Store([], [], [], buckets), startEquity, seed), ops))
  {
    EmptyLedgerSound(startEquity, seed, buckets);
    RunKeepsSound(c, FreshLedger(Store([], [], [], buckets), startEquity, seed), ops);
    SoundReconciles(Run(c, FreshLedger(Store([], [], [], buckets), startEquity, seed), ops));
  }

  // ---- restoring in mid-run ------------------------------------------------------------------

  ghost predicate SameHoldings(a: Ledger, b: Ledger) {
    && multiset(a.wallet.positions) == multiset(b.wallet.positions)
    && multiset(a.wallet.trades) == multiset(b.wallet.trades)
    && (forall h :: h in a.pending <==> h in b.pending)
  }

  /** Restoring a reachable ledger changes no position, trade or pending order. */
  lemma RestoreKeepsHoldings(l: Ledger)
    requires Sound(l)
    ensures SameHoldings(Restore(l), l) && Restore(l).store == l.store
  {
    RestoreMirrors(l);
  }

  predicate NoSnapshots(ops: seq<LedgerOp>) {
    forall op :: op in ops ==> !op.SnapshotOp?
  }

  /** The wallet's valuation is the latest snapshot's. */
  predicate ValuedAsLatest(l: Ledger) {
    var latest := LatestSnapshot(l.store.snapshots);
    && latest.Some? && l.wallet.equity == latest.value.equity && l.wallet.peakEquity == latest.value.peakEquity
    && l.wallet.maxDrawdownPct == latest.value.drawdownPct
  }

  lemma BetweenOne(c: CostFn, l: Ledger, op: LedgerOp)
    requires !op.SnapshotOp? && ValuedAsLatest(l)
    ensures Apply(c, l, op).store.snapshots == l.store.snapshots && ValuedAsLatest(Apply(c, l, op))
  {
    hide PositionOf, TradeOf, Observe, SortByKey, NewOrder, OpenPositions, ClosedTrades, PendingOrders, EntryMarks;
  }

  lemma {:induction false} BetweenSnapshots(c: CostFn, l: Ledger, ops: seq<LedgerOp>)
    requires NoSnapshots(ops) && ValuedAsLatest(l)
    ensures Run(c, l, ops).store.snapshots == l.store.snapshots && ValuedAsLatest(Run(c, l, ops))
  {
    hide ValuedAsLatest, Apply;
    if ops != [] {
      BetweenSnapshots(c, l, ops[..|ops| - 1]);
      assert ops[|ops| - 1] in ops;
      BetweenOne(c, Run(c, l, ops[..|ops| - 1]), ops[|ops| - 1]);
    }
  }

  lemma ReachesAfterSnapshot(c: CostFn, l: Ledger, ts: int, ops: seq<LedgerOp>)
    requires Sound(l)
    ensures Sound(Run(c, TakeSnapshot(l, ts), ops))
  {
    RunKeepsSound(c, TakeSnapshot(l, ts), ops);
  }

  /**
   * Restoring at any later moment of a run, before the next snapshot and after any number of restores: nothing changes
   * but cash, and cash goes back to what it was at the snapshot.
   */
  lemma RestoreAfterSnapshot(c: CostFn, l: Ledger, ts: int, ops: seq<LedgerOp>)
    requires Sound(l) && NoSnapshots(ops) && forall x :: x in l.store.snapshots ==> x.ts <= ts
    ensures
      var end := Run(c, TakeSnapshot(l, ts), ops);
      var back := Restore(end);
      && SameHoldings(back, end)
      && back.wallet.equity == end.wallet.equity && back.wallet.peakEquity == end.wallet.peakEquity
      && back.wallet.maxDrawdownPct == end.wallet.maxDrawdownPct
      && back.wallet.cash == l.wallet.cash
  {
    var snap := SnapshotOf(Observe(l.wallet), ts);
    ReachesAfterSnapshot(c, l, ts, ops);
    RestoreKeepsHoldings(Run(c, TakeSnapshot(l, ts), ops));
    LatestSnoc(l.store.snapshots, snap);
    BetweenSnapshots(c, TakeSnapshot(l, ts), ops);
  }

  // ---- what a snapshot says -----------------------------------------------------------------

  lemma {:induction false} NetSumConcat(a: seq<Trade>, b: seq<Trade>)
    ensures NetSum(a + b) == NetSum(a) + NetSum(b)
  {
    if b == [] {
      assert a + b == a;
    } else {
      NetSumConcat(a, b[..|b| - 1]);
      assert (a + b)[..|a + b| - 1] == a + b[..|b| - 1];
    }
  }

  lemma NetSumAround(a: seq<Trade>, t: Trade, b: seq<Trade>)
    ensures NetSum(a + [t] + b) == NetSum(a + b) + t.netPnl
  {
    NetSumConcat(a + [t], b);
    NetSumConcat(a, [t]);
    NetSumConcat(a, b);
    assert [t][..0] == [];
    assert NetSum([t]) == t.netPnl;
  }

  lemma BagAround(a: seq<Trade>, t: Trade, b: seq<Trade>)
    ensures multiset(a + [t] + b) == multiset(a + b) + multiset{t}
  {
  }

  /** The sum of the trade results does not depend on the order of the trades. */
  lemma {:induction false} NetSumOfBag(a: seq<Trade>, b: seq<Trade>)
    requires multiset(a) == multiset(b)
    ensures NetSum(a) == NetSum(b)
  {
    assert |multiset(a)| == |a| && |multiset(b)| == |b|;
    if a != [] {
      var n := |a| - 1;
      var t := a[n];
      assert a == a[..n] + [t];
      assert t in multiset(b);
      var k :| 0 <= k < |b| && b[k] == t;
      var before, behind := b[..k], b[k + 1..];
      assert b == before + [t] + behind;
      BagAround(before, t, behind);
      BagSnoc(a[..n], t);
      BagCancel(multiset(a[..n]), multiset(before + behind), t);
      NetSumOfBag(a[..n], before + behind);
      NetSumAround(before, t, behind);
    }
  }

  /** A snapshot balances: equity is cash plus open result, and the realized result is that of the store's closed rows. */
  lemma SnapshotBalances(l: Ledger, ts: int)
    requires Sound(l)
    ensures
      var l' := TakeSnapshot(l, ts);
      var snap := l'.store.snapshots[|l.store.snapshots|];
      && l'.store.snapshots == l.store.snapshots + [snap] && snap.ts == ts
      && snap.equity == snap.cash + snap.openPnl && snap.openPnl == OpenPnl(l.wallet.positions, l.wallet.lastMark)
      && snap.realizedPnl == NetSum(ClosedTrades(l.store.positions))
      && snap.peakEquity >= snap.equity
  {
    hide StoreSound;
    NetSumOfBag(l.wallet.trades, ClosedTrades(l.store.positions));
  }

  // ---- one bar ----------------------------------------------------------------------------

  lemma LatestOnWrite(snaps: seq<Snapshot>, x: Snapshot, interval: Option<int>)
    requires SnapshotDue(snaps, x.ts, interval)
    ensures LatestSnapshot(snaps + [x]) == Some(x)
  {
    LatestSnoc(snaps, x);
  }

  /** Cash in memory after a bar, and cash a fresh broker restores after it. */
  function MemoryCash(c: CostFn, cfg: Config, s: Store, b: Bar, cands: seq<Candidate>): real {
    BarOf(c, cfg, s, b, cands).ledger.wallet.cash
  }

  function RestoredCash(cfg: Config, s: Store): real {
    Restore(Fresh(cfg, s)).wallet.cash
  }

  /** Cash a close at this price brings. */
  function CloseCash(c: CostFn, seed: int, pos: Option<Position>, price: real): real {
    if pos.None? then 0.0 else Gross(pos.value, price) - RoundTripCost(c, seed, pos.value, price)
  }

  /** Cash of a threshold exit at this close, if there is one. */
  function ExitCash(c: CostFn, seed: int, pos: Option<Position>, close: real): real {
    if pos.None? || pos.value.ExitFor(close).None? then 0.0
    else CloseCash(c, seed, pos, pos.value.ExitFor(close).value.0)
  }

  /** Cash of the entry an order makes at the bar's open, after closing whatever is open. */
  function TurnCash(c: CostFn, seed: int, pos: Option<Position>, o: OrderRow, b: Bar): real {
    CloseCash(c, seed, pos, b.open) - FilledPosition(c, o, b).costs
  }

  function SideOf(pos: Option<Position>): Option<Direction> {
    if pos.None? then None else Some(pos.value.side)
  }

  /** The due order that acts, told from the store before the bar. */
  function ActingOrder(cfg: Config, s: Store, b: Bar, cands: seq<Candidate>): Option<OrderRow> {
    var due := DueAt(cands, b.ts);
    var k := ActingIndex(SideOf(OpenIn(s, cfg.symbol)), due);
    if k < |due| && due[k].order < |s.orders| then Some(s.orders[due[k].order]) else None
  }

  /** Cash the bar will move, told from the store before it. */
  function CashMove(c: CostFn, cfg: Config, s: Store, b: Bar, cands: seq<Candidate>): real {
    var pos, acting := OpenIn(s, cfg.symbol), ActingOrder(cfg, s, b, cands);
    if acting.None? then ExitCash(c, cfg.seed, pos, b.close)
    else
      TurnCash(c, cfg.seed, pos, acting.value, b) +
      ExitCash(c, cfg.seed, Some(FilledPosition(c, acting.value, b)), b.close)
  }

  lemma ActingWallet(c: CostFn, p: Progress, symbol: string, b: Bar, cand: Candidate, action: FillAction)
    requires Sound(p.ledger) && Waiting(p.ledger.store, cand) && cand.symbol == symbol
    requires action == if OpenFor(p.ledger.wallet.positions, symbol).None? then FillNow else Flip
    ensures
      var w, w' := p.ledger.wallet, ExecuteOne(c, p, symbol, b, cand, action).ledger.wallet;
      var o := p.ledger.store.orders[cand.order];
      w'.cash == w.cash + TurnCash(c, w.seed, OpenFor(w.positions, symbol), o, b) && w'.seed == o.seed
  {
    hide Grows, Mirrored;
    var l := p.ledger;
    if action == Flip {
      CloseKeeps(c, l, symbol, b.open, Signal, b.ts);
      var l1 := SignalClose(c, l, symbol, b.open, b.ts);
      assert Fillable(l1, cand.order);
      FillEffect(c, l1, cand.order, b.open, b.ts);
    } else {
      assert Fillable(l, cand.order);
      FillEffect(c, l, cand.order, b.open, b.ts);
    }
  }

  /** The fills of a bar move the cash of the one order that acts. */
  lemma {:induction false} ExecutionCash(c: CostFn, p: Progress, symbol: string, b: Bar, cands: seq<Candidate>)
    requires Sound(p.ledger) && AllWaiting(p.ledger.store, cands, symbol)
    requires ActingIndex(OpenSide(p.ledger.wallet, symbol), cands) < |cands|
    ensures
      var w, side := p.ledger.wallet, OpenSide(p.ledger.wallet, symbol);
      var o := p.ledger.store.orders[cands[ActingIndex(side, cands)].order];
      var w' := Execute(c, p, symbol, b, cands, Arbitrate(side, cands)).ledger.wallet;
      w'.cash == w.cash + TurnCash(c, w.seed, OpenFor(w.positions, symbol), o, b) && w'.seed == o.seed
    decreases cands
  {
    hide Sound, Grows, Executes, TurnCash, SignalClose, Fill;
    var side := OpenSide(p.ledger.wallet, symbol);
    var actions := Arbitrate(side, cands);
    OnlyOneActs(side, cands);
    assert Waiting(p.ledger.store, cands[0]) && cands[0].symbol == symbol;
    assert cands[..1] == [cands[0]];
    if side == Some(cands[0].side) {
      var p1 := ExecuteOne(c, p, symbol, b, cands[0], Superseded);
      SkipsFirst(c, p, p1, symbol, b, cands, 0);
      SupersededOne(c, p, symbol, b, cands[0]);
      assert actions[1..] == Arbitrate(side, cands[1..]);
      var k := ActingIndex(side, cands[1..]);
      assert cands[1..][k] == cands[k + 1];
      ExecutionCash(c, p1, symbol, b, cands[1..]);
    } else {
      var p1 := ExecuteOne(c, p, symbol, b, cands[0], actions[0]);
      ActingWallet(c, p, symbol, b, cands[0], actions[0]);
      ActingOne(c, p, symbol, b, cands[0], actions[0]);
      StillWaiting(p.ledger.store, p1.ledger.store, cands, symbol, 0);
      SupersededAll(c, p1, symbol, b, cands[1..], actions[1..]);
    }
  }

  lemma CloseOutCash(c: CostFn, cfg: Config, l: Ledger, b: Bar, filled: bool)
    ensures
      var l' := CloseOut(c, l, cfg.symbol, b, cfg.interval, filled);
      var pos := OpenFor(l.wallet.positions, cfg.symbol);
      && l'.wallet.cash == l.wallet.cash + ExitCash(c, l.wallet.seed, pos, b.close)
      && (if (filled || pos.Some?) && SnapshotDue(l.store.snapshots, b.ts, cfg.interval) then
            LatestSnapshot(l'.store.snapshots).Some? && LatestSnapshot(l'.store.snapshots).value.cash == l'.wallet.cash
          else l'.store.snapshots == l.store.snapshots)
  {
    var l1 := ExitAt(c, l, cfg.symbol, b.close, b.ts);
    assert l1.store.snapshots == l.store.snapshots;
    if SnapshotDue(l.store.snapshots, b.ts, cfg.interval) {
      LatestOnWrite(l.store.snapshots, SnapshotOf(Observe(MarkPrice(l1, cfg.symbol, b.close).wallet), b.ts), cfg.interval);
    }
  }

  /** What the fills at the open do to cash, and which position they leave to the close. */
  lemma FillsCash(c: CostFn, cfg: Config, s: Store, b: Bar, cands: seq<Candidate>)
    requires StoreSound(s) && Seeded(s, cfg.seed) && Ready(cfg, s, cands, b.ts)
    ensures
      var p := FillsAtOpen(c, Restore(Fresh(cfg, s)), cfg.symbol, b, cands);
      var pos, acting := OpenIn(s, cfg.symbol), ActingOrder(cfg, s, b, cands);
      && p.ledger.wallet.seed == cfg.seed && p.ledger.store.snapshots == s.snapshots
      && p.ledger.wallet.cash ==
         RestoredCash(cfg, s) + (if acting.None? then 0.0 else TurnCash(c, cfg.seed, pos, acting.value, b))
      && OpenFor(p.ledger.wallet.positions, cfg.symbol) ==
         (if acting.None? then pos else Some(FilledPosition(c, acting.value, b)))
      && (p.filled > 0 <==> acting.Some?)
  {
    hide StoreSound, Mirrored, Grows, Settles, Restore, DueAt, TurnCash;
    var l0, due := Restore(Fresh(cfg, s)), DueAt(cands, b.ts);
    assert l0.wallet.seed == cfg.seed by { RestoredSeed(cfg, s); }
    RestoreFacts(cfg, s);
    FillFacts(c, cfg, s, b, cands);
    ExecutionAgrees(c, Progress(l0, 0, 0), cfg.symbol, b, due);
    var k := ActingIndex(OpenSide(l0.wallet, cfg.symbol), due);
    if k < |due| {
      assert Waiting(s, due[k]);
      ExecutionCash(c, Progress(l0, 0, 0), cfg.symbol, b, due);
    }
  }

  lemma RestoredSeed(cfg: Config, s: Store)
    ensures Restore(Fresh(cfg, s)).wallet.seed == cfg.seed
  {
  }

  lemma RestoredFromLatest(cfg: Config, s: Store, s': Store)
    ensures LatestSnapshot(s'.snapshots).Some? ==> RestoredCash(cfg, s') == LatestSnapshot(s'.snapshots).value.cash
    ensures s'.snapshots == s.snapshots ==> RestoredCash(cfg, s') == RestoredCash(cfg, s)
  {
  }

  /** A bar moves the cash its pre-state foretells; a fresh broker sees it exactly when the bar was due a snapshot. */
  lemma BarCash(c: CostFn, cfg: Config, s: Store, b: Bar, cands: seq<Candidate>)
    requires StoreSound(s) && Seeded(s, cfg.seed) && Ready(cfg, s, cands, b.ts)
    ensures MemoryCash(c, cfg, s, b, cands) == RestoredCash(cfg, s) + CashMove(c, cfg, s, b, cands)
    ensures
      RestoredCash(cfg, StoreBar(c, cfg, s, b, cands)) ==
      RestoredCash(cfg, s) + (if SnapshotDue(s.snapshots, b.ts, cfg.interval) then CashMove(c, cfg, s, b, cands) else 0.0)
  {
    hide StoreSound, Sound, Ready, Seeded, CloseOut, FillsAtOpen, RestoredCash, TurnCash, ActingOrder, SnapshotDue,
         Restore;
    FillsCash(c, cfg, s, b, cands);
    BarIsFillsThenClose(c, cfg, s, b, cands);
    var p := FillsAtOpen(c, Restore(Fresh(cfg, s)), cfg.symbol, b, cands);
    CloseOutCash(c, cfg, p.ledger, b, p.filled > 0);
    RestoredFromLatest(cfg, s, StoreBar(c, cfg, s, b, cands));
  }

  /** A committed bar keeps its cash across a restart iff it was due a snapshot or its fills and exit move no cash. */
  lemma BarCashDurableIff(c: CostFn, cfg: Config, s: Store, b: Bar, cands: seq<Candidate>)
    requires StoreSound(s) && Seeded(s, cfg.seed) && Ready(cfg, s, cands, b.ts)
    ensures
      RestoredCash(cfg, StoreBar(c, cfg, s, b, cands)) == MemoryCash(c, cfg, s, b, cands) <==>
      SnapshotDue(s.snapshots, b.ts, cfg.interval) || CashMove(c, cfg, s, b, cands) == 0.0
  {
    hide RestoredCash, MemoryCash, CashMove, SnapshotDue;
    BarCash(c, cfg, s, b, cands);
  }

  // ---- a run of unit-bars, of any symbols -------------------------------------------------------

  /** One committed unit-bar of some unit of the account. */
  datatype UnitBar = UnitBar(cfg: Config, bar: Bar, cands: seq<Candidate>)

  function UnitRun(c: CostFn, s: Store, steps: seq<UnitBar>): Store {
    if steps == [] then s
    else
      var u := steps[|steps| - 1];
      StoreBar(c, u.cfg, UnitRun(c, s, steps[..|steps| - 1]), u.bar, u.cands)
  }

  /** All units trade one account, and the candidates of each bar are waiting when it comes. */
  ghost predicate UnitsReady(c: CostFn, account: Config, s: Store, steps: seq<UnitBar>) {
    forall i :: 0 <= i < |steps| ==> UnitReady(c, account, s, steps[..i], steps[i])
  }

  ghost predicate UnitReady(c: CostFn, account: Config, s: Store, before: seq<UnitBar>, u: UnitBar) {
    && u.cfg.seed == account.seed && u.cfg.startEquity == account.startEquity
    && Ready(u.cfg, UnitRun(c, s, before), u.cands, u.bar.ts)
  }

  /** Cash moved by the bars of the run, and the part of it moved on bars that were not due a snapshot. */
  function Moved(c: CostFn, s: Store, steps: seq<UnitBar>): real {
    if steps == [] then 0.0
    else
      var before, u := steps[..|steps| - 1], steps[|steps| - 1];
      Moved(c, s, before) + CashMove(c, u.cfg, UnitRun(c, s, before), u.bar, u.cands)
  }

  function Unvalued(c: CostFn, s: Store, steps: seq<UnitBar>): real {
    if steps == [] then 0.0
    else
      var before, u := steps[..|steps| - 1], steps[|steps| - 1];
      var mid := UnitRun(c, s, before);
      Unvalued(c, s, before) +
      if SnapshotDue(mid.snapshots, u.bar.ts, u.cfg.interval) then 0.0 else CashMove(c, u.cfg, mid, u.bar, u.cands)
  }

  lemma UnitsReadyPrefix(c: CostFn, account: Config, s: Store, steps: seq<UnitBar>)
    requires UnitsReady(c, account, s, steps) && steps != []
    ensures UnitsReady(c, account, s, steps[..|steps| - 1])
    ensures UnitReady(c, account, s, steps[..|steps| - 1], steps[|steps| - 1])
  {
    hide UnitReady;
    var before := steps[..|steps| - 1];
    forall i | 0 <= i < |before|
      ensures UnitReady(c, account, s, before[..i], before[i])
    {
      assert before[..i] == steps[..i];
    }
  }

  lemma SameAccountCash(cfg: Config, account: Config, s: Store)
    requires cfg.startEquity == account.startEquity
    ensures RestoredCash(cfg, s) == RestoredCash(account, s)
  {
  }

  /** Over any run of bars of any symbols, a restart has lost exactly the cash of the bars not due a snapshot. */
  lemma {:induction false} LostCash(c: CostFn, account: Config, s: Store, steps: seq<UnitBar>)
    requires StoreSound(s) && Seeded(s, account.seed) && UnitsReady(c, account, s, steps)
    ensures StoreSound(UnitRun(c, s, steps)) && Seeded(UnitRun(c, s, steps), account.seed)
    ensures
      RestoredCash(account, UnitRun(c, s, steps)) ==
      RestoredCash(account, s) + Moved(c, s, steps) - Unvalued(c, s, steps)
  {
    hide StoreSound, Seeded, UnitsReady, RestoredCash, CashMove, SnapshotDue, StoreBar, Ready;
    if steps != [] {
      var before, u := steps[..|steps| - 1], steps[|steps| - 1];
      UnitsReadyPrefix(c, account, s, steps);
      LostCash(c, account, s, before);
      var mid := UnitRun(c, s, before);
      SoundAfterBar(c, u.cfg, mid, u.bar, u.cands);
      BarCash(c, u.cfg, mid, u.bar, u.cands);
      SameAccountCash(u.cfg, account, mid);
      SameAccountCash(u.cfg, account, UnitRun(c, s, steps));
    }
  }

  lemma SoundAfterBar(c: CostFn, cfg: Config, s: Store, b: Bar, cands: seq<Candidate>)
    requires StoreSound(s) && Seeded(s, cfg.seed) && Ready(cfg, s, cands, b.ts)
    ensures StoreSound(StoreBar(c, cfg, s, b, cands)) && Seeded(StoreBar(c, cfg, s, b, cands), cfg.seed)
  {
    BarFacts(c, cfg, s, b, cands);
  }

  // ---- two symbols on one stamp -------------------------------------------------------------------

  const GBPUSD := "GBPUSD"

  function Pair(symbol: string): Config {
    Config(symbol, M5, 1000.0, 7, None, 24)
  }

  function LongOf(symbol: string, decision: nat): Request {
    Request(symbol, M5, LONG, 100.0, 10000.0, Some(decision), None, None, decision, 300)
  }

  function PairBar(): Bar {
    Bar(300, 100.0, 100.0)
  }

  function PairCand(symbol: string, decision: nat): Candidate {
    Candidate(decision, symbol, M5, LONG, 300, decision, 300)
  }

  /** Two decisions on bar 0 submitted, then each unit's bar 300 committed, each from a restored broker. */
  function PairStart(): Store {
    Submit(Submit(FreshLedger(Store([], [], [], map[0 := 0, 1 := 0]), 1000.0, 7), LongOf(EURUSD, 0)),
           LongOf(GBPUSD, 1)).store
  }

  function PairSteps(c: CostFn): seq<UnitBar> {
    var first := UnitBar(Pair(EURUSD), PairBar(), UnitCandidates(Pair(EURUSD), PairStart()));
    [first, UnitBar(Pair(GBPUSD), PairBar(), UnitCandidates(Pair(GBPUSD), UnitRun(c, PairStart(), [first])))]
  }

  function AfterFirst(c: CostFn): Store {
    StoreBar(c, Pair(EURUSD), PairStart(), PairBar(), UnitCandidates(Pair(EURUSD), PairStart()))
  }

  lemma PairStartRows()
    ensures StoreSound(PairStart()) && Seeded(PairStart(), 7)
    ensures
      PairStart() == Store([NewOrder(7, LongOf(EURUSD, 0)), NewOrder(7, LongOf(GBPUSD, 1))], [], [], map[0 := 0, 1 := 0])
  {
    TwoAccepted(map[0 := 0, 1 := 0], LongOf(EURUSD, 0), LongOf(GBPUSD, 1));
  }

  lemma PairCandidates(s: Store, symbol: string, decision: nat)
    requires StoreSound(s) && |s.orders| == 2 && decision < 2 && s.buckets == map[0 := 0, 1 := 0]
    requires s.orders[decision] == NewOrder(7, LongOf(symbol, decision)) && s.orders[1 - decision].symbol != symbol
    ensures forall x :: x in UnitCandidates(Pair(symbol), s) <==> x == PairCand(symbol, decision)
    ensures Orderly(UnitCandidates(Pair(symbol), s), symbol)
  {
    hide StoreSound, UnitCandidates, Orderly;
    UnitCandidatesExact(Pair(symbol), s);
    forall x
      ensures UnitOrder(Pair(symbol), s, x) <==> x == PairCand(symbol, decision)
    {
      assert IsPending(s.orders, x.order) ==> x.order == decision || x.order == 1 - decision;
    }
  }

  lemma FirstLeg(c: CostFn)
    ensures LoneOrder(c, Pair(EURUSD), PairStart(), PairBar(), UnitCandidates(Pair(EURUSD), PairStart()),
                      PairCand(EURUSD, 0))
    ensures
      var s := AfterFirst(c);
      && StoreSound(s) && Seeded(s, 7) && |s.orders| == 2 && s.buckets == map[0 := 0, 1 := 0]
      && s.orders[1] == NewOrder(7, LongOf(GBPUSD, 1)) && s.orders[0].symbol == EURUSD
      && s.orders[0].status == FILLED && s.snapshots != [] && LatestStamp(s.snapshots) == Some(300)
  {
    hide StoreSound, UnitCandidates, Orderly, Grows, Stamped, PairStart, StoreBar;
    PairStartRows();
    var cfg, s, b, a := Pair(EURUSD), PairStart(), PairBar(), PairCand(EURUSD, 0);
    PairCandidates(s, EURUSD, 0);
    var cands := UnitCandidates(cfg, s);
    LoneFill(c, cfg, s, b, cands, a);
    assert [a][0] == a;
    GrownOrder(s, AfterFirst(c), 0);
    ValuedAt(s, AfterFirst(c), 300);
  }

  lemma GrownOrder(s: Store, s': Store, h: nat)
    requires Grows(s, s') && h < |s.orders|
    ensures s'.orders[h].symbol == s.orders[h].symbol && s'.buckets == s.buckets
  {
    assert OrderEvolves(s.orders[h], s'.orders[h]);
  }

  lemma OtherNotOpen(s: Store, symbol: string, h: nat)
    requires StoreSound(s) && forall i :: 0 <= i < |s.orders| && i != h ==> s.orders[i].symbol != symbol
    requires IsPending(s.orders, h)
    ensures OpenIn(s, symbol).None?
  {
    forall i | 0 <= i < |s.positions|
      ensures s.positions[i].symbol != symbol
    {
      WaitingHasNoRow(s, h, i);
      assert FillOf(s.orders[s.positions[i].orderId], s.positions[i]);
    }
  }

  lemma SecondLeg(c: CostFn)
    ensures LoneOrder(c, Pair(GBPUSD), AfterFirst(c), PairBar(), UnitCandidates(Pair(GBPUSD), AfterFirst(c)),
                      PairCand(GBPUSD, 1))
  {
    hide StoreSound, UnitCandidates, Orderly, AfterFirst, OpenIn, LatestStamp;
    FirstLeg(c);
    var s := AfterFirst(c);
    PairCandidates(s, GBPUSD, 1);
    OtherNotOpen(s, GBPUSD, 1);
  }

  lemma LoneCash(c: CostFn, cfg: Config, s: Store, b: Bar, cands: seq<Candidate>, a: Candidate)
    requires LoneOrder(c, cfg, s, b, cands, a)
    ensures CashMove(c, cfg, s, b, cands) == -FilledPosition(c, s.orders[a.order], b).costs
  {
    LoneDue(c, cfg, s, b, cands, a);
  }

  /**
   * Two symbols filled on one stamp: the account is valued after the first, so the second entry's cost is in no
   * snapshot. The position is open with that cost on its row, and a restored broker has the money back.
   */
  lemma SecondFillIsFree(c: CostFn)
    ensures
      var cost := c(100.0, 7, GBPUSD, LONG, 1000000.0) * 10000.0;
      var s1, s2 := AfterFirst(c), UnitRun(c, PairStart(), PairSteps(c));
      && UnitsReady(c, Pair(EURUSD), PairStart(), PairSteps(c))
      && OpenIn(s2, GBPUSD) == Some(Position(GBPUSD, M5, 10000.0, 100.0, 300, LONG, None, None, cost))
      && MemoryCash(c, Pair(GBPUSD), s1, PairBar(), UnitCandidates(Pair(GBPUSD), s1)) ==
         RestoredCash(Pair(GBPUSD), s1) - cost
      && RestoredCash(Pair(GBPUSD), s2) == RestoredCash(Pair(GBPUSD), s1)
      && Unvalued(c, PairStart(), PairSteps(c)) == -cost
  {
    hide StoreSound, UnitCandidates, Orderly, OpenIn, StoreBar, MemoryCash, RestoredCash, CashMove, LoneOrder,
         PairStart, Settles, Stamped, Grows;
    var cfg, s1, b := Pair(GBPUSD), AfterFirst(c), PairBar();
    var cands := UnitCandidates(cfg, s1);
    PairStartRows();
    FirstLeg(c);
    SecondLeg(c);
    LoneDue(c, Pair(EURUSD), PairStart(), b, UnitCandidates(Pair(EURUSD), PairStart()), PairCand(EURUSD, 0));
    LoneDue(c, cfg, s1, b, cands, PairCand(GBPUSD, 1));
    LoneFill(c, cfg, s1, b, cands, PairCand(GBPUSD, 1));
    LoneCash(c, cfg, s1, b, cands, PairCand(GBPUSD, 1));
    BarCash(c, cfg, s1, b, cands);
    PairRun(c);
  }

  lemma PairRun(c: CostFn)
    ensures
      var steps, s1 := PairSteps(c), AfterFirst(c);
      && steps[..0] == [] && steps[..1] == [steps[0]]
      && UnitRun(c, PairStart(), steps[..1]) == s1
      && steps[1] == UnitBar(Pair(GBPUSD), PairBar(), UnitCandidates(Pair(GBPUSD), s1))
      && UnitRun(c, PairStart(), steps) == StoreBar(c, Pair(GBPUSD), s1, PairBar(), UnitCandidates(Pair(GBPUSD), s1))
      && Unvalued(c, PairStart(), steps) ==
         (if SnapshotDue(PairStart().snapshots, 300, None) then 0.0
          else CashMove(c, Pair(EURUSD), PairStart(), PairBar(), UnitCandidates(Pair(EURUSD), PairStart()))) +
         (if SnapshotDue(s1.snapshots, 300, None) then 0.0
          else CashMove(c, Pair(GBPUSD), s1, PairBar(), UnitCandidates(Pair(GBPUSD), s1)))
  {
    hide StoreBar, UnitCandidates, PairStart, CashMove, SnapshotDue;
    var steps := PairSteps(c);
    assert steps[..0] == [] && steps[..1] == [steps[0]] && [steps[0]][..0] == [];
    assert UnitRun(c, PairStart(), []) == PairStart();
    assert Unvalued(c, PairStart(), []) == 0.0;
    assert UnitRun(c, PairStart(), [steps[0]]) == AfterFirst(c);
  }
}
