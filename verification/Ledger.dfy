/**
 * The paper ledger: order, position and snapshot rows, and the effect of every `LedgerBroker` operation on the store,
 * on the wrapped wallet and on the pending queue. A row's index in its table is its handle (the session's reference to
 * it); `uid` is its primary key.
 */
module Ledger {
  import opened Prelude
  import opened Paper

  datatype OrderStatus = PENDING | FILLED | CANCELLED | REJECTED

  datatype OrderRow = OrderRow(
    uid: nat, createdAt: int, decisionId: Option<nat>, symbol: string, timeframe: Timeframe, side: Direction,
    status: OrderStatus, units: real, requestedPrice: real, filledPrice: Option<real>, costs: real,
    stopLoss: Option<real>, takeProfit: Option<real>, seed: int, filledAt: Option<int>)

  datatype PositionStatus =
    | OPEN
    | CLOSED(exitPrice: real, exitTs: int, exitReason: ExitReason, grossPnl: real, netPnl: real)

  datatype PositionRow = PositionRow(
    orderId: nat, symbol: string, timeframe: Timeframe, side: Direction, units: real, entryPrice: real, entryTs: int,
    stopLoss: Option<real>, takeProfit: Option<real>, costs: real, status: PositionStatus)

  datatype Snapshot = Snapshot(
    ts: int, cash: real, equity: real, openPnl: real, realizedPnl: real, peakEquity: real, drawdownPct: real)

  /** `buckets` maps a decision to the start of the bar it was made on. */
  datatype Store = Store(
    orders: seq<OrderRow>, positions: seq<PositionRow>, snapshots: seq<Snapshot>, buckets: map<nat, int>)

  /** A `LedgerBroker` with its store: `seed` is the constructor's. */
  datatype Ledger = Ledger(store: Store, wallet: Wallet, pending: seq<nat>, seed: int)

  function FreshLedger(store: Store, startEquity: real, seed: int): Ledger {
    Ledger(store, FreshWallet(startEquity, seed), [], seed)
  }

  // ---- queries ----------------------------------------------------------------------------

  function ToPosition(r: PositionRow): Position {
    Position(r.symbol, r.timeframe, r.units, r.entryPrice, r.entryTs, r.side, r.stopLoss, r.takeProfit, r.costs)
  }

  function ToTrade(r: PositionRow): Trade
    requires r.status.CLOSED?
  {
    Trade(r.symbol, r.timeframe, r.side, r.units, r.entryTs, r.entryPrice, r.status.exitTs, r.status.exitPrice,
          r.status.grossPnl, r.costs, r.status.netPnl, r.status.exitReason)
  }

  predicate IsPending(orders: seq<OrderRow>, h: nat) {
    h < |orders| && orders[h].status == PENDING
  }

  function PendingFrom(orders: seq<OrderRow>): seq<nat> {
    if orders == [] then []
    else
      var n := |orders| - 1;
      PendingFrom(orders[..n]) + if orders[n].status == PENDING then [n] else []
  }

  function OrderKey(orders: seq<OrderRow>): nat -> Key {
    (h: nat) => if h < |orders| then Key(0, orders[h].createdAt, orders[h].uid) else Key(1, 0, h)
  }

  /** Pending orders, oldest first (ties by primary key). */
  function PendingOrders(orders: seq<OrderRow>): seq<nat> {
    SortByKey(PendingFrom(orders), OrderKey(orders))
  }

  function OpenPositions(rows: seq<PositionRow>): seq<Position> {
    if rows == [] then []
    else
      var n := |rows| - 1;
      OpenPositions(rows[..n]) + if rows[n].status.OPEN? then [ToPosition(rows[n])] else []
  }

  function ClosedTrades(rows: seq<PositionRow>): seq<Trade> {
    if rows == [] then []
    else
      var n := |rows| - 1;
      ClosedTrades(rows[..n]) + if rows[n].status.CLOSED? then [ToTrade(rows[n])] else []
  }

  /** Handle of the first OPEN row of a symbol. */
  function FindOpen(rows: seq<PositionRow>, symbol: string): (r: Option<nat>)
    ensures r.Some? ==> r.value < |rows| && rows[r.value].status.OPEN? && rows[r.value].symbol == symbol
    ensures r.None? ==> forall i :: 0 <= i < |rows| ==> !(rows[i].status.OPEN? && rows[i].symbol == symbol)
  {
    if rows == [] then None
    else
      var n := |rows| - 1;
      var before := FindOpen(rows[..n], symbol);
      if before.Some? then before
      else if rows[n].status.OPEN? && rows[n].symbol == symbol then Some(n)
      else None
  }

  /** Snapshot with the greatest timestamp. */
  function LatestSnapshot(snaps: seq<Snapshot>): (r: Option<Snapshot>)
    ensures r.None? <==> snaps == []
    ensures r.Some? ==> r.value in snaps && forall s :: s in snaps ==> s.ts <= r.value.ts
  {
    if snaps == [] then None
    else
      var n := |snaps| - 1;
      var before := LatestSnapshot(snaps[..n]);
      if before.Some? && before.value.ts > snaps[n].ts then before else Some(snaps[n])
  }

  // ---- entry: submit, fill, cancel ----------------------------------------------------------

  datatype Request = Request(
    symbol: string, timeframe: Timeframe, direction: Direction, refPrice: real, units: real, decisionId: Option<nat>,
    stopLoss: Option<real>, takeProfit: Option<real>, uid: nat, createdAt: int)

  /** Declined by a guard, refused by a database constraint, or stored under a handle. */
  datatype Submission = Declined | Conflict | Submitted(order: nat)

  function NewOrder(seed: int, q: Request): OrderRow {
    OrderRow(q.uid, q.createdAt, q.decisionId, q.symbol, q.timeframe, q.direction, PENDING, q.units, q.refPrice,
             None, 0.0, q.stopLoss, q.takeProfit, seed, None)
  }

  predicate SponsoredBy(orders: seq<OrderRow>, h: nat, decisionId: Option<nat>) {
    h < |orders| && decisionId.Some? && orders[h].decisionId == decisionId
  }

  predicate GuardAccepts(l: Ledger, q: Request) {
    && q.direction != FLAT && q.units > 0.0
    && (var pos := OpenFor(l.wallet.positions, q.symbol); pos.Some? ==> pos.value.side != q.direction)
    && (forall h :: h in l.pending ==> !SponsoredBy(l.store.orders, h, q.decisionId))
  }

  /** Primary key and uq_orders_paper_decision_id. */
  predicate StoreAccepts(orders: seq<OrderRow>, row: OrderRow) {
    forall h :: 0 <= h < |orders| ==> orders[h].uid != row.uid && !SponsoredBy(orders, h, row.decisionId)
  }

  function SubmitOutcome(l: Ledger, q: Request): Submission {
    if !GuardAccepts(l, q) then Declined
    else if !StoreAccepts(l.store.orders, NewOrder(l.seed, q)) then Conflict
    else Submitted(|l.store.orders|)
  }

  function Submit(l: Ledger, q: Request): Ledger {
    if SubmitOutcome(l, q).Submitted? then
      l.(store := l.store.(orders := l.store.orders + [NewOrder(l.seed, q)]), pending := l.pending + [|l.store.orders|])
    else l
  }

  function Remove(xs: seq<nat>, x: nat): seq<nat> {
    if xs == [] then []
    else if xs[0] == x then Remove(xs[1..], x)
    else [xs[0]] + Remove(xs[1..], x)
  }

  function EntryOf(o: OrderRow, price: real, ts: int): Entry {
    Entry(o.symbol, o.timeframe, o.side, price, ts, o.stopLoss, o.takeProfit, Some(o.units))
  }

  /** Does filling this order at this moment create a position? */
  predicate Fillable(l: Ledger, h: nat) {
    && IsPending(l.store.orders, h)
    && AcceptsEntry(l.wallet, EntryOf(l.store.orders[h], 0.0, 0))
  }

  function FilledOrder(o: OrderRow, pos: Position): OrderRow {
    o.(status := FILLED, filledPrice := Some(pos.entryPrice), costs := pos.costs, filledAt := Some(pos.entryTs))
  }

  function RowOf(h: nat, pos: Position): PositionRow {
    PositionRow(h, pos.symbol, pos.timeframe, pos.side, pos.units, pos.entryPrice, pos.entryTs, pos.stopLoss,
                pos.takeProfit, pos.costs, OPEN)
  }

  function Fill(c: CostFn, l: Ledger, h: nat, price: real, ts: int): Ledger {
    if !IsPending(l.store.orders, h) || OpenFor(l.wallet.positions, l.store.orders[h].symbol).Some? then l
    else
      var o := l.store.orders[h];
      var w := l.wallet.(seed := o.seed);
      if !AcceptsEntry(w, EntryOf(o, price, ts)) then l.(wallet := w)
      else
        var pos := PositionOf(c, o.seed, EntryOf(o, price, ts));
        l.(wallet := Enter(c, w, EntryOf(o, price, ts)),
           store := l.store.(orders := l.store.orders[h := FilledOrder(o, pos)],
                             positions := l.store.positions + [RowOf(h, pos)]),
           pending := Remove(l.pending, h))
  }

  function Cancel(l: Ledger, h: nat): Ledger {
    if !IsPending(l.store.orders, h) then l
    else
      l.(store := l.store.(orders := l.store.orders[h := l.store.orders[h].(status := CANCELLED)]),
         pending := Remove(l.pending, h))
  }

  // ---- exits ------------------------------------------------------------------------------

  function ClosedRow(r: PositionRow, t: Trade): PositionRow {
    r.(status := CLOSED(t.exitPrice, t.exitTs, t.exitReason, t.grossPnl, t.netPnl), costs := t.costs)
  }

  function PersistClose(s: Store, t: Trade): Store {
    var h := FindOpen(s.positions, t.symbol);
    if h.None? then s else s.(positions := s.positions[h.value := ClosedRow(s.positions[h.value], t)])
  }

  function CloseBoth(c: CostFn, l: Ledger, symbol: string, price: real, reason: ExitReason, ts: int): Ledger
    requires OpenFor(l.wallet.positions, symbol).Some?
  {
    var pos := OpenFor(l.wallet.positions, symbol).value;
    l.(wallet := CloseAt(c, l.wallet, symbol, price, reason, ts),
       store := PersistClose(l.store, TradeOf(c, l.wallet.seed, pos, price, reason, ts)))
  }

  function ExitAt(c: CostFn, l: Ledger, symbol: string, close: real, ts: int): Ledger {
    var hit := ExitHit(l.wallet, symbol, close);
    if hit.None? then l else CloseBoth(c, l, symbol, hit.value.0, hit.value.1, ts)
  }

  function SignalClose(c: CostFn, l: Ledger, symbol: string, price: real, ts: int): Ledger {
    if OpenFor(l.wallet.positions, symbol).None? then l else CloseBoth(c, l, symbol, price, Signal, ts)
  }

  // ---- valuation and restore ----------------------------------------------------------------

  function MarkPrice(l: Ledger, symbol: string, price: real): Ledger {
    l.(wallet := Mark(l.wallet, symbol, price))
  }

  function SnapshotOf(w: Wallet, ts: int): Snapshot {
    Snapshot(ts, w.cash, w.equity, w.equity - w.cash, NetSum(w.trades), w.peakEquity, w.maxDrawdownPct)
  }

  function TakeSnapshot(l: Ledger, ts: int): Ledger {
    var w := Observe(l.wallet);
    l.(wallet := w, store := l.store.(snapshots := l.store.snapshots + [SnapshotOf(w, ts)]))
  }

  function EntryMarks(ps: seq<Position>): map<string, real> {
    if ps == [] then map[] else EntryMarks(ps[..|ps| - 1])[ps[|ps| - 1].symbol := ps[|ps| - 1].entryPrice]
  }

  function RestoreCash(w: Wallet, latest: Option<Snapshot>): Wallet {
    if latest.None? then w
    else w.(cash := latest.value.cash, equity := latest.value.equity, peakEquity := latest.value.peakEquity,
            maxDrawdownPct := latest.value.drawdownPct)
  }

  function ExitKey(): Trade -> Key {
    (t: Trade) => Key(t.exitTs, 0, 0)
  }

  function ByExit(trades: seq<Trade>): seq<Trade> {
    SortByKey(trades, ExitKey())
  }

  function Restore(l: Ledger): Ledger {
    var s := l.store;
    var open := OpenPositions(s.positions);
    l.(wallet := RestoreCash(l.wallet, LatestSnapshot(s.snapshots)).(
         positions := open, lastMark := EntryMarks(open), trades := ByExit(ClosedTrades(s.positions))),
       pending := PendingOrders(s.orders))
  }
}
