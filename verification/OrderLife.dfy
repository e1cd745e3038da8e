/** One order from its submission to the close of its position: who is turned away, and what each row holds. */
module OrderLife {
  import opened Prelude
  import opened Paper
  import opened Ledger
  import opened LedgerInvariant
  import opened Lifecycle
  import A = Accounting

  // ---- submission ---------------------------------------------------------------------------

  /** Some position of the symbol is open on this side. */
  ghost predicate HeldOn(l: Ledger, symbol: string, side: Direction) {
    exists p :: p in l.wallet.positions && p.symbol == symbol && p.side == side
  }

  ghost predicate DecisionWaits(orders: seq<OrderRow>, decisionId: Option<nat>) {
    decisionId.Some? && exists h :: 0 <= h < |orders| && orders[h].decisionId == decisionId && orders[h].status == PENDING
  }

  ghost predicate DecisionSettled(orders: seq<OrderRow>, decisionId: Option<nat>) {
    decisionId.Some? && exists h :: 0 <= h < |orders| && orders[h].decisionId == decisionId && orders[h].status != PENDING
  }

  ghost predicate KeyTaken(orders: seq<OrderRow>, uid: nat) {
    exists h :: 0 <= h < |orders| && orders[h].uid == uid
  }

  lemma HeldIff(l: Ledger, symbol: string, side: Direction)
    requires OnePerSymbol(l.wallet.positions)
    ensures
      var pos := OpenFor(l.wallet.positions, symbol);
      HeldOn(l, symbol, side) <==> pos.Some? && pos.value.side == side
  {
    var pos := OpenFor(l.wallet.positions, symbol);
    if HeldOn(l, symbol, side) {
      var p :| p in l.wallet.positions && p.symbol == symbol && p.side == side;
      OnlyOpenFor(l.wallet.positions, p);
    }
  }

  lemma WaitsIff(l: Ledger, decisionId: Option<nat>)
    requires PendingMirrors(l.pending, l.store.orders)
    ensures
      DecisionWaits(l.store.orders, decisionId) <==>
      exists h :: h in l.pending && SponsoredBy(l.store.orders, h, decisionId)
  {
    var orders := l.store.orders;
    if DecisionWaits(orders, decisionId) {
      var h :| 0 <= h < |orders| && orders[h].decisionId == decisionId && orders[h].status == PENDING;
      assert IsPending(orders, h);
      assert h in l.pending && SponsoredBy(orders, h, decisionId);
    }
    if h :| h in l.pending && SponsoredBy(orders, h, decisionId) {
      assert IsPending(orders, h);
    }
  }

  lemma ClashIff(orders: seq<OrderRow>, row: OrderRow)
    ensures
      StoreAccepts(orders, row) <==>
      !KeyTaken(orders, row.uid) && !DecisionWaits(orders, row.decisionId) && !DecisionSettled(orders, row.decisionId)
  {
    if !StoreAccepts(orders, row) {
      var h :| 0 <= h < |orders| && (orders[h].uid == row.uid || SponsoredBy(orders, h, row.decisionId));
      assert orders[h].uid != row.uid ==> orders[h].decisionId == row.decisionId;
    } else {
      forall h | 0 <= h < |orders|
        ensures orders[h].uid != row.uid && !(row.decisionId.Some? && orders[h].decisionId == row.decisionId)
      {
        assert !SponsoredBy(orders, h, row.decisionId);
      }
    }
  }

  /**
   * In a sound ledger a submission is declined exactly for no side, no size, a position already held on that side, or a
   * decision whose order still waits. Past that the database refuses it exactly for a taken key or a decision whose order
   * is filled or cancelled. Everything else is stored.
   */
  lemma SubmissionIff(l: Ledger, q: Request)
    requires Sound(l)
    ensures
      SubmitOutcome(l, q) ==
      if q.direction == FLAT || q.units <= 0.0 || HeldOn(l, q.symbol, q.direction)
         || DecisionWaits(l.store.orders, q.decisionId)
      then Declined
      else if KeyTaken(l.store.orders, q.uid) || DecisionSettled(l.store.orders, q.decisionId) then Conflict
      else Submitted(|l.store.orders|)
  {
    hide StoreSound, PendingMirrors, HeldOn, DecisionWaits, KeyTaken, DecisionSettled, StoreAccepts;
    HeldIff(l, q.symbol, q.direction);
    WaitsIff(l, q.decisionId);
    ClashIff(l.store.orders, NewOrder(l.seed, q));
  }

  // ---- the rows of an order -----------------------------------------------------------------

  /** What every unit costs at a price. */
  function CostAt(c: CostFn, seed: int, symbol: string, side: Direction, units: real, price: real): real {
    A.EveryUnit(c(price, seed, symbol, side, A.Notional(units, price)), units)
  }

  /** A stored submission: one waiting row with the request's terms and the broker's seed, last in table and queue. */
  lemma SubmittedRow(l: Ledger, q: Request)
    requires SubmitOutcome(l, q).Submitted?
    ensures
      Submit(l, q) ==
      l.(store := l.store.(orders := l.store.orders +
           [OrderRow(q.uid, q.createdAt, q.decisionId, q.symbol, q.timeframe, q.direction, PENDING, q.units, q.refPrice,
                     None, 0.0, q.stopLoss, q.takeProfit, l.seed, None)]),
         pending := l.pending + [|l.store.orders|])
  {
  }

  lemma {:induction false} RemoveAppended(xs: seq<nat>, x: nat)
    requires x !in xs
    ensures Remove(xs + [x], x) == xs
  {
    if xs == [] {
      assert [x][1..] == [];
    } else {
      assert (xs + [x])[1..] == xs[1..] + [x];
      RemoveAppended(xs[1..], x);
    }
  }

  /**
   * An order that is submitted and filled, nothing of its symbol being open: its row ends FILLED at the price and stamp of
   * the fill, the queue is as before, and an OPEN row and a position with the request's terms stand for it, in the store
   * and in memory. Cash pays the cost of every unit, drawn with the broker's seed.
   */
  lemma FilledRows(c: CostFn, l: Ledger, q: Request, price: real, ts: int)
    requires Sound(l) && SubmitOutcome(l, q).Submitted? && OpenFor(l.wallet.positions, q.symbol).None?
    ensures
      var n := |l.store.orders|;
      var l', cost := Fill(c, Submit(l, q), n, price, ts), CostAt(c, l.seed, q.symbol, q.direction, q.units, price);
      && l'.store == l.store.(
           orders := l.store.orders +
             [OrderRow(q.uid, q.createdAt, q.decisionId, q.symbol, q.timeframe, q.direction, FILLED, q.units, q.refPrice,
                       Some(price), cost, q.stopLoss, q.takeProfit, l.seed, Some(ts))],
           positions := l.store.positions +
             [PositionRow(n, q.symbol, q.timeframe, q.direction, q.units, price, ts, q.stopLoss, q.takeProfit, cost, OPEN)])
      && l'.wallet == l.wallet.(
           seed := l.seed, cash := l.wallet.cash - cost, lastMark := l.wallet.lastMark[q.symbol := price],
           positions := l.wallet.positions +
             [Position(q.symbol, q.timeframe, q.units, price, ts, q.direction, q.stopLoss, q.takeProfit, cost)])
      && l'.pending == l.pending && l'.seed == l.seed
  {
    hide A.EveryUnit, A.Notional, FillCost, StoreSound, GuardAccepts, StoreAccepts, Remove;
    var n, l1 := |l.store.orders|, Submit(l, q);
    GuardSides(l, q);
    A.CostOfUnits(c, l.seed, q.symbol, q.direction, q.units, price);
    assert n !in l.pending by { assert !IsPending(l.store.orders, n); }
    RemoveAppended(l.pending, n);
    SubmittedRow(l, q);
    assert l1.store.orders[n].seed == l.seed;
    var filled := FilledOrder(l1.store.orders[n], PositionOf(c, l.seed, EntryOf(l1.store.orders[n], price, ts)));
    assert l1.store.orders[n := filled] == l.store.orders + [filled];
  }

  lemma GuardSides(l: Ledger, q: Request)
    requires SubmitOutcome(l, q).Submitted?
    ensures q.direction != FLAT && q.units > 0.0
  {
  }

  /**
   * A close at a price, in a sound ledger: the symbol's OPEN row takes the price, stamp, reason and rounded results of the
   * position it stands for, the position leaves memory for the trade list with the same values, and cash moves by the
   * unrounded result. No other row, no order and no other position is touched.
   */
  lemma ClosedRows(c: CostFn, l: Ledger, symbol: string, price: real, reason: ExitReason, ts: int)
    requires Sound(l) && OpenFor(l.wallet.positions, symbol).Some?
    ensures FindOpen(l.store.positions, symbol).Some?
    ensures
      var l', i := CloseBoth(c, l, symbol, price, reason, ts), FindOpen(l.store.positions, symbol).value;
      var row := l.store.positions[i];
      var exitCost := CostAt(c, l.wallet.seed, symbol, row.side, row.units, price);
      var gross := A.Gain(row.side, row.units, row.entryPrice, price);
      var net := gross - (exitCost + row.costs);
      && l'.store == l.store.(positions := l.store.positions[
           i := row.(status := CLOSED(price, ts, reason, Round6(gross), Round6(net)), costs :=
                     Round6(exitCost + row.costs))])
      && l'.wallet == l.wallet.(
           cash := l.wallet.cash + net, positions := Without(l.wallet.positions, symbol),
           trades := l.wallet.trades +
             [Trade(symbol, row.timeframe, row.side, row.units, row.entryTs, row.entryPrice, ts, price, Round6(gross),
                    Round6(exitCost + row.costs), Round6(net), reason)])
      && l'.pending == l.pending && l'.seed == l.seed
  {
    hide A.EveryUnit, A.Notional, A.Gain, Gross, FillCost, StoreSound, Mirrored, Round6;
    OpenAgrees(l, symbol);
    var row := l.store.positions[FindOpen(l.store.positions, symbol).value];
    A.CostOfUnits(c, l.wallet.seed, symbol, row.side, row.units, price);
    A.GrossIsGain(ToPosition(row), price);
  }

  /** A cancelled order is its row with another status, out of the queue; only a waiting one can be cancelled. */
  lemma CancelledRow(l: Ledger, h: nat)
    ensures
      var l' := Cancel(l, h);
      if h < |l.store.orders| && l.store.orders[h].status == PENDING then
        && l'.store == l.store.(orders := l.store.orders[h := l.store.orders[h].(status := CANCELLED)])
        && l'.wallet == l.wallet && l'.seed == l.seed && forall x :: x in l'.pending <==> x in l.pending && x != h
      else l' == l
  {
    RemoveMembers(l.pending, h);
  }

  // ---- order of the queues ------------------------------------------------------------------

  /** One order before another: the older first, ties by primary key. */
  predicate Before(a: OrderRow, b: OrderRow) {
    a.createdAt < b.createdAt || (a.createdAt == b.createdAt && a.uid < b.uid)
  }

  /** The restored queue holds exactly the waiting orders, each once, the oldest first. */
  lemma QueueOldestFirst(l: Ledger)
    requires UniqueOrders(l.store.orders)
    ensures
      var queue, orders := Restore(l).pending, l.store.orders;
      && (forall h :: h in queue <==> IsPending(orders, h))
      && forall i, j :: 0 <= i < j < |queue| ==>
           IsPending(orders, queue[i]) && IsPending(orders, queue[j]) && Before(orders[queue[i]], orders[queue[j]])
  {
    hide OpenPositions, ClosedTrades, SortByKey, PendingFrom;
    var orders := l.store.orders;
    var from, queue := PendingFrom(orders), PendingOrders(orders);
    PendingMembers(orders);
    SortKeepsBag(from, OrderKey(orders));
    forall i, j | 0 <= i < j < |from|
      ensures OrderKey(orders)(from[i]) != OrderKey(orders)(from[j])
    {
      assert from[i] in from && from[j] in from;
      assert from[i] < from[j];
      assert orders[from[i]].uid != orders[from[j]].uid;
    }
    SortSorts(from, OrderKey(orders));
    forall i, j | 0 <= i < j < |queue|
      ensures IsPending(orders, queue[i]) && IsPending(orders, queue[j]) && Before(orders[queue[i]], orders[queue[j]])
    {
      assert queue[i] in queue && queue[j] in queue;
      assert OrderKey(orders)(queue[i]).Less(OrderKey(orders)(queue[j]));
    }
  }

  /** The restored trades are the closed rows by exit time. */
  lemma TradesByExit(l: Ledger)
    ensures
      var trades := Restore(l).wallet.trades;
      && multiset(trades) == multiset(ClosedTrades(l.store.positions))
      && forall i, j :: 0 <= i < j < |trades| ==> trades[i].exitTs <= trades[j].exitTs
  {
    hide OpenPositions, ClosedTrades, SortByKey;
    SortKeepsBag(ClosedTrades(l.store.positions), ExitKey());
    SortNeverFalls(ClosedTrades(l.store.positions), ExitKey());
    var trades := Restore(l).wallet.trades;
    forall i, j | 0 <= i < j < |trades|
      ensures trades[i].exitTs <= trades[j].exitTs
    {
      assert !ExitKey()(trades[j]).Less(ExitKey()(trades[i]));
    }
  }

  /**
   * The orders due at a bar come oldest first, and the one that acts is the oldest due order that the open side does not
   * already satisfy: every older one is on that side.
   */
  lemma DueOldestFirst(s: Store, cands: seq<Candidate>, symbol: string, ts: int, side: Option<Direction>)
    requires UniqueOrders(s.orders) && AllWaiting(s, DueAt(cands, ts), symbol)
    ensures
      var due := DueAt(cands, ts);
      && (forall x :: x in due <==> x in cands && x.fillStamp == ts)
      && (forall i :: 0 <= i < |due| ==> IsPending(s.orders, due[i].order))
      && (forall i, j :: 0 <= i < j < |due| ==> Before(s.orders[due[i].order], s.orders[due[j].order]))
      && forall i :: 0 <= i < |due| ==>
           var acts := Arbitrate(side, due)[i] != Superseded;
           acts <==> side != Some(due[i].side) &&
                     forall j :: 0 <= j < i ==> side == Some(due[j].side)
  {
    hide WithStamp, SortByKey, Arbitrate;
    var due, stamped := DueAt(cands, ts), WithStamp(cands, ts);
    SortKeepsBag(stamped, CandidateKey());
    forall i | 0 <= i < |due|
      ensures IsPending(s.orders, due[i].order)
      ensures due[i].createdAt == s.orders[due[i].order].createdAt && due[i].uid == s.orders[due[i].order].uid
    {
      assert Waiting(s, due[i]);
    }
    SortNeverFalls(stamped, CandidateKey());
    forall i, j | 0 <= i < j < |due|
      ensures Before(s.orders[due[i].order], s.orders[due[j].order])
    {
      assert due[i].order != due[j].order;
      assert s.orders[due[i].order].uid != s.orders[due[j].order].uid;
      assert due[i] in due && due[j] in due;
      assert !CandidateKey()(due[j]).Less(CandidateKey()(due[i]));
    }
    OnlyOneActs(side, due);
  }
}
