/** The ledger's objects: the row store and the broker that mirrors itself into it, both updated in place. */
module LedgerBrokers {
  import opened Prelude
  import opened Paper
  import opened Ledger
  import opened LedgerInvariant
  import opened PaperBrokers

  /** The paper-ledger tables; rows are addressed by their index. */
  class LedgerStore {
    var orders: seq<OrderRow>
    var positions: seq<PositionRow>
    var snapshots: seq<Snapshot>
    var buckets: map<nat, int>

    function View(): Store
      reads this
    {
      Store(orders, positions, snapshots, buckets)
    }

    constructor (rows: Store)
      ensures View() == rows
    {
      orders, positions, snapshots, buckets := rows.orders, rows.positions, rows.snapshots, rows.buckets;
    }

    /** Store a new order, unless a uniqueness constraint refuses the row. */
    method SaveOrder(row: OrderRow) returns (saved: bool)
      modifies this
      ensures saved == StoreAccepts(old(orders), row)
      ensures View() == old(View()).(orders := if saved then old(orders) + [row] else old(orders))
    {
      var i := 0;
      saved := true;
      while i < |orders|
        invariant 0 <= i <= |orders|
        invariant saved == forall h :: 0 <= h < i ==> orders[h].uid != row.uid && !SponsoredBy(orders, h, row.decisionId)
      {
        if orders[i].uid == row.uid || (row.decisionId.Some? && orders[i].decisionId == row.decisionId) {
          saved := false;
        }
        i := i + 1;
      }
      if saved {
        orders := orders + [row];
      }
    }

    method UpdateOrder(h: nat, row: OrderRow)
      requires h < |orders|
      modifies this
      ensures View() == old(View()).(orders := old(orders)[h := row])
    {
      orders := orders[h := row];
    }

    method SavePosition(row: PositionRow)
      modifies this
      ensures View() == old(View()).(positions := old(positions) + [row])
    {
      positions := positions + [row];
    }

    method UpdatePosition(h: nat, row: PositionRow)
      requires h < |positions|
      modifies this
      ensures View() == old(View()).(positions := old(positions)[h := row])
    {
      positions := positions[h := row];
    }

    method SaveSnapshot(row: Snapshot)
      modifies this
      ensures View() == old(View()).(snapshots := old(snapshots) + [row])
    {
      snapshots := snapshots + [row];
    }

    method GetOpenPosition(symbol: string) returns (found: Option<nat>)
      ensures found == FindOpen(positions, symbol)
    {
      var i := 0;
      found := None;
      while i < |positions|
        invariant 0 <= i <= |positions|
        invariant found == FindOpen(positions[..i], symbol)
      {
        assert positions[..i + 1][..i] == positions[..i];
        if found.None? && positions[i].status.OPEN? && positions[i].symbol == symbol {
          found := Some(i);
        }
        i := i + 1;
      }
      assert positions[..i] == positions;
    }

    method ListOpenPositions() returns (rows: seq<Position>)
      ensures rows == OpenPositions(positions)
    {
      var i := 0;
      rows := [];
      while i < |positions|
        invariant 0 <= i <= |positions|
        invariant rows == OpenPositions(positions[..i])
      {
        assert positions[..i + 1][..i] == positions[..i];
        if positions[i].status.OPEN? {
          rows := rows + [ToPosition(positions[i])];
        }
        i := i + 1;
      }
      assert positions[..i] == positions;
    }

    /** Closed positions as trades, by exit time. */
    method ListClosedPositions() returns (rows: seq<Trade>)
      ensures rows == ByExit(ClosedTrades(positions))
    {
      var i := 0;
      rows := [];
      while i < |positions|
        invariant 0 <= i <= |positions|
        invariant rows == ClosedTrades(positions[..i])
      {
        assert positions[..i + 1][..i] == positions[..i];
        if positions[i].status.CLOSED? {
          rows := rows + [ToTrade(positions[i])];
        }
        i := i + 1;
      }
      assert positions[..i] == positions;
      rows := SortByKey(rows, ExitKey());
    }

    /** Handles of the pending orders, oldest first. */
    method ListPendingOrders() returns (handles: seq<nat>)
      ensures handles == PendingOrders(orders)
    {
      var i := 0;
      handles := [];
      while i < |orders|
        invariant 0 <= i <= |orders|
        invariant handles == PendingFrom(orders[..i])
      {
        assert orders[..i + 1][..i] == orders[..i];
        if orders[i].status == PENDING {
          handles := handles + [i];
        }
        i := i + 1;
      }
      assert orders[..i] == orders;
      handles := SortByKey(handles, OrderKey(orders));
    }

    method Latest() returns (latest: Option<Snapshot>)
      ensures latest == LatestSnapshot(snapshots)
    {
      var i := 0;
      latest := None;
      while i < |snapshots|
        invariant 0 <= i <= |snapshots|
        invariant latest == LatestSnapshot(snapshots[..i])
      {
        assert snapshots[..i + 1][..i] == snapshots[..i];
        if !(latest.Some? && latest.value.ts > snapshots[i].ts) {
          latest := Some(snapshots[i]);
        }
        i := i + 1;
      }
      assert snapshots[..i] == snapshots;
    }
  }

  /** A broker whose every change is written through to its store. */
  class LedgerBroker {
    const store: LedgerStore
    const seed: int
    const paper: PaperBroker
    var pending: seq<nat>

    ghost const Repr: set<object> := {this, store, paper, paper.positions}

    ghost function View(): Ledger
      reads this, store, paper, paper.positions
    {
      Ledger(store.View(), paper.View(), pending, seed)
    }

    constructor (store: LedgerStore, cost: CostFn, startEquity: real, seed: int)
      ensures View() == FreshLedger(store.View(), startEquity, seed)
      ensures this.store == store && fresh(paper) && fresh(paper.positions) && paper.cost == cost
      ensures store.View() == old(store.View())
    {
      this.store := store;
      this.seed := seed;
      paper := new PaperBroker(cost, startEquity, seed);
      pending := [];
    }

    /** Persist a PENDING order, or decline it; `Conflict` stands for the integrity error of a violated constraint. */
    method SubmitPaperOrder(q: Request) returns (outcome: Submission)
      modifies Repr
      ensures outcome == SubmitOutcome(old(View()), q)
      ensures View() == Submit(old(View()), q)
    {
      if q.direction == FLAT || q.units <= 0.0 {
        return Declined;
      }
      var open := paper.positions.Find(q.symbol);
      if open.Some? && open.value.side == q.direction {
        return Declined;
      }
      var i := 0;
      while i < |pending|
        invariant 0 <= i <= |pending|
        invariant forall k :: 0 <= k < i ==> !SponsoredBy(store.orders, pending[k], q.decisionId)
      {
        if q.decisionId.Some? && pending[i] < |store.orders| && store.orders[pending[i]].decisionId == q.decisionId {
          assert SponsoredBy(store.orders, pending[i], q.decisionId);
          return Declined;
        }
        i := i + 1;
      }
      var h := |store.orders|;
      var saved := store.SaveOrder(NewOrder(seed, q));
      if !saved {
        return Conflict;
      }
      pending := pending + [h];
      outcome := Submitted(h);
    }

    /** Fill a PENDING order at an open: FILLED row, OPEN row and in-memory position. */
    method FillPending(h: nat, openPrice: real, ts: int) returns (filled: bool)
      modifies Repr
      ensures View() == Fill(paper.cost, old(View()), h, openPrice, ts)
      ensures filled == Fillable(old(View()), h)
    {
      if !IsPending(store.orders, h) {
        return false;
      }
      var o := store.orders[h];
      var open := paper.positions.Find(o.symbol);
      if open.Some? {
        return false;
      }
      paper.seed := o.seed;
      ghost var w := paper.View();
      paper.EnterAtNextOpen(EntryOf(o, openPrice, ts));
      open := paper.positions.Find(o.symbol);
      EntryShows(paper.cost, w, EntryOf(o, openPrice, ts));
      if open.None? {
        return false;
      }
      var pos := open.value;
      pending := Remove(pending, h);
      store.UpdateOrder(h, FilledOrder(o, pos));
      store.SavePosition(RowOf(h, pos));
      filled := true;
    }

    method CancelPending(h: nat) returns (cancelled: bool)
      modifies Repr
      ensures View() == Cancel(old(View()), h)
      ensures cancelled == IsPending(old(View()).store.orders, h)
    {
      if !IsPending(store.orders, h) {
        return false;
      }
      pending := Remove(pending, h);
      store.UpdateOrder(h, store.orders[h].(status := CANCELLED));
      cancelled := true;
    }

    method ExitOnClose(symbol: string, close: real, ts: int) returns (exited: bool)
      modifies Repr
      ensures View() == ExitAt(paper.cost, old(View()), symbol, close, ts)
      ensures exited == ExitHit(old(View()).wallet, symbol, close).Some?
    {
      ghost var l := View();
      var trade := paper.ExitOnClose(symbol, close, ts);
      exited := trade.Some?;
      if exited {
        ghost var (price, reason) := ExitHit(l.wallet, symbol, close).value;
        TradeIsLast(paper.cost, l, symbol, price, reason, ts, trade.value);
        PersistClosed(trade.value);
      }
    }

    method CloseAtSignal(symbol: string, price: real, ts: int) returns (closed: bool)
      modifies Repr
      ensures View() == SignalClose(paper.cost, old(View()), symbol, price, ts)
      ensures closed == OpenFor(old(View()).wallet.positions, symbol).Some?
    {
      ghost var l := View();
      var trade := paper.CloseAtSignal(symbol, price, ts);
      closed := trade.Some?;
      if closed {
        TradeIsLast(paper.cost, l, symbol, price, Signal, ts, trade.value);
        PersistClosed(trade.value);
      }
    }

    /** Write a close to its row; a symbol without an OPEN row is left alone. */
    method PersistClosed(trade: Trade)
      modifies store
      ensures store.View() == PersistClose(old(store.View()), trade)
    {
      var h := store.GetOpenPosition(trade.symbol);
      if h.Some? {
        store.UpdatePosition(h.value, ClosedRow(store.positions[h.value], trade));
      }
    }

    method MarkPosition(symbol: string, price: real)
      modifies Repr
      ensures View() == MarkPrice(old(View()), symbol, price)
    {
      paper.MarkPosition(symbol, price);
    }

    /** Value the account and store the snapshot, with the sum of all rounded trade results. */
    method EquitySnapshot(ts: int)
      modifies Repr
      ensures View() == TakeSnapshot(old(View()), ts)
    {
      var equity := paper.State();
      var realized, i := 0.0, 0;
      while i < |paper.trades|
        invariant 0 <= i <= |paper.trades|
        invariant realized == NetSum(paper.trades[..i])
      {
        assert paper.trades[..i + 1][..i] == paper.trades[..i];
        realized := realized + paper.trades[i].netPnl;
        i := i + 1;
      }
      assert paper.trades[..i] == paper.trades;
      store.SaveSnapshot(
        Snapshot(ts, paper.cash, equity, equity - paper.cash, realized, paper.peakEquity, paper.maxDrawdownPct));
    }

    /** Replace the open positions; each is marked at its entry price. */
    method Rematerialize(open: seq<Position>)
      modifies paper, paper.positions
      ensures paper.View() == old(paper.View()).(positions := open, lastMark := EntryMarks(open))
    {
      paper.positions.positions := [];
      paper.lastMark := map[];
      var i := 0;
      while i < |open|
        invariant 0 <= i <= |open|
        invariant paper.View() == old(paper.View()).(positions := open[..i], lastMark := EntryMarks(open[..i]))
      {
        assert open[..i + 1] == open[..i] + [open[i]];
        paper.positions.positions := paper.positions.positions + [open[i]];
        paper.lastMark := paper.lastMark[open[i].symbol := open[i].entryPrice];
        i := i + 1;
      }
      assert open[..i] == open;
    }

    /** Rebuild memory from the store. */
    method RestoreState()
      modifies Repr
      ensures View() == Restore(old(View()))
    {
      var latest := store.Latest();
      if latest.Some? {
        paper.cash := latest.value.cash;
        paper.equity := latest.value.equity;
        paper.peakEquity := latest.value.peakEquity;
        paper.maxDrawdownPct := latest.value.drawdownPct;
      }
      var open := store.ListOpenPositions();
      Rematerialize(open);
      paper.trades := store.ListClosedPositions();
      pending := store.ListPendingOrders();
    }
  }

  lemma EntryShows(c: CostFn, w: Wallet, e: Entry)
    requires OpenFor(w.positions, e.symbol).None?
    ensures
      OpenFor(Enter(c, w, e).positions, e.symbol) ==
      if AcceptsEntry(w, e) then Some(PositionOf(c, w.seed, e)) else None
  {
    if AcceptsEntry(w, e) {
      AppendedIsFound(w.positions, PositionOf(c, w.seed, e));
    }
  }

  lemma TradeIsLast(c: CostFn, l: Ledger, symbol: string, price: real, reason: ExitReason, ts: int, t: Trade)
    requires OpenFor(l.wallet.positions, symbol).Some?
    requires CloseAt(c, l.wallet, symbol, price, reason, ts).trades == l.wallet.trades + [t]
    ensures t == TradeOf(c, l.wallet.seed, OpenFor(l.wallet.positions, symbol).value, price, reason, ts)
  {
    var t' := TradeOf(c, l.wallet.seed, OpenFor(l.wallet.positions, symbol).value, price, reason, ts);
    assert (l.wallet.trades + [t])[|l.wallet.trades|] == (l.wallet.trades + [t'])[|l.wallet.trades|];
  }
}
