/**
 * The ledger as a state machine: what every operation keeps, over every run. Store and memory agree, the database
 * constraints hold, filled orders and positions correspond one to one, and history is only ever extended.
 */
module LedgerInvariant {
  import opened Prelude
  import opened Paper
  import opened Ledger

  // ---- invariants -------------------------------------------------------------------------

  ghost predicate OrdersSound(orders: seq<OrderRow>) {
    forall h :: 0 <= h < |orders| ==>
      orders[h].status != REJECTED && orders[h].side != FLAT && orders[h].units > 0.0
  }

  ghost predicate UniqueOrders(orders: seq<OrderRow>) {
    && (forall i, j :: 0 <= i < j < |orders| ==> orders[i].uid != orders[j].uid)
    && (forall i, j :: 0 <= i < j < |orders| ==> !SponsoredBy(orders, i, orders[j].decisionId))
  }

  /** uq_positions_open_symbol. */
  ghost predicate OneOpenPerSymbol(rows: seq<PositionRow>) {
    forall i, j :: 0 <= i < j < |rows| && rows[i].status.OPEN? && rows[j].status.OPEN? ==>
      rows[i].symbol != rows[j].symbol
  }

  /** A position row is the fill of its order. */
  predicate FillOf(o: OrderRow, r: PositionRow) {
    && o.status == FILLED
    && o.symbol == r.symbol && o.timeframe == r.timeframe && o.side == r.side && o.units == r.units
    && o.stopLoss == r.stopLoss && o.takeProfit == r.takeProfit
    && o.filledPrice == Some(r.entryPrice) && o.filledAt == Some(r.entryTs)
    && (r.status.OPEN? ==> o.costs == r.costs)
  }

  ghost predicate RowsAreFills(s: Store) {
    forall i :: 0 <= i < |s.positions| ==>
      s.positions[i].orderId < |s.orders| && FillOf(s.orders[s.positions[i].orderId], s.positions[i])
  }

  ghost predicate OneRowPerOrder(rows: seq<PositionRow>) {
    forall i, j :: 0 <= i < j < |rows| ==> rows[i].orderId != rows[j].orderId
  }

  ghost predicate HasRow(rows: seq<PositionRow>, h: nat) {
    exists i :: 0 <= i < |rows| && rows[i].orderId == h
  }

  ghost predicate FillsHaveRows(s: Store) {
    forall h :: 0 <= h < |s.orders| && s.orders[h].status == FILLED ==> HasRow(s.positions, h)
  }

  ghost predicate StoreSound(s: Store) {
    && OrdersSound(s.orders)
    && UniqueOrders(s.orders)
    && OneOpenPerSymbol(s.positions)
    && RowsAreFills(s)
    && OneRowPerOrder(s.positions)
    && FillsHaveRows(s)
  }

  ghost predicate PendingMirrors(pending: seq<nat>, orders: seq<OrderRow>) {
    && (forall h :: h in pending <==> IsPending(orders, h))
    && Distinct(pending)
  }

  /** In-memory positions, trades and pending orders are the store's rows (order of rows aside). */
  ghost predicate Mirrored(l: Ledger) {
    && multiset(l.wallet.positions) == multiset(OpenPositions(l.store.positions))
    && multiset(l.wallet.trades) == multiset(ClosedTrades(l.store.positions))
    && OnePerSymbol(l.wallet.positions)
    && PendingMirrors(l.pending, l.store.orders)
  }

  ghost predicate Sound(l: Ledger) {
    StoreSound(l.store) && Mirrored(l)
  }

  // ---- history ----------------------------------------------------------------------------

  /** An order leaves PENDING once, to FILLED or CANCELLED, and is frozen from then on. */
  predicate OrderEvolves(o: OrderRow, o': OrderRow) {
    || o' == o
    || (o.status == PENDING && o' == o.(status := CANCELLED))
    || (o.status == PENDING && o'.status == FILLED && o'.filledPrice.Some? && o'.filledAt.Some? &&
        o' == o.(status := FILLED, filledPrice := o'.filledPrice, costs := o'.costs, filledAt := o'.filledAt))
  }

  predicate PositionEvolves(r: PositionRow, r': PositionRow) {
    || r' == r
    || (r.status.OPEN? && r'.status.CLOSED? && r' == r.(status := r'.status, costs := r'.costs))
  }

  ghost predicate Grows(s: Store, s': Store) {
    && |s.orders| <= |s'.orders|
    && (forall h :: 0 <= h < |s.orders| ==> OrderEvolves(s.orders[h], s'.orders[h]))
    && |s.positions| <= |s'.positions|
    && (forall i :: 0 <= i < |s.positions| ==> PositionEvolves(s.positions[i], s'.positions[i]))
    && s.snapshots <= s'.snapshots
    && s.buckets == s'.buckets
  }

  lemma GrowsTransitive(a: Store, b: Store, d: Store)
    requires Grows(a, b) && Grows(b, d)
    ensures Grows(a, d)
  {
    forall h | 0 <= h < |a.orders|
      ensures OrderEvolves(a.orders[h], d.orders[h])
    {
      assert OrderEvolves(a.orders[h], b.orders[h]) && OrderEvolves(b.orders[h], d.orders[h]);
    }
    forall i | 0 <= i < |a.positions|
      ensures PositionEvolves(a.positions[i], d.positions[i])
    {
      assert PositionEvolves(a.positions[i], b.positions[i]) && PositionEvolves(b.positions[i], d.positions[i]);
    }
  }

  // ---- row lists --------------------------------------------------------------------------

  lemma OpenSnoc(rows: seq<PositionRow>, r: PositionRow)
    ensures OpenPositions(rows + [r]) == OpenPositions(rows) + if r.status.OPEN? then [ToPosition(r)] else []
    ensures ClosedTrades(rows + [r]) == ClosedTrades(rows) + if r.status.CLOSED? then [ToTrade(r)] else []
  {
    assert (rows + [r])[..|rows|] == rows;
  }

  lemma {:induction false} OpenConcat(a: seq<PositionRow>, b: seq<PositionRow>)
    ensures OpenPositions(a + b) == OpenPositions(a) + OpenPositions(b)
  {
    if b == [] {
      assert a + b == a;
    } else {
      var n := |b| - 1;
      OpenConcat(a, b[..n]);
      assert (a + b)[..|a| + n] == a + b[..n];
    }
  }

  lemma {:induction false} ClosedConcat(a: seq<PositionRow>, b: seq<PositionRow>)
    ensures ClosedTrades(a + b) == ClosedTrades(a) + ClosedTrades(b)
  {
    if b == [] {
      assert a + b == a;
    } else {
      var n := |b| - 1;
      ClosedConcat(a, b[..n]);
      assert (a + b)[..|a| + n] == a + b[..n];
    }
  }

  lemma RowsAround(a: seq<PositionRow>, r: PositionRow, b: seq<PositionRow>)
    ensures
      OpenPositions(a + [r] + b) == OpenPositions(a) + (if r.status.OPEN? then [ToPosition(r)] else []) +
        OpenPositions(b)
    ensures ClosedTrades(a + [r] + b) == ClosedTrades(a) + (if r.status.CLOSED? then [ToTrade(r)] else []) + ClosedTrades(b)
  {
    OpenConcat(a + [r], b);
    ClosedConcat(a + [r], b);
    OpenSnoc(a, r);
  }

  lemma CloseMovesRow(rows: seq<PositionRow>, h: nat, t: Trade)
    requires h < |rows| && rows[h].status.OPEN?
    ensures
      var rows' := rows[h := ClosedRow(rows[h], t)];
      && multiset(OpenPositions(rows)) == multiset(OpenPositions(rows')) + multiset{ToPosition(rows[h])}
      && multiset(ClosedTrades(rows')) == multiset(ClosedTrades(rows)) + multiset{ToTrade(ClosedRow(rows[h], t))}
  {
    var a, b := rows[..h], rows[h + 1..];
    assert rows == a + [rows[h]] + b;
    assert rows[h := ClosedRow(rows[h], t)] == a + [ClosedRow(rows[h], t)] + b;
    RowsAround(a, rows[h], b);
    RowsAround(a, ClosedRow(rows[h], t), b);
  }

  lemma {:induction false} OpenMembers(rows: seq<PositionRow>, p: Position)
    ensures p in OpenPositions(rows) <==> exists i :: 0 <= i < |rows| && rows[i].status.OPEN? && ToPosition(rows[i]) == p
  {
    if rows != [] {
      var n := |rows| - 1;
      OpenMembers(rows[..n], p);
      if p in OpenPositions(rows[..n]) {
        var i :| 0 <= i < n && rows[..n][i].status.OPEN? && ToPosition(rows[..n][i]) == p;
        assert rows[i].status.OPEN? && ToPosition(rows[i]) == p;
      }
      if i :| 0 <= i < |rows| && rows[i].status.OPEN? && ToPosition(rows[i]) == p {
        if i < n {
          assert rows[..n][i].status.OPEN? && ToPosition(rows[..n][i]) == p;
        }
      }
    }
  }

  lemma {:induction false} OpenDistinct(rows: seq<PositionRow>)
    requires OneOpenPerSymbol(rows)
    ensures OnePerSymbol(OpenPositions(rows))
  {
    if rows != [] {
      var n := |rows| - 1;
      OpenDistinct(rows[..n]);
      if rows[n].status.OPEN? {
        var before := OpenPositions(rows[..n]);
        forall i | 0 <= i < |before|
          ensures before[i].symbol != rows[n].symbol
        {
          OpenMembers(rows[..n], before[i]);
          assert before[i] in before;
        }
      }
    }
  }

  lemma {:induction false} PendingMembers(orders: seq<OrderRow>)
    ensures forall h :: h in PendingFrom(orders) <==> IsPending(orders, h)
    ensures forall i, j :: 0 <= i < j < |PendingFrom(orders)| ==> PendingFrom(orders)[i] < PendingFrom(orders)[j]
  {
    if orders != [] {
      var n := |orders| - 1;
      PendingMembers(orders[..n]);
      var before := PendingFrom(orders[..n]);
      forall h
        ensures h in PendingFrom(orders) <==> IsPending(orders, h)
      {
        assert h in before <==> IsPending(orders[..n], h);
      }
      forall i | 0 <= i < |before|
        ensures before[i] < n
      {
        assert before[i] in before;
      }
    }
  }

  ghost predicate Distinct(xs: seq<nat>) {
    forall i, j :: 0 <= i < j < |xs| ==> xs[i] != xs[j]
  }

  lemma {:induction false} RemoveMembers(xs: seq<nat>, x: nat)
    ensures forall y :: y in Remove(xs, x) <==> y in xs && y != x
    ensures Distinct(xs) ==> Distinct(Remove(xs, x))
  {
    if xs != [] {
      RemoveMembers(xs[1..], x);
      assert xs == [xs[0]] + xs[1..];
      if Distinct(xs) {
        var rest := Remove(xs[1..], x);
        forall j | 0 <= j < |rest|
          ensures rest[j] != xs[0]
        {
          assert rest[j] in rest;
          assert rest[j] in xs[1..];
        }
        if xs[0] != x {
          assert Distinct([xs[0]] + rest);
        }
      }
    }
  }

  /** The symbol open in memory is the symbol open in the store. */
  lemma OpenAgrees(l: Ledger, symbol: string)
    requires Sound(l)
    ensures OpenFor(l.wallet.positions, symbol).None? <==> FindOpen(l.store.positions, symbol).None?
    ensures
      FindOpen(l.store.positions, symbol).Some? ==>
      OpenFor(l.wallet.positions, symbol) == Some(ToPosition(l.store.positions[FindOpen(l.store.positions, symbol).value]))
  {
    var ps, rows := l.wallet.positions, l.store.positions;
    var h := FindOpen(rows, symbol);
    if h.Some? {
      var p := ToPosition(rows[h.value]);
      OpenMembers(rows, p);
      assert p in multiset(OpenPositions(rows));
      assert p in ps;
      OnlyOpenFor(ps, p);
    } else if OpenFor(ps, symbol).Some? {
      var p := OpenFor(ps, symbol).value;
      assert p in multiset(ps);
      assert p in OpenPositions(rows);
      OpenMembers(rows, p);
    }
  }

  // ---- every operation keeps it -------------------------------------------------------------

  lemma AddOrderKeeps(s: Store, row: OrderRow)
    requires StoreSound(s) && StoreAccepts(s.orders, row)
    requires row.status == PENDING && row.side != FLAT && row.units > 0.0
    ensures
      var s' := s.(orders := s.orders + [row]);
      StoreSound(s') && Grows(s, s')
  {
    var orders := s.orders + [row];
    assert forall i :: 0 <= i < |s.orders| ==> orders[i] == s.orders[i];
    forall i, j | 0 <= i < j < |orders|
      ensures orders[i].uid != orders[j].uid && !SponsoredBy(orders, i, orders[j].decisionId)
    {
      if j < |s.orders| {
        assert !SponsoredBy(s.orders, i, s.orders[j].decisionId);
      } else {
        assert !SponsoredBy(s.orders, i, row.decisionId);
      }
    }
    forall i | 0 <= i < |s.positions|
      ensures FillOf(orders[s.positions[i].orderId], s.positions[i])
    {
      assert FillOf(s.orders[s.positions[i].orderId], s.positions[i]);
    }
    forall h | 0 <= h < |orders| && orders[h].status == FILLED
      ensures HasRow(s.positions, h)
    {
      assert s.orders[h].status == FILLED;
    }
  }

  lemma PendingGrows(pending: seq<nat>, orders: seq<OrderRow>, row: OrderRow)
    requires PendingMirrors(pending, orders) && row.status == PENDING
    ensures PendingMirrors(pending + [|orders|], orders + [row])
  {
    forall h
      ensures h in pending + [|orders|] <==> IsPending(orders + [row], h)
    {
      assert h in pending <==> IsPending(orders, h);
    }
    forall i | 0 <= i < |pending|
      ensures pending[i] != |orders|
    {
      assert pending[i] in pending;
    }
  }

  lemma SubmitKeeps(l: Ledger, q: Request)
    requires Sound(l)
    ensures Sound(Submit(l, q)) && Grows(l.store, Submit(l, q).store)
    ensures
      match SubmitOutcome(l, q)
      case Submitted(h) => IsPending(Submit(l, q).store.orders, h)
      case _ => Submit(l, q) == l
  {
    if SubmitOutcome(l, q).Submitted? {
      AddOrderKeeps(l.store, NewOrder(l.seed, q));
      PendingGrows(l.pending, l.store.orders, NewOrder(l.seed, q));
    }
  }

  /** A settled order keeps its identity and its terms. */
  lemma SettleKeepsOrders(orders: seq<OrderRow>, h: nat, o': OrderRow)
    requires OrdersSound(orders) && UniqueOrders(orders)
    requires IsPending(orders, h) && OrderEvolves(orders[h], o')
    ensures OrdersSound(orders[h := o']) && UniqueOrders(orders[h := o'])
  {
    var next := orders[h := o'];
    assert forall i :: 0 <= i < |orders| ==> next[i].uid == orders[i].uid && next[i].decisionId == orders[i].decisionId;
    forall i, j | 0 <= i < j < |orders|
      ensures !SponsoredBy(next, i, next[j].decisionId)
    {
      assert !SponsoredBy(orders, i, orders[j].decisionId);
    }
  }

  /** No position row belongs to a waiting order. */
  lemma WaitingHasNoRow(s: Store, h: nat, i: nat)
    requires RowsAreFills(s) && IsPending(s.orders, h) && i < |s.positions|
    ensures s.positions[i].orderId != h
  {
    assert FillOf(s.orders[s.positions[i].orderId], s.positions[i]);
  }

  lemma CancelStoreKeeps(s: Store, h: nat)
    requires StoreSound(s) && IsPending(s.orders, h)
    ensures
      var s' := s.(orders := s.orders[h := s.orders[h].(status := CANCELLED)]);
      StoreSound(s') && Grows(s, s')
  {
    SettleKeepsOrders(s.orders, h, s.orders[h].(status := CANCELLED));
    forall i | 0 <= i < |s.positions|
      ensures s.positions[i].orderId != h
    {
      WaitingHasNoRow(s, h, i);
    }
  }

  lemma PendingShrinks(pending: seq<nat>, orders: seq<OrderRow>, h: nat, o': OrderRow)
    requires PendingMirrors(pending, orders) && IsPending(orders, h) && o'.status != PENDING
    ensures PendingMirrors(Remove(pending, h), orders[h := o'])
  {
    RemoveMembers(pending, h);
    forall x
      ensures x in Remove(pending, h) <==> IsPending(orders[h := o'], x)
    {
      assert x in pending <==> IsPending(orders, x);
    }
  }

  lemma CancelKeeps(l: Ledger, h: nat)
    requires Sound(l)
    ensures Sound(Cancel(l, h)) && Grows(l.store, Cancel(l, h).store)
  {
    if IsPending(l.store.orders, h) {
      var o' := l.store.orders[h].(status := CANCELLED);
      CancelStoreKeeps(l.store, h);
      PendingShrinks(l.pending, l.store.orders, h, o');
    }
  }

  lemma FillRowsKeep(s: Store, h: nat, pos: Position)
    requires StoreSound(s) && IsPending(s.orders, h) && FillOf(FilledOrder(s.orders[h], pos), RowOf(h, pos))
    ensures
      var s' := s.(orders := s.orders[h := FilledOrder(s.orders[h], pos)], positions := s.positions + [RowOf(h, pos)]);
      RowsAreFills(s') && OneRowPerOrder(s'.positions) && FillsHaveRows(s')
  {
    var orders := s.orders[h := FilledOrder(s.orders[h], pos)];
    var rows := s.positions + [RowOf(h, pos)];
    assert rows[|s.positions|] == RowOf(h, pos);
    forall i | 0 <= i < |s.positions|
      ensures rows[i] == s.positions[i] && rows[i].orderId != h && FillOf(orders[rows[i].orderId], rows[i])
    {
      WaitingHasNoRow(s, h, i);
      assert FillOf(s.orders[s.positions[i].orderId], s.positions[i]);
    }
    forall x | 0 <= x < |orders| && orders[x].status == FILLED
      ensures HasRow(rows, x)
    {
      if x != h {
        assert HasRow(s.positions, x);
        var i :| 0 <= i < |s.positions| && s.positions[i].orderId == x;
        assert rows[i].orderId == x;
      }
    }
  }

  lemma FillStoreKeeps(s: Store, h: nat, pos: Position)
    requires StoreSound(s) && IsPending(s.orders, h)
    requires FindOpen(s.positions, pos.symbol).None?
    requires FillOf(FilledOrder(s.orders[h], pos), RowOf(h, pos))
    ensures
      var s' := s.(orders := s.orders[h := FilledOrder(s.orders[h], pos)], positions := s.positions + [RowOf(h, pos)]);
      StoreSound(s') && Grows(s, s')
  {
    SettleKeepsOrders(s.orders, h, FilledOrder(s.orders[h], pos));
    FillRowsKeep(s, h, pos);
  }

  /** A fill is the order's FILLED row, a new OPEN row and the same position in memory, or nothing but a seed. */
  lemma FillEffect(c: CostFn, l: Ledger, h: nat, price: real, ts: int)
    ensures
      var l' := Fill(c, l, h, price, ts);
      if Fillable(l, h) then
        var o := l.store.orders[h];
        var pos := PositionOf(c, o.seed, EntryOf(o, price, ts));
        && l'.store == l.store.(orders := l.store.orders[h := FilledOrder(o, pos)],
                                positions := l.store.positions + [RowOf(h, pos)])
        && l'.wallet.positions == l.wallet.positions + [pos] && l'.wallet.trades == l.wallet.trades
        && l'.wallet.cash == l.wallet.cash - pos.costs
        && l'.pending == Remove(l.pending, h)
      else
        && l'.store == l.store && l'.pending == l.pending
        && l'.wallet == l.wallet.(seed := l'.wallet.seed)
  {
  }

  lemma FillMirrors(ps: seq<Position>, rows: seq<PositionRow>, r: PositionRow, pos: Position)
    requires multiset(ps) == multiset(OpenPositions(rows)) && OnePerSymbol(ps) && OpenFor(ps, pos.symbol).None?
    requires r.status.OPEN? && ToPosition(r) == pos
    ensures multiset(ps + [pos]) == multiset(OpenPositions(rows + [r])) && OnePerSymbol(ps + [pos])
    ensures ClosedTrades(rows + [r]) == ClosedTrades(rows)
  {
    OpenSnoc(rows, r);
    BagSnoc(ps, pos);
    BagSnoc(OpenPositions(rows), pos);
  }

  lemma FillKeeps(c: CostFn, l: Ledger, h: nat, price: real, ts: int)
    requires Sound(l)
    ensures Sound(Fill(c, l, h, price, ts)) && Grows(l.store, Fill(c, l, h, price, ts).store)
  {
    FillEffect(c, l, h, price, ts);
    if Fillable(l, h) {
      var o := l.store.orders[h];
      var pos := PositionOf(c, o.seed, EntryOf(o, price, ts));
      OpenAgrees(l, o.symbol);
      FillStoreKeeps(l.store, h, pos);
      PendingShrinks(l.pending, l.store.orders, h, FilledOrder(o, pos));
      FillMirrors(l.wallet.positions, l.store.positions, RowOf(h, pos), pos);
    }
  }

  lemma CloseStoreKeeps(s: Store, h: nat, t: Trade)
    requires StoreSound(s) && h < |s.positions| && s.positions[h].status.OPEN?
    ensures
      var s' := s.(positions := s.positions[h := ClosedRow(s.positions[h], t)]);
      StoreSound(s') && Grows(s, s')
  {
    hide OrdersSound, UniqueOrders;
    var rows := s.positions[h := ClosedRow(s.positions[h], t)];
    assert forall i :: 0 <= i < |rows| ==> rows[i].orderId == s.positions[i].orderId;
    forall i | 0 <= i < |rows|
      ensures FillOf(s.orders[rows[i].orderId], rows[i])
    {
      assert FillOf(s.orders[s.positions[i].orderId], s.positions[i]);
    }
    forall x | 0 <= x < |s.orders| && s.orders[x].status == FILLED
      ensures HasRow(rows, x)
    {
      assert HasRow(s.positions, x);
      var i :| 0 <= i < |s.positions| && s.positions[i].orderId == x;
      assert rows[i].orderId == x;
    }
  }

  lemma BagCancel<T>(a: multiset<T>, b: multiset<T>, x: T)
    requires a + multiset{x} == b + multiset{x}
    ensures a == b
  {
    assert a == (a + multiset{x}) - multiset{x};
    assert b == (b + multiset{x}) - multiset{x};
  }

  lemma BagSnoc<T>(xs: seq<T>, x: T)
    ensures multiset(xs + [x]) == multiset(xs) + multiset{x}
  {
  }

  /** Deleting the position in memory and closing its row keep positions and trades equal. */
  lemma CloseMirrors(ps: seq<Position>, trades: seq<Trade>, rows: seq<PositionRow>, symbol: string, h: nat, t: Trade)
    requires h < |rows| && rows[h].status.OPEN? && ToTrade(ClosedRow(rows[h], t)) == t
    requires multiset(ps) == multiset(OpenPositions(rows)) && multiset(trades) == multiset(ClosedTrades(rows))
    requires OpenFor(ps, symbol) == Some(ToPosition(rows[h]))
    ensures
      var rows' := rows[h := ClosedRow(rows[h], t)];
      && multiset(Without(ps, symbol)) == multiset(OpenPositions(rows'))
      && multiset(trades + [t]) == multiset(ClosedTrades(rows'))
  {
    var rows', p := rows[h := ClosedRow(rows[h], t)], ToPosition(rows[h]);
    CloseMovesRow(rows, h, t);
    WithoutBag(ps, symbol);
    BagCancel(multiset(Without(ps, symbol)), multiset(OpenPositions(rows')), p);
    BagSnoc(trades, t);
  }

  lemma CloseBothEffect(c: CostFn, l: Ledger, symbol: string, price: real, reason: ExitReason, ts: int, h: nat, t: Trade)
    requires OpenFor(l.wallet.positions, symbol).Some? && FindOpen(l.store.positions, symbol) == Some(h)
    requires t == TradeOf(c, l.wallet.seed, OpenFor(l.wallet.positions, symbol).value, price, reason, ts)
    ensures
      var l' := CloseBoth(c, l, symbol, price, reason, ts);
      && l'.store == l.store.(positions := l.store.positions[h := ClosedRow(l.store.positions[h], t)])
      && l'.wallet.positions == Without(l.wallet.positions, symbol) && l'.wallet.trades == l.wallet.trades + [t]
      && l'.pending == l.pending
  {
    assert t.symbol == symbol;
  }

  lemma CloseKeeps(c: CostFn, l: Ledger, symbol: string, price: real, reason: ExitReason, ts: int)
    requires Sound(l) && OpenFor(l.wallet.positions, symbol).Some?
    ensures
      var l' := CloseBoth(c, l, symbol, price, reason, ts);
      Sound(l') && Grows(l.store, l'.store) && OpenFor(l'.wallet.positions, symbol).None?
  {
    var pos := OpenFor(l.wallet.positions, symbol).value;
    var t := TradeOf(c, l.wallet.seed, pos, price, reason, ts);
    OpenAgrees(l, symbol);
    var h := FindOpen(l.store.positions, symbol).value;
    CloseBothEffect(c, l, symbol, price, reason, ts, h, t);
    CloseStoreKeeps(l.store, h, t);
    CloseMirrors(l.wallet.positions, l.wallet.trades, l.store.positions, symbol, h, t);
    WithoutMembers(l.wallet.positions, symbol);
  }

  lemma {:induction false} RestoreMirrors(l: Ledger)
    requires StoreSound(l.store)
    ensures Sound(Restore(l))
  {
    OpenDistinct(l.store.positions);
    SortKeepsBag(ClosedTrades(l.store.positions), ExitKey());
    var orders := l.store.orders;
    PendingMembers(orders);
    var from, sorted := PendingFrom(orders), PendingOrders(orders);
    SortKeepsBag(from, OrderKey(orders));
    forall i, j | 0 <= i < j < |from|
      ensures OrderKey(orders)(from[i]) != OrderKey(orders)(from[j])
    {
      assert from[i] in from && from[j] in from;
      assert orders[from[i]].uid != orders[from[j]].uid;
    }
    SortSorts(from, OrderKey(orders));
    forall i, j | 0 <= i < j < |sorted|
      ensures sorted[i] != sorted[j]
    {
      assert OrderKey(orders)(sorted[i]).Less(OrderKey(orders)(sorted[j]));
    }
  }

  // ---- runs -------------------------------------------------------------------------------

  datatype LedgerOp =
    | SubmitOp(request: Request)
    | FillOp(order: nat, price: real, ts: int)
    | CancelOp(order: nat)
    | ExitOp(symbol: string, close: real, ts: int)
    | SignalOp(symbol: string, price: real, ts: int)
    | MarkOp(symbol: string, price: real)
    | SnapshotOp(ts: int)
    | RestoreOp

  function Apply(c: CostFn, l: Ledger, op: LedgerOp): Ledger {
    match op
    case SubmitOp(q) => Submit(l, q)
    case FillOp(h, price, ts) => Fill(c, l, h, price, ts)
    case CancelOp(h) => Cancel(l, h)
    case ExitOp(symbol, close, ts) => ExitAt(c, l, symbol, close, ts)
    case SignalOp(symbol, price, ts) => SignalClose(c, l, symbol, price, ts)
    case MarkOp(symbol, price) => MarkPrice(l, symbol, price)
    case SnapshotOp(ts) => TakeSnapshot(l, ts)
    case RestoreOp => Restore(l)
  }

  function Run(c: CostFn, l: Ledger, ops: seq<LedgerOp>): Ledger {
    if ops == [] then l else Apply(c, Run(c, l, ops[..|ops| - 1]), ops[|ops| - 1])
  }

  lemma ExitKeeps(c: CostFn, l: Ledger, symbol: string, close: real, ts: int)
    requires Sound(l)
    ensures Sound(ExitAt(c, l, symbol, close, ts)) && Grows(l.store, ExitAt(c, l, symbol, close, ts).store)
  {
    var hit := ExitHit(l.wallet, symbol, close);
    if hit.Some? {
      CloseKeeps(c, l, symbol, hit.value.0, hit.value.1, ts);
    }
  }

  lemma SignalKeeps(c: CostFn, l: Ledger, symbol: string, price: real, ts: int)
    requires Sound(l)
    ensures Sound(SignalClose(c, l, symbol, price, ts)) && Grows(l.store, SignalClose(c, l, symbol, price, ts).store)
  {
    if OpenFor(l.wallet.positions, symbol).Some? {
      CloseKeeps(c, l, symbol, price, Signal, ts);
    }
  }

  lemma ValuationKeeps(l: Ledger, symbol: string, price: real, ts: int)
    requires Sound(l)
    ensures Sound(MarkPrice(l, symbol, price)) && Sound(TakeSnapshot(l, ts))
    ensures Grows(l.store, MarkPrice(l, symbol, price).store) && Grows(l.store, TakeSnapshot(l, ts).store)
  {
  }

  lemma RestoreKeeps(l: Ledger)
    requires Sound(l)
    ensures Sound(Restore(l)) && Grows(l.store, Restore(l).store)
  {
    RestoreMirrors(l);
  }

  lemma ApplyKeeps(c: CostFn, l: Ledger, op: LedgerOp)
    requires Sound(l)
    ensures Sound(Apply(c, l, op)) && Grows(l.store, Apply(c, l, op).store)
  {
    hide Sound, Grows, Submit, Fill, Cancel, ExitAt, SignalClose, MarkPrice, TakeSnapshot, Restore;
    match op
    case SubmitOp(q) => SubmitKeeps(l, q);
    case FillOp(h, price, ts) => FillKeeps(c, l, h, price, ts);
    case CancelOp(h) => CancelKeeps(l, h);
    case ExitOp(symbol, close, ts) => ExitKeeps(c, l, symbol, close, ts);
    case SignalOp(symbol, price, ts) => SignalKeeps(c, l, symbol, price, ts);
    case MarkOp(symbol, price) => ValuationKeeps(l, symbol, price, 0);
    case SnapshotOp(ts) => ValuationKeeps(l, "", 0.0, ts);
    case RestoreOp => RestoreKeeps(l);
  }

  /** Every reachable ledger is sound. */
  lemma {:induction false} RunKeepsSound(c: CostFn, l: Ledger, ops: seq<LedgerOp>)
    requires Sound(l)
    ensures Sound(Run(c, l, ops))
  {
    if ops != [] {
      RunKeepsSound(c, l, ops[..|ops| - 1]);
      ApplyKeeps(c, Run(c, l, ops[..|ops| - 1]), ops[|ops| - 1]);
    }
  }

  /** Every later store of a run extends every earlier one. */
  lemma {:induction false} RunKeepsHistory(c: CostFn, l: Ledger, ops: seq<LedgerOp>, k: nat)
    requires Sound(l) && k <= |ops|
    ensures Grows(Run(c, l, ops[..k]).store, Run(c, l, ops).store)
  {
    if k == |ops| {
      assert ops[..k] == ops;
    } else {
      var before := ops[..|ops| - 1];
      RunKeepsHistory(c, l, before, k);
      assert before[..k] == ops[..k];
      RunKeepsSound(c, l, before);
      ApplyKeeps(c, Run(c, l, before), ops[|ops| - 1]);
      GrowsTransitive(Run(c, l, ops[..k]).store, Run(c, l, before).store, Run(c, l, ops).store);
    }
  }

  lemma EmptyLedgerSound(startEquity: real, seed: int, buckets: map<nat, int>)
    ensures Sound(FreshLedger(Store([], [], [], buckets), startEquity, seed))
  {
  }
}
