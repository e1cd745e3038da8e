/** What an account is worth after a restart, and what the snapshot written on one symbol's bar says of it. */
module Valuation {
  import opened Prelude
  import opened Paper
  import opened Ledger
  import opened LedgerInvariant
  import opened Lifecycle
  import opened CatchUp
  import opened Bars
  import opened Recovery
  import opened Equity
  import A = Accounting

  // ---- after a restart ----------------------------------------------------------------------

  lemma {:induction false} MarkedAtEntry(ps: seq<Position>, p: Position)
    requires OnePerSymbol(ps) && p in ps
    ensures p.symbol in EntryMarks(ps) && EntryMarks(ps)[p.symbol] == p.entryPrice
  {
    var n := |ps| - 1;
    if p != ps[n] {
      var i :| 0 <= i < n && ps[i] == p;
      assert ps[i].symbol != ps[n].symbol;
      assert ps[..n][i] == p;
      MarkedAtEntry(ps[..n], p);
    }
  }

  predicate AtEntry(marks: map<string, real>, p: Position) {
    MarkOf(marks, p) == p.entryPrice
  }

  /** Positions of other symbols are marked at their entry. */
  ghost predicate OthersAtEntry(w: Wallet, symbol: string) {
    forall p :: p in w.positions && p.symbol != symbol ==> AtEntry(w.lastMark, p)
  }

  /** Then the open result is that of the symbol's own position alone. */
  lemma {:induction false} OnlyOwnIsValued(ps: seq<Position>, marks: map<string, real>, symbol: string)
    requires OnePerSymbol(ps) && forall p :: p in ps && p.symbol != symbol ==> AtEntry(marks, p)
    ensures
      var own := OpenFor(ps, symbol);
      OpenPnl(ps, marks) == if own.None? then 0.0 else own.value.Unrealized(MarkOf(marks, own.value))
  {
    hide Position.Unrealized;
    if ps != [] {
      var rest := ps[1..];
      assert ps == [ps[0]] + rest;
      PnlCons(ps[0], rest, marks);
      OnlyOwnIsValued(rest, marks, symbol);
      if ps[0].symbol == symbol {
        forall i | 0 <= i < |rest|
          ensures rest[i].symbol != symbol
        {
          assert ps[0].symbol != ps[i + 1].symbol;
        }
      } else {
        EntryIsWorthNothing(ps[0]);
      }
    }
  }

  /**
   * A restored account is worth its cash, whatever is open: every position is marked at its entry. The cash is the latest
   * snapshot's, or what the broker held when there is none.
   */
  lemma RestoredIsWorthItsCash(l: Ledger)
    requires StoreSound(l.store)
    ensures
      var w, latest := Restore(l).wallet, LatestSnapshot(l.store.snapshots);
      && TotalEquity(w) == w.cash && OnePerSymbol(w.positions)
      && (forall symbol :: OthersAtEntry(w, symbol))
      && w.cash == (if latest.Some? then latest.value.cash else l.wallet.cash)
      && w.peakEquity == (if latest.Some? then latest.value.peakEquity else l.wallet.peakEquity)
      && w.maxDrawdownPct == (if latest.Some? then latest.value.drawdownPct else l.wallet.maxDrawdownPct)
  {
    hide StoreSound, OpenPositions, OpenPnl, ByExit, PendingOrders, OnePerSymbol;
    var w := Restore(l).wallet;
    SoundRows(l.store);
    OpenDistinct(l.store.positions);
    forall p | p in w.positions
      ensures AtEntry(w.lastMark, p)
    {
      MarkedAtEntry(w.positions, p);
    }
    OnlyOwnIsValued(w.positions, w.lastMark, "");
    if OpenFor(w.positions, "").Some? {
      EntryIsWorthNothing(OpenFor(w.positions, "").value);
    }
  }

  lemma SoundRows(s: Store)
    requires StoreSound(s)
    ensures OneOpenPerSymbol(s.positions)
  {
  }

  // ---- one bar touches one symbol ------------------------------------------------------------------

  /** The orders of the candidates are of this symbol. */
  ghost predicate OwnOrders(orders: seq<OrderRow>, cands: seq<Candidate>, symbol: string) {
    forall i :: 0 <= i < |cands| && cands[i].order < |orders| ==> orders[cands[i].order].symbol == symbol
  }

  /** Positions of other symbols, and their marks, are the same. */
  ghost predicate OthersKept(w: Wallet, w': Wallet, symbol: string) {
    forall p: Position :: p.symbol != symbol ==>
      && (p in w'.positions <==> p in w.positions)
      && MarkOf(w'.lastMark, p) == MarkOf(w.lastMark, p)
  }

  predicate NotValued(w: Wallet, w': Wallet) {
    w'.peakEquity == w.peakEquity && w'.maxDrawdownPct == w.maxDrawdownPct
  }

  lemma OthersKeptTransitive(a: Wallet, b: Wallet, d: Wallet, symbol: string)
    requires OthersKept(a, b, symbol) && OthersKept(b, d, symbol)
    ensures OthersKept(a, d, symbol)
  {
    forall p: Position | p.symbol != symbol
      ensures (p in d.positions <==> p in a.positions) && MarkOf(d.lastMark, p) == MarkOf(a.lastMark, p)
    {
      assert p in b.positions <==> p in a.positions;
    }
  }

  lemma {:induction false} WithoutOthers(ps: seq<Position>, symbol: string, p: Position)
    requires p.symbol != symbol
    ensures p in Without(ps, symbol) <==> p in ps
  {
    if ps != [] {
      assert ps == [ps[0]] + ps[1..];
      WithoutOthers(ps[1..], symbol, p);
    }
  }

  lemma CloseKeepsOthers(c: CostFn, w: Wallet, symbol: string, price: real, reason: ExitReason, ts: int)
    requires OpenFor(w.positions, symbol).Some?
    ensures OthersKept(w, CloseAt(c, w, symbol, price, reason, ts), symbol)
  {
    forall p: Position | p.symbol != symbol
      ensures p in CloseAt(c, w, symbol, price, reason, ts).positions <==> p in w.positions
    {
      WithoutOthers(w.positions, symbol, p);
    }
  }

  lemma FillKeepsOthers(c: CostFn, l: Ledger, symbol: string, h: nat, price: real, ts: int)
    requires h < |l.store.orders| ==> l.store.orders[h].symbol == symbol
    ensures
      var l' := Fill(c, l, h, price, ts);
      && OthersKept(l.wallet, l'.wallet, symbol) && NotValued(l.wallet, l'.wallet)
      && |l'.store.orders| == |l.store.orders|
      && forall h :: 0 <= h < |l.store.orders| ==> l'.store.orders[h].symbol == l.store.orders[h].symbol
  {
    hide FillCost, Remove;
  }

  lemma SignalKeepsOrders(c: CostFn, l: Ledger, symbol: string, price: real, ts: int)
    ensures SignalClose(c, l, symbol, price, ts).store.orders == l.store.orders
    ensures NotValued(l.wallet, SignalClose(c, l, symbol, price, ts).wallet)
  {
  }

  lemma OneKeepsOthers(c: CostFn, p: Progress, symbol: string, bar: Bar, cand: Candidate, action: FillAction)
    requires cand.order < |p.ledger.store.orders| ==> p.ledger.store.orders[cand.order].symbol == symbol
    ensures
      var l, l' := p.ledger, ExecuteOne(c, p, symbol, bar, cand, action).ledger;
      && OthersKept(l.wallet, l'.wallet, symbol) && NotValued(l.wallet, l'.wallet)
      && |l'.store.orders| == |l.store.orders|
      && forall h :: 0 <= h < |l.store.orders| ==> l'.store.orders[h].symbol == l.store.orders[h].symbol
  {
    hide CloseAt, Fill, OthersKept, PersistClose;
    var l := p.ledger;
    if action == Flip && OpenFor(l.wallet.positions, symbol).Some? {
      CloseKeepsOthers(c, l.wallet, symbol, bar.open, Signal, bar.ts);
    }
    NothingMoved(l.wallet, symbol);
    var l1 := if action == Flip then SignalClose(c, l, symbol, bar.open, bar.ts) else l;
    SignalKeepsOrders(c, l, symbol, bar.open, bar.ts);
    FillKeepsOthers(c, l1, symbol, cand.order, bar.open, bar.ts);
    OthersKeptTransitive(l.wallet, l1.wallet, Fill(c, l1, cand.order, bar.open, bar.ts).wallet, symbol);
  }

  lemma {:induction false} ExecuteKeepsOthers(
    c: CostFn, p: Progress, symbol: string, bar: Bar, cands: seq<Candidate>, actions: seq<FillAction>)
    requires |cands| == |actions| && OwnOrders(p.ledger.store.orders, cands, symbol)
    ensures OthersKept(p.ledger.wallet, Execute(c, p, symbol, bar, cands, actions).ledger.wallet, symbol)
    ensures NotValued(p.ledger.wallet, Execute(c, p, symbol, bar, cands, actions).ledger.wallet)
    decreases cands
  {
    hide OthersKept, ExecuteOne;
    if cands == [] {
      assert OthersKept(p.ledger.wallet, p.ledger.wallet, symbol) by { NothingMoved(p.ledger.wallet, symbol); }
    } else {
      var p1 := ExecuteOne(c, p, symbol, bar, cands[0], actions[0]);
      OneKeepsOthers(c, p, symbol, bar, cands[0], actions[0]);
      assert forall i :: 0 <= i < |cands[1..]| ==> cands[1..][i] == cands[i + 1];
      ExecuteKeepsOthers(c, p1, symbol, bar, cands[1..], actions[1..]);
      OthersKeptTransitive(p.ledger.wallet, p1.ledger.wallet,
                           Execute(c, p, symbol, bar, cands, actions).ledger.wallet, symbol);
    }
  }

  lemma NothingMoved(w: Wallet, symbol: string)
    ensures OthersKept(w, w, symbol)
  {
  }

  lemma OwnDue(cfg: Config, s: Store, cands: seq<Candidate>, ts: int)
    requires Ready(cfg, s, cands, ts)
    ensures OwnOrders(s.orders, DueAt(cands, ts), cfg.symbol)
  {
    hide DueAt;
    var due := DueAt(cands, ts);
    forall i | 0 <= i < |due| && due[i].order < |s.orders|
      ensures s.orders[due[i].order].symbol == cfg.symbol
    {
      assert Waiting(s, due[i]);
    }
  }

  lemma CloseOutKeepsOthers(c: CostFn, l: Ledger, symbol: string, b: Bar, interval: Option<int>, filled: bool)
    ensures OthersKept(l.wallet, CloseOut(c, l, symbol, b, interval, filled).wallet, symbol)
  {
    var hit := ExitHit(l.wallet, symbol, b.close);
    if hit.Some? {
      CloseKeepsOthers(c, l.wallet, symbol, hit.value.0, hit.value.1, b.ts);
    }
  }

  /** The bar of one symbol leaves every position of another as it is, in memory and in the store. */
  lemma BarKeepsOthers(c: CostFn, cfg: Config, s: Store, b: Bar, cands: seq<Candidate>, other: string)
    requires StoreSound(s) && Seeded(s, cfg.seed) && Ready(cfg, s, cands, b.ts) && other != cfg.symbol
    ensures OthersKept(Restore(Fresh(cfg, s)).wallet, BarOf(c, cfg, s, b, cands).ledger.wallet, cfg.symbol)
    ensures OpenIn(StoreBar(c, cfg, s, b, cands), other) == OpenIn(s, other)
  {
    hide Sound, StoreSound, Seeded, Ready, Restore, CloseOut, Grows, Settles, DueAt, Execute, OthersKept, Arbitrate,
         BarOf;
    var l0 := Restore(Fresh(cfg, s));
    var p := FillsAtOpen(c, l0, cfg.symbol, b, cands);
    RestoreKeepsStore(Fresh(cfg, s));
    OwnDue(cfg, s, cands, b.ts);
    ExecuteKeepsOthers(c, Progress(l0, 0, 0), cfg.symbol, b, DueAt(cands, b.ts),
                       Arbitrate(OpenSide(l0.wallet, cfg.symbol), DueAt(cands, b.ts)));
    BarIsFillsThenClose(c, cfg, s, b, cands);
    CloseOutKeepsOthers(c, p.ledger, cfg.symbol, b, cfg.interval, p.filled > 0);
    var l' := BarOf(c, cfg, s, b, cands).ledger;
    OthersKeptTransitive(l0.wallet, p.ledger.wallet, l'.wallet, cfg.symbol);
    RestoreFacts(cfg.(symbol := other), s);
    BarLedgerSound(c, cfg, s, b, cands);
    OpenInMemory(l', other);
    SameOther(l0, l', cfg.symbol, other);
  }

  lemma BarLedgerSound(c: CostFn, cfg: Config, s: Store, b: Bar, cands: seq<Candidate>)
    requires StoreSound(s) && Seeded(s, cfg.seed) && Ready(cfg, s, cands, b.ts)
    ensures Sound(BarOf(c, cfg, s, b, cands).ledger)
  {
    hide StoreSound, Mirrored, Seeded, Ready, Restore, CloseOut, Grows, Settles, FillsAtOpen, BarOf;
    var p := FillsAtOpen(c, Restore(Fresh(cfg, s)), cfg.symbol, b, cands);
    FillFacts(c, cfg, s, b, cands);
    BarIsFillsThenClose(c, cfg, s, b, cands);
    CloseOutFacts(c, cfg, p.ledger, b, p.filled > 0);
  }

  lemma SameOther(l: Ledger, l': Ledger, symbol: string, other: string)
    requires OthersKept(l.wallet, l'.wallet, symbol) && other != symbol
    requires Sound(l) && Sound(l')
    ensures OpenFor(l'.wallet.positions, other) == OpenFor(l.wallet.positions, other)
  {
    var p := OpenFor(l.wallet.positions, other);
    if p.Some? {
      OnlyOpenFor(l'.wallet.positions, p.value);
    } else {
      forall q | q in l'.wallet.positions
        ensures q.symbol != other
      {
        assert q.symbol != symbol ==> q in l.wallet.positions;
      }
    }
  }

  // ---- the snapshot of a bar -------------------------------------------------------------------------

  /** What the symbol's open position has gained at a price; nothing when none is open. */
  function OwnResult(s: Store, symbol: string, price: real): real {
    var pos := OpenIn(s, symbol);
    if pos.None? then 0.0 else A.Gain(pos.value.side, pos.value.units, pos.value.entryPrice, price)
  }

  /** Does the bar find or make a position? */
  predicate Concerned(cfg: Config, s: Store, b: Bar, cands: seq<Candidate>) {
    OpenIn(s, cfg.symbol).Some? || ActingOrder(cfg, s, b, cands).Some?
  }

  /** What the bar's own position adds, at the close, to an account whose other positions are marked at their entry. */
  lemma OwnAtClose(l: Ledger, symbol: string, close: real)
    requires Sound(l) && OthersAtEntry(l.wallet, symbol)
    ensures OpenPnl(l.wallet.positions, l.wallet.lastMark[symbol := close]) == OwnResult(l.store, symbol, close)
  {
    hide StoreSound, Position.Unrealized, A.Gain;
    var own := OpenFor(l.wallet.positions, symbol);
    OnlyOwnIsValued(l.wallet.positions, l.wallet.lastMark[symbol := close], symbol);
    OpenInMemory(l, symbol);
    if own.Some? {
      GainIsUnrealized(own.value, close);
    }
  }

  lemma GainIsUnrealized(pos: Position, price: real)
    ensures pos.Unrealized(price) == A.Gain(pos.side, pos.units, pos.entryPrice, price)
  {
  }

  /** Exit and mark: what a bar does between its fills and its snapshot. */
  lemma Unsnapped(c: CostFn, cfg: Config, s: Store, p: Progress, b: Bar)
    requires Sound(p.ledger) && OthersAtEntry(p.ledger.wallet, cfg.symbol)
    ensures
      var l := MarkPrice(ExitAt(c, p.ledger, cfg.symbol, b.close, b.ts), cfg.symbol, b.close);
      && Sound(l) && NotValued(p.ledger.wallet, l.wallet) && l.store.snapshots == p.ledger.store.snapshots
      && OpenPnl(l.wallet.positions, l.wallet.lastMark) == OwnResult(l.store, cfg.symbol, b.close)
  {
    hide StoreSound, Mirrored, OwnResult, Grows;
    var hit := ExitHit(p.ledger.wallet, cfg.symbol, b.close);
    ExitFacts(c, p.ledger, cfg.symbol, b);
    var l1 := ExitAt(c, p.ledger, cfg.symbol, b.close, b.ts);
    ValuationKeeps(l1, cfg.symbol, b.close, b.ts);
    if hit.Some? {
      CloseKeepsOthers(c, p.ledger.wallet, cfg.symbol, hit.value.0, hit.value.1, b.ts);
    }
    OwnAtClose(l1, cfg.symbol, b.close);
  }

  /** The bar's fills leave the other symbols at their entry and the account's figures alone. */
  lemma FillsUnsnapped(c: CostFn, cfg: Config, s: Store, b: Bar, cands: seq<Candidate>)
    requires StoreSound(s) && Seeded(s, cfg.seed) && Ready(cfg, s, cands, b.ts)
    ensures
      var w0 := Restore(Fresh(cfg, s)).wallet;
      var p := FillsAtOpen(c, Restore(Fresh(cfg, s)), cfg.symbol, b, cands);
      Sound(p.ledger) && OthersAtEntry(p.ledger.wallet, cfg.symbol) && NotValued(w0, p.ledger.wallet)
  {
    hide Sound, StoreSound, Seeded, Ready, Restore, Grows, Settles, DueAt, Execute, Arbitrate, OpenPnl;
    var l0, due := Restore(Fresh(cfg, s)), DueAt(cands, b.ts);
    RestoreKeepsStore(Fresh(cfg, s));
    RestoredIsWorthItsCash(Fresh(cfg, s));
    FillFacts(c, cfg, s, b, cands);
    OwnDue(cfg, s, cands, b.ts);
    ExecuteKeepsOthers(c, Progress(l0, 0, 0), cfg.symbol, b, due, Arbitrate(OpenSide(l0.wallet, cfg.symbol), due));
    assert OthersAtEntry(l0.wallet, cfg.symbol);
  }

  /** The row a valuation writes, from cash, open result, realized result and the figures before. */
  function RowFor(ts: int, cash: real, open: real, realized: real, peak: real, drawdown: real): Snapshot {
    Snapshot(ts, cash, cash + open, open, realized, Max(peak, cash + open), ObserveDrawdown(peak, drawdown, cash + open))
  }

  lemma TakenRow(l: Ledger, ts: int)
    requires Sound(l)
    ensures
      var w := l.wallet;
      TakeSnapshot(l, ts).store.snapshots == l.store.snapshots +
      [RowFor(ts, w.cash, OpenPnl(w.positions, w.lastMark), NetSum(ClosedTrades(l.store.positions)), w.peakEquity,
              w.maxDrawdownPct)]
  {
    hide StoreSound, ObserveDrawdown, OpenPnl;
    NetSumOfBag(l.wallet.trades, ClosedTrades(l.store.positions));
  }

  lemma CloseOutSplit(c: CostFn, cfg: Config, l: Ledger, b: Bar, filled: bool)
    requires Sound(l)
    ensures
      var l2 := MarkPrice(ExitAt(c, l, cfg.symbol, b.close, b.ts), cfg.symbol, b.close);
      CloseOut(c, l, cfg.symbol, b, cfg.interval, filled) ==
      if (filled || OpenFor(l.wallet.positions, cfg.symbol).Some?) && SnapshotDue(l.store.snapshots, b.ts, cfg.interval)
      then TakeSnapshot(l2, b.ts) else l2
  {
    hide Sound, SnapshotDue, Position.ExitFor, TakeSnapshot, Grows, CloseAt;
    ExitFacts(c, l, cfg.symbol, b);
  }

  /**
   * A bar writes a snapshot exactly when it finds or makes a position of its symbol and one is due. The row holds the
   * bar's stamp, the restored cash with what the bar moved, as open result that of the symbol's own position at the close,
   * as realized result the sum over the store's closed rows, and the peak and drawdown carried on from the last row.
   * Positions of other symbols are in it at their entry price, whatever their markets have done.
   */
  lemma BarSnapshot(c: CostFn, cfg: Config, s: Store, b: Bar, cands: seq<Candidate>)
    requires StoreSound(s) && Seeded(s, cfg.seed) && Ready(cfg, s, cands, b.ts)
    ensures
      var s', w0 := StoreBar(c, cfg, s, b, cands), Restore(Fresh(cfg, s)).wallet;
      s'.snapshots == s.snapshots +
      if Concerned(cfg, s, b, cands) && SnapshotDue(s.snapshots, b.ts, cfg.interval) then
        [RowFor(b.ts, RestoredCash(cfg, s) + CashMove(c, cfg, s, b, cands), OwnResult(s', cfg.symbol, b.close),
                NetSum(ClosedTrades(s'.positions)), w0.peakEquity, w0.maxDrawdownPct)]
      else []
  {
    hide StoreSound, Sound, Seeded, Ready, Restore, SnapshotDue, CashMove, ActingOrder, ClosedTrades, RowFor, ExitAt,
         CloseOut, OthersAtEntry, OwnResult, FillsAtOpen, BarOf, RestoredCash, TakeSnapshot;
    var p := FillsAtOpen(c, Restore(Fresh(cfg, s)), cfg.symbol, b, cands);
    FillsUnsnapped(c, cfg, s, b, cands);
    FillsCash(c, cfg, s, b, cands);
    BarIsFillsThenClose(c, cfg, s, b, cands);
    BarCash(c, cfg, s, b, cands);
    Unsnapped(c, cfg, s, p, b);
    CloseOutSplit(c, cfg, p.ledger, b, p.filled > 0);
    var l2 := MarkPrice(ExitAt(c, p.ledger, cfg.symbol, b.close, b.ts), cfg.symbol, b.close);
    TakenRow(l2, b.ts);
    ValuedLedger(l2, cfg.symbol, b);
    assert s.snapshots + [] == s.snapshots;
  }

  lemma ValuedLedger(l: Ledger, symbol: string, b: Bar)
    ensures
      var l' := TakeSnapshot(l, b.ts);
      && l'.wallet.cash == l.wallet.cash && l'.store.positions == l.store.positions
      && OwnResult(l'.store, symbol, b.close) == OwnResult(l.store, symbol, b.close)
  {
  }
}
