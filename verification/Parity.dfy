/**
 * The live ledger and the backtest driver agree: processing each bar from the store and submitting each decision after
 * its bar yields the driver's position, cash, peak, drawdown and trades after every bar.
 */
module Parity {
  import opened Prelude
  import opened Paper
  import opened Ledger
  import opened LedgerInvariant
  import opened Lifecycle
  import opened CatchUp
  import opened Bars
  import opened Restart
  import opened Driver
  import opened GateView

  // ---- the live side ----------------------------------------------------------------------

  function RestoredWallet(cfg: Config, s: Store): Wallet {
    Restore(Fresh(cfg, s)).wallet
  }

  function RequestFor(cfg: Config, i: nat, bar: Bar, intent: Intent): Request {
    Request(cfg.symbol, cfg.timeframe, intent.direction, bar.close, intent.units, Some(i), intent.stopLoss,
            intent.takeProfit, i, bar.ts)
  }

  /** The decision of bar `i` is recorded with its bar; a PAPER one is submitted on a restored broker. */
  function Decide(cfg: Config, policy: Policy, bars: seq<Bar>, i: nat, s: Store): Store
    requires i < |bars|
  {
    var noted := s.(buckets := s.buckets[i := bars[i].ts]);
    var intent := policy(bars[..i + 1], LiveView(RestoredWallet(cfg, s), cfg.symbol, cfg.startEquity));
    if intent.None? then noted else Submit(Restore(Fresh(cfg, noted)), RequestFor(cfg, i, bars[i], intent.value)).store
  }

  function LiveStep(c: CostFn, cfg: Config, policy: Policy, bars: seq<Bar>, i: nat, s: Store): Store
    requires i < |bars|
  {
    Decide(cfg, policy, bars, i, StoreBar(c, cfg, s, bars[i], UnitCandidates(cfg, s)))
  }

  function LiveRun(c: CostFn, cfg: Config, policy: Policy, bars: seq<Bar>, n: nat): Store
    requires n <= |bars|
  {
    if n == 0 then Store([], [], [], map[]) else LiveStep(c, cfg, policy, bars, n - 1, LiveRun(c, cfg, policy, bars, n - 1))
  }

  lemma DecideKeepsRows(cfg: Config, policy: Policy, bars: seq<Bar>, i: nat, s: Store)
    requires i < |bars|
    ensures
      Decide(cfg, policy, bars, i, s).positions == s.positions &&
        Decide(cfg, policy, bars, i, s).snapshots == s.snapshots
  {
    hide LiveView, RestoredWallet;
  }

  // ---- agreement --------------------------------------------------------------------------

  ghost predicate Contiguous(bars: seq<Bar>, timeframe: Timeframe) {
    forall i :: 0 <= i < |bars| - 1 ==> bars[i + 1].ts == bars[i].ts + timeframe.Seconds()
  }

  /** A fill with no size and nothing to close does nothing. */
  function Acting(pending: Option<PendingFill>): Option<PendingFill> {
    if pending.Some? && pending.value.units <= 0.0 && !pending.value.closeExisting then None else pending
  }

  lemma ActingIsEnough(c: CostFn, symbol: string, timeframe: Timeframe, w: Wallet, pending: Option<PendingFill>, bar: Bar)
    ensures FillAndExit(c, symbol, timeframe, w, pending, bar) == FillAndExit(c, symbol, timeframe, w, Acting(pending), bar)
  {
  }

  /** Equal in everything but the order of trades and stale marks. */
  ghost predicate Alike(a: Wallet, b: Wallet) {
    && a.seed == b.seed && a.cash == b.cash && a.equity == b.equity
    && a.peakEquity == b.peakEquity && a.maxDrawdownPct == b.maxDrawdownPct
    && a.positions == b.positions
    && multiset(a.trades) == multiset(b.trades)
  }

  /** At most one position, of the unit's symbol; and a flat wallet has nothing left to observe. */
  ghost predicate OneUnit(w: Wallet, symbol: string) {
    && |w.positions| <= 1 && (forall p :: p in w.positions ==> p.symbol == symbol)
    && (w.positions == [] ==>
          && w.equity == w.cash
          && ObservePeak(w.peakEquity, w.cash) == w.peakEquity
          && ObserveDrawdown(w.peakEquity, w.maxDrawdownPct, w.cash) == w.maxDrawdownPct)
  }

  lemma CloseAlike(c: CostFn, a: Wallet, b: Wallet, symbol: string, price: real, reason: ExitReason, ts: int)
    requires Alike(a, b) && OpenFor(a.positions, symbol).Some?
    ensures Alike(CloseAt(c, a, symbol, price, reason, ts), CloseAt(c, b, symbol, price, reason, ts))
  {
    var t := TradeOf(c, a.seed, OpenFor(a.positions, symbol).value, price, reason, ts);
    assert multiset(a.trades + [t]) == multiset(b.trades + [t]);
  }

  lemma FillAlike(c: CostFn, symbol: string, timeframe: Timeframe, a: Wallet, b: Wallet, act: PendingFill, bar: Bar)
    requires Alike(a, b)
    ensures
      Alike(ApplyFill(c, a, symbol, timeframe, act, bar.open, bar.ts),
            ApplyFill(c, b, symbol, timeframe, act, bar.open, bar.ts))
  {
    if act.closeExisting && OpenFor(a.positions, symbol).Some? {
      CloseAlike(c, a, b, symbol, bar.open, Signal, bar.ts);
    }
  }

  lemma FillAndExitAlike(c: CostFn, symbol: string, timeframe: Timeframe, a: Wallet, b: Wallet,
                         pending: Option<PendingFill>, bar: Bar)
    requires Alike(a, b)
    ensures Alike(FillAndExit(c, symbol, timeframe, a, pending, bar), FillAndExit(c, symbol, timeframe, b, pending, bar))
  {
    var a1 := if pending.Some? then ApplyFill(c, a, symbol, timeframe, pending.value, bar.open, bar.ts) else a;
    var b1 := if pending.Some? then ApplyFill(c, b, symbol, timeframe, pending.value, bar.open, bar.ts) else b;
    if pending.Some? {
      FillAlike(c, symbol, timeframe, a, b, pending.value, bar);
    }
    var hit := ExitHit(a1, symbol, bar.close);
    if hit.Some? {
      CloseAlike(c, a1, b1, symbol, hit.value.0, hit.value.1, bar.ts);
    }
  }

  lemma ObserveAlike(a: Wallet, b: Wallet, symbol: string, close: real)
    requires Alike(a, b) && |a.positions| <= 1 && forall p :: p in a.positions ==> p.symbol == symbol
    ensures Alike(Observe(Mark(a, symbol, close)), Observe(Mark(b, symbol, close)))
  {
    MarkedEquity(a, symbol, close);
    MarkedEquity(b, symbol, close);
  }

  lemma ApplyFillAtMostOne(c: CostFn, cfg: Config, w: Wallet, act: PendingFill, bar: Bar)
    requires AtMostOne(w, cfg.symbol)
    ensures AtMostOne(ApplyFill(c, w, cfg.symbol, cfg.timeframe, act, bar.open, bar.ts), cfg.symbol)
  {
    WithoutOnly(w.positions, cfg.symbol);
  }

  lemma ExitAtMostOne(c: CostFn, cfg: Config, w: Wallet, bar: Bar)
    requires AtMostOne(w, cfg.symbol)
    ensures AtMostOne(EvaluateExit(c, w, cfg.symbol, bar.close, bar.ts), cfg.symbol)
  {
    WithoutOnly(w.positions, cfg.symbol);
  }

  lemma ObservedIsOneUnit(w: Wallet, symbol: string, close: real)
    requires AtMostOne(w, symbol)
    ensures OneUnit(Observe(Mark(w, symbol, close)), symbol)
  {
    MarkedEquity(w, symbol, close);
  }

  /** A bar keeps the wallet to one unit, and observing it settles the flat case. */
  lemma OneUnitKept(c: CostFn, cfg: Config, w: Wallet, pending: Option<PendingFill>, bar: Bar)
    requires OneUnit(w, cfg.symbol)
    ensures
      var w2 := FillAndExit(c, cfg.symbol, cfg.timeframe, w, pending, bar);
      AtMostOne(w2, cfg.symbol) && OneUnit(Observe(Mark(w2, cfg.symbol, bar.close)), cfg.symbol)
  {
    if pending.Some? {
      ApplyFillAtMostOne(c, cfg, w, pending.value, bar);
      ExitAtMostOne(c, cfg, ApplyFill(c, w, cfg.symbol, cfg.timeframe, pending.value, bar.open, bar.ts), bar);
    } else {
      ExitAtMostOne(c, cfg, w, bar);
    }
    ObservedIsOneUnit(FillAndExit(c, cfg.symbol, cfg.timeframe, w, pending, bar), cfg.symbol, bar.close);
  }

  lemma WithoutOnly(ps: seq<Position>, symbol: string)
    requires |ps| <= 1 && forall p :: p in ps ==> p.symbol == symbol
    ensures Without(ps, symbol) == []
    ensures OpenFor(ps, symbol) == if ps == [] then None else Some(ps[0])
  {
    if |ps| == 1 {
      assert ps[0] in ps;
    }
  }

  // ---- the queue holds the driver's pending fill --------------------------------------------

  predicate OrderIs(cfg: Config, s: Store, h: nat, act: PendingFill, ts: int)
    requires h < |s.orders|
  {
    var o := s.orders[h];
    && o.symbol == cfg.symbol && o.timeframe == cfg.timeframe && o.side == act.direction && o.units == act.units
    && o.stopLoss == act.stopLoss && o.takeProfit == act.takeProfit
    && o.decisionId.Some? && o.decisionId.value in s.buckets
    && s.buckets[o.decisionId.value] + cfg.timeframe.Seconds() == ts
  }

  ghost predicate OnlyPending(s: Store, h: nat) {
    IsPending(s.orders, h) && forall x :: IsPending(s.orders, x) ==> x == h
  }

  ghost predicate QueueMatches(cfg: Config, s: Store, w: Wallet, pending: Option<PendingFill>, ts: int) {
    if pending.None? then forall h :: !IsPending(s.orders, h)
    else
      var open := OpenFor(w.positions, cfg.symbol);
      && pending.value.closeExisting == open.Some?
      && (open.Some? ==> open.value.side != pending.value.direction)
      && exists h :: OnlyPending(s, h) && OrderIs(cfg, s, h, pending.value, ts)
  }

  lemma NothingDue(cfg: Config, s: Store, ts: int)
    requires StoreSound(s) && forall h :: !IsPending(s.orders, h)
    ensures DueAt(UnitCandidates(cfg, s), ts) == []
  {
    UnitCandidatesExact(cfg, s);
    NoStampNoDue(UnitCandidates(cfg, s), ts);
  }

  lemma OneDue(cfg: Config, s: Store, h: nat, act: PendingFill, ts: int)
    requires StoreSound(s) && OnlyPending(s, h) && OrderIs(cfg, s, h, act, ts)
    ensures Resolve(s, h).Some? && DueAt(UnitCandidates(cfg, s), ts) == [Resolve(s, h).value]
    ensures Resolve(s, h).value.order == h && Resolve(s, h).value.side == act.direction
  {
    var a := Resolve(s, h).value;
    UnitCandidatesExact(cfg, s);
    var cands := UnitCandidates(cfg, s);
    forall x
      ensures x in cands <==> x == a
    {
      assert x in cands <==> UnitOrder(cfg, s, x);
    }
    DueFacts(cands, cfg.symbol, ts);
    AllSame(DueAt(cands, ts), a);
  }

  /** Filling the due order at the open is the driver's `_apply_fill`. */
  lemma FillsLikeDriver(c: CostFn, cfg: Config, s: Store, bar: Bar, pending: Option<PendingFill>)
    requires StoreSound(s) && Seeded(s, cfg.seed)
    requires QueueMatches(cfg, s, RestoredWallet(cfg, s), pending, bar.ts)
    ensures
      var rw := RestoredWallet(cfg, s);
      var p := FillsAtOpen(c, Restore(Fresh(cfg, s)), cfg.symbol, bar, UnitCandidates(cfg, s));
      && p.ledger.wallet == (if pending.Some? then
                             ApplyFill(c, rw, cfg.symbol, cfg.timeframe, pending.value, bar.open, bar.ts) else rw)
      && (p.filled > 0 <==> pending.Some?)
      && p.ledger.seed == cfg.seed
  {
    hide StoreSound, Sound, Seeded, ApplyFill;
    var l0 := Restore(Fresh(cfg, s));
    RestoreFacts(cfg, s);
    if pending.None? {
      NothingDue(cfg, s, bar.ts);
    } else {
      var h :| OnlyPending(s, h) && OrderIs(cfg, s, h, pending.value, bar.ts);
      OneDue(cfg, s, h, pending.value, bar.ts);
      var a := Resolve(s, h).value;
      var side := OpenSide(l0.wallet, cfg.symbol);
      assert Arbitrate(side, [a]) == [if side.None? then FillNow else Flip];
      OneExecution(c, l0, cfg, bar, a, pending.value);
    }
  }

  lemma OneExecution(c: CostFn, l: Ledger, cfg: Config, bar: Bar, a: Candidate, act: PendingFill)
    requires Sound(l) && l.wallet.seed == cfg.seed && l.seed == cfg.seed && Seeded(l.store, cfg.seed)
    requires IsPending(l.store.orders, a.order) && OrderIs(cfg, l.store, a.order, act, bar.ts)
    requires act.closeExisting == OpenFor(l.wallet.positions, cfg.symbol).Some?
    ensures
      var action := if act.closeExisting then Flip else FillNow;
      var p := Execute(c, Progress(l, 0, 0), cfg.symbol, bar, [a], [action]);
      && p.ledger.wallet == ApplyFill(c, l.wallet, cfg.symbol, cfg.timeframe, act, bar.open, bar.ts)
      && p.filled == 1 && p.ledger.seed == cfg.seed
  {
    hide Grows, UniqueOrders, RowsAreFills, FillsHaveRows, OneRowPerOrder, OneOpenPerSymbol, PendingMirrors;
    var action := if act.closeExisting then Flip else FillNow;
    var p0 := Progress(l, 0, 0);
    assert Execute(c, p0, cfg.symbol, bar, [a], [action]) == ExecuteOne(c, p0, cfg.symbol, bar, a, action);
    var l1 := if act.closeExisting then SignalClose(c, l, cfg.symbol, bar.open, bar.ts) else l;
    if act.closeExisting {
      CloseKeeps(c, l, cfg.symbol, bar.open, Signal, bar.ts);
    }
    assert l1.store.orders == l.store.orders;
    assert OpenFor(l1.wallet.positions, cfg.symbol).None?;
    assert OrdersSound(l.store.orders);
    assert Fillable(l1, a.order);
  }

  // ---- one bar ----------------------------------------------------------------------------

  lemma SameSingleton(xs: seq<Position>, ys: seq<Position>)
    requires multiset(xs) == multiset(ys) && |xs| <= 1
    ensures xs == ys
  {
    assert |multiset(xs)| == |xs| && |multiset(ys)| == |ys|;
    if |xs| == 1 {
      assert xs[0] in multiset(ys);
    }
  }

  /** The close-out of a bar, wallet side: what the driver does at the close, if the bar is active. */
  lemma CloseOutWallet(c: CostFn, l: Ledger, cfg: Config, b: Bar, filled: bool)
    requires cfg.interval.None? && SnapshotDue(l.store.snapshots, b.ts, None)
    ensures
      var l' := CloseOut(c, l, cfg.symbol, b, cfg.interval, filled);
      var w2 := EvaluateExit(c, l.wallet, cfg.symbol, b.close, b.ts);
      var active := filled || ExitHit(l.wallet, cfg.symbol, b.close).Some? || OpenFor(w2.positions, cfg.symbol).Some?;
      if active then
        && l'.wallet == Observe(Mark(w2, cfg.symbol, b.close))
        && l'.store.snapshots == l.store.snapshots + [SnapshotOf(l'.wallet, b.ts)]
      else
        l'.wallet == Mark(l.wallet, cfg.symbol, b.close) && l'.store == l.store && w2 == l.wallet
  {
    var exits := ExitHit(l.wallet, cfg.symbol, b.close).Some?;
    assert ExitAt(c, l, cfg.symbol, b.close, b.ts).wallet == EvaluateExit(c, l.wallet, cfg.symbol, b.close, b.ts);
    assert ExitAt(c, l, cfg.symbol, b.close, b.ts).store.snapshots == l.store.snapshots;
  }

  ghost predicate SnapshotsBefore(snaps: seq<Snapshot>, ts: int) {
    forall x :: x in snaps ==> x.ts < ts
  }

  lemma BeforeIsDue(snaps: seq<Snapshot>, ts: int)
    requires SnapshotsBefore(snaps, ts)
    ensures SnapshotDue(snaps, ts, None)
  {
  }

  /** Restoring after an active bar finds the wallet that was just snapshotted. */
  lemma RestoreFindsSnapshot(cfg: Config, l: Ledger, snaps: seq<Snapshot>, ts: int)
    requires Sound(l) && l.wallet.seed == cfg.seed && |l.wallet.positions| <= 1
    requires SnapshotsBefore(snaps, ts) && l.store.snapshots == snaps + [SnapshotOf(l.wallet, ts)]
    ensures Alike(l.wallet, RestoredWallet(cfg, l.store))
  {
    LatestSnoc(snaps, SnapshotOf(l.wallet, ts));
    RestoreMirrors(Fresh(cfg, l.store));
    SameSingleton(l.wallet.positions, OpenPositions(l.store.positions));
  }

  lemma IdleBar(cfg: Config, s: Store, l': Ledger, rw: Wallet, bar: Bar)
    requires StoreSound(s) && rw == RestoredWallet(cfg, s) && OneUnit(rw, cfg.symbol)
    requires Sound(l') && l'.wallet == Mark(rw, cfg.symbol, bar.close) && OpenFor(rw.positions, cfg.symbol).None?
    requires l'.store.snapshots == s.snapshots
    ensures Alike(Observe(Mark(rw, cfg.symbol, bar.close)), RestoredWallet(cfg, l'.store))
  {
    WithoutOnly(rw.positions, cfg.symbol);
    MarkedEquity(rw, cfg.symbol, bar.close);
    RestoreMirrors(Fresh(cfg, l'.store));
    SameSingleton(rw.positions, OpenPositions(l'.store.positions));
  }

  /** Closing out the ledger `l` left by the fills, when `w` is the wallet the bar began with. */
  lemma CloseOutLikeDriver(c: CostFn, cfg: Config, s: Store, w: Wallet, l: Ledger, bar: Bar, filled: bool)
    requires StoreSound(s) && w == RestoredWallet(cfg, s) && OneUnit(w, cfg.symbol) && cfg.interval.None?
    requires Sound(l) && l.wallet.seed == cfg.seed && AtMostOne(l.wallet, cfg.symbol)
    requires l.store.snapshots == s.snapshots && SnapshotsBefore(s.snapshots, bar.ts)
    requires !filled ==> l.wallet == w
    ensures
      var l' := CloseOut(c, l, cfg.symbol, bar, cfg.interval, filled);
      var w2 := EvaluateExit(c, l.wallet, cfg.symbol, bar.close, bar.ts);
      && Alike(Observe(Mark(w2, cfg.symbol, bar.close)), RestoredWallet(cfg, l'.store))
      && (forall x :: x in l'.store.snapshots ==> x.ts <= bar.ts)
  {
    hide StoreSound, Sound, CloseOut, SnapshotDue, Restore, Alike;
    BeforeIsDue(s.snapshots, bar.ts);
    CloseOutWallet(c, l, cfg, bar, filled);
    CloseOutFacts(c, cfg, l, bar, filled);
    var l' := CloseOut(c, l, cfg.symbol, bar, cfg.interval, filled);
    var w2 := EvaluateExit(c, l.wallet, cfg.symbol, bar.close, bar.ts);
    ExitAtMostOne(c, cfg, l.wallet, bar);
    if filled || ExitHit(l.wallet, cfg.symbol, bar.close).Some? || OpenFor(w2.positions, cfg.symbol).Some? {
      RestoreFindsSnapshot(cfg, l', s.snapshots, bar.ts);
    } else {
      IdleBar(cfg, s, l', w, bar);
    }
  }

  lemma OneUnitIsAtMostOne(w: Wallet, symbol: string)
    requires OneUnit(w, symbol)
    ensures AtMostOne(w, symbol)
  {
  }

  /** Live and driver wallets after one bar. */
  lemma BarLikeDriver(c: CostFn, cfg: Config, s: Store, bar: Bar, pending: Option<PendingFill>)
    requires StoreSound(s) && Seeded(s, cfg.seed) && cfg.interval.None?
    requires SnapshotsBefore(s.snapshots, bar.ts)
    requires OneUnit(RestoredWallet(cfg, s), cfg.symbol)
    requires QueueMatches(cfg, s, RestoredWallet(cfg, s), pending, bar.ts)
    ensures
      var s' := StoreBar(c, cfg, s, bar, UnitCandidates(cfg, s));
      var w2 := FillAndExit(c, cfg.symbol, cfg.timeframe, RestoredWallet(cfg, s), pending, bar);
      && Alike(Observe(Mark(w2, cfg.symbol, bar.close)), RestoredWallet(cfg, s'))
      && (forall x :: x in s'.snapshots ==> x.ts <= bar.ts)
  {
    hide StoreSound, Seeded, UnitCandidates, Restore, OneUnit, QueueMatches, CloseOut, Alike, ApplyFill, AtMostOne;
    var rw := RestoredWallet(cfg, s);
    var cands := UnitCandidates(cfg, s);
    var p := FillsAtOpen(c, Restore(Fresh(cfg, s)), cfg.symbol, bar, cands);
    FillsLikeDriver(c, cfg, s, bar, pending);
    BarIsFillsThenClose(c, cfg, s, bar, cands);
    UnitCandidatesExact(cfg, s);
    WaitingIsReady(cfg, s, cands, bar.ts);
    FillFacts(c, cfg, s, bar, cands);
    OneUnitIsAtMostOne(rw, cfg.symbol);
    if pending.Some? {
      ApplyFillAtMostOne(c, cfg, rw, pending.value, bar);
    }
    CloseOutLikeDriver(c, cfg, s, rw, p.ledger, bar, p.filled > 0);
  }

  // ---- the decision of a bar ----------------------------------------------------------------

  /** Orders and the decisions they belong to were numbered before bar `i`. */
  ghost predicate Numbered(s: Store, i: nat) {
    forall h :: 0 <= h < |s.orders| ==>
      s.orders[h].uid < i && s.orders[h].decisionId.Some? && s.orders[h].decisionId.value < i
  }

  ghost predicate Idle(s: Store) {
    forall h :: !IsPending(s.orders, h)
  }

  /** Settling a due list that names every waiting order leaves none waiting. */
  lemma AllSettled(orders: seq<OrderRow>, orders': seq<OrderRow>, due: seq<Candidate>, k: nat)
    requires Settles(orders, orders', due, k)
    requires forall h :: IsPending(orders, h) ==> exists i :: 0 <= i < |due| && due[i].order == h
    ensures forall h :: !IsPending(orders', h)
  {
    forall h: nat
      ensures !IsPending(orders', h)
    {
      if h < |orders| && forall i :: 0 <= i < |due| ==> due[i].order != h {
        assert !IsPending(orders, h);
      }
    }
  }

  lemma NumberingStays(s: Store, s': Store, i: nat)
    requires Grows(s, s') && |s'.orders| == |s.orders| && Numbered(s, i)
    ensures Numbered(s', i)
  {
    forall h | 0 <= h < |s'.orders|
      ensures s'.orders[h].uid < i && s'.orders[h].decisionId.Some? && s'.orders[h].decisionId.value < i
    {
      assert OrderEvolves(s.orders[h], s'.orders[h]);
    }
  }

  lemma QueueIsDue(cfg: Config, s: Store, w: Wallet, pending: Option<PendingFill>, ts: int)
    requires StoreSound(s) && QueueMatches(cfg, s, w, pending, ts)
    ensures
      var due := DueAt(UnitCandidates(cfg, s), ts);
      forall h :: IsPending(s.orders, h) ==> exists i :: 0 <= i < |due| && due[i].order == h
  {
    if pending.Some? {
      var h :| OnlyPending(s, h) && OrderIs(cfg, s, h, pending.value, ts);
      OneDue(cfg, s, h, pending.value, ts);
      assert DueAt(UnitCandidates(cfg, s), ts)[0].order == h;
    }
  }

  /** A bar leaves no order waiting when the queue held what the driver was about to fill. */
  lemma QueueDrained(c: CostFn, cfg: Config, s: Store, w: Wallet, bar: Bar, pending: Option<PendingFill>, i: nat)
    requires StoreSound(s) && Seeded(s, cfg.seed) && Numbered(s, i)
    requires QueueMatches(cfg, s, w, pending, bar.ts)
    ensures
      var s' := StoreBar(c, cfg, s, bar, UnitCandidates(cfg, s));
      StoreSound(s') && Seeded(s', cfg.seed) && Numbered(s', i) && Idle(s')
  {
    var cands := UnitCandidates(cfg, s);
    UnitCandidatesExact(cfg, s);
    WaitingIsReady(cfg, s, cands, bar.ts);
    BarFacts(c, cfg, s, bar, cands);
    var s' := StoreBar(c, cfg, s, bar, cands);
    var k :| Settles(s.orders, s'.orders, DueAt(cands, bar.ts), k);
    QueueIsDue(cfg, s, w, pending, bar.ts);
    AllSettled(s.orders, s'.orders, DueAt(cands, bar.ts), k);
    NumberingStays(s, s', i);
  }

  lemma IdleRestores(cfg: Config, s: Store)
    requires StoreSound(s) && Idle(s)
    ensures
      var l := Restore(Fresh(cfg, s));
      Sound(l) && l.pending == [] && l.store == s && l.seed == cfg.seed && l.wallet == RestoredWallet(cfg, s)
  {
    RestoreMirrors(Fresh(cfg, s));
    var l := Restore(Fresh(cfg, s));
    HasMember(l.pending);
    assert forall h :: h in l.pending ==> IsPending(s.orders, h);
  }

  lemma QueueHoldsNewOrder(cfg: Config, s: Store, w: Wallet, row: OrderRow, act: PendingFill, ts: int, i: nat)
    requires Idle(s) && Numbered(s, i) && row.status == PENDING && row.uid == i && row.decisionId == Some(i)
    requires act.closeExisting == OpenFor(w.positions, cfg.symbol).Some?
    requires OpenFor(w.positions, cfg.symbol).Some? ==> OpenFor(w.positions, cfg.symbol).value.side != act.direction
    requires OrderIs(cfg, s.(orders := s.orders + [row]), |s.orders|, act, ts)
    ensures
      var s' := s.(orders := s.orders + [row]);
      QueueMatches(cfg, s', w, Some(act), ts) && Numbered(s', i + 1)
  {
    var s' := s.(orders := s.orders + [row]);
    forall x: nat | IsPending(s'.orders, x)
      ensures x == |s.orders|
    {
      assert x < |s.orders| ==> IsPending(s.orders, x);
    }
    assert OnlyPending(s', |s.orders|);
  }

  lemma FreshNumbersAccepted(s: Store, row: OrderRow, i: nat)
    requires Numbered(s, i) && row.uid == i && row.decisionId == Some(i)
    ensures StoreAccepts(s.orders, row)
  {
  }

  /** An intent the driver schedules becomes the store's only waiting order. */
  lemma NewOrderIsQueued(cfg: Config, s: Store, w: Wallet, bar: Bar, i: nat, intent: Intent)
    requires StoreSound(s) && Seeded(s, cfg.seed) && Numbered(s, i) && Idle(s)
    requires w.positions == RestoredWallet(cfg, s).positions
    requires intent.direction != FLAT && intent.units > 0.0
    requires OpenFor(w.positions, cfg.symbol).Some? ==> OpenFor(w.positions, cfg.symbol).value.side != intent.direction
    requires i in s.buckets && s.buckets[i] == bar.ts
    ensures
      var q := RequestFor(cfg, i, bar, intent);
      var s' := s.(orders := s.orders + [NewOrder(cfg.seed, q)]);
      && Submit(Restore(Fresh(cfg, s)), q).store == s' && StoreSound(s') && Seeded(s', cfg.seed) && Numbered(s', i + 1)
      && QueueMatches(cfg, s', w, ScheduleFill(w, cfg.symbol, false, intent), bar.ts + cfg.timeframe.Seconds())
  {
    hide QueueMatches, StoreSound, Restore, Numbered;
    var l, q := Restore(Fresh(cfg, s)), RequestFor(cfg, i, bar, intent);
    var row := NewOrder(cfg.seed, q);
    IdleRestores(cfg, s);
    assert GuardAccepts(l, q);
    FreshNumbersAccepted(s, row, i);
    AddOrderKeeps(s, row);
    QueueHoldsNewOrder(cfg, s, w, row, ScheduleFill(w, cfg.symbol, false, intent).value,
                       bar.ts + cfg.timeframe.Seconds(), i);
  }

  lemma RefusedChangesNothing(cfg: Config, s: Store, w: Wallet, bar: Bar, i: nat, intent: Intent)
    requires w.positions == RestoredWallet(cfg, s).positions
    requires
      || intent.direction == FLAT || intent.units <= 0.0
      || (OpenFor(w.positions, cfg.symbol).Some? && OpenFor(w.positions, cfg.symbol).value.side == intent.direction)
    ensures Submit(Restore(Fresh(cfg, s)), RequestFor(cfg, i, bar, intent)).store == s
  {
  }

  /** A sized-to-nothing intent against an open position of the other side: the driver closes, the ledger declines. */
  predicate EmptyFlip(w: Wallet, symbol: string, intent: Option<Intent>) {
    && intent.Some? && intent.value.direction != FLAT && intent.value.units <= 0.0
    && var open := OpenFor(w.positions, symbol); open.Some? && open.value.side != intent.value.direction
  }

  /** What a decision that is not an empty flip leaves in the driver's pending slot. */
  function Wanted(w: Wallet, symbol: string, intent: Option<Intent>): Option<PendingFill> {
    if intent.None? then None else Acting(ScheduleFill(w, symbol, false, intent.value))
  }

  lemma NothingWanted(w: Wallet, symbol: string, intent: Intent)
    requires !EmptyFlip(w, symbol, Some(intent))
    requires
      || intent.direction == FLAT || intent.units <= 0.0
      || (OpenFor(w.positions, symbol).Some? && OpenFor(w.positions, symbol).value.side == intent.direction)
    ensures Wanted(w, symbol, Some(intent)).None?
  {
  }

  /** The decision of a bar as recorded and submitted, from the intent. */
  function Recorded(cfg: Config, bar: Bar, i: nat, s: Store, intent: Option<Intent>): Store {
    var noted := s.(buckets := s.buckets[i := bar.ts]);
    if intent.None? then noted else Submit(Restore(Fresh(cfg, noted)), RequestFor(cfg, i, bar, intent.value)).store
  }

  lemma NotedStaysSound(cfg: Config, s: Store, i: nat, ts: int)
    requires StoreSound(s) && Seeded(s, cfg.seed) && Numbered(s, i) && Idle(s)
    ensures
      var noted := s.(buckets := s.buckets[i := ts]);
      && StoreSound(noted) && Seeded(noted, cfg.seed) && Numbered(noted, i) && Idle(noted)
      && RestoredWallet(cfg, noted) == RestoredWallet(cfg, s)
  {
  }

  /** Everything the next bar relies on after a decision. */
  ghost predicate Queued(cfg: Config, s: Store, s': Store, w: Wallet, wanted: Option<PendingFill>, ts: int, i: nat) {
    && StoreSound(s') && Seeded(s', cfg.seed) && Numbered(s', i + 1)
    && s'.snapshots == s.snapshots && s'.positions == s.positions
    && QueueMatches(cfg, s', w, wanted, ts)
  }

  lemma IdleIsQueued(cfg: Config, s: Store, s': Store, w: Wallet, ts: int, i: nat)
    requires StoreSound(s') && Seeded(s', cfg.seed) && Numbered(s', i) && Idle(s')
    requires s'.snapshots == s.snapshots && s'.positions == s.positions
    ensures Queued(cfg, s, s', w, None, ts, i)
  {
  }

  /** The store's queue after the decision of a bar is the driver's pending fill, unless the decision is an empty flip. */
  lemma DecideLikeDriver(cfg: Config, bar: Bar, i: nat, s: Store, w: Wallet, intent: Option<Intent>)
    requires StoreSound(s) && Seeded(s, cfg.seed) && Numbered(s, i) && Idle(s)
    requires w.positions == RestoredWallet(cfg, s).positions
    ensures
      Queued(cfg, s, Recorded(cfg, bar, i, s, intent), w,
             if EmptyFlip(w, cfg.symbol, intent) then None else Wanted(w, cfg.symbol, intent),
             bar.ts + cfg.timeframe.Seconds(), i)
  {
    hide StoreSound, Seeded, Numbered, QueueMatches, RestoredWallet, Submit, Idle, Queued;
    var noted := s.(buckets := s.buckets[i := bar.ts]);
    NotedStaysSound(cfg, s, i, bar.ts);
    IdleIsQueued(cfg, s, noted, w, bar.ts + cfg.timeframe.Seconds(), i);
    if intent.Some? {
      var x := intent.value;
      var open := OpenFor(w.positions, cfg.symbol);
      if x.direction == FLAT || x.units <= 0.0 || (open.Some? && open.value.side == x.direction) {
        RefusedChangesNothing(cfg, noted, w, bar, i, x);
        if !EmptyFlip(w, cfg.symbol, intent) {
          NothingWanted(w, cfg.symbol, x);
        }
      } else {
        NewOrderIsQueued(cfg, noted, w, bar, i, x);
        NewOrderQueued(cfg, s, noted, Recorded(cfg, bar, i, s, intent), w, bar, i, x);
      }
    }
  }

  lemma NewOrderQueued(cfg: Config, s: Store, noted: Store, s': Store, w: Wallet, bar: Bar, i: nat, x: Intent)
    requires noted == s.(buckets := s.buckets[i := bar.ts])
    requires s' == noted.(orders := noted.orders + [NewOrder(cfg.seed, RequestFor(cfg, i, bar, x))])
    requires StoreSound(s') && Seeded(s', cfg.seed) && Numbered(s', i + 1) && x.units > 0.0
    requires QueueMatches(cfg, s', w, ScheduleFill(w, cfg.symbol, false, x), bar.ts + cfg.timeframe.Seconds())
    ensures
      Queued(cfg, s, s', w, Wanted(w, cfg.symbol, Some(x)), bar.ts + cfg.timeframe.Seconds(), i)
      && !EmptyFlip(w, cfg.symbol, Some(x))
  {
    hide StoreSound, Seeded, Numbered, QueueMatches;
  }

  // ---- every bar --------------------------------------------------------------------------

  /** The state of both sides before bar `i`. */
  ghost predicate Agrees(cfg: Config, bars: seq<Bar>, i: nat, d: Run, s: Store)
    requires i <= |bars|
  {
    && StoreSound(s) && Seeded(s, cfg.seed) && Numbered(s, i)
    && Alike(d.wallet, RestoredWallet(cfg, s))
    && OneUnit(d.wallet, cfg.symbol)
    && (forall x :: x in s.snapshots ==> i > 0 && x.ts <= bars[i - 1].ts)
    && (i < |bars| ==> QueueMatches(cfg, s, d.wallet, Acting(d.pending), bars[i].ts))
  }

  /** Both sides after the bar, before its decision: the driver's wallets at decision and after valuation, the store. */
  ghost predicate Closed(cfg: Config, bar: Bar, i: nat, w2: Wallet, w3: Wallet, s1: Store) {
    && StoreSound(s1) && Seeded(s1, cfg.seed) && Numbered(s1, i) && Idle(s1)
    && Alike(w3, RestoredWallet(cfg, s1)) && OneUnit(w3, cfg.symbol)
    && w3 == Observe(Mark(w2, cfg.symbol, bar.close))
    && forall x :: x in s1.snapshots ==> x.ts <= bar.ts
  }

  lemma BarAgrees(c: CostFn, cfg: Config, i: nat, w: Wallet, pending: Option<PendingFill>, bar: Bar, s: Store)
    requires StoreSound(s) && Seeded(s, cfg.seed) && Numbered(s, i) && cfg.interval.None?
    requires Alike(w, RestoredWallet(cfg, s)) && OneUnit(w, cfg.symbol)
    requires SnapshotsBefore(s.snapshots, bar.ts)
    requires QueueMatches(cfg, s, w, pending, bar.ts)
    ensures
      var w2 := FillAndExit(c, cfg.symbol, cfg.timeframe, w, pending, bar);
      Closed(cfg, bar, i, w2, Observe(Mark(w2, cfg.symbol, bar.close)), StoreBar(c, cfg, s, bar, UnitCandidates(cfg, s)))
  {
    hide StoreSound, Seeded, Numbered, FillAndExit, Observe, Mark, StoreBar, UnitCandidates, Idle, RestoredWallet;
    var rw := RestoredWallet(cfg, s);
    assert QueueMatches(cfg, s, rw, pending, bar.ts);
    BarLikeDriver(c, cfg, s, bar, pending);
    QueueDrained(c, cfg, s, w, bar, pending, i);
    FillAndExitAlike(c, cfg.symbol, cfg.timeframe, w, rw, pending, bar);
    OneUnitKept(c, cfg, w, pending, bar);
    ObserveAlike(FillAndExit(c, cfg.symbol, cfg.timeframe, w, pending, bar),
                 FillAndExit(c, cfg.symbol, cfg.timeframe, rw, pending, bar), cfg.symbol, bar.close);
  }

  lemma StampsGrow(bars: seq<Bar>, timeframe: Timeframe, i: nat)
    requires Contiguous(bars, timeframe) && 0 < i < |bars|
    ensures bars[i - 1].ts < bars[i].ts
  {
    assert bars[(i - 1) + 1].ts == bars[i - 1].ts + timeframe.Seconds();
  }

  // ---- runs ---------------------------------------------------------------------------------

  function BackRun(c: CostFn, cfg: Config, policy: Policy, bars: seq<Bar>, n: nat): Run
    requires n <= |bars|
  {
    RunFine(c, cfg.symbol, cfg.timeframe, Backtest(policy, cfg.symbol, cfg.startEquity),
            FreshWallet(cfg.startEquity, cfg.seed), bars, n)
  }

  /** The driver's wallet when it decides at bar `i`, and after it has valued the bar. */
  function AtDecision(c: CostFn, cfg: Config, policy: Policy, bars: seq<Bar>, i: nat): Wallet
    requires i < |bars|
  {
    var r := BackRun(c, cfg, policy, bars, i);
    FillAndExit(c, cfg.symbol, cfg.timeframe, r.wallet, r.pending, bars[i])
  }

  function Valued(cfg: Config, w2: Wallet, bar: Bar): Wallet {
    Observe(Mark(w2, cfg.symbol, bar.close))
  }

  function IntentAt(c: CostFn, cfg: Config, policy: Policy, bars: seq<Bar>, i: nat): Option<Intent>
    requires i < |bars|
  {
    policy(bars[..i + 1], DriverView(AtDecision(c, cfg, policy, bars, i), cfg.symbol, cfg.startEquity))
  }

  /** At bar `i` the policy decides the same on what the driver sees and on what the live side sees there. */
  ghost predicate SameDecision(c: CostFn, cfg: Config, policy: Policy, bars: seq<Bar>, i: nat)
    requires i < |bars|
  {
    var w2 := AtDecision(c, cfg, policy, bars, i);
    IntentAt(c, cfg, policy, bars, i) ==
    policy(bars[..i + 1], LiveView(Valued(cfg, w2, bars[i]), cfg.symbol, cfg.startEquity))
  }

  ghost predicate SameDecisions(c: CostFn, cfg: Config, policy: Policy, bars: seq<Bar>, n: nat)
    requires n <= |bars|
  {
    forall i :: 0 <= i < n ==> SameDecision(c, cfg, policy, bars, i)
  }

  lemma BlindDecidesAlike(c: CostFn, cfg: Config, policy: Policy, bars: seq<Bar>)
    requires Blind(policy)
    ensures SameDecisions(c, cfg, policy, bars, |bars|)
  {
    hide AtDecision, DriverView, LiveView, Valued;
    forall i | 0 <= i < |bars|
      ensures SameDecision(c, cfg, policy, bars, i)
    {
      SharedView(c, cfg, policy, bars, i);
    }
  }

  lemma SharedView(c: CostFn, cfg: Config, policy: Policy, bars: seq<Bar>, i: nat)
    requires i < |bars|
    ensures
      var w2 := AtDecision(c, cfg, policy, bars, i);
      var d := DriverView(w2, cfg.symbol, cfg.startEquity);
      var l := LiveView(Valued(cfg, w2, bars[i]), cfg.symbol, cfg.startEquity);
      d.position == l.position && d.cash == l.cash && d.trades == l.trades
  {
    hide AtDecision;
    ViewsShareHoldings(AtDecision(c, cfg, policy, bars, i), cfg.symbol, cfg.startEquity, bars[i].close);
  }

  /** At bar `i` the driver schedules an empty flip for a bar that exists. */
  ghost predicate FlipsToNothing(c: CostFn, cfg: Config, policy: Policy, bars: seq<Bar>, i: nat)
    requires i < |bars|
  {
    i + 1 < |bars| && EmptyFlip(AtDecision(c, cfg, policy, bars, i), cfg.symbol, IntentAt(c, cfg, policy, bars, i))
  }

  ghost predicate NoEmptyFlips(c: CostFn, cfg: Config, policy: Policy, bars: seq<Bar>, n: nat)
    requires n <= |bars|
  {
    forall i :: 0 <= i < n ==> !FlipsToNothing(c, cfg, policy, bars, i)
  }

  lemma LiveViewOfAlike(a: Wallet, b: Wallet, symbol: string, start: real)
    requires Alike(a, b)
    ensures LiveView(a, symbol, start) == LiveView(b, symbol, start)
  {
  }

  /** The driver's step, in terms of its wallet at the decision. */
  lemma StepOfRun(c: CostFn, cfg: Config, policy: Policy, bars: seq<Bar>, i: nat)
    requires i < |bars|
    ensures
      var w2, r := AtDecision(c, cfg, policy, bars, i), BackRun(c, cfg, policy, bars, i + 1);
      && r.wallet == Valued(cfg, w2, bars[i])
      && (i + 1 < |bars| ==>
            r.pending ==
            var intent := IntentAt(c, cfg, policy, bars, i);
            if intent.None? then None else ScheduleFill(w2, cfg.symbol, false, intent.value))
  {
    hide FillAndExit, Observe, Mark, RecordEquity, ScheduleFill;
  }

  /** The wallets and the store between bar `i` and its decision. */
  lemma RunBarAgrees(c: CostFn, cfg: Config, policy: Policy, bars: seq<Bar>, i: nat, s: Store)
    requires i < |bars| && Contiguous(bars, cfg.timeframe) && cfg.interval.None?
    requires Agrees(cfg, bars, i, BackRun(c, cfg, policy, bars, i), s)
    ensures
      var w2 := AtDecision(c, cfg, policy, bars, i);
      Closed(cfg, bars[i], i, w2, Valued(cfg, w2, bars[i]), StoreBar(c, cfg, s, bars[i], UnitCandidates(cfg, s)))
  {
    hide StoreSound, Seeded, Numbered, Alike, OneUnit, QueueMatches, BackRun, FillAndExit, StoreBar, Closed,
         UnitCandidates;
    var d := BackRun(c, cfg, policy, bars, i);
    if i > 0 {
      StampsGrow(bars, cfg.timeframe, i);
    }
    ActingIsEnough(c, cfg.symbol, cfg.timeframe, d.wallet, d.pending, bars[i]);
    BarAgrees(c, cfg, i, d.wallet, Acting(d.pending), bars[i], s);
  }

  lemma DecideIsSubmitted(c: CostFn, cfg: Config, policy: Policy, bars: seq<Bar>, i: nat, s1: Store)
    requires i < |bars| && SameDecision(c, cfg, policy, bars, i)
    requires Alike(Valued(cfg, AtDecision(c, cfg, policy, bars, i), bars[i]), RestoredWallet(cfg, s1))
    ensures Decide(cfg, policy, bars, i, s1) == Recorded(cfg, bars[i], i, s1, IntentAt(c, cfg, policy, bars, i))
  {
    hide AtDecision, Valued, RestoredWallet, Alike, LiveView, DriverView, Submit;
    LiveViewOfAlike(Valued(cfg, AtDecision(c, cfg, policy, bars, i), bars[i]), RestoredWallet(cfg, s1), cfg.symbol,
                    cfg.startEquity);
  }

  lemma SamePositionsSameFlip(a: Wallet, b: Wallet, symbol: string, intent: Option<Intent>)
    requires a.positions == b.positions
    ensures
      EmptyFlip(a, symbol, intent) == EmptyFlip(b, symbol, intent) &&
        Wanted(a, symbol, intent) == Wanted(b, symbol, intent)
  {
  }

  lemma ValuedKeepsPositions(cfg: Config, w2: Wallet, bar: Bar)
    ensures Valued(cfg, w2, bar).positions == w2.positions
  {
  }

  lemma ClosedPositions(cfg: Config, bar: Bar, i: nat, w2: Wallet, s1: Store)
    requires Closed(cfg, bar, i, w2, Valued(cfg, w2, bar), s1)
    ensures Valued(cfg, w2, bar).positions == w2.positions == RestoredWallet(cfg, s1).positions
  {
  }

  /** The live store after bar `i` and its decision: the queue holds what the driver wants, or nothing on an empty flip. */
  lemma LiveStepQueued(c: CostFn, cfg: Config, policy: Policy, bars: seq<Bar>, i: nat, s: Store)
    requires i < |bars| && Contiguous(bars, cfg.timeframe) && cfg.interval.None?
    requires SameDecision(c, cfg, policy, bars, i)
    requires Agrees(cfg, bars, i, BackRun(c, cfg, policy, bars, i), s)
    ensures
      var w2, intent := AtDecision(c, cfg, policy, bars, i), IntentAt(c, cfg, policy, bars, i);
      var s1 := StoreBar(c, cfg, s, bars[i], UnitCandidates(cfg, s));
      && Closed(cfg, bars[i], i, w2, Valued(cfg, w2, bars[i]), s1)
      && Queued(cfg, s1, LiveStep(c, cfg, policy, bars, i, s), Valued(cfg, w2, bars[i]),
                if EmptyFlip(w2, cfg.symbol, intent) then None else Wanted(w2, cfg.symbol, intent),
                bars[i].ts + cfg.timeframe.Seconds(), i)
  {
    hide StoreSound, Seeded, Numbered, Alike, OneUnit, QueueMatches, AtDecision, IntentAt, Valued, Queued, BackRun,
         Agrees, StoreBar, UnitCandidates, Decide, Idle, Recorded, EmptyFlip, Wanted, RestoredWallet, SameDecision,
         Contiguous;
    var w2, intent := AtDecision(c, cfg, policy, bars, i), IntentAt(c, cfg, policy, bars, i);
    var w3 := Valued(cfg, w2, bars[i]);
    RunBarAgrees(c, cfg, policy, bars, i, s);
    var s1 := StoreBar(c, cfg, s, bars[i], UnitCandidates(cfg, s));
    DecideIsSubmitted(c, cfg, policy, bars, i, s1);
    ClosedPositions(cfg, bars[i], i, w2, s1);
    DecideLikeDriver(cfg, bars[i], i, s1, w3, intent);
    SamePositionsSameFlip(w2, w3, cfg.symbol, intent);
  }

  lemma RestoredIgnoresOrders(cfg: Config, s: Store, s': Store)
    requires s'.positions == s.positions && s'.snapshots == s.snapshots
    ensures RestoredWallet(cfg, s') == RestoredWallet(cfg, s)
  {
  }

  lemma NextStamp(bars: seq<Bar>, timeframe: Timeframe, i: nat)
    requires Contiguous(bars, timeframe) && i + 1 < |bars|
    ensures bars[i].ts + timeframe.Seconds() == bars[i + 1].ts
  {
  }

  lemma QueuedAgrees(cfg: Config, bars: seq<Bar>, i: nat, w2: Wallet, d: Run, wanted: Option<PendingFill>, s1: Store,
                     s': Store)
    requires i < |bars| && Contiguous(bars, cfg.timeframe)
    requires Closed(cfg, bars[i], i, w2, d.wallet, s1)
    requires Queued(cfg, s1, s', d.wallet, wanted, bars[i].ts + cfg.timeframe.Seconds(), i)
    requires i + 1 < |bars| ==> Acting(d.pending) == wanted
    ensures Agrees(cfg, bars, i + 1, d, s')
  {
    hide StoreSound, Seeded, Numbered, Alike, OneUnit, QueueMatches, RestoredWallet, Idle;
    RestoredIgnoresOrders(cfg, s1, s');
    if i + 1 < |bars| {
      NextStamp(bars, cfg.timeframe, i);
    }
  }

  /** Both sides agree after every bar up to which no empty flip was scheduled. */
  lemma {:induction false} RunsAgree(c: CostFn, cfg: Config, policy: Policy, bars: seq<Bar>, n: nat)
    requires n <= |bars| && Contiguous(bars, cfg.timeframe) && cfg.interval.None?
    requires SameDecisions(c, cfg, policy, bars, n) && NoEmptyFlips(c, cfg, policy, bars, n)
    ensures Agrees(cfg, bars, n, BackRun(c, cfg, policy, bars, n), LiveRun(c, cfg, policy, bars, n))
  {
    hide Agrees, BackRun, LiveStep, SameDecision, Contiguous, AtDecision, IntentAt, Valued, Closed, Queued, Wanted,
         EmptyFlip;
    if n == 0 {
      StartAgrees(c, cfg, policy, bars);
    } else {
      var i := n - 1;
      var s := LiveRun(c, cfg, policy, bars, i);
      RunsAgree(c, cfg, policy, bars, i);
      LiveStepQueued(c, cfg, policy, bars, i, s);
      StepOfRun(c, cfg, policy, bars, i);
      var w2, intent := AtDecision(c, cfg, policy, bars, i), IntentAt(c, cfg, policy, bars, i);
      WantedIsActing(w2, cfg.symbol, intent);
      assert !FlipsToNothing(c, cfg, policy, bars, i);
      if i + 1 < |bars| {
        QueuedAgrees(cfg, bars, i, w2, BackRun(c, cfg, policy, bars, n), Wanted(w2, cfg.symbol, intent),
                     StoreBar(c, cfg, s, bars[i], UnitCandidates(cfg, s)), LiveStep(c, cfg, policy, bars, i, s));
      } else {
        QueuedAgrees(cfg, bars, i, w2, BackRun(c, cfg, policy, bars, n),
                     if EmptyFlip(w2, cfg.symbol, intent) then None else Wanted(w2, cfg.symbol, intent),
                     StoreBar(c, cfg, s, bars[i], UnitCandidates(cfg, s)), LiveStep(c, cfg, policy, bars, i, s));
      }
    }
  }

  lemma WantedIsActing(w: Wallet, symbol: string, intent: Option<Intent>)
    ensures Wanted(w, symbol, intent) == Acting(if intent.None? then None else ScheduleFill(w, symbol, false, intent.value))
  {
  }

  lemma StartAgrees(c: CostFn, cfg: Config, policy: Policy, bars: seq<Bar>)
    ensures Agrees(cfg, bars, 0, BackRun(c, cfg, policy, bars, 0), Store([], [], [], map[]))
  {
  }

  /** Live and backtest hold the same account: everything but the order of the trades. */
  ghost predicate SameAccount(c: CostFn, cfg: Config, policy: Policy, bars: seq<Bar>, n: nat)
    requires n <= |bars|
  {
    var live, back := RestoredWallet(cfg, LiveRun(c, cfg, policy, bars, n)), BackRun(c, cfg, policy, bars, n).wallet;
    && live.positions == back.positions && multiset(live.trades) == multiset(back.trades)
    && live.cash == back.cash && live.equity == back.equity
    && live.peakEquity == back.peakEquity && live.maxDrawdownPct == back.maxDrawdownPct
  }

  /**
   * Live/backtest parity: after every number of bars the wallet restored from the store and the driver's wallet have
   * the same open position, cash, equity, peak, drawdown and trades, although flat bars leave no snapshot.
   */
  lemma LiveMatchesBacktest(c: CostFn, cfg: Config, policy: Policy, bars: seq<Bar>, n: nat)
    requires n <= |bars| && Contiguous(bars, cfg.timeframe) && cfg.interval.None?
    requires SameDecisions(c, cfg, policy, bars, n) && NoEmptyFlips(c, cfg, policy, bars, n)
    ensures SameAccount(c, cfg, policy, bars, n)
  {
    hide BackRun, LiveRun, RestoredWallet, Contiguous, SameDecisions, NoEmptyFlips;
    RunsAgree(c, cfg, policy, bars, n);
  }
}
