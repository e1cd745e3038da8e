/**
 * The whole live side: one orchestrator cycle over all closed candles after every bar, from a fresh broker each time,
 * against the backtest. While the open position is younger than the throttle the two hold the same account.
 */
module EndToEnd {
  import opened Prelude
  import opened Paper
  import opened Ledger
  import opened LedgerInvariant
  import opened Lifecycle
  import opened CatchUp
  import opened Bars
  import opened Restart
  import opened Discovery
  import opened Driver
  import opened GateView
  import opened Parity
  import opened Stall

  /** The live side driven by cycles: bar `i` closes, a cycle runs over everything closed, the decision follows. */
  function CycleRun(c: CostFn, cfg: Config, policy: Policy, bars: seq<Bar>, n: nat): Store
    requires n <= |bars|
  {
    if n == 0 then Store([], [], [], map[])
    else Decide(cfg, policy, bars, n - 1, Cycle(c, cfg, CycleRun(c, cfg, policy, bars, n - 1), bars[..n]))
  }

  /** The open position came in on a bar before `i` and survived every one since. */
  ghost predicate Lived(cfg: Config, s: Store, bars: seq<Bar>, i: nat)
    requires i <= |bars|
  {
    var pos := OpenIn(s, cfg.symbol);
    pos.Some? ==>
      && i > 0 && pos.value.entryTs <= bars[i - 1].ts
      && forall k :: 0 <= k < i && pos.value.entryTs <= bars[k].ts ==> Survived(cfg, s, pos.value, bars[k])
  }

  /** Bars the open position has seen before bar `i`. */
  function SeenBars(cfg: Config, s: Store, bars: seq<Bar>, i: nat): nat
    requires i < |bars|
  {
    var pos := OpenIn(s, cfg.symbol);
    if pos.None? || i == 0 then 0 else Age(bars[..i + 1], pos.value, bars[i - 1].ts)
  }

  /** All waiting orders fill at this bar. */
  ghost predicate DueNow(cfg: Config, s: Store, ts: int) {
    forall a :: a in UnitCandidates(cfg, s) ==> a.fillStamp == ts
  }

  lemma QueueIsDueNow(cfg: Config, s: Store, w: Wallet, pending: Option<PendingFill>, ts: int)
    requires StoreSound(s) && QueueMatches(cfg, s, w, pending, ts)
    ensures DueNow(cfg, s, ts)
  {
    UnitCandidatesExact(cfg, s);
    if pending.Some? {
      var h :| OnlyPending(s, h) && OrderIs(cfg, s, h, pending.value, ts);
      forall a | a in UnitCandidates(cfg, s)
        ensures a.fillStamp == ts
      {
        assert UnitOrder(cfg, s, a) && a.order == h;
      }
    } else {
      assert forall a :: a in UnitCandidates(cfg, s) ==> IsPending(s.orders, a.order);
    }
  }

  lemma LastFrom(closed: seq<Bar>, i: nat, low: int)
    requires |closed| == i + 1 && low <= closed[i].ts && forall k :: 0 <= k < i ==> closed[k].ts < low
    ensures From(closed, low) == [closed[i]]
  {
    assert closed == closed[..i] + [closed[i]];
    FromConcat(closed[..i], [closed[i]], low);
    HasMember(From(closed[..i], low));
  }

  lemma ClosedBars(bars: seq<Bar>, i: nat)
    requires AscendingBars(bars) && i < |bars|
    ensures AscendingBars(bars[..i + 1]) && bars[..i + 1] != []
    ensures From(bars[..i + 1], bars[i].ts) == [bars[i]]
    ensures i > 0 ==> From(bars[..i + 1], bars[i - 1].ts + 1) == [bars[i]]
    ensures bars[i].ts in Stamps(bars[..i + 1])
  {
    hide From, AscendingBars;
    var closed := bars[..i + 1];
    PrefixAscends(bars, i + 1);
    BarsAreLater(bars, i);
    LastFrom(closed, i, bars[i].ts);
    if i > 0 {
      BarsAreLater(bars, i - 1);
      LastFrom(closed, i, bars[i - 1].ts + 1);
    }
    assert Stamps(closed)[i] == bars[i].ts;
  }

  lemma NoneMissing(cfg: Config, s: Store, closed: seq<Bar>, ts: int)
    requires StoreSound(s) && Seeded(s, cfg.seed) && closed != [] && AscendingBars(closed)
    requires DueNow(cfg, s, ts) && ts in Stamps(closed)
    ensures AfterMissing(cfg, s, closed).store == s
  {
    hide StoreSound, Seeded, AscendingBars, UnitCandidates;
    MissingFacts(cfg, s, closed);
  }

  lemma RunOfOne(c: CostFn, cfg: Config, s: Store, b: Bar, cands: seq<Candidate>)
    ensures RunStore(c, cfg, s, [b], cands) == StoreBar(c, cfg, s, b, cands)
  {
    hide StoreBar;
    assert [b][..0] == [];
  }

  /** With a position open, the pass replays what it survived and then processes the new bar. */
  lemma PassWithPosition(c: CostFn, cfg: Config, s: Store, bars: seq<Bar>, i: nat, pos: Position)
    requires StoreSound(s) && Seeded(s, cfg.seed) && AscendingBars(bars) && 0 < i < |bars|
    requires DueNow(cfg, s, bars[i].ts) && Lived(cfg, s, bars, i) && OpenIn(s, cfg.symbol) == Some(pos)
    requires SeenBars(cfg, s, bars, i) < Throttle(cfg.maxBars)
    ensures Pass(c, cfg, s, bars[..i + 1]) == StoreBar(c, cfg, s, bars[i], UnitCandidates(cfg, s))
  {
    hide StoreSound, Seeded, Pass, StoreBar, UnitCandidates, AfterMissing, From, Range,
         AscendingBars, Lived, DueNow, Settled, OpenIn, RunStore, Stamps;
    var closed, w := bars[..i + 1], bars[i - 1].ts;
    ClosedBars(bars, i);
    SettledBefore(cfg, s, bars, i, pos);
    PassFromSettled(c, cfg, s, closed, pos, w);
    NoneMissing(cfg, s, closed, bars[i].ts);
    assert Take([bars[i]], Allowance(cfg, closed, pos, w)) == [bars[i]];
    RunOfOne(c, cfg, s, bars[i], UnitCandidates(cfg, s));
  }

  lemma SettledBefore(cfg: Config, s: Store, bars: seq<Bar>, i: nat, pos: Position)
    requires StoreSound(s) && Seeded(s, cfg.seed) && AscendingBars(bars) && 0 < i < |bars|
    requires DueNow(cfg, s, bars[i].ts) && Lived(cfg, s, bars, i) && OpenIn(s, cfg.symbol) == Some(pos)
    ensures Settled(cfg, s, bars[..i + 1], pos, bars[i - 1].ts)
  {
    hide StoreSound, Seeded, UnitCandidates, Survived;
    var closed := bars[..i + 1];
    forall b | b in closed && pos.entryTs <= b.ts <= bars[i - 1].ts
      ensures Survived(cfg, s, pos, b)
    {
      var k :| 0 <= k < |closed| && closed[k] == b;
      assert k < i;
      assert bars[k] == b;
    }
  }

  /** With nothing open, the pass processes the new bar if an order is due and nothing otherwise. */
  lemma PassWithoutPosition(c: CostFn, cfg: Config, s: Store, bars: seq<Bar>, i: nat)
    requires StoreSound(s) && Seeded(s, cfg.seed) && AscendingBars(bars) && i < |bars|
    requires DueNow(cfg, s, bars[i].ts) && OpenIn(s, cfg.symbol).None?
    ensures Pass(c, cfg, s, bars[..i + 1]) == StoreBar(c, cfg, s, bars[i], UnitCandidates(cfg, s))
  {
    hide StoreSound, Seeded, Pass, StoreBar, UnitCandidates, AfterMissing, From;
    var closed, b, cands := bars[..i + 1], bars[i], UnitCandidates(cfg, s);
    ClosedBars(bars, i);
    WholePassIsRun(c, cfg, s, closed);
    NoneMissing(cfg, s, closed, b.ts);
    AnchorIsLeast(cands, None, closed);
    HasMember(cands);
    if cands == [] {
      QuietBarChangesNothing(c, cfg, s, b, cands);
    } else {
      assert AnchorOf(cands, None, closed) == Some(b.ts);
      assert Take([b], Throttle(cfg.maxBars)) == [b];
      RunOfOne(c, cfg, s, b, cands);
    }
  }

  lemma PassIsBar(c: CostFn, cfg: Config, s: Store, bars: seq<Bar>, i: nat)
    requires StoreSound(s) && Seeded(s, cfg.seed) && AscendingBars(bars) && i < |bars|
    requires DueNow(cfg, s, bars[i].ts) && Lived(cfg, s, bars, i)
    requires SeenBars(cfg, s, bars, i) < Throttle(cfg.maxBars)
    ensures Pass(c, cfg, s, bars[..i + 1]) == StoreBar(c, cfg, s, bars[i], UnitCandidates(cfg, s))
  {
    hide StoreSound, Seeded, Pass, StoreBar, UnitCandidates, SeenBars;
    var pos := OpenIn(s, cfg.symbol);
    if pos.Some? {
      PassWithPosition(c, cfg, s, bars, i, pos.value);
    } else {
      PassWithoutPosition(c, cfg, s, bars, i);
    }
  }

  lemma SurvivedStays(cfg: Config, s: Store, s': Store, pos: Position, b: Bar)
    requires Survived(cfg, s, pos, b) && s.snapshots <= s'.snapshots
    ensures Survived(cfg, s', pos, b)
  {
    NotDueStaysNotDue(s.snapshots, s'.snapshots, b.ts, cfg.interval);
  }

  lemma BarKeepsLived(cfg: Config, s: Store, s1: Store, s': Store, bars: seq<Bar>, i: nat, due: seq<Candidate>)
    requires i < |bars| && AscendingBars(bars) && Lived(cfg, s, bars, i) && BarDone(cfg, s, s1, bars[i], due)
    requires s'.positions == s1.positions && s'.snapshots == s1.snapshots
    ensures Lived(cfg, s', bars, i + 1)
  {
    hide StoreSound, Seeded, Settles, Survived, AscendingBars;
    BarsAreLater(bars, i);
    var pos := OpenIn(s', cfg.symbol);
    assert pos == OpenIn(s1, cfg.symbol);
    if pos.Some? {
      SurvivedStays(cfg, s1, s', pos.value, bars[i]);
      forall k | 0 <= k < i && pos.value.entryTs <= bars[k].ts
        ensures Survived(cfg, s', pos.value, bars[k])
      {
        SurvivedStays(cfg, s, s', pos.value, bars[k]);
      }
    }
  }

  lemma BarsAreLater(bars: seq<Bar>, i: nat)
    requires AscendingBars(bars) && i < |bars|
    ensures forall k :: 0 <= k < i ==> bars[k].ts < bars[i].ts
  {
  }

  lemma BarOfUnitIsDone(c: CostFn, cfg: Config, s: Store, b: Bar)
    requires StoreSound(s) && Seeded(s, cfg.seed)
    ensures BarDone(cfg, s, StoreBar(c, cfg, s, b, UnitCandidates(cfg, s)), b, DueAt(UnitCandidates(cfg, s), b.ts))
  {
    hide StoreBar, StoreSound, Seeded, UnitCandidates, BarDone;
    UnitCandidatesExact(cfg, s);
    WaitingIsReady(cfg, s, UnitCandidates(cfg, s), b.ts);
    BarFacts(c, cfg, s, b, UnitCandidates(cfg, s));
  }

  lemma {:induction false} ContiguousAscends(bars: seq<Bar>, timeframe: Timeframe)
    requires Contiguous(bars, timeframe)
    ensures AscendingBars(bars)
  {
    if |bars| > 1 {
      var n := |bars| - 1;
      ContiguousAscends(bars[..n], timeframe);
      StampsGrow(bars, timeframe, n);
      forall i, j | 0 <= i < j < |bars|
        ensures bars[i].ts < bars[j].ts
      {
        assert i < n - 1 ==> bars[..n][i].ts < bars[..n][n - 1].ts;
        assert j < n ==> bars[..n][i].ts < bars[..n][j].ts;
      }
    }
  }

  /** Up to bar `n`, the position open on the live side has seen fewer bars than the throttle lets through. */
  ghost predicate NeverThrottled(c: CostFn, cfg: Config, policy: Policy, bars: seq<Bar>, n: nat)
    requires n <= |bars|
  {
    forall i :: 0 <= i < n ==> SeenBars(cfg, LiveRun(c, cfg, policy, bars, i), bars, i) < Throttle(cfg.maxBars)
  }

  /** All orders are the unit's timeframe's, and so is the position. */
  ghost predicate OwnOrders(cfg: Config, s: Store) {
    forall h :: 0 <= h < |s.orders| ==> s.orders[h].timeframe == cfg.timeframe
  }

  lemma OwnPosition(cfg: Config, s: Store)
    requires StoreSound(s) && OwnOrders(cfg, s)
    ensures var pos := OpenIn(s, cfg.symbol); pos.Some? ==> pos.value.timeframe == cfg.timeframe
  {
    var h := FindOpen(s.positions, cfg.symbol);
    if h.Some? {
      assert FillOf(s.orders[s.positions[h.value].orderId], s.positions[h.value]);
    }
  }

  lemma BarKeepsOwn(cfg: Config, s: Store, s1: Store, b: Bar, due: seq<Candidate>)
    requires OwnOrders(cfg, s) && BarDone(cfg, s, s1, b, due)
    ensures OwnOrders(cfg, s1)
  {
    hide StoreSound, Seeded, Survived;
    forall h | 0 <= h < |s1.orders|
      ensures s1.orders[h].timeframe == cfg.timeframe
    {
      assert OrderEvolves(s.orders[h], s1.orders[h]);
    }
  }

  lemma DecideKeepsOwn(cfg: Config, policy: Policy, bars: seq<Bar>, i: nat, s: Store)
    requires i < |bars| && OwnOrders(cfg, s)
    ensures OwnOrders(cfg, Decide(cfg, policy, bars, i, s))
  {
    hide LiveView, RestoredWallet, SubmitOutcome;
  }

  /** The bar before the decision: one whole cycle does what processing the bar alone does. */
  lemma StepIsBar(c: CostFn, cfg: Config, policy: Policy, bars: seq<Bar>, i: nat, s: Store)
    requires i < |bars| && AscendingBars(bars)
    requires Agrees(cfg, bars, i, BackRun(c, cfg, policy, bars, i), s)
    requires Lived(cfg, s, bars, i) && SeenBars(cfg, s, bars, i) < Throttle(cfg.maxBars)
    requires OwnOrders(cfg, s)
    ensures Cycle(c, cfg, s, bars[..i + 1]) == StoreBar(c, cfg, s, bars[i], UnitCandidates(cfg, s))
    ensures
      Lived(cfg, LiveStep(c, cfg, policy, bars, i, s), bars, i + 1) &&
        OwnOrders(cfg, LiveStep(c, cfg, policy, bars, i, s))
  {
    hide Discovered, OwnOrders, OpenIn, Pass, StoreBar, UnitCandidates, Decide, StoreSound, Seeded, Numbered, Alike,
         OneUnit, Lived, AscendingBars, BackRun, SeenBars, BarDone, QueueMatches, RestoredWallet;
    var d := BackRun(c, cfg, policy, bars, i);
    QueueIsDueNow(cfg, s, d.wallet, Acting(d.pending), bars[i].ts);
    PassIsBar(c, cfg, s, bars, i);
    OwnPosition(cfg, s);
    PrefixAscends(bars, i + 1);
    OwnCycleIsPass(c, cfg, s, bars[..i + 1]);
    BarOfUnitIsDone(c, cfg, s, bars[i]);
    var s1 := StoreBar(c, cfg, s, bars[i], UnitCandidates(cfg, s));
    DecideKeepsRows(cfg, policy, bars, i, s1);
    BarKeepsOwn(cfg, s, s1, bars[i], DueAt(UnitCandidates(cfg, s), bars[i].ts));
    DecideKeepsOwn(cfg, policy, bars, i, s1);
    BarKeepsLived(cfg, s, s1, Decide(cfg, policy, bars, i, s1), bars, i, DueAt(UnitCandidates(cfg, s), bars[i].ts));
  }

  lemma {:induction false} CyclesAreBars(c: CostFn, cfg: Config, policy: Policy, bars: seq<Bar>, n: nat)
    requires n <= |bars| && Contiguous(bars, cfg.timeframe) && cfg.interval.None?
    requires SameDecisions(c, cfg, policy, bars, n) && NoEmptyFlips(c, cfg, policy, bars, n)
    requires NeverThrottled(c, cfg, policy, bars, n)
    ensures CycleRun(c, cfg, policy, bars, n) == LiveRun(c, cfg, policy, bars, n)
    ensures Lived(cfg, LiveRun(c, cfg, policy, bars, n), bars, n) && OwnOrders(cfg, LiveRun(c, cfg, policy, bars, n))
  {
    hide Cycle, StoreBar, UnitCandidates, Decide, Agrees, Contiguous, Lived, AscendingBars, BackRun, SeenBars,
         SameDecision, FlipsToNothing, OwnOrders;
    if n == 0 {
      NothingLived(cfg, bars);
    } else {
      CyclesAreBars(c, cfg, policy, bars, n - 1);
      ContiguousAscends(bars, cfg.timeframe);
      RunsAgree(c, cfg, policy, bars, n - 1);
      StepIsBar(c, cfg, policy, bars, n - 1, LiveRun(c, cfg, policy, bars, n - 1));
    }
  }

  lemma NothingLived(cfg: Config, bars: seq<Bar>)
    ensures Lived(cfg, Store([], [], [], map[]), bars, 0) && OwnOrders(cfg, Store([], [], [], map[]))
  {
  }

  /**
   * One orchestrator cycle per closed bar, each from a fresh broker and over all candles so far, holds the backtest's
   * account after every bar: same position, cash, equity, peak, drawdown and trades.
   */
  lemma OrchestratorMatchesBacktest(c: CostFn, cfg: Config, policy: Policy, bars: seq<Bar>, n: nat)
    requires n <= |bars| && Contiguous(bars, cfg.timeframe) && cfg.interval.None?
    requires SameDecisions(c, cfg, policy, bars, n) && NoEmptyFlips(c, cfg, policy, bars, n)
    requires NeverThrottled(c, cfg, policy, bars, n)
    ensures
      var live, back := RestoredWallet(cfg, CycleRun(c, cfg, policy, bars, n)), BackRun(c, cfg, policy, bars, n).wallet;
      && live.positions == back.positions && multiset(live.trades) == multiset(back.trades)
      && live.cash == back.cash && live.equity == back.equity
      && live.peakEquity == back.peakEquity && live.maxDrawdownPct == back.maxDrawdownPct
  {
    hide RestoredWallet, BackRun, Contiguous, SameDecisions, NoEmptyFlips, NeverThrottled;
    CyclesAreBars(c, cfg, policy, bars, n);
    LiveMatchesBacktest(c, cfg, policy, bars, n);
  }

  /** A throttle as long as the series never binds. */
  lemma LongThrottleNeverBinds(c: CostFn, cfg: Config, policy: Policy, bars: seq<Bar>)
    requires AscendingBars(bars) && |bars| <= cfg.maxBars
    ensures NeverThrottled(c, cfg, policy, bars, |bars|)
  {
    hide LiveRun, OpenIn, AscendingBars;
    forall i | 0 <= i < |bars|
      ensures SeenBars(cfg, LiveRun(c, cfg, policy, bars, i), bars, i) < Throttle(cfg.maxBars)
    {
      var pos := OpenIn(LiveRun(c, cfg, policy, bars, i), cfg.symbol);
      if pos.Some? && i > 0 {
        SeenBarsLess(bars, i, pos.value);
      }
    }
  }

  lemma SeenBarsLess(bars: seq<Bar>, i: nat, pos: Position)
    requires AscendingBars(bars) && 0 < i < |bars|
    ensures Age(bars[..i + 1], pos, bars[i - 1].ts) < |bars|
  {
    hide AscendingBars, From, Range;
    var closed, w := bars[..i + 1], bars[i - 1].ts;
    if pos.entryTs <= w {
      ClosedBars(bars, i);
      RangeThenFrom(closed, pos.entryTs, w);
      FromIsShorter(closed, pos.entryTs);
      assert |From(closed, pos.entryTs)| == |Range(closed, pos.entryTs, w)| + 1;
    } else {
      EmptyRange(closed, pos.entryTs, w);
    }
  }

  lemma {:induction false} EmptyRange(bars: seq<Bar>, low: int, high: int)
    requires low > high
    ensures Range(bars, low, high) == []
  {
    if bars != [] {
      EmptyRange(bars[1..], low, high);
    }
  }
}
