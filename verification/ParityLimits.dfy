/**
 * Where live/backtest parity ends: for policies that do not read the gate inputs it holds exactly on contiguous bars and
 * exactly without empty flips; a policy that reads them parts the two sides as soon as a bar moves the account.
 */
module ParityLimits {
  import opened Prelude
  import opened Paper
  import opened Ledger
  import opened LedgerInvariant
  import opened Lifecycle
  import opened CatchUp
  import opened Bars
  import opened Restart
  import opened Driver
  import opened GateView
  import opened Parity

  ghost predicate PositiveSizes(policy: Policy) {
    forall bars: seq<Bar>, view: AccountView :: policy(bars, view).Some? ==> policy(bars, view).value.units > 0.0
  }

  lemma PositiveNeverFlipsEmpty(c: CostFn, cfg: Config, policy: Policy, bars: seq<Bar>)
    requires PositiveSizes(policy)
    ensures NoEmptyFlips(c, cfg, policy, bars, |bars|)
  {
    hide AtDecision, DriverView;
  }

  // ---- gaps -------------------------------------------------------------------------------

  /** Go long with one unit and no thresholds, once, at the close of bar `i`. */
  function BuyOnce(i: nat): Policy {
    (bars: seq<Bar>, view: AccountView) => if |bars| == i + 1 then Some(Intent(LONG, 1.0, None, None)) else None
  }

  /** The driver holds nothing, and has the purchase pending exactly when told. */
  ghost predicate Flat(r: Run, buying: bool) {
    && r.wallet.positions == []
    && r.pending == if buying then Some(PendingFill(false, LONG, 1.0, None, None)) else None
  }

  lemma DriverWaitsOneBar(c: CostFn, cfg: Config, bars: seq<Bar>, i: nat, k: nat, r: Run)
    requires k <= i < |bars| && Flat(r, false)
    ensures
      Flat(StepBar(c, cfg.symbol, cfg.timeframe, Backtest(BuyOnce(i), cfg.symbol, cfg.startEquity), bars, k, r),
           k == i && k + 1 < |bars|)
  {
    hide Observe, RecordEquity, DriverView;
    ObserveKeepsPositions(Mark(r.wallet, cfg.symbol, bars[k].close));
    assert FillAndExit(c, cfg.symbol, cfg.timeframe, r.wallet, r.pending, bars[k]) == r.wallet;
  }

  lemma ObserveKeepsPositions(w: Wallet)
    ensures Observe(w).positions == w.positions
  {
  }

  lemma {:induction false} DriverWaits(c: CostFn, cfg: Config, start: Run, bars: seq<Bar>, i: nat, n: nat)
    requires n <= i + 1 <= |bars| && Flat(start, false)
    ensures
      Flat(RunFrom(c, cfg.symbol, cfg.timeframe, Backtest(BuyOnce(i), cfg.symbol, cfg.startEquity), start, bars, n),
           n == i + 1 && n < |bars|)
  {
    hide StepBar, Flat;
    if n > 0 {
      DriverWaits(c, cfg, start, bars, i, n - 1);
      DriverWaitsOneBar(c, cfg, bars, i, n - 1,
                        RunFrom(c, cfg.symbol, cfg.timeframe, Backtest(BuyOnce(i), cfg.symbol, cfg.startEquity), start,
                                bars, n - 1));
    }
  }

  lemma BuyingOpens(c: CostFn, cfg: Config, w: Wallet, bar: Bar)
    requires w.positions == []
    ensures
      var act := PendingFill(false, LONG, 1.0, None, None);
      FillAndExit(c, cfg.symbol, cfg.timeframe, w, Some(act), bar).positions ==
      [Position(cfg.symbol, cfg.timeframe, 1.0, bar.open, bar.ts, LONG, None, None,
                FillCost(c, w.seed, cfg.symbol, LONG, 1.0, bar.open))]
  {
  }

  lemma DriverBuys(c: CostFn, cfg: Config, bars: seq<Bar>, i: nat)
    requires i + 2 <= |bars|
    ensures BackRun(c, cfg, BuyOnce(i), bars, i + 2).wallet.positions != []
  {
    hide Observe, RecordEquity, FillAndExit, Scheduled;
    DriverWaits(c, cfg, Run(FreshWallet(cfg.startEquity, cfg.seed), None, []), bars, i, i + 1);
    var r := BackRun(c, cfg, BuyOnce(i), bars, i + 1);
    BuyingOpens(c, cfg, r.wallet, bars[i + 1]);
    var w2 := FillAndExit(c, cfg.symbol, cfg.timeframe, r.wallet, r.pending, bars[i + 1]);
    ObserveKeepsPositions(Mark(w2, cfg.symbol, bars[i + 1].close));
  }

  /** A store that never held a position, with no order or one order of the unit waiting for a given stamp. */
  ghost predicate Untraded(cfg: Config, s: Store, stamp: Option<int>) {
    && s.positions == [] && s.snapshots == []
    && if stamp.None? then s.orders == []
       else |s.orders| == 1 && Resolve(s, 0).Some? && Resolve(s, 0).value.fillStamp == stamp.value
  }

  lemma NothingDueElsewhere(cfg: Config, s: Store, stamp: Option<int>, ts: int)
    requires Untraded(cfg, s, stamp) && stamp != Some(ts)
    ensures DueAt(UnitCandidates(cfg, s), ts) == []
  {
    var cands := UnitCandidates(cfg, s);
    PendingFew(s.orders);
    var hs := PendingOrders(s.orders);
    assert forall h :: h in hs ==> h == 0 by {
      SortKeepsBag(PendingFrom(s.orders), OrderKey(s.orders));
    }
    ResolvedFrom(s, hs);
    SortKeepsBag(ResolveAll(s, hs), CandidateKey());
    NoStampNoDue(cands, ts);
  }

  lemma PendingFew(orders: seq<OrderRow>)
    requires |orders| <= 1
    ensures forall h :: h in PendingFrom(orders) ==> h == 0 && |orders| == 1
  {
    PendingMembers(orders);
  }

  lemma {:induction false} ResolvedFrom(s: Store, hs: seq<nat>)
    ensures forall a :: a in ResolveAll(s, hs) ==> a.order in hs && a.order < |s.orders| && Resolve(s, a.order) == Some(a)
  {
    if hs != [] {
      ResolvedFrom(s, hs[1..]);
    }
  }

  /** With nothing due and nothing open, a bar does nothing. */
  lemma UntradedBar(c: CostFn, cfg: Config, s: Store, stamp: Option<int>, b: Bar)
    requires Untraded(cfg, s, stamp) && stamp != Some(b.ts)
    ensures StoreBar(c, cfg, s, b, UnitCandidates(cfg, s)) == s
  {
    NothingDueElsewhere(cfg, s, stamp, b.ts);
  }

  /** The purchase of bar `i` becomes the store's only order; every other decision leaves it untouched. */
  lemma UntradedDecision(cfg: Config, bars: seq<Bar>, i: nat, k: nat, s: Store)
    requires k <= i < |bars| && Untraded(cfg, s, None)
    ensures
      Untraded(cfg, Decide(cfg, BuyOnce(i), bars, k, s),
               if k == i then Some(bars[i].ts + cfg.timeframe.Seconds()) else None)
  {
    hide LiveView;
  }

  lemma {:induction false} LiveWaits(c: CostFn, cfg: Config, bars: seq<Bar>, i: nat, n: nat)
    requires n <= i + 1 <= |bars|
    ensures
      Untraded(cfg, LiveRun(c, cfg, BuyOnce(i), bars, n),
               if n == i + 1 then Some(bars[i].ts + cfg.timeframe.Seconds()) else None)
  {
    hide StoreBar, UnitCandidates, Decide;
    if n > 0 {
      LiveWaits(c, cfg, bars, i, n - 1);
      UntradedBar(c, cfg, LiveRun(c, cfg, BuyOnce(i), bars, n - 1), None, bars[n - 1]);
      UntradedDecision(cfg, bars, i, n - 1, LiveRun(c, cfg, BuyOnce(i), bars, n - 1));
    }
  }

  /** The order of bar `i` has no bar to fill at when the next one is not one timeframe later. */
  lemma GapBreaksParity(c: CostFn, cfg: Config, bars: seq<Bar>, i: nat)
    requires i + 2 <= |bars| && bars[i + 1].ts != bars[i].ts + cfg.timeframe.Seconds()
    ensures PositiveSizes(BuyOnce(i)) && Blind(BuyOnce(i)) && !SameAccount(c, cfg, BuyOnce(i), bars, i + 2)
  {
    hide StoreBar, UnitCandidates, BackRun;
    DriverBuys(c, cfg, bars, i);
    LiveWaits(c, cfg, bars, i, i + 1);
    UntradedBar(c, cfg, LiveRun(c, cfg, BuyOnce(i), bars, i + 1), Some(bars[i].ts + cfg.timeframe.Seconds()), bars[i + 1]);
  }

  /**
   * For the policies that read position, cash and trades and size positively, live and backtest hold the same account
   * after every bar iff no bar is missing.
   */
  lemma ParityIffContiguous(c: CostFn, cfg: Config, bars: seq<Bar>)
    requires cfg.interval.None?
    ensures
      Contiguous(bars, cfg.timeframe) <==>
      forall policy: Policy, n: nat ::
        Blind(policy) && PositiveSizes(policy) && n <= |bars| ==> SameAccount(c, cfg, policy, bars, n)
  {
    hide Blind, PositiveSizes, SameAccount, SameDecisions, NoEmptyFlips;
    if Contiguous(bars, cfg.timeframe) {
      forall policy: Policy, n: nat | Blind(policy) && PositiveSizes(policy) && n <= |bars|
        ensures SameAccount(c, cfg, policy, bars, n)
      {
        BlindDecidesAlike(c, cfg, policy, bars);
        PositiveNeverFlipsEmpty(c, cfg, policy, bars);
        FewerFlips(c, cfg, policy, bars, n);
        FewerDecisions(c, cfg, policy, bars, n);
        LiveMatchesBacktest(c, cfg, policy, bars, n);
      }
    } else {
      var i :| 0 <= i < |bars| - 1 && bars[i + 1].ts != bars[i].ts + cfg.timeframe.Seconds();
      GapBreaksParity(c, cfg, bars, i);
    }
  }

  lemma FewerDecisions(c: CostFn, cfg: Config, policy: Policy, bars: seq<Bar>, n: nat)
    requires n <= |bars| && SameDecisions(c, cfg, policy, bars, |bars|)
    ensures SameDecisions(c, cfg, policy, bars, n)
  {
    hide SameDecision;
  }

  lemma FewerFlips(c: CostFn, cfg: Config, policy: Policy, bars: seq<Bar>, n: nat)
    requires n <= |bars| && NoEmptyFlips(c, cfg, policy, bars, |bars|)
    ensures NoEmptyFlips(c, cfg, policy, bars, n)
  {
    hide FlipsToNothing;
  }

  // ---- empty flips ------------------------------------------------------------------------

  lemma LastTradeCounts(xs: seq<Trade>, a: Trade, b: Trade)
    requires multiset(xs + [a]) == multiset(xs + [b])
    ensures a == b
  {
    var m := multiset(xs);
    assert multiset(xs + [a]) == m + multiset{a} && multiset(xs + [b]) == m + multiset{b};
    assert (m + multiset{a})[a] == m[a] + 1;
    assert a != b ==> (m + multiset{b})[a] == m[a];
  }

  lemma LongerBag(xs: seq<Trade>, a: Trade)
    ensures multiset(xs + [a]) != multiset(xs)
  {
    assert |multiset(xs + [a])| == |xs| + 1 && |multiset(xs)| == |xs|;
  }

  /** One wallet closes on the signal at the open, the other keeps the position or stops out at the close. */
  lemma EmptyFlipParts(c: CostFn, cfg: Config, w: Wallet, act: PendingFill, bar: Bar)
    requires AtMostOne(w, cfg.symbol) && OpenFor(w.positions, cfg.symbol).Some?
    requires act.closeExisting && act.units <= 0.0
    ensures
      multiset(FillAndExit(c, cfg.symbol, cfg.timeframe, w, Some(act), bar).trades) !=
      multiset(FillAndExit(c, cfg.symbol, cfg.timeframe, w, None, bar).trades)
  {
    hide Gross, RoundTripCost, Net;
    WithoutOnly(w.positions, cfg.symbol);
    var pos := OpenFor(w.positions, cfg.symbol).value;
    var t := TradeOf(c, w.seed, pos, bar.open, Signal, bar.ts);
    assert FillAndExit(c, cfg.symbol, cfg.timeframe, w, Some(act), bar).trades == w.trades + [t];
    LongerBag(w.trades, t);
    var hit := ExitHit(w, cfg.symbol, bar.close);
    if hit.Some? {
      var t' := TradeOf(c, w.seed, pos, hit.value.0, hit.value.1, bar.ts);
      assert t'.exitReason != Signal;
      assert FillAndExit(c, cfg.symbol, cfg.timeframe, w, None, bar).trades == w.trades + [t'];
      if multiset(w.trades + [t]) == multiset(w.trades + [t']) {
        LastTradeCounts(w.trades, t, t');
      }
    }
  }

  lemma ObserveKeepsTrades(w: Wallet, symbol: string, price: real)
    ensures Observe(Mark(w, symbol, price)).trades == w.trades
  {
  }

  lemma AlikeTrades(a: Wallet, b: Wallet)
    requires Alike(a, b)
    ensures multiset(a.trades) == multiset(b.trades)
  {
  }

  /** The bar after the first empty flip parts the two accounts. */
  lemma EmptyFlipBreaksParity(c: CostFn, cfg: Config, policy: Policy, bars: seq<Bar>, i: nat)
    requires
      i < |bars| && Contiguous(bars, cfg.timeframe) && cfg.interval.None? && SameDecisions(c, cfg, policy, bars, |bars|)
    requires NoEmptyFlips(c, cfg, policy, bars, i) && FlipsToNothing(c, cfg, policy, bars, i)
    ensures !SameAccount(c, cfg, policy, bars, i + 2)
  {
    hide StoreSound, Seeded, Numbered, Alike, OneUnit, QueueMatches, AtDecision, IntentAt, Valued, BackRun, Agrees,
         StoreBar, UnitCandidates, Decide, Idle, RestoredWallet, SameDecision, Contiguous, FillAndExit, LiveStep,
         Scheduled;
    var s := LiveRun(c, cfg, policy, bars, i);
    var w2, intent := AtDecision(c, cfg, policy, bars, i), IntentAt(c, cfg, policy, bars, i);
    var w3 := Valued(cfg, w2, bars[i]);
    FewerDecisions(c, cfg, policy, bars, i);
    RunsAgree(c, cfg, policy, bars, i);
    LiveStepQueued(c, cfg, policy, bars, i, s);
    var s1, s' := StoreBar(c, cfg, s, bars[i], UnitCandidates(cfg, s)), LiveStep(c, cfg, policy, bars, i, s);
    NextStamp(bars, cfg.timeframe, i);
    RestoredIgnoresOrders(cfg, s1, s');
    StampsGrow(bars, cfg.timeframe, i + 1);
    BarAgrees(c, cfg, i + 1, w3, None, bars[i + 1], s');
    StepOfRun(c, cfg, policy, bars, i);
    ScheduledFlip(cfg, w2, intent);
    ValuedKeepsPositions(cfg, w2, bars[i]);
    OneUnitIsAtMostOne(w3, cfg.symbol);
    var act := ScheduleFill(w2, cfg.symbol, false, intent.value).value;
    EmptyFlipParts(c, cfg, w3, act, bars[i + 1]);
    TradesPart(c, cfg, policy, bars, i, w3, act, s');
  }

  lemma ScheduledFlip(cfg: Config, w: Wallet, intent: Option<Intent>)
    requires EmptyFlip(w, cfg.symbol, intent)
    ensures
      var act := ScheduleFill(w, cfg.symbol, false, intent.value);
      act.Some? && act.value.closeExisting && act.value.units <= 0.0
  {
  }

  /** The trades of both sides after bar `i + 1`, from the store and the wallet before it. */
  lemma TradesPart(c: CostFn, cfg: Config, policy: Policy, bars: seq<Bar>, i: nat, w3: Wallet, act: PendingFill, s': Store)
    requires i + 1 < |bars| && s' == LiveRun(c, cfg, policy, bars, i + 1)
    requires BackRun(c, cfg, policy, bars, i + 1).wallet == w3 && BackRun(c, cfg, policy, bars, i + 1).pending == Some(act)
    requires
      var w2 := FillAndExit(c, cfg.symbol, cfg.timeframe, w3, None, bars[i + 1]);
      Closed(cfg, bars[i + 1], i + 1, w2, Observe(Mark(w2, cfg.symbol, bars[i + 1].close)),
             StoreBar(c, cfg, s', bars[i + 1], UnitCandidates(cfg, s')))
    requires
      multiset(FillAndExit(c, cfg.symbol, cfg.timeframe, w3, Some(act), bars[i + 1]).trades) !=
      multiset(FillAndExit(c, cfg.symbol, cfg.timeframe, w3, None, bars[i + 1]).trades)
    ensures !SameAccount(c, cfg, policy, bars, i + 2)
  {
    hide StoreSound, Seeded, Numbered, Alike, OneUnit, StoreBar, UnitCandidates, Idle, RestoredWallet, FillAndExit,
         BackRun, Observe, Submit, Valued, LiveView;
    var bar := bars[i + 1];
    var kept := FillAndExit(c, cfg.symbol, cfg.timeframe, w3, None, bar);
    var s1 := StoreBar(c, cfg, s', bar, UnitCandidates(cfg, s'));
    AlikeTrades(Observe(Mark(kept, cfg.symbol, bar.close)), RestoredWallet(cfg, s1));
    ObserveKeepsTrades(kept, cfg.symbol, bar.close);
    DecideKeepsRows(cfg, policy, bars, i + 1, s1);
    RestoredIgnoresOrders(cfg, s1, Decide(cfg, policy, bars, i + 1, s1));
    BackTrades(c, cfg, policy, bars, i + 1);
  }

  lemma BackTrades(c: CostFn, cfg: Config, policy: Policy, bars: seq<Bar>, i: nat)
    requires i < |bars|
    ensures
      var r := BackRun(c, cfg, policy, bars, i);
      BackRun(c, cfg, policy, bars, i + 1).wallet.trades ==
      FillAndExit(c, cfg.symbol, cfg.timeframe, r.wallet, r.pending, bars[i]).trades
  {
    hide FillAndExit, RecordEquity, Scheduled;
  }

  lemma {:induction false} FirstFlip(c: CostFn, cfg: Config, policy: Policy, bars: seq<Bar>, n: nat) returns (i: nat)
    requires n <= |bars| && !NoEmptyFlips(c, cfg, policy, bars, n)
    ensures i < n && NoEmptyFlips(c, cfg, policy, bars, i) && FlipsToNothing(c, cfg, policy, bars, i)
  {
    hide FlipsToNothing;
    if NoEmptyFlips(c, cfg, policy, bars, n - 1) {
      i := n - 1;
    } else {
      i := FirstFlip(c, cfg, policy, bars, n - 1);
    }
  }

  /**
   * On contiguous bars, when the policy decides alike on both sides' views, the two accounts agree after every bar iff
   * no intent without size is ever scheduled against an open position of the other side.
   */
  lemma ParityIffNoEmptyFlip(c: CostFn, cfg: Config, policy: Policy, bars: seq<Bar>)
    requires Contiguous(bars, cfg.timeframe) && cfg.interval.None? && SameDecisions(c, cfg, policy, bars, |bars|)
    ensures
      (forall n: nat :: n <= |bars| ==> SameAccount(c, cfg, policy, bars, n)) <==>
      NoEmptyFlips(c, cfg, policy, bars, |bars|)
  {
    hide SameAccount, NoEmptyFlips, SameDecisions, Contiguous, AtDecision, IntentAt;
    if NoEmptyFlips(c, cfg, policy, bars, |bars|) {
      forall n: nat | n <= |bars|
        ensures SameAccount(c, cfg, policy, bars, n)
      {
        FewerFlips(c, cfg, policy, bars, n);
        FewerDecisions(c, cfg, policy, bars, n);
        LiveMatchesBacktest(c, cfg, policy, bars, n);
      }
    } else {
      var i := FirstFlip(c, cfg, policy, bars, |bars|);
      EmptyFlipBreaksParity(c, cfg, policy, bars, i);
    }
  }

  // ---- gate readers -----------------------------------------------------------------------

  /** Buy on the first bar; on the second go short when equity differs from cash, as it does once a gain is valued. */
  function TurnOnEquity(): Policy {
    (bars: seq<Bar>, view: AccountView) =>
      if |bars| == 1 then Some(Intent(LONG, 1.0, None, None))
      else if |bars| == 2 && view.equity != view.cash then Some(Intent(SHORT, 1.0, None, None))
      else None
  }

  function Bought(c: CostFn, cfg: Config, bar: Bar): Position {
    Position(cfg.symbol, cfg.timeframe, 1.0, bar.open, bar.ts, LONG, None, None,
             FillCost(c, cfg.seed, cfg.symbol, LONG, 1.0, bar.open))
  }

  lemma AfterFirstBar(c: CostFn, cfg: Config, bars: seq<Bar>)
    requires |bars| >= 2
    ensures
      var r := BackRun(c, cfg, TurnOnEquity(), bars, 1);
      && r.pending == Some(PendingFill(false, LONG, 1.0, None, None))
      && r.wallet.positions == [] && r.wallet.cash == cfg.startEquity && r.wallet.seed == cfg.seed
    ensures SameDecision(c, cfg, TurnOnEquity(), bars, 0)
    ensures !FlipsToNothing(c, cfg, TurnOnEquity(), bars, 0)
  {
    var w := FreshWallet(cfg.startEquity, cfg.seed);
    assert BackRun(c, cfg, TurnOnEquity(), bars, 0).wallet == w;
    assert AtDecision(c, cfg, TurnOnEquity(), bars, 0) == w;
    StepOfRun(c, cfg, TurnOnEquity(), bars, 0);
  }

  lemma BoughtWallet(c: CostFn, cfg: Config, w: Wallet, bar: Bar)
    requires w.positions == [] && w.seed == cfg.seed
    ensures
      var w2 := FillAndExit(c, cfg.symbol, cfg.timeframe, w, Some(PendingFill(false, LONG, 1.0, None, None)), bar);
      && w2.positions == [Bought(c, cfg, bar)] && w2.cash == w.cash - Bought(c, cfg, bar).costs
      && TotalEquity(w2) == w2.cash && ValueAt(w2, bar.close) == w2.cash + bar.close - bar.open
  {
    var w2 := FillAndExit(c, cfg.symbol, cfg.timeframe, w, Some(PendingFill(false, LONG, 1.0, None, None)), bar);
    var pos := Bought(c, cfg, bar);
    assert w2.positions == [pos];
    assert w2.lastMark[cfg.symbol] == bar.open;
    assert w2.positions[..0] == [] && w2.positions[0] == pos;
    assert MarkOf(w2.lastMark, pos) == bar.open;
    assert OpenPnl(w2.positions, w2.lastMark) == OpenPnl([], w2.lastMark) + pos.Unrealized(bar.open);
    assert pos.Unrealized(bar.open) == 0.0 && pos.Unrealized(bar.close) == bar.close - bar.open;
  }

  /** At the second bar the driver sees equity equal to cash, the live side sees the gain, and only it goes short. */
  lemma SecondDecisions(c: CostFn, cfg: Config, bars: seq<Bar>)
    requires |bars| >= 2 && bars[1].close != bars[1].open
    requires
      var cash := cfg.startEquity - Bought(c, cfg, bars[1]).costs;
      cash != 0.0 && cash + bars[1].close - bars[1].open != 0.0
    ensures
      var w2 := AtDecision(c, cfg, TurnOnEquity(), bars, 1);
      && w2.positions == [Bought(c, cfg, bars[1])]
      && IntentAt(c, cfg, TurnOnEquity(), bars, 1).None?
      && TurnOnEquity()(bars[..2], LiveView(Valued(cfg, w2, bars[1]), cfg.symbol, cfg.startEquity)) ==
         Some(Intent(SHORT, 1.0, None, None))
  {
    hide Bought, BackRun, FillAndExit;
    AfterFirstBar(c, cfg, bars);
    var r := BackRun(c, cfg, TurnOnEquity(), bars, 1);
    BoughtWallet(c, cfg, r.wallet, bars[1]);
    var w2 := AtDecision(c, cfg, TurnOnEquity(), bars, 1);
    BoughtSymbol(c, cfg, bars[1]);
    MarkedEquity(w2, cfg.symbol, bars[1].close);
  }

  lemma BoughtSymbol(c: CostFn, cfg: Config, bar: Bar)
    ensures Bought(c, cfg, bar).symbol == cfg.symbol && Bought(c, cfg, bar).side == LONG
    ensures Bought(c, cfg, bar).stopLoss.None? && Bought(c, cfg, bar).takeProfit.None?
  {
  }

  /** The third bar turns the one wallet short and leaves the other long. */
  lemma ThirdBar(c: CostFn, cfg: Config, w: Wallet, pos: Position, bar: Bar)
    requires
      w.positions == [pos] && pos.symbol == cfg.symbol && pos.side == LONG && pos.stopLoss.None? && pos.takeProfit.None?
    ensures FillAndExit(c, cfg.symbol, cfg.timeframe, w, None, bar).positions == [pos]
    ensures
      var short := FillAndExit(c, cfg.symbol, cfg.timeframe, w, Some(PendingFill(true, SHORT, 1.0, None, None)),
                               bar).positions;
      |short| == 1 && short[0].side == SHORT
  {
    assert OpenFor(w.positions, cfg.symbol) == Some(pos);
    assert Without(w.positions, cfg.symbol) == [];
  }

  /** The live side after the second bar and its decision: the short is queued. */
  lemma ShortQueued(c: CostFn, cfg: Config, bars: seq<Bar>)
    requires |bars| >= 3 && Contiguous(bars, cfg.timeframe) && cfg.interval.None? && bars[1].close != bars[1].open
    requires
      var cash := cfg.startEquity - Bought(c, cfg, bars[1]).costs;
      cash != 0.0 && cash + bars[1].close - bars[1].open != 0.0
    ensures
      var policy := TurnOnEquity();
      var s := LiveRun(c, cfg, policy, bars, 1);
      var s1 := StoreBar(c, cfg, s, bars[1], UnitCandidates(cfg, s));
      var w2 := AtDecision(c, cfg, policy, bars, 1);
      && Closed(cfg, bars[1], 1, w2, Valued(cfg, w2, bars[1]), s1)
      && Queued(cfg, s1, LiveRun(c, cfg, policy, bars, 2), Valued(cfg, w2, bars[1]),
                Some(PendingFill(true, SHORT, 1.0, None, None)), bars[1].ts + cfg.timeframe.Seconds(), 1)
  {
    hide StoreSound, Seeded, Numbered, Alike, OneUnit, QueueMatches, Valued, BackRun, Agrees, StoreBar, UnitCandidates,
         Idle, RestoredWallet, Contiguous, Bought, AtDecision, IntentAt, Submit, LiveView, DriverView, TurnOnEquity;
    var policy := TurnOnEquity();
    AfterFirstBar(c, cfg, bars);
    RunsAgree(c, cfg, policy, bars, 1);
    var s := LiveRun(c, cfg, policy, bars, 1);
    RunBarAgrees(c, cfg, policy, bars, 1, s);
    SecondDecisions(c, cfg, bars);
    var w2 := AtDecision(c, cfg, policy, bars, 1);
    var w3, s1 := Valued(cfg, w2, bars[1]), StoreBar(c, cfg, s, bars[1], UnitCandidates(cfg, s));
    LiveViewOfAlike(w3, RestoredWallet(cfg, s1), cfg.symbol, cfg.startEquity);
    var short := Some(Intent(SHORT, 1.0, None, None));
    assert Decide(cfg, policy, bars, 1, s1) == Recorded(cfg, bars[1], 1, s1, short);
    ClosedPositions(cfg, bars[1], 1, w2, s1);
    DecideLikeDriver(cfg, bars[1], 1, s1, w3, short);
    BoughtSymbol(c, cfg, bars[1]);
  }

  lemma AlikePositions(a: Wallet, b: Wallet)
    requires Alike(a, b)
    ensures a.positions == b.positions
  {
  }

  /**
   * A positively sizing policy that reads equity parts the two sides on every contiguous series of three bars or more
   * whose second bar moves, as long as neither valuation is zero, which would fall back to the start equity: the driver
   * decides before it values the bar, the live side after.
   */
  lemma GateReadersDiverge(c: CostFn, cfg: Config, bars: seq<Bar>)
    requires |bars| >= 3 && Contiguous(bars, cfg.timeframe) && cfg.interval.None? && bars[1].close != bars[1].open
    requires
      var cash := cfg.startEquity - Bought(c, cfg, bars[1]).costs;
      cash != 0.0 && cash + bars[1].close - bars[1].open != 0.0
    ensures PositiveSizes(TurnOnEquity()) && !SameAccount(c, cfg, TurnOnEquity(), bars, 3)
  {
    hide StoreSound, Seeded, Numbered, Alike, OneUnit, QueueMatches, BackRun, StoreBar, UnitCandidates, Idle,
         RestoredWallet, Contiguous, Bought, AtDecision, IntentAt, Submit, LiveView, FillAndExit, Observe;
    var policy := TurnOnEquity();
    ShortQueued(c, cfg, bars);
    SecondDecisions(c, cfg, bars);
    BoughtSymbol(c, cfg, bars[1]);
    var w2 := AtDecision(c, cfg, policy, bars, 1);
    var w3, s' := Valued(cfg, w2, bars[1]), LiveRun(c, cfg, policy, bars, 2);
    ValuedKeepsPositions(cfg, w2, bars[1]);
    ThirdBar(c, cfg, w3, Bought(c, cfg, bars[1]), bars[2]);
    NextStamp(bars, cfg.timeframe, 1);
    StampsGrow(bars, cfg.timeframe, 2);
    var s := LiveRun(c, cfg, policy, bars, 1);
    RestoredIgnoresOrders(cfg, StoreBar(c, cfg, s, bars[1], UnitCandidates(cfg, s)), s');
    var act := Some(PendingFill(true, SHORT, 1.0, None, None));
    BarAgrees(c, cfg, 2, w3, act, bars[2], s');
    var turned := FillAndExit(c, cfg.symbol, cfg.timeframe, w3, act, bars[2]);
    ValuedKeepsPositions(cfg, turned, bars[2]);
    var s2 := StoreBar(c, cfg, s', bars[2], UnitCandidates(cfg, s'));
    AlikePositions(Valued(cfg, turned, bars[2]), RestoredWallet(cfg, s2));
    DecideKeepsRows(cfg, policy, bars, 2, s2);
    RestoredIgnoresOrders(cfg, s2, Decide(cfg, policy, bars, 2, s2));
    StepOfRun(c, cfg, policy, bars, 1);
    StaysLong(c, cfg, bars, w3);
  }

  lemma StaysLong(c: CostFn, cfg: Config, bars: seq<Bar>, w3: Wallet)
    requires |bars| >= 3
    requires
      var r := BackRun(c, cfg, TurnOnEquity(), bars, 2);
      r.wallet == w3 && r.pending.None?
    ensures
      BackRun(c, cfg, TurnOnEquity(), bars, 3).wallet.positions ==
      FillAndExit(c, cfg.symbol, cfg.timeframe, w3, None, bars[2]).positions
  {
    hide BackRun, FillAndExit;
    StepOfRun(c, cfg, TurnOnEquity(), bars, 2);
    ValuedKeepsPositions(cfg, AtDecision(c, cfg, TurnOnEquity(), bars, 2), bars[2]);
  }
}
