/**
 * Parity for policies that read everything a decision reads. It holds for all of them exactly when no bar is missing and
 * the two sides see the same account at every decision that can still be filled: where the views differ, a policy that
 * tells them apart parts the accounts.
 */
module GateParity {
  import opened Prelude
  import opened Paper
  import opened Ledger
  import opened LedgerInvariant
  import opened Lifecycle
  import opened CatchUp
  import opened Bars
  import opened Restart
  import opened Driver
  import opened GateView
  import opened Parity
  import opened ParityLimits

  /** What the driver and the live side see at the decision of bar `i`. */
  function DriverSees(c: CostFn, cfg: Config, policy: Policy, bars: seq<Bar>, i: nat): AccountView
    requires i < |bars|
  {
    DriverView(AtDecision(c, cfg, policy, bars, i), cfg.symbol, cfg.startEquity)
  }

  function LiveSees(c: CostFn, cfg: Config, policy: Policy, bars: seq<Bar>, i: nat): AccountView
    requires i < |bars|
  {
    LiveView(Valued(cfg, AtDecision(c, cfg, policy, bars, i), bars[i]), cfg.symbol, cfg.startEquity)
  }

  /** Both sides see the same at the first `n` decisions. */
  ghost predicate SameViews(c: CostFn, cfg: Config, policy: Policy, bars: seq<Bar>, n: nat)
    requires n <= |bars|
  {
    forall i :: 0 <= i < n ==> DriverSees(c, cfg, policy, bars, i) == LiveSees(c, cfg, policy, bars, i)
  }

  lemma SameViewsDecideAlike(c: CostFn, cfg: Config, policy: Policy, bars: seq<Bar>, n: nat)
    requires n <= |bars| && SameViews(c, cfg, policy, bars, n)
    ensures SameDecisions(c, cfg, policy, bars, n)
  {
    hide AtDecision, Valued, DriverView, LiveView;
    forall i | 0 <= i < n
      ensures SameDecision(c, cfg, policy, bars, i)
    {
      assert DriverSees(c, cfg, policy, bars, i) == LiveSees(c, cfg, policy, bars, i);
    }
  }

  /** The accounts after a bar do not depend on its own decision: it is enough that the earlier ones agree. */
  lemma AgreeBeforeDecision(c: CostFn, cfg: Config, policy: Policy, bars: seq<Bar>, i: nat)
    requires i < |bars| && Contiguous(bars, cfg.timeframe) && cfg.interval.None?
    requires SameDecisions(c, cfg, policy, bars, i) && NoEmptyFlips(c, cfg, policy, bars, i)
    ensures SameAccount(c, cfg, policy, bars, i + 1)
  {
    hide StoreSound, Seeded, Numbered, OneUnit, Agrees, StoreBar, UnitCandidates, Decide, Idle, RestoredWallet, BackRun,
         SameDecisions, NoEmptyFlips, Contiguous, AtDecision, Valued;
    var s := LiveRun(c, cfg, policy, bars, i);
    RunsAgree(c, cfg, policy, bars, i);
    RunBarAgrees(c, cfg, policy, bars, i, s);
    var s1 := StoreBar(c, cfg, s, bars[i], UnitCandidates(cfg, s));
    DecideKeepsRows(cfg, policy, bars, i, s1);
    RestoredIgnoresOrders(cfg, s1, LiveRun(c, cfg, policy, bars, i + 1));
    StepOfRun(c, cfg, policy, bars, i);
  }

  // ---- a policy that tells the views apart ------------------------------------------------------

  /** A direction the position does not already have. */
  function TurnOf(position: Option<Position>): Direction {
    if position.Some? && position.value.side == LONG then SHORT else LONG
  }

  /** Like `policy`, but at bar `i` it turns, with one unit, on this view and on no other. */
  function Twist(policy: Policy, i: nat, view: AccountView): Policy {
    (bars: seq<Bar>, v: AccountView) =>
      if |bars| != i + 1 then policy(bars, v)
      else if v == view then Some(Intent(TurnOf(view.position), 1.0, None, None))
      else None
  }

  lemma TwistIsPositive(policy: Policy, i: nat, view: AccountView)
    requires PositiveSizes(policy)
    ensures PositiveSizes(Twist(policy, i, view))
  {
    var twist := Twist(policy, i, view);
    forall bars: seq<Bar>, v: AccountView | twist(bars, v).Some?
      ensures twist(bars, v).value.units > 0.0
    {
      assert |bars| != i + 1 ==> twist(bars, v) == policy(bars, v);
    }
  }

  /** Up to bar `i` the twisted policy runs like the original. */
  lemma {:induction false} TwistRuns(c: CostFn, cfg: Config, policy: Policy, bars: seq<Bar>, i: nat, view: AccountView,
                                     n: nat)
    requires n <= i < |bars|
    ensures BackRun(c, cfg, Twist(policy, i, view), bars, n) == BackRun(c, cfg, policy, bars, n)
    ensures AtDecision(c, cfg, Twist(policy, i, view), bars, n) == AtDecision(c, cfg, policy, bars, n)
  {
    hide FillAndExit, Observe, Mark, RecordEquity, ScheduleFill, DriverView;
    if n > 0 {
      TwistRuns(c, cfg, policy, bars, i, view, n - 1);
    }
  }

  lemma TwistSees(c: CostFn, cfg: Config, policy: Policy, bars: seq<Bar>, i: nat, view: AccountView, n: nat)
    requires n <= i < |bars| && SameViews(c, cfg, policy, bars, n)
    ensures SameViews(c, cfg, Twist(policy, i, view), bars, n)
  {
    hide AtDecision, Valued, DriverView, LiveView, Twist;
    forall j | 0 <= j < n
      ensures
        DriverSees(c, cfg, Twist(policy, i, view), bars, j) == LiveSees(c, cfg, Twist(policy, i, view), bars, j)
    {
      TwistRuns(c, cfg, policy, bars, i, view, j);
      assert DriverSees(c, cfg, policy, bars, j) == LiveSees(c, cfg, policy, bars, j);
    }
  }

  /** At the twisted bar the driver has a turn pending. */
  lemma TwistPends(c: CostFn, cfg: Config, policy: Policy, bars: seq<Bar>, i: nat, view: AccountView)
    requires i + 1 < |bars| && view == DriverSees(c, cfg, policy, bars, i)
    ensures
      var w2, r := AtDecision(c, cfg, policy, bars, i), BackRun(c, cfg, Twist(policy, i, view), bars, i + 1);
      var current := OpenFor(w2.positions, cfg.symbol);
      && r.wallet == Valued(cfg, w2, bars[i])
      && r.pending == Some(PendingFill(current.Some?, TurnOf(current), 1.0, None, None))
  {
    hide AtDecision, BackRun, Valued;
    TwistRuns(c, cfg, policy, bars, i, view, i);
    StepOfRun(c, cfg, Twist(policy, i, view), bars, i);
  }

  /** The live side, seeing something else, has nothing queued. */
  lemma TwistQueuesNothing(c: CostFn, cfg: Config, policy: Policy, bars: seq<Bar>, i: nat, view: AccountView)
    requires i < |bars| && Contiguous(bars, cfg.timeframe) && cfg.interval.None? && PositiveSizes(policy)
    requires SameViews(c, cfg, policy, bars, i) && view != LiveSees(c, cfg, policy, bars, i)
    ensures
      var twist := Twist(policy, i, view);
      var s := LiveRun(c, cfg, twist, bars, i);
      var s1 := StoreBar(c, cfg, s, bars[i], UnitCandidates(cfg, s));
      var w2 := AtDecision(c, cfg, policy, bars, i);
      && Closed(cfg, bars[i], i, w2, Valued(cfg, w2, bars[i]), s1)
      && Queued(cfg, s1, LiveRun(c, cfg, twist, bars, i + 1), Valued(cfg, w2, bars[i]), None,
                bars[i].ts + cfg.timeframe.Seconds(), i)
  {
    hide StoreSound, Seeded, Numbered, Alike, OneUnit, QueueMatches, Valued, BackRun, Agrees, StoreBar, UnitCandidates,
         Idle, RestoredWallet, Contiguous, AtDecision, IntentAt, Submit, LiveView, DriverView, SameViews, PositiveSizes,
         SameDecisions, NoEmptyFlips;
    var twist := Twist(policy, i, view);
    TwistIsPositive(policy, i, view);
    TwistSees(c, cfg, policy, bars, i, view, i);
    SameViewsDecideAlike(c, cfg, twist, bars, i);
    PositiveNeverFlipsEmpty(c, cfg, twist, bars);
    FewerFlips(c, cfg, twist, bars, i);
    RunsAgree(c, cfg, twist, bars, i);
    var s := LiveRun(c, cfg, twist, bars, i);
    RunBarAgrees(c, cfg, twist, bars, i, s);
    TwistRuns(c, cfg, policy, bars, i, view, i);
    var w2 := AtDecision(c, cfg, policy, bars, i);
    var w3, s1 := Valued(cfg, w2, bars[i]), StoreBar(c, cfg, s, bars[i], UnitCandidates(cfg, s));
    LiveViewOfAlike(w3, RestoredWallet(cfg, s1), cfg.symbol, cfg.startEquity);
    assert Decide(cfg, twist, bars, i, s1) == Recorded(cfg, bars[i], i, s1, None);
    ClosedPositions(cfg, bars[i], i, w2, s1);
    DecideLikeDriver(cfg, bars[i], i, s1, w3, None);
  }

  /** The next bar turns the one wallet and not the other. */
  lemma TurnParts(c: CostFn, cfg: Config, w: Wallet, bar: Bar)
    requires AtMostOne(w, cfg.symbol)
    ensures
      var current := OpenFor(w.positions, cfg.symbol);
      var act := PendingFill(current.Some?, TurnOf(current), 1.0, None, None);
      FillAndExit(c, cfg.symbol, cfg.timeframe, w, Some(act), bar).positions !=
      FillAndExit(c, cfg.symbol, cfg.timeframe, w, None, bar).positions
  {
    hide Gross, RoundTripCost, FillCost;
    var current := OpenFor(w.positions, cfg.symbol);
    var act := PendingFill(current.Some?, TurnOf(current), 1.0, None, None);
    var turned := FillAndExit(c, cfg.symbol, cfg.timeframe, w, Some(act), bar).positions;
    var kept := FillAndExit(c, cfg.symbol, cfg.timeframe, w, None, bar).positions;
    if current.Some? {
      WithoutOnly(w.positions, cfg.symbol);
      assert w.positions == [current.value];
    } else {
      NothingHeld(w, cfg.symbol);
    }
    assert |turned| == 1 && turned[0].side == TurnOf(current);
    assert kept == [] || (current.Some? && kept == [current.value]);
  }

  lemma NothingHeld(w: Wallet, symbol: string)
    requires AtMostOne(w, symbol) && OpenFor(w.positions, symbol).None?
    ensures w.positions == []
  {
    HasMember(w.positions);
  }

  lemma BackPositions(c: CostFn, cfg: Config, policy: Policy, bars: seq<Bar>, i: nat)
    requires i < |bars|
    ensures
      var r := BackRun(c, cfg, policy, bars, i);
      BackRun(c, cfg, policy, bars, i + 1).wallet.positions ==
      FillAndExit(c, cfg.symbol, cfg.timeframe, r.wallet, r.pending, bars[i]).positions
  {
    hide FillAndExit, RecordEquity, Scheduled;
  }

  /** The positions of the live side after a bar without an order. */
  lemma LivePositions(c: CostFn, cfg: Config, policy: Policy, bars: seq<Bar>, i: nat, w3: Wallet)
    requires i < |bars| && cfg.interval.None?
    requires
      var s := LiveRun(c, cfg, policy, bars, i);
      && StoreSound(s) && Seeded(s, cfg.seed) && Numbered(s, i) && Alike(w3, RestoredWallet(cfg, s))
      && OneUnit(w3, cfg.symbol) && SnapshotsBefore(s.snapshots, bars[i].ts)
      && QueueMatches(cfg, s, w3, None, bars[i].ts)
    ensures
      RestoredWallet(cfg, LiveRun(c, cfg, policy, bars, i + 1)).positions ==
      FillAndExit(c, cfg.symbol, cfg.timeframe, w3, None, bars[i]).positions
  {
    hide StoreSound, Seeded, Numbered, Alike, OneUnit, QueueMatches, StoreBar, UnitCandidates, Idle, RestoredWallet,
         FillAndExit, Decide, Observe;
    var s := LiveRun(c, cfg, policy, bars, i);
    BarAgrees(c, cfg, i, w3, None, bars[i], s);
    var kept := FillAndExit(c, cfg.symbol, cfg.timeframe, w3, None, bars[i]);
    var s1 := StoreBar(c, cfg, s, bars[i], UnitCandidates(cfg, s));
    AlikePositions(Valued(cfg, kept, bars[i]), RestoredWallet(cfg, s1));
    ValuedKeepsPositions(cfg, kept, bars[i]);
    DecideKeepsRows(cfg, policy, bars, i, s1);
    RestoredIgnoresOrders(cfg, s1, LiveRun(c, cfg, policy, bars, i + 1));
  }

  /** The first bar at which the views differ gives a policy that parts the accounts on the next. */
  lemma DifferentViewsPart(c: CostFn, cfg: Config, policy: Policy, bars: seq<Bar>, i: nat)
    requires i + 1 < |bars| && Contiguous(bars, cfg.timeframe) && cfg.interval.None? && PositiveSizes(policy)
    requires SameViews(c, cfg, policy, bars, i)
    requires DriverSees(c, cfg, policy, bars, i) != LiveSees(c, cfg, policy, bars, i)
    ensures !SameAccount(c, cfg, Twist(policy, i, DriverSees(c, cfg, policy, bars, i)), bars, i + 2)
  {
    hide StoreSound, Seeded, Numbered, Alike, OneUnit, QueueMatches, BackRun, StoreBar, UnitCandidates, Idle,
         RestoredWallet, Contiguous, AtDecision, Valued, LiveView, DriverView, FillAndExit, Twist, SameViews,
         PositiveSizes, LiveRun;
    var view := DriverSees(c, cfg, policy, bars, i);
    var twist, w2 := Twist(policy, i, view), AtDecision(c, cfg, policy, bars, i);
    var w3 := Valued(cfg, w2, bars[i]);
    TwistPends(c, cfg, policy, bars, i, view);
    TwistQueuesNothing(c, cfg, policy, bars, i, view);
    NextStamp(bars, cfg.timeframe, i);
    StampsGrow(bars, cfg.timeframe, i + 1);
    var s := LiveRun(c, cfg, twist, bars, i);
    RestoredIgnoresOrders(cfg, StoreBar(c, cfg, s, bars[i], UnitCandidates(cfg, s)), LiveRun(c, cfg, twist, bars, i + 1));
    LivePositions(c, cfg, twist, bars, i + 1, w3);
    ValuedKeepsPositions(cfg, w2, bars[i]);
    OneUnitIsAtMostOne(w3, cfg.symbol);
    TurnParts(c, cfg, w3, bars[i + 1]);
    BackPositions(c, cfg, twist, bars, i + 1);
  }

  lemma {:induction false} FirstDifference(c: CostFn, cfg: Config, policy: Policy, bars: seq<Bar>, n: nat) returns (i: nat)
    requires n <= |bars| && !SameViews(c, cfg, policy, bars, n)
    ensures i < n && SameViews(c, cfg, policy, bars, i)
    ensures DriverSees(c, cfg, policy, bars, i) != LiveSees(c, cfg, policy, bars, i)
  {
    hide DriverSees, LiveSees;
    if SameViews(c, cfg, policy, bars, n - 1) {
      i := n - 1;
    } else {
      i := FirstDifference(c, cfg, policy, bars, n - 1);
    }
  }

  // ---- every policy -----------------------------------------------------------------------------

  /** The accounts agree after every bar, for every positively sizing policy. */
  ghost predicate ParityForAll(c: CostFn, cfg: Config, bars: seq<Bar>) {
    forall policy: Policy, n: nat :: PositiveSizes(policy) && n <= |bars| ==> SameAccount(c, cfg, policy, bars, n)
  }

  /** Both sides see the same at every decision that can be filled, for every positively sizing policy. */
  ghost predicate ViewsForAll(c: CostFn, cfg: Config, bars: seq<Bar>) {
    forall policy: Policy :: PositiveSizes(policy) && bars != [] ==> SameViews(c, cfg, policy, bars, |bars| - 1)
  }

  lemma NoBarsYet(c: CostFn, cfg: Config, policy: Policy, bars: seq<Bar>)
    ensures SameAccount(c, cfg, policy, bars, 0)
  {
  }

  lemma ViewsGiveParity(c: CostFn, cfg: Config, policy: Policy, bars: seq<Bar>, n: nat)
    requires Contiguous(bars, cfg.timeframe) && cfg.interval.None? && PositiveSizes(policy)
    requires 0 < n <= |bars| && SameViews(c, cfg, policy, bars, |bars| - 1)
    ensures SameAccount(c, cfg, policy, bars, n)
  {
    hide DriverSees, LiveSees, SameAccount, SameDecision, FlipsToNothing, Contiguous, PositiveSizes;
    SameViewsDecideAlike(c, cfg, policy, bars, |bars| - 1);
    PositiveNeverFlipsEmpty(c, cfg, policy, bars);
    AgreeBeforeDecision(c, cfg, policy, bars, n - 1);
  }

  lemma ParityGivesViews(c: CostFn, cfg: Config, policy: Policy, bars: seq<Bar>)
    requires Contiguous(bars, cfg.timeframe) && cfg.interval.None? && ParityForAll(c, cfg, bars)
    requires PositiveSizes(policy) && bars != []
    ensures SameViews(c, cfg, policy, bars, |bars| - 1)
  {
    hide SameViews, SameAccount, Contiguous, PositiveSizes, DriverSees, LiveSees, Twist;
    if !SameViews(c, cfg, policy, bars, |bars| - 1) {
      var i := FirstDifference(c, cfg, policy, bars, |bars| - 1);
      var view := DriverSees(c, cfg, policy, bars, i);
      DifferentViewsPart(c, cfg, policy, bars, i);
      TwistIsPositive(policy, i, view);
    }
  }

  /**
   * For policies that read equity, drawdown and the loss base as well: the accounts agree after every bar, whatever the
   * policy, iff no bar is missing and both sides see the same at every decision that can still be filled.
   */
  lemma ParityForAllIff(c: CostFn, cfg: Config, bars: seq<Bar>)
    requires cfg.interval.None?
    ensures ParityForAll(c, cfg, bars) <==> Contiguous(bars, cfg.timeframe) && ViewsForAll(c, cfg, bars)
  {
    hide SameViews, SameAccount, PositiveSizes;
    if !Contiguous(bars, cfg.timeframe) {
      var i :| 0 <= i < |bars| - 1 && bars[i + 1].ts != bars[i].ts + cfg.timeframe.Seconds();
      GapBreaksParity(c, cfg, bars, i);
    } else {
      if ParityForAll(c, cfg, bars) {
        forall policy: Policy | PositiveSizes(policy) && bars != []
          ensures SameViews(c, cfg, policy, bars, |bars| - 1)
        {
          ParityGivesViews(c, cfg, policy, bars);
        }
      }
      if ViewsForAll(c, cfg, bars) {
        forall policy: Policy, n: nat | PositiveSizes(policy) && n <= |bars|
          ensures SameAccount(c, cfg, policy, bars, n)
        {
          if n == 0 {
            NoBarsYet(c, cfg, policy, bars);
          } else {
            ViewsGiveParity(c, cfg, policy, bars, n);
          }
        }
      }
    }
  }
}
