/** Any number of crashes in a row, and the reachable situation in which a single crash already changes the outcome. */
module Crashes {
  import opened Prelude
  import opened Paper
  import opened Ledger
  import opened LedgerInvariant
  import opened Lifecycle
  import opened CatchUp
  import opened Bars
  import opened Restart
  import opened EarlyBars
  import opened Discovery
  import opened Parity
  import opened Stall

  // ---- repeated crashes -------------------------------------------------------------------

  /** Let a cycle die after `k` bars, start the next, let it die after the next number, and so on. */
  function CrashRun(c: CostFn, cfg: Config, s: Store, candles: seq<Bar>, stops: seq<nat>): Store
    requires candles != []
  {
    if stops == [] then s
    else CycleStop(c, cfg, CrashRun(c, cfg, s, candles, stops[..|stops| - 1]), candles, stops[|stops| - 1])
  }

  /** A second cycle that dies from the store of a first leaves the first pass stopped somewhere. */
  lemma CycleStopAgain(c: CostFn, cfg: Config, s: Store, candles: seq<Bar>, k: nat, t: nat) returns (n: nat)
    requires Restartable(cfg, s, candles) && RestartSafe(cfg, s, candles) && Discovered(cfg, s)
    requires k <= |PassWindow(cfg, s, candles).bars|
    ensures k <= n <= |PassWindow(cfg, s, candles).bars|
    ensures CycleStop(c, cfg, PassPrefix(c, cfg, s, candles, k), candles, t) == PassPrefix(c, cfg, s, candles, n)
  {
    hide PassPrefix, PassWindow, RestartSafe, StoreSound, Seeded, AscendingBars, Covered, Discovered, CalmEarly;
    var sk := PassPrefix(c, cfg, s, candles, k);
    if Discovered(cfg, sk) {
      SafeIsCalmEarly(cfg, s, candles);
      n := StopAgain(c, cfg, s, candles, k, Least(t, |PassWindow(cfg, sk, candles).bars|));
    } else {
      n := k;
    }
  }

  /** From a safe store, whatever the crashes, the store is the first pass stopped somewhere. */
  lemma {:induction false} CrashesStopSomewhere(c: CostFn, cfg: Config, s: Store, candles: seq<Bar>, stops: seq<nat>)
    returns (n: nat)
    requires Restartable(cfg, s, candles) && RestartSafe(cfg, s, candles) && Discovered(cfg, s) && stops != []
    ensures n <= |PassWindow(cfg, s, candles).bars|
    ensures CrashRun(c, cfg, s, candles, stops) == PassPrefix(c, cfg, s, candles, n)
  {
    hide PassPrefix, PassWindow, RestartSafe, StoreSound, Seeded, AscendingBars, Covered, Discovered;
    var before, last := stops[..|stops| - 1], stops[|stops| - 1];
    if before == [] {
      n := Least(last, |PassWindow(cfg, s, candles).bars|);
    } else {
      var k := CrashesStopSomewhere(c, cfg, s, candles, before);
      n := CycleStopAgain(c, cfg, s, candles, k, last);
    }
  }

  lemma {:induction false} NeverVisited(c: CostFn, cfg: Config, s: Store, candles: seq<Bar>, stops: seq<nat>)
    requires candles != [] && !Discovered(cfg, s)
    ensures CrashRun(c, cfg, s, candles, stops) == s
  {
    hide Discovered;
    if stops != [] {
      NeverVisited(c, cfg, s, candles, stops[..|stops| - 1]);
    }
  }

  ghost predicate CrashProof(c: CostFn, cfg: Config, s: Store, candles: seq<Bar>)
    requires candles != []
  {
    forall stops :: Cycle(c, cfg, CrashRun(c, cfg, s, candles, stops), candles) == Cycle(c, cfg, s, candles)
  }

  lemma OneCrash(c: CostFn, cfg: Config, s: Store, candles: seq<Bar>, k: nat)
    requires candles != []
    ensures CrashRun(c, cfg, s, candles, [k]) == CycleStop(c, cfg, s, candles, k)
  {
    hide CycleStop;
    assert [k][..0] == [];
    assert CrashRun(c, cfg, s, candles, []) == s;
  }

  lemma SafeCrashRun(c: CostFn, cfg: Config, s: Store, candles: seq<Bar>, stops: seq<nat>)
    requires Restartable(cfg, s, candles) && RestartSafe(cfg, s, candles)
    ensures Cycle(c, cfg, CrashRun(c, cfg, s, candles, stops), candles) == Cycle(c, cfg, s, candles)
  {
    hide PassPrefix, Pass, PassWindow, RestartSafe, StoreSound, Seeded, AscendingBars, Covered, Discovered;
    if stops != [] {
      if Discovered(cfg, s) {
        var n := CrashesStopSomewhere(c, cfg, s, candles, stops);
        RestartEquivalence(c, cfg, s, candles, n);
      } else {
        NeverVisited(c, cfg, s, candles, stops);
      }
    }
  }

  /**
   * However often the process dies, and after whichever bars, the next whole cycle ends in the same store: exactly when
   * the store is safe.
   */
  lemma RepeatedCrashes(c: CostFn, cfg: Config, s: Store, candles: seq<Bar>)
    requires Restartable(cfg, s, candles)
    ensures CrashProof(c, cfg, s, candles) <==> RestartSafe(cfg, s, candles)
  {
    hide Cycle, CycleStop, CrashRun, RestartSafe, StoreSound, Seeded, AscendingBars, Covered;
    RestartIff(c, cfg, s, candles);
    if RestartSafe(cfg, s, candles) {
      forall stops
        ensures Cycle(c, cfg, CrashRun(c, cfg, s, candles, stops), candles) == Cycle(c, cfg, s, candles)
      {
        SafeCrashRun(c, cfg, s, candles, stops);
      }
    } else {
      var k: nat :| Cycle(c, cfg, CycleStop(c, cfg, s, candles, k), candles) != Cycle(c, cfg, s, candles);
      OneCrash(c, cfg, s, candles, k);
    }
  }

  lemma WholeStop(c: CostFn, cfg: Config, s: Store, candles: seq<Bar>)
    requires candles != []
    ensures CycleStop(c, cfg, s, candles, |PassWindow(cfg, s, candles).bars|) == Cycle(c, cfg, s, candles)
  {
    hide PassPrefix, PassWindow, Discovered;
  }

  /** A finished cycle from a safe store has nothing left to do: the next one changes nothing. */
  lemma CycleTwiceIsOnce(c: CostFn, cfg: Config, s: Store, candles: seq<Bar>)
    requires Restartable(cfg, s, candles) && RestartSafe(cfg, s, candles)
    ensures Cycle(c, cfg, Cycle(c, cfg, s, candles), candles) == Cycle(c, cfg, s, candles)
  {
    hide Cycle, CycleStop, RestartSafe;
    WholeStop(c, cfg, s, candles);
    RestartEquivalence(c, cfg, s, candles, |PassWindow(cfg, s, candles).bars|);
  }

  // ---- a backlog behind another timeframe's position ----------------------------------------------

  function Unit(timeframe: Timeframe): Config {
    Config(EURUSD, timeframe, 1000.0, 7, None, 24)
  }

  /** Two decisions, one on the five-minute bar of 2700 and one on the hourly bar of 0. */
  function Decided(): Store {
    Store([], [], [], map[0 := 2700, 1 := 0])
  }

  function LongOrder(timeframe: Timeframe, decision: nat, at: int): Request {
    Request(EURUSD, timeframe, LONG, 100.0, 1.0, Some(decision), Some(90.0), None, decision, at)
  }

  /** Both decisions submitted while nothing is open: the five-minute order is due at 3000, the hourly one at 3600. */
  function BothSubmitted(): Ledger {
    Submit(Submit(FreshLedger(Decided(), 1000.0, 7), LongOrder(M5, 0, 3000)), LongOrder(H1, 1, 3600))
  }

  /** The hourly unit's pass comes first: it fills at 3600 while the five-minute unit still has its backlog. */
  function BacklogStore(c: CostFn): Store {
    Pass(c, Unit(H1), BothSubmitted().store, [HourBar()])
  }

  function HourBar(): Bar {
    Bar(3600, 100.0, 100.0)
  }

  function MinuteOrder(): Candidate {
    Candidate(0, EURUSD, M5, LONG, 3000, 0, 3000)
  }

  function HourOrder(): Candidate {
    Candidate(1, EURUSD, H1, LONG, 3600, 1, 3600)
  }

  lemma BothAccepted()
    ensures Sound(BothSubmitted()) && Seeded(BothSubmitted().store, 7)
    ensures
      var s := BothSubmitted().store;
      && s.orders == [NewOrder(7, LongOrder(M5, 0, 3000)), NewOrder(7, LongOrder(H1, 1, 3600))]
      && s.positions == [] && s.snapshots == [] && s.buckets == Decided().buckets
  {
    TwoAccepted(Decided().buckets, LongOrder(M5, 0, 3000), LongOrder(H1, 1, 3600));
  }

  lemma HourCandidates()
    ensures forall x :: x in UnitCandidates(Unit(H1), BothSubmitted().store) <==> x == HourOrder()
  {
    hide StoreSound, UnitCandidates, BothSubmitted;
    BothAccepted();
    var s := BothSubmitted().store;
    UnitCandidatesExact(Unit(H1), s);
    forall x
      ensures UnitOrder(Unit(H1), s, x) <==> x == HourOrder()
    {
      assert IsPending(s.orders, x.order) ==> x.order == 0 || x.order == 1;
    }
  }

  lemma HourPassBars()
    ensures
      var s := BothSubmitted().store;
      && AfterMissing(Unit(H1), s, [HourBar()]).store == s
      && PassBars(Unit(H1), s, [HourBar()]) == [HourBar()]
  {
    hide StoreSound, UnitCandidates, BothSubmitted, Submit, AscendingBars, From, AfterMissing, AnchorOf, Stamps;
    BothAccepted();
    HourCandidates();
    var s, candles := BothSubmitted().store, [HourBar()];
    assert Stamps(candles)[0] == 3600;
    MissingFacts(Unit(H1), s, candles);
    AnchorIsLeast(UnitCandidates(Unit(H1), s), None, candles);
    assert HourOrder() in UnitCandidates(Unit(H1), s);
    FromAll(candles, 3600);
    TakeAll(candles, Throttle(24));
  }

  lemma HourPassIsBar(c: CostFn)
    ensures BacklogStore(c) == StoreBar(c, Unit(H1), BothSubmitted().store, HourBar(),
                                        UnitCandidates(Unit(H1), BothSubmitted().store))
  {
    hide StoreSound, UnitCandidates, BothSubmitted, StoreBar, AfterMissing, PassBars, Pass;
    BothAccepted();
    HourPassBars();
    WholePassIsRun(c, Unit(H1), BothSubmitted().store, [HourBar()]);
    assert [HourBar()][..0] == [];
  }

  /** The hourly position is open from 3600, the account valued there, and the five-minute order still waits. */
  lemma BacklogFacts(c: CostFn)
    ensures
      var s := BacklogStore(c);
      && StoreSound(s) && Seeded(s, 7)
      && OpenIn(s, EURUSD) == Some(FilledPosition(c, NewOrder(7, LongOrder(H1, 1, 3600)), HourBar()))
      && LatestStamp(s.snapshots) == Some(3600)
      && Grows(BothSubmitted().store, s) && |s.orders| == 2
      && s.orders[0] == NewOrder(7, LongOrder(M5, 0, 3000)) && s.orders[1].status != PENDING
  {
    hide StoreSound, UnitCandidates, BothSubmitted, BacklogStore, LatestStamp, Orderly, Grows, Stamped, StoreBar;
    BothAccepted();
    HourCandidates();
    HourPassIsBar(c);
    var cfg, s, b := Unit(H1), BothSubmitted().store, HourBar();
    UnitCandidatesExact(cfg, s);
    LoneFill(c, cfg, s, b, UnitCandidates(cfg, s), HourOrder());
    ValuedAt(s, BacklogStore(c), 3600);
    assert [HourOrder()][0] == HourOrder();
  }

  lemma MinuteCandidates(c: CostFn)
    ensures forall x :: x in UnitCandidates(Unit(M5), BacklogStore(c)) <==> x == MinuteOrder()
  {
    hide StoreSound, UnitCandidates, BothSubmitted, BacklogStore, OpenIn;
    BothAccepted();
    BacklogFacts(c);
    var s := BacklogStore(c);
    UnitCandidatesExact(Unit(M5), s);
    forall x
      ensures UnitOrder(Unit(M5), s, x) <==> x == MinuteOrder()
    {
      assert IsPending(s.orders, x.order) ==> x.order == 0;
    }
  }

  /** The five-minute candles: the due bar, the one before the hourly entry, the one of the entry, whatever else closed. */
  ghost predicate BacklogCandles(candles: seq<Bar>) {
    && 3 <= |candles| <= 24 && AscendingBars(candles)
    && candles[0] == Bar(3000, 100.0, 100.0) && candles[1].ts == 3300 && candles[2].ts == 3600
  }

  /** The hourly position is long, stopped at 90, and has no target. */
  predicate HourPosition(pos: Position) {
    && pos.side == LONG && pos.stopLoss == Some(90.0) && pos.takeProfit.None?
    && pos.entryTs == 3600 && pos.timeframe == H1
  }

  lemma BacklogBars(c: CostFn, candles: seq<Bar>)
    requires BacklogCandles(candles)
    ensures PassBars(Unit(M5), BacklogStore(c), candles) == candles
    ensures Restartable(Unit(M5), BacklogStore(c), candles) && Discovered(Unit(M5), BacklogStore(c))
  {
    hide StoreSound, UnitCandidates, BacklogStore, OpenIn, BothSubmitted, Grows, AnchorOf, From, Range, LatestStamp,
         NewOrder;
    BacklogFacts(c);
    MinuteCandidates(c);
    var cfg, s := Unit(M5), BacklogStore(c);
    assert Stamps(candles)[0] == 3000;
    assert MinuteOrder() in UnitCandidates(cfg, s);
    AnchorIsLeast(UnitCandidates(cfg, s), OpenIn(s, EURUSD), candles);
    FromAll(candles, 3000);
    TakeAll(candles, Throttle(24));
  }

  lemma {:induction false} NoNewStamp(candles: seq<Bar>, i: nat)
    requires BacklogCandles(candles) && i <= 3
    ensures StampAfter(Some(3600), None, candles[..i]) == Some(3600)
  {
    if i > 0 {
      NoNewStamp(candles, i - 1);
      assert candles[..i] == candles[..i - 1] + [candles[i - 1]];
      StampSnoc(Some(3600), None, candles[..i - 1], candles[i - 1]);
    }
  }

  /** What a bar of the backlog does to the hourly position. */
  lemma BacklogBar(pos: Position, cands: seq<Candidate>, candles: seq<Bar>, i: nat)
    requires BacklogCandles(candles) && HourPosition(pos) && i < |candles|
    requires forall x :: x in cands <==> x == MinuteOrder()
    ensures Holds(pos, cands, candles[i]) <==> 90.0 < candles[i].close
    ensures (WithStamp(cands, candles[i].ts) == []) <==> i > 0
    ensures Skippable(Unit(M5), pos, cands, candles, candles, i)
  {
    hide AscendingBars;
    assert MinuteOrder() in cands;
    if i == 0 {
      assert MinuteOrder() in WithStamp(cands, 3000);
    } else {
      assert Stamps(candles[..i])[0] == 3000;
      LaterThanFirst(candles, i);
      NoStampNoDue(cands, candles[i].ts);
    }
  }

  lemma LaterThanFirst(bars: seq<Bar>, i: nat)
    requires AscendingBars(bars) && 0 < i < |bars|
    ensures bars[0].ts < bars[i].ts
  {
  }

  lemma BacklogCalm(pos: Position, cands: seq<Candidate>, candles: seq<Bar>, i: nat)
    requires BacklogCandles(candles) && HourPosition(pos) && 0 < i < |candles| && i <= 3
    requires forall x :: x in cands <==> x == MinuteOrder()
    ensures
      CalmBar(pos, cands, StampAfter(Some(3600), None, candles[..i]), None, candles[i]) <==>
        i < 3 && 90.0 < candles[i].close
  {
    hide AscendingBars, StampAfter, Skippable;
    NoNewStamp(candles, i);
    BacklogBar(pos, cands, candles, i);
    if i == 3 {
      NextIsLater(candles, 2);
    }
  }

  lemma NextIsLater(bars: seq<Bar>, i: nat)
    requires AscendingBars(bars) && i + 1 < |bars|
    ensures bars[i].ts < bars[i + 1].ts
  {
  }

  /** Held up to bar `i` means closed above the stop so far. */
  lemma BacklogHeld(pos: Position, cands: seq<Candidate>, candles: seq<Bar>, i: nat)
    requires BacklogCandles(candles) && HourPosition(pos) && i <= |candles|
    requires forall x :: x in cands <==> x == MinuteOrder()
    ensures HeldOver(pos, cands, candles[..i]) <==> forall j :: 0 <= j < i ==> 90.0 < candles[j].close
  {
    hide Holds, Skippable, AscendingBars;
    forall j | 0 <= j < i
      ensures Holds(pos, cands, candles[..i][j]) <==> 90.0 < candles[j].close
    {
      BacklogBar(pos, cands, candles, j);
    }
  }

  /** The bars after the due bar close above the stop, and none has closed after the entry's. */
  predicate BacklogHarmless(candles: seq<Bar>)
    requires |candles| >= 3
  {
    |candles| == 3 && 90.0 < candles[1].close && 90.0 < candles[2].close
  }

  lemma BacklogUncalm(c: CostFn, candles: seq<Bar>, i: nat, pos: Position)
    requires BacklogCandles(candles) && i < |candles| && OpenIn(BacklogStore(c), EURUSD) == Some(pos) && HourPosition(pos)
    ensures
      var cands := UnitCandidates(Unit(M5), BacklogStore(c));
      UncalmAt(Unit(M5), BacklogStore(c), candles, i) <==>
      && HeldOver(pos, cands, candles[..i])
      && !CalmBar(pos, cands, StampAfter(Some(3600), None, candles[..i]), None, candles[i])
  {
    hide UnitCandidates, BacklogStore, OpenIn, Discovered, PassBars, HeldOver, CalmBar, Skippable, StampAfter,
         LatestStamp, AscendingBars, StoreSound, Grows, BothSubmitted, Covered;
    BacklogFacts(c);
    MinuteCandidates(c);
    BacklogBars(c, candles);
    BacklogBar(pos, UnitCandidates(Unit(M5), BacklogStore(c)), candles, i);
  }

  lemma BacklogPosition(c: CostFn) returns (pos: Position)
    ensures OpenIn(BacklogStore(c), EURUSD) == Some(pos) && HourPosition(pos)
  {
    hide BacklogStore, StoreSound, LatestStamp, Grows, BothSubmitted, OpenIn;
    BacklogFacts(c);
    pos := FilledPosition(c, NewOrder(7, LongOrder(H1, 1, 3600)), HourBar());
  }

  lemma BacklogSafeIff(c: CostFn, candles: seq<Bar>)
    requires BacklogCandles(candles)
    ensures RestartSafe(Unit(M5), BacklogStore(c), candles) <==> BacklogHarmless(candles)
  {
    hide UnitCandidates, BacklogStore, OpenIn, UncalmAt, HeldOver, CalmBar, StampAfter, BacklogCandles;
    var cfg, s, cands := Unit(M5), BacklogStore(c), UnitCandidates(Unit(M5), BacklogStore(c));
    var pos := BacklogPosition(c);
    MinuteCandidates(c);
    BacklogSize(candles);
    if BacklogHarmless(candles) {
      forall i: nat
        ensures !UncalmAt(cfg, s, candles, i)
      {
        BacklogNeverUncalm(c, candles, i, pos);
      }
    } else {
      var i := if candles[1].close <= 90.0 then 1 else if candles[2].close <= 90.0 then 2 else 3;
      BacklogUncalm(c, candles, i, pos);
      BacklogHeld(pos, cands, candles, i);
      BacklogCalm(pos, cands, candles, i);
    }
  }

  lemma BacklogSize(candles: seq<Bar>)
    requires BacklogCandles(candles)
    ensures |candles| >= 3 && candles[0].close == 100.0
  {
  }

  lemma BacklogNeverUncalm(c: CostFn, candles: seq<Bar>, i: nat, pos: Position)
    requires BacklogCandles(candles) && BacklogHarmless(candles)
    requires OpenIn(BacklogStore(c), EURUSD) == Some(pos) && HourPosition(pos)
    ensures !UncalmAt(Unit(M5), BacklogStore(c), candles, i)
  {
    hide UnitCandidates, BacklogStore, OpenIn, HeldOver, StampAfter, Skippable, Discovered, PassBars, AscendingBars,
         Covered, StoreSound;
    var cands := UnitCandidates(Unit(M5), BacklogStore(c));
    MinuteCandidates(c);
    BacklogBars(c, candles);
    if i < |candles| {
      BacklogUncalm(c, candles, i, pos);
      BacklogBar(pos, cands, candles, i);
      if i > 0 {
        BacklogCalm(pos, cands, candles, i);
      }
    }
  }

  /**
   * The store behind a backlog is reached by two submissions and one pass. Working off the backlog, a crash after the due
   * bar leaves a unit that no cycle visits any more, so it is harmless exactly when the bars after the due bar close above
   * the hourly position's stop and none has closed after the entry's.
   */
  lemma BacklogCrash(c: CostFn, candles: seq<Bar>)
    requires BacklogCandles(candles)
    ensures Restartable(Unit(M5), BacklogStore(c), candles)
    ensures CrashProof(c, Unit(M5), BacklogStore(c), candles) <==> BacklogHarmless(candles)
  {
    hide BacklogStore, BacklogCandles, CrashProof, RestartSafe, Restartable;
    BacklogBars(c, candles);
    RestartableBars(Unit(M5), BacklogStore(c), candles);
    RepeatedCrashes(c, Unit(M5), BacklogStore(c), candles);
    BacklogSafeIff(c, candles);
  }

  lemma RestartableBars(cfg: Config, s: Store, candles: seq<Bar>)
    requires Restartable(cfg, s, candles)
    ensures candles != []
  {
  }

  /** The crashed store after the due bar: the order settled, the hourly position open, the unit out of sight. */
  lemma BacklogStopped(c: CostFn, candles: seq<Bar>)
    requires BacklogCandles(candles)
    ensures
      var s1 := CycleStop(c, Unit(M5), BacklogStore(c), candles, 1);
      && !Discovered(Unit(M5), s1) && Cycle(c, Unit(M5), s1, candles) == s1
      && OpenIn(s1, EURUSD) == OpenIn(BacklogStore(c), EURUSD) && OpenIn(s1, EURUSD).Some?
  {
    hide UnitCandidates, BacklogStore, OpenIn, HeldOver, StampAfter, Skippable, Discovered, PassBars, AscendingBars,
         Covered, StoreSound, PassPrefix, PassWindow, StoppedAt, Seeded, BacklogCandles, Holds;
    var cfg, s, cands := Unit(M5), BacklogStore(c), UnitCandidates(Unit(M5), BacklogStore(c));
    var pos := BacklogPosition(c);
    MinuteCandidates(c);
    BacklogBars(c, candles);
    BacklogSize(candles);
    WindowIsPassBars(cfg, s, candles);
    PrefixStops(c, cfg, s, candles, 1);
    var s1 := CycleStop(c, cfg, s, candles, 1);
    StopIsSound(c, cfg, s, candles, 1, s1);
    BacklogHeld(pos, cands, candles, 1);
    ForeignIsNotEntered(cfg, pos, candles[..1]);
    StoppedHeld(c, cfg, s, candles, 1, s1, pos);
    NoneLeftIff(c, cfg, s, candles, 1, s1);
    BacklogNoneLeft(cands, candles);
    DiscoveredBy(cfg, s1);
  }

  lemma ForeignIsNotEntered(cfg: Config, pos: Position, bars: seq<Bar>)
    requires pos.timeframe != cfg.timeframe
    ensures NotEntered(cfg, pos, bars)
  {
  }

  lemma BacklogNoneLeft(cands: seq<Candidate>, candles: seq<Bar>)
    requires BacklogCandles(candles) && forall x :: x in cands <==> x == MinuteOrder()
    ensures NoneLeft(cands, candles, candles[..1])
  {
    assert Stamps(candles[..1])[0] == 3000;
  }

  /**
   * The stop that is lost: the bar of the entry closes at 80. The whole cycle stops the hourly position out on it; after a
   * crash behind the due bar the five-minute unit is not visited again and the position stays open.
   */
  lemma StopIsLost(c: CostFn)
    ensures
      var candles := [Bar(3000, 100.0, 100.0), Bar(3300, 100.0, 100.0), Bar(3600, 100.0, 80.0)];
      var s1 := CycleStop(c, Unit(M5), BacklogStore(c), candles, 1);
      && OpenIn(Cycle(c, Unit(M5), BacklogStore(c), candles), EURUSD).None?
      && Cycle(c, Unit(M5), s1, candles) == s1 && OpenIn(s1, EURUSD) == OpenIn(BacklogStore(c), EURUSD)
      && OpenIn(s1, EURUSD).Some?
  {
    hide UnitCandidates, BacklogStore, OpenIn, HeldOver, Discovered, PassBars, Covered, StoreSound, PassPrefix,
         PassWindow, StoppedAt, Seeded, Holds, StoreBar, Pass, OnBar;
    var candles := [Bar(3000, 100.0, 100.0), Bar(3300, 100.0, 100.0), Bar(3600, 100.0, 80.0)];
    var cfg, s, cands := Unit(M5), BacklogStore(c), UnitCandidates(Unit(M5), BacklogStore(c));
    BacklogStopped(c, candles);
    BacklogBars(c, candles);
    var pos := BacklogPosition(c);
    MinuteCandidates(c);
    WindowIsPassBars(cfg, s, candles);
    PrefixStops(c, cfg, s, candles, 2);
    var s2 := PassPrefix(c, cfg, s, candles, 2);
    BacklogHeld(pos, cands, candles, 2);
    ForeignIsNotEntered(cfg, pos, candles[..2]);
    StoppedHeld(c, cfg, s, candles, 2, s2, pos);
    BacklogBar(pos, cands, candles, 2);
    NextOnBar(c, cfg, s, candles, 2, s2, pos);
    BreachCloses(c, cfg, s2, candles[2], cands, pos);
    WholePassFrom(c, cfg, s, candles, 2, s2);
    assert candles[3..] == [];
  }

  // ---- concrete stores --------------------------------------------------------------------

  /** A filled order whose position opened at 900, and a waiting one; last valued at 900. */
  function HeldRows(buckets: map<nat, int>): Store {
    Store([OrderRow(0, 1000, Some(0), EURUSD, M5, LONG, FILLED, 1.0, 100.0, Some(100.0), 0.0, Some(90.0), None, 7,
                    Some(900)),
           OrderRow(1, 1001, Some(1), EURUSD, M5, LONG, PENDING, 1.0, 100.0, None, 0.0, Some(90.0), None, 7, None)],
          [PositionRow(0, EURUSD, M5, LONG, 1.0, 100.0, 900, Some(90.0), None, 0.0, OPEN)],
          [Snapshot(900, 1000.0, 1000.0, 0.0, 0.0, 1000.0, 0.0)],
          buckets)
  }

  /** The waiting order's decision was made on bar 900: it is due after the entry. */
  function LateStore(): Store {
    HeldRows(map[0 := 600, 1 := 900])
  }

  /** The ordinary case: an order due after the open position's entry, and any number of crashes. */
  lemma RestartApplies(cfg: Config, candles: seq<Bar>, c: CostFn)
    requires cfg == Config(EURUSD, M5, 1000.0, 7, None, 24)
    requires candles == [Bar(900, 100.0, 100.0), Bar(1200, 100.0, 101.0), Bar(1500, 101.0, 102.0)]
    ensures Restartable(cfg, LateStore(), candles)
    ensures |PassWindow(cfg, LateStore(), candles).bars| == 3
    ensures CrashProof(c, cfg, LateStore(), candles)
  {
    hide StoreSound, UnitCandidates, OpenIn, PassWindow, OwedBars, PassBars, Seeded, Covered, CrashProof, RestartSafe;
    var s, a := LateStore(), Candidate(1, EURUSD, M5, LONG, 1001, 1, 1200);
    LateStoreSound();
    LateStoreCandidates(cfg, a);
    LateStoreOpen(cfg.symbol);
    LateOwed(cfg, s, a, ToPosition(s.positions[0]), candles);
    WindowIsPassBars(cfg, s, candles);
    EntryFirstIsSafe(cfg, s, candles);
    RepeatedCrashes(c, cfg, s, candles);
  }

  lemma LateStoreOpen(symbol: string)
    requires symbol == EURUSD
    ensures OpenIn(LateStore(), symbol) == Some(ToPosition(LateStore().positions[0])) && Seeded(LateStore(), 7)
  {
    OneOpenRow(LateStore().positions[0]);
  }

  lemma LateOwed(cfg: Config, s: Store, a: Candidate, pos: Position, candles: seq<Bar>)
    requires forall x :: x in UnitCandidates(cfg, s) <==> x == a
    requires OpenIn(s, cfg.symbol) == Some(pos) && pos.entryTs <= a.fillStamp
    requires |candles| <= cfg.maxBars && forall b :: b in candles ==> pos.entryTs <= b.ts
    ensures OwedBars(cfg, s, candles) == candles && PassBars(cfg, s, candles) == candles
    ensures Covered(cfg, s, candles)
  {
    hide UnitCandidates, OpenIn, From;
    LateAnchor(UnitCandidates(cfg, s), a, pos, candles);
    FromAll(candles, pos.entryTs);
  }

  lemma LateAnchor(cands: seq<Candidate>, a: Candidate, pos: Position, candles: seq<Bar>)
    requires forall x :: x in cands <==> x == a
    requires pos.entryTs <= a.fillStamp
    ensures AnchorOf(cands, Some(pos), candles) == Some(pos.entryTs)
  {
    AnchorIsLeast(cands, Some(pos), candles);
  }

  lemma LateStoreSound()
    ensures StoreSound(LateStore())
  {
    HeldRowsSound(LateStore().buckets);
  }

  lemma LateStoreCandidates(cfg: Config, a: Candidate)
    requires cfg.symbol == EURUSD && cfg.timeframe == M5
    requires a == Candidate(1, EURUSD, M5, LONG, 1001, 1, 1200)
    ensures forall x :: x in UnitCandidates(cfg, LateStore()) <==> x == a
  {
    var s := LateStore();
    LateStoreSound();
    UnitCandidatesExact(cfg, s);
    forall x
      ensures UnitOrder(cfg, s, x) <==> x == a
    {
      assert IsPending(s.orders, x.order) ==> x.order == 1;
    }
  }

  lemma HeldRowsSound(buckets: map<nat, int>)
    ensures StoreSound(HeldRows(buckets))
  {
    var s := HeldRows(buckets);
    assert s.positions[0].orderId == 0;
    assert HasRow(s.positions, 0);
  }

  /** The waiting order has no resolvable fill bar. */
  function HeldStore(): Store {
    HeldRows(map[0 := 600])
  }

  lemma HeldStoreSound()
    ensures StoreSound(HeldStore()) && Seeded(HeldStore(), 7)
  {
    HeldRowsSound(HeldStore().buckets);
  }

  lemma HeldStoreIdle(cfg: Config)
    ensures UnitCandidates(cfg, HeldStore()) == []
  {
    hide StoreSound, UnitCandidates;
    var s := HeldStore();
    HeldStoreSound();
    UnitCandidatesExact(cfg, s);
    assert Resolve(s, 1) == None;
    assert forall h :: IsPending(s.orders, h) ==> h == 1;
    assert forall a :: a in UnitCandidates(cfg, s) ==> a.order == 1 && Resolve(s, 1) == Some(a);
    HasMember(UnitCandidates(cfg, s));
  }

  lemma HeldStoreSettled(cfg: Config, candles: seq<Bar>)
    requires cfg == Config(EURUSD, M5, 1000.0, 7, None, 1)
    requires candles == [Bar(900, 100.0, 100.0), Bar(1200, 100.0, 80.0)]
    ensures Settled(cfg, HeldStore(), candles, ToPosition(HeldStore().positions[0]), 900)
  {
    hide StoreSound, Seeded, UnitCandidates;
    var s := HeldStore();
    HeldStoreSound();
    HeldStoreIdle(cfg);
    OneOpenRow(s.positions[0]);
    OneSnapshot(s.snapshots[0]);
    assert forall b :: b in candles && b.ts <= 900 ==> b == candles[0];
  }

  /** A stall in numbers: throttle one, the position valued at its entry bar, the next close breaches its stop at 90. */
  lemma StalledStop(c: CostFn)
    ensures
      var cfg := Config(EURUSD, M5, 1000.0, 7, None, 1);
      var candles := [Bar(900, 100.0, 100.0), Bar(1200, 100.0, 80.0)];
      && ToPosition(HeldStore().positions[0]).ExitFor(80.0) == Some((90.0, StopLoss))
      && Cycle(c, cfg, HeldStore(), candles).positions == HeldStore().positions
  {
    hide Discovered, Settled, Pass, StoreSound, HeldStore;
    var cfg := Config(EURUSD, M5, 1000.0, 7, None, 1);
    var candles := [Bar(900, 100.0, 100.0), Bar(1200, 100.0, 80.0)];
    HeldRow();
    var pos := ToPosition(HeldStore().positions[0]);
    HeldStoreSettled(cfg, candles);
    assert Range(candles, 900, 900) == [candles[0]];
    StalledPass(c, cfg, HeldStore(), candles, pos, 900);
  }

  lemma HeldRow()
    ensures |HeldStore().positions| == 1
    ensures
      var pos := ToPosition(HeldStore().positions[0]);
      pos.entryTs == 900 && pos.side == LONG && pos.stopLoss == Some(90.0)
  {
  }

  lemma OneOpenRow(r: PositionRow)
    requires r.status.OPEN?
    ensures FindOpen([r], r.symbol) == Some(0)
  {
    assert [r][..0] == [];
  }

  lemma OneSnapshot(x: Snapshot)
    ensures LatestSnapshot([x]) == Some(x)
  {
    assert [x][..0] == [];
  }
}
