/**
 * Catching up cycle by cycle under the throttle: throttled cycles go the way of one unthrottled cycle, and they get to
 * its end unless the open position is so old that the throttle is used up on bars it has already survived.
 */
module Throttled {
  import opened Prelude
  import opened Paper
  import opened Ledger
  import opened LedgerInvariant
  import opened Lifecycle
  import opened CatchUp
  import opened Bars
  import opened Restart
  import opened EarlyBars
  import opened Discovery
  import opened Crashes

  // ---- catching up in throttled passes ------------------------------------------------------------

  /** The same unit with a throttle that covers any backlog. */
  function Wide(cfg: Config, candles: seq<Bar>): Config {
    cfg.(maxBars := |candles|)
  }

  function Cycles(c: CostFn, cfg: Config, s: Store, candles: seq<Bar>, m: nat): Store {
    if m == 0 then s else Cycle(c, cfg, Cycles(c, cfg, s, candles, m - 1), candles)
  }

  lemma {:induction false} SameUnitSameRun(c: CostFn, cfg: Config, wide: Config, s: Store, bars: seq<Bar>,
                                           cands: seq<Candidate>)
    requires wide == cfg.(maxBars := wide.maxBars)
    ensures RunStore(c, wide, s, bars, cands) == RunStore(c, cfg, s, bars, cands)
  {
    if bars != [] {
      SameUnitSameRun(c, cfg, wide, s, bars[..|bars| - 1], cands);
    }
  }

  lemma WideOwes(cfg: Config, s: Store, candles: seq<Bar>)
    requires candles != []
    ensures Covered(Wide(cfg, candles), s, candles)
    ensures PassBars(Wide(cfg, candles), s, candles) == OwedBars(cfg, s, candles)
    ensures UnitCandidates(Wide(cfg, candles), s) == UnitCandidates(cfg, s)
    ensures AfterMissing(Wide(cfg, candles), s, candles).store == AfterMissing(cfg, s, candles).store
  {
    hide From, UnitCandidates;
    var anchor := AnchorOf(UnitCandidates(cfg, s), OpenIn(s, cfg.symbol), candles);
    assert UnitCandidates(Wide(cfg, candles), s) == UnitCandidates(cfg, s) by { SameUnit(cfg, Wide(cfg, candles), s); }
    if anchor.Some? {
      FromIsShorter(candles, anchor.value);
    }
  }

  lemma SameUnit(cfg: Config, wide: Config, s: Store)
    requires wide == cfg.(maxBars := wide.maxBars)
    ensures UnitCandidates(wide, s) == UnitCandidates(cfg, s)
  {
  }

  /** A throttled pass is the wide pass stopped at the throttle. */
  lemma ThrottledPassStops(c: CostFn, cfg: Config, s: Store, candles: seq<Bar>)
    requires StoreSound(s) && Seeded(s, cfg.seed) && candles != [] && AscendingBars(candles)
    ensures
      var n := |PassWindow(Wide(cfg, candles), s, candles).bars|;
      && n == |OwedBars(cfg, s, candles)|
      && Pass(c, cfg, s, candles) == PassPrefix(c, Wide(cfg, candles), s, candles, Least(Throttle(cfg.maxBars), n))
  {
    hide RunStore, AfterMissing, UnitCandidates, OwedBars, Pass, PassPrefix, PassWindow, AscendingBars, StoreSound,
         Seeded;
    var wide := Wide(cfg, candles);
    WideOwes(cfg, s, candles);
    WindowIsPassBars(wide, s, candles);
    WholePassIsRun(c, cfg, s, candles);
    var n := |OwedBars(cfg, s, candles)|;
    var k := Least(Throttle(cfg.maxBars), n);
    PassIsRun(c, wide, s, candles, k);
    assert PassBars(cfg, s, candles) == OwedBars(cfg, s, candles)[..k];
    SameUnitSameRun(c, cfg, wide, AfterMissing(cfg, s, candles).store, OwedBars(cfg, s, candles)[..k],
                    UnitCandidates(cfg, s));
  }

  /** A throttled cycle is the wide one dying at the throttle. */
  lemma ThrottledCycleStops(c: CostFn, cfg: Config, s: Store, candles: seq<Bar>)
    requires StoreSound(s) && Seeded(s, cfg.seed) && candles != [] && AscendingBars(candles)
    ensures Cycle(c, cfg, s, candles) == CycleStop(c, Wide(cfg, candles), s, candles, Throttle(cfg.maxBars))
    ensures Discovered(cfg, s) <==> Discovered(Wide(cfg, candles), s)
  {
    hide Pass, PassPrefix, PassWindow, UnitCandidates, AscendingBars, StoreSound, Seeded, OwedBars, Throttle;
    ThrottledPassStops(c, cfg, s, candles);
    SameUnit(cfg, Wide(cfg, candles), s);
  }

  /** Catching up cycle by cycle leaves what wide cycles leave that die at the throttle each time. */
  lemma {:induction false} CyclesAreCrashes(c: CostFn, cfg: Config, s: Store, candles: seq<Bar>, m: nat)
    requires StoreSound(s) && Seeded(s, cfg.seed) && candles != [] && AscendingBars(candles)
    ensures Cycles(c, cfg, s, candles, m) == CrashRun(c, Wide(cfg, candles), s, candles, seq(m, _ => Throttle(cfg.maxBars)))
    ensures StoreSound(Cycles(c, cfg, s, candles, m)) && Seeded(Cycles(c, cfg, s, candles, m), cfg.seed)
  {
    hide Pass, CycleStop, StoreSound, Seeded, AscendingBars, Throttle, Discovered;
    if m > 0 {
      CyclesAreCrashes(c, cfg, s, candles, m - 1);
      var mid, stops := Cycles(c, cfg, s, candles, m - 1), seq(m, _ => Throttle(cfg.maxBars));
      assert stops[..m - 1] == seq(m - 1, _ => Throttle(cfg.maxBars));
      ThrottledCycleStops(c, cfg, mid, candles);
      PassKeepsSound(c, cfg, mid, candles);
    }
  }

  lemma PassKeepsSound(c: CostFn, cfg: Config, s: Store, candles: seq<Bar>)
    requires StoreSound(s) && Seeded(s, cfg.seed) && candles != [] && AscendingBars(candles)
    ensures StoreSound(Pass(c, cfg, s, candles)) && Seeded(Pass(c, cfg, s, candles), cfg.seed)
  {
    hide RunStore, AfterMissing, UnitCandidates, PassBars, Pass, AscendingBars, StoreSound, Seeded;
    WholePassIsRun(c, cfg, s, candles);
    var bars := PassBars(cfg, s, candles);
    PassFacts(c, cfg, s, candles, |bars|);
    assert bars[..|bars|] == bars;
    RunDoneSound(cfg, AfterMissing(cfg, s, candles).store, Pass(c, cfg, s, candles), bars, UnitCandidates(cfg, s));
  }

  /**
   * From a safe store throttled cycles never leave the way of the one wide cycle, and the first whose unit owes no more
   * than the throttle ends where the wide cycle ends.
   */
  lemma ThrottledCatchUp(c: CostFn, cfg: Config, s: Store, candles: seq<Bar>, m: nat)
    requires Restartable(Wide(cfg, candles), s, candles) && RestartSafe(Wide(cfg, candles), s, candles)
    ensures Cycle(c, Wide(cfg, candles), Cycles(c, cfg, s, candles, m), candles) == Cycle(c, Wide(cfg, candles), s, candles)
    ensures
      Covered(cfg, Cycles(c, cfg, s, candles, m), candles) ==>
      Cycles(c, cfg, s, candles, m + 1) == Cycle(c, Wide(cfg, candles), s, candles)
  {
    hide PassPrefix, PassWindow, StoreSound, Seeded, AscendingBars, OwedBars, Throttle, RestartSafe, Discovered, Pass,
         CrashRun;
    var wide, mid := Wide(cfg, candles), Cycles(c, cfg, s, candles, m);
    CyclesAreCrashes(c, cfg, s, candles, m);
    SafeCrashRun(c, wide, s, candles, seq(m, _ => Throttle(cfg.maxBars)));
    ThrottledCycleStops(c, cfg, mid, candles);
    if Covered(cfg, mid, candles) {
      ThrottledPassStops(c, cfg, mid, candles);
      WholeStop(c, wide, mid, candles);
    }
  }

  // ---- stuck stores -----------------------------------------------------------------------------

  /** The unit is visited, the throttle is used up on quiet bars, and a bar beyond them is not quiet. */
  ghost predicate Stuck(cfg: Config, s: Store, candles: seq<Bar>) {
    var owed, cands, n := OwedBars(cfg, s, candles), UnitCandidates(cfg, s), Throttle(cfg.maxBars);
    && Discovered(cfg, s) && n <= |owed|
    && (forall i :: 0 <= i < n ==> Quiet(cfg, s, owed[i], cands))
    && exists i :: 0 <= i < |owed| && !Quiet(cfg, s, owed[i], cands)
  }

  /** Then a position is open, and the throttle is no longer than the bars it has survived since its entry. */
  lemma StuckIsOld(cfg: Config, s: Store, candles: seq<Bar>)
    requires StoreSound(s) && Seeded(s, cfg.seed) && candles != [] && AscendingBars(candles) && Stuck(cfg, s, candles)
    ensures OpenIn(s, cfg.symbol).Some?
    ensures OwedBars(cfg, s, candles) == From(candles, OpenIn(s, cfg.symbol).value.entryTs)
    ensures
      AnchorOf(UnitCandidates(cfg, s), OpenIn(s, cfg.symbol), candles) == Some(OpenIn(s, cfg.symbol).value.entryTs)
    ensures
      forall i :: 0 <= i < Throttle(cfg.maxBars) ==>
        Survived(cfg, s, OpenIn(s, cfg.symbol).value, OwedBars(cfg, s, candles)[i])
  {
    hide StoreSound, Seeded, UnitCandidates, OpenIn, Discovered, AscendingBars, AnchorOf, From, Survived;
    var owed, cands, pos := OwedBars(cfg, s, candles), UnitCandidates(cfg, s), OpenIn(s, cfg.symbol);
    AnchorIsLeast(cands, pos, candles);
    assert Quiet(cfg, s, owed[0], cands);
    var anchor := AnchorOf(cands, pos, candles).value;
    FirstOwed(candles, anchor);
    assert forall a :: a in cands && a.fillStamp == owed[0].ts ==> a in WithStamp(cands, owed[0].ts);
    assert pos.Some? && anchor == pos.value.entryTs;
    forall i | 0 <= i < Throttle(cfg.maxBars)
      ensures Survived(cfg, s, pos.value, owed[i])
    {
      assert Quiet(cfg, s, owed[i], cands);
    }
  }

  lemma FirstOwed(candles: seq<Bar>, anchor: int)
    requires AscendingBars(candles)
    ensures anchor in Stamps(candles) && From(candles, anchor) != [] ==> From(candles, anchor)[0].ts == anchor
  {
    StampsMembers(candles, anchor);
    FromAscending(candles, anchor);
    var from := From(candles, anchor);
    if b :| b in candles && b.ts == anchor {
      if from != [] {
        assert b in from && from[0] in from;
        FirstIsLeast(from, b);
      }
    }
  }

  /** A run over waiting bars of which one is not quiet leaves another store. */
  lemma UnquietRunChanges(c: CostFn, cfg: Config, s: Store, bars: seq<Bar>, cands: seq<Candidate>, i: nat)
    requires StoreSound(s) && Seeded(s, cfg.seed) && BarsWait(cfg, s, bars, cands) && OfTimeframe(cands, cfg.timeframe)
    requires i < |bars| && !Quiet(cfg, s, bars[i], cands)
    ensures RunStore(c, cfg, s, bars, cands) != s
  {
    hide StoreSound, Seeded, AscendingBars, OpenIn, RunStore, Grows, Survived, Orderly;
    if a :| a in cands && a.fillStamp in Stamps(bars) {
      RunFacts(c, cfg, s, bars, cands);
      StampsMembers(bars, a.fillStamp);
      assert Waiting(s, a);
    } else {
      forall b | b in bars
        ensures WithStamp(cands, b.ts) == []
      {
        StampsMembers(bars, b.ts);
        NoStampNoDue(cands, b.ts);
      }
      var first := FirstUnquiet(cfg, s, bars, cands, i);
      UnquietActs(c, cfg, s, bars, cands, first);
    }
  }

  lemma FirstUnquiet(cfg: Config, s: Store, bars: seq<Bar>, cands: seq<Candidate>, i: nat) returns (first: nat)
    requires i < |bars| && !Quiet(cfg, s, bars[i], cands)
    ensures first <= i && !Quiet(cfg, s, bars[first], cands)
    ensures forall j :: 0 <= j < first ==> Quiet(cfg, s, bars[j], cands)
  {
    hide Quiet;
    if j :| 0 <= j < i && !Quiet(cfg, s, bars[j], cands) {
      first := FirstUnquiet(cfg, s, bars, cands, j);
    } else {
      first := i;
    }
  }

  lemma UnquietActs(c: CostFn, cfg: Config, s: Store, bars: seq<Bar>, cands: seq<Candidate>, first: nat)
    requires StoreSound(s) && Seeded(s, cfg.seed) && BarsWait(cfg, s, bars, cands) && OfTimeframe(cands, cfg.timeframe)
    requires first < |bars| && !Quiet(cfg, s, bars[first], cands) && WithStamp(cands, bars[first].ts) == []
    requires forall j :: 0 <= j < first ==> Quiet(cfg, s, bars[j], cands)
    ensures RunStore(c, cfg, s, bars, cands) != s
  {
    hide StoreSound, Seeded, AscendingBars, StoreBar, ActedAt, Stamped, Orderly, Ready, OfTimeframe, StampSet;
    var b, pos := bars[first], OpenIn(s, cfg.symbol).value;
    forall x | x in bars[..first]
      ensures Quiet(cfg, s, x, cands)
    {
      var j :| 0 <= j < first && bars[..first][j] == x;
      assert bars[j] == x;
    }
    QuietRunChangesNothing(c, cfg, s, bars[..first], cands);
    var s1, rest := StoreBar(c, cfg, s, b, cands), bars[first + 1..];
    assert bars[..first + 1] == bars[..first] + [b];
    RunSplit(c, cfg, s, bars, first + 1, cands);
    assert bars[..first + 1][..first] == bars[..first];
    WaitingIsReady(cfg, s, cands, b.ts);
    UncalmBarActs(c, cfg, s, b, cands, pos);
    RunStamps(c, cfg, s1, rest, cands);
    StaysActed(s, s1, RunStore(c, cfg, s, bars, cands), StampSet(rest), b.ts);
    NothingActed(s, b.ts);
  }

  // ---- progress ---------------------------------------------------------------------------------

  /** A stopped store has no missing orders: a pass from it is the run over the bars it owes. */
  lemma StoppedPassIsRun(c: CostFn, cfg: Config, s: Store, candles: seq<Bar>, n: nat, st: Store)
    requires StoppedAt(c, cfg, s, candles, n, st)
    ensures StoreSound(st) && Seeded(st, cfg.seed) && BarsWait(cfg, st, PassBars(cfg, st, candles), UnitCandidates(cfg, st))
    ensures Pass(c, cfg, st, candles) == RunStore(c, cfg, st, PassBars(cfg, st, candles), UnitCandidates(cfg, st))
  {
    hide StoreSound, Seeded, AscendingBars, UnitCandidates, PassBars, AfterMissing, RunStore, Pass, Missing;
    StopIsSound(c, cfg, s, candles, n, st);
    RemainingCandidates(c, cfg, s, candles, n, st);
    MissingFacts(cfg, st, candles);
    WholePassIsRun(c, cfg, st, candles);
    var bars := PassBars(cfg, st, candles);
    PrefixWaits(cfg, st, candles, |bars|);
    assert bars[..|bars|] == bars;
  }

  lemma ThrottledOwed(cfg: Config, s: Store, candles: seq<Bar>)
    ensures PassBars(cfg, s, candles) == Take(OwedBars(cfg, s, candles), Throttle(cfg.maxBars))
    ensures OwedBars(Wide(cfg, candles), s, candles) == OwedBars(cfg, s, candles)
    ensures UnitCandidates(Wide(cfg, candles), s) == UnitCandidates(cfg, s)
  {
    SameUnit(cfg, Wide(cfg, candles), s);
  }

  /** If a throttled cycle from a stopped store changes nothing and is not stuck, the wide cycle changes nothing either. */
  lemma StillIsDone(c: CostFn, cfg: Config, s: Store, candles: seq<Bar>, n: nat, st: Store)
    requires StoppedAt(c, Wide(cfg, candles), s, candles, n, st)
    requires Throttle(cfg.maxBars) <= |OwedBars(cfg, st, candles)| && Discovered(cfg, st) && !Stuck(cfg, st, candles)
    requires Cycle(c, cfg, st, candles) == st
    ensures Pass(c, Wide(cfg, candles), st, candles) == st
  {
    hide StoreSound, Seeded, AscendingBars, UnitCandidates, OwedBars, Quiet, RunStore, Pass, Discovered, StoppedAt,
         BarsWait, OfTimeframe;
    var wide := Wide(cfg, candles);
    var owed, cands, t := OwedBars(cfg, st, candles), UnitCandidates(cfg, st), Throttle(cfg.maxBars);
    StopIsSound(c, wide, s, candles, n, st);
    StoppedPassIsRun(c, wide, s, candles, n, st);
    ThrottledOwed(cfg, st, candles);
    WideOwes(cfg, st, candles);
    SameUnitSameRun(c, cfg, wide, st, owed, cands);
    UnitTimeframe(cfg, st);
    if i :| 0 <= i < t && !Quiet(cfg, st, owed[i], cands) {
      ThrottledRun(c, cfg, s, candles, n, st);
      assert Take(owed, t)[i] == owed[i];
      UnquietRunChanges(c, cfg, st, Take(owed, t), cands, i);
      assert false;
    } else {
      forall b | b in owed
        ensures Quiet(cfg, st, b, cands)
      {
        var i :| 0 <= i < |owed| && owed[i] == b;
      }
      QuietRunChangesNothing(c, cfg, st, owed, cands);
    }
  }

  /** A throttled cycle from a stopped store is the run over the first bars it owes. */
  lemma ThrottledRun(c: CostFn, cfg: Config, s: Store, candles: seq<Bar>, n: nat, st: Store)
    requires StoppedAt(c, Wide(cfg, candles), s, candles, n, st)
    ensures
      var bars := Take(OwedBars(cfg, st, candles), Throttle(cfg.maxBars));
      && BarsWait(cfg, st, bars, UnitCandidates(cfg, st)) && StoreSound(st) && Seeded(st, cfg.seed)
      && Pass(c, cfg, st, candles) == RunStore(c, cfg, st, bars, UnitCandidates(cfg, st))
  {
    hide StoreSound, Seeded, AscendingBars, UnitCandidates, PassBars, AfterMissing, RunStore, Pass, Missing, OwedBars;
    var wide := Wide(cfg, candles);
    StopIsSound(c, wide, s, candles, n, st);
    RemainingCandidates(c, wide, s, candles, n, st);
    ThrottledOwed(cfg, st, candles);
    MissingFacts(cfg, st, candles);
    WholePassIsRun(c, cfg, st, candles);
    var bars := PassBars(cfg, st, candles);
    PrefixWaits(cfg, st, candles, |bars|);
    assert bars[..|bars|] == bars;
  }

  /** Cycles that are never stuck get to the end of the wide one. */
  lemma Reaches(c: CostFn, cfg: Config, s: Store, candles: seq<Bar>, m: nat, n: nat) returns (end: nat)
    requires Restartable(Wide(cfg, candles), s, candles) && RestartSafe(Wide(cfg, candles), s, candles)
    requires Discovered(Wide(cfg, candles), s) && n <= |PassWindow(Wide(cfg, candles), s, candles).bars|
    requires Cycles(c, cfg, s, candles, m) == PassPrefix(c, Wide(cfg, candles), s, candles, n)
    requires forall j: nat :: !Stuck(cfg, Cycles(c, cfg, s, candles, j), candles)
    ensures Cycles(c, cfg, s, candles, end) == Cycle(c, Wide(cfg, candles), s, candles)
    decreases |PassWindow(Wide(cfg, candles), s, candles).bars| - n
  {
    hide PassPrefix, PassWindow, StoreSound, Seeded, AscendingBars, OwedBars, Throttle, RestartSafe, Discovered, Pass,
         Stuck, StoppedAt, CycleStop;
    var wide, st := Wide(cfg, candles), Cycles(c, cfg, s, candles, m);
    ThrottledCatchUp(c, cfg, s, candles, m);
    PrefixStops(c, wide, s, candles, n);
    StopIsSound(c, wide, s, candles, n, st);
    ThrottledCycleStops(c, cfg, st, candles);
    if !Discovered(cfg, st) {
      end := m;
    } else if |OwedBars(cfg, st, candles)| <= Throttle(cfg.maxBars) {
      end := m + 1;
    } else {
      var n' := CycleStopAgain(c, wide, s, candles, n, Throttle(cfg.maxBars));
      if n < n' {
        end := Reaches(c, cfg, s, candles, m + 1, n');
      } else {
        StillIsDone(c, cfg, s, candles, n, st);
        end := m;
      }
    }
  }

  lemma NeverStuckReaches(c: CostFn, cfg: Config, s: Store, candles: seq<Bar>) returns (end: nat)
    requires Restartable(Wide(cfg, candles), s, candles) && RestartSafe(Wide(cfg, candles), s, candles)
    requires forall j: nat :: !Stuck(cfg, Cycles(c, cfg, s, candles, j), candles)
    ensures Cycles(c, cfg, s, candles, end) == Cycle(c, Wide(cfg, candles), s, candles)
  {
    hide PassPrefix, PassWindow, StoreSound, Seeded, AscendingBars, Throttle, RestartSafe, Discovered, Pass, Stuck,
         Covered;
    var wide := Wide(cfg, candles);
    ThrottledCycleStops(c, cfg, s, candles);
    if Discovered(cfg, s) {
      assert Cycles(c, cfg, s, candles, 1) == Cycle(c, cfg, Cycles(c, cfg, s, candles, 0), candles);
      end := Reaches(c, cfg, s, candles, 1, Least(Throttle(cfg.maxBars), |PassWindow(wide, s, candles).bars|));
    } else {
      end := 0;
    }
  }

  // ---- stuck for good ---------------------------------------------------------------------------

  /** The end of the wide cycle is left alone by every throttled one. */
  lemma EndIsStill(c: CostFn, cfg: Config, s: Store, candles: seq<Bar>)
    requires Restartable(Wide(cfg, candles), s, candles) && RestartSafe(Wide(cfg, candles), s, candles)
    ensures var end := Cycle(c, Wide(cfg, candles), s, candles); Cycle(c, cfg, end, candles) == end
    ensures
      var end := Cycle(c, Wide(cfg, candles), s, candles);
      Cycle(c, Wide(cfg, candles), end, candles) == end && StoreSound(end) && Seeded(end, cfg.seed)
  {
    hide PassPrefix, PassWindow, StoreSound, Seeded, AscendingBars, Throttle, RestartSafe, Discovered, Covered,
         StoppedAt, CycleStop, Pass;
    var wide, end := Wide(cfg, candles), Cycle(c, Wide(cfg, candles), s, candles);
    CycleTwiceIsOnce(c, wide, s, candles);
    ThrottledCycleStops(c, wide, s, candles);
    if Discovered(wide, s) {
      PassKeepsSound(c, wide, s, candles);
      var all := |PassWindow(wide, s, candles).bars|;
      WholePrefix(c, wide, s, candles);
      ThrottledCycleStops(c, cfg, end, candles);
      var n := CycleStopAgain(c, wide, s, candles, all, Throttle(cfg.maxBars));
    } else {
      ThrottledCycleStops(c, cfg, end, candles);
      Unvisited(c, wide, s, candles, Throttle(cfg.maxBars));
    }
  }

  lemma WholePrefix(c: CostFn, cfg: Config, s: Store, candles: seq<Bar>)
    requires candles != []
    ensures Pass(c, cfg, s, candles) == PassPrefix(c, cfg, s, candles, |PassWindow(cfg, s, candles).bars|)
  {
  }

  lemma Unvisited(c: CostFn, cfg: Config, s: Store, candles: seq<Bar>, k: nat)
    requires candles != [] && !Discovered(cfg, s)
    ensures CycleStop(c, cfg, s, candles, k) == s
  {
  }

  lemma {:induction false} EndStays(c: CostFn, cfg: Config, s: Store, candles: seq<Bar>, end: Store, i: nat, j: nat)
    requires Cycles(c, cfg, s, candles, i) == end && Cycle(c, cfg, end, candles) == end && i <= j
    ensures Cycles(c, cfg, s, candles, j) == end
  {
    hide Cycle;
    if i < j {
      EndStays(c, cfg, s, candles, end, i, j - 1);
    }
  }

  /** Quiet is about positions and snapshots only. */
  lemma QuietAlike(cfg: Config, s: Store, s': Store, b: Bar, cands: seq<Candidate>)
    requires s'.positions == s.positions && s'.snapshots == s.snapshots
    ensures Quiet(cfg, s', b, cands) <==> Quiet(cfg, s, b, cands)
  {
  }

  /** The bars a pass from a stuck store owes wait after the missing orders are dropped. */
  lemma OwedWaits(cfg: Config, st: Store, candles: seq<Bar>)
    requires StoreSound(st) && Seeded(st, cfg.seed) && candles != [] && AscendingBars(candles)
    ensures
      var s1 := AfterMissing(cfg, st, candles).store;
      && BarsWait(cfg, s1, OwedBars(cfg, st, candles), UnitCandidates(cfg, st))
      && StoreSound(s1) && Seeded(s1, cfg.seed) && s1.positions == st.positions && s1.snapshots == st.snapshots
  {
    hide StoreSound, Seeded, AscendingBars, UnitCandidates, PassBars, AfterMissing, OwedBars, BarsWait, Missing,
         Anchored;
    var wide, owed := Wide(cfg, candles), OwedBars(cfg, st, candles);
    WideOwes(cfg, st, candles);
    MissingFacts(cfg, st, candles);
    PrefixWaits(wide, st, candles, |owed|);
    assert owed[..|owed|] == owed;
    SameUnitWaits(cfg, wide, AfterMissing(cfg, st, candles).store, owed, UnitCandidates(cfg, st));
  }

  /** A throttled cycle from a stuck store only drops missing orders. */
  lemma StuckCycle(c: CostFn, cfg: Config, st: Store, candles: seq<Bar>)
    requires StoreSound(st) && Seeded(st, cfg.seed) && candles != [] && AscendingBars(candles) && Stuck(cfg, st, candles)
    ensures Cycle(c, cfg, st, candles) == AfterMissing(cfg, st, candles).store
  {
    hide StoreSound, Seeded, AscendingBars, UnitCandidates, PassBars, AfterMissing, RunStore, Pass, OwedBars, Quiet,
         Discovered, BarsWait;
    var s1 := AfterMissing(cfg, st, candles).store;
    var owed, cands, t := OwedBars(cfg, st, candles), UnitCandidates(cfg, st), Throttle(cfg.maxBars);
    ThrottledOwed(cfg, st, candles);
    OwedWaits(cfg, st, candles);
    WholePassIsRun(c, cfg, st, candles);
    forall b | b in Take(owed, t)
      ensures Quiet(cfg, s1, b, cands)
    {
      var i :| 0 <= i < t && Take(owed, t)[i] == b;
      assert owed[i] == b;
      QuietAlike(cfg, st, s1, b, cands);
    }
    QuietRunChangesNothing(c, cfg, s1, Take(owed, t), cands);
  }

  /** The wide cycle does more. */
  lemma StuckWideCycle(c: CostFn, cfg: Config, st: Store, candles: seq<Bar>)
    requires StoreSound(st) && Seeded(st, cfg.seed) && candles != [] && AscendingBars(candles) && Stuck(cfg, st, candles)
    ensures Cycle(c, Wide(cfg, candles), st, candles) != AfterMissing(cfg, st, candles).store
  {
    hide StoreSound, Seeded, AscendingBars, UnitCandidates, PassBars, AfterMissing, RunStore, Pass, OwedBars, Quiet,
         Discovered, BarsWait, OfTimeframe;
    var wide, s1 := Wide(cfg, candles), AfterMissing(cfg, st, candles).store;
    var owed, cands := OwedBars(cfg, st, candles), UnitCandidates(cfg, st);
    ThrottledCycleStops(c, cfg, st, candles);
    WideOwes(cfg, st, candles);
    OwedWaits(cfg, st, candles);
    WholePassIsRun(c, wide, st, candles);
    var i :| 0 <= i < |owed| && !Quiet(cfg, st, owed[i], cands);
    QuietAlike(cfg, st, s1, owed[i], cands);
    UnitTimeframe(cfg, st);
    UnquietRunChanges(c, cfg, s1, owed, cands, i);
    SameUnitSameRun(c, cfg, wide, s1, owed, cands);
  }

  lemma SameUnitWaits(cfg: Config, wide: Config, s: Store, bars: seq<Bar>, cands: seq<Candidate>)
    requires wide == cfg.(maxBars := wide.maxBars) && BarsWait(wide, s, bars, cands)
    ensures BarsWait(cfg, s, bars, cands)
  {
  }

  /** The store a stuck cycle leaves is left alone by every later one. */
  lemma StuckStays(c: CostFn, cfg: Config, st: Store, candles: seq<Bar>)
    requires StoreSound(st) && Seeded(st, cfg.seed) && candles != [] && AscendingBars(candles) && Stuck(cfg, st, candles)
    ensures var s1 := Cycle(c, cfg, st, candles); Cycle(c, cfg, s1, candles) == s1
  {
    hide StoreSound, Seeded, AscendingBars, UnitCandidates, PassBars, AfterMissing, RunStore, Pass, OwedBars, OpenIn,
         Discovered, StoppedAt, Missing, Survived;
    var s1 := AfterMissing(cfg, st, candles).store;
    StuckCycle(c, cfg, st, candles);
    AfterMissingStops(c, cfg, st, candles);
    RemainingCandidates(c, cfg, st, candles, 0, s1);
    MissingFacts(cfg, st, candles);
    SamePosition(cfg, st, s1);
    if Discovered(cfg, s1) {
      FreshPassIsRun(c, cfg, st, candles, 0, s1);
      OwedAfterMissing(cfg, st, s1, candles);
      ThrottledOwed(cfg, s1, candles);
      forall b | b in PassBars(cfg, s1, candles)
        ensures Quiet(cfg, s1, b, UnitCandidates(cfg, s1))
      {
        FirstBarsStayQuiet(cfg, st, s1, candles, b);
      }
      StopIsSound(c, cfg, st, candles, 0, s1);
      QuietRunChangesNothing(c, cfg, s1, PassBars(cfg, s1, candles), UnitCandidates(cfg, s1));
    }
  }

  lemma SamePosition(cfg: Config, s: Store, s': Store)
    requires s'.positions == s.positions
    ensures OpenIn(s', cfg.symbol) == OpenIn(s, cfg.symbol)
  {
  }

  lemma AfterMissingStops(c: CostFn, cfg: Config, s: Store, candles: seq<Bar>)
    requires StoreSound(s) && Seeded(s, cfg.seed) && candles != [] && AscendingBars(candles)
    ensures StoppedAt(c, cfg, s, candles, 0, AfterMissing(cfg, s, candles).store)
  {
  }

  lemma OwedAfterMissing(cfg: Config, st: Store, s1: Store, candles: seq<Bar>)
    requires StoreSound(st) && Seeded(st, cfg.seed) && candles != [] && AscendingBars(candles) && Stuck(cfg, st, candles)
    requires OpenIn(s1, cfg.symbol) == OpenIn(st, cfg.symbol)
    requires forall a :: a in UnitCandidates(cfg, s1) ==> a in UnitCandidates(cfg, st)
    ensures OwedBars(cfg, s1, candles) == OwedBars(cfg, st, candles)
  {
    hide StoreSound, Seeded, AscendingBars, UnitCandidates, OpenIn, Stuck, From;
    StuckIsOld(cfg, st, candles);
    AnchorIsLeast(UnitCandidates(cfg, st), OpenIn(st, cfg.symbol), candles);
    AnchorIsLeast(UnitCandidates(cfg, s1), OpenIn(s1, cfg.symbol), candles);
  }

  lemma FirstBarsStayQuiet(cfg: Config, st: Store, s1: Store, candles: seq<Bar>, b: Bar)
    requires Stuck(cfg, st, candles) && s1.positions == st.positions && s1.snapshots == st.snapshots
    requires forall a :: a in UnitCandidates(cfg, s1) ==> a in UnitCandidates(cfg, st)
    requires b in Take(OwedBars(cfg, st, candles), Throttle(cfg.maxBars))
    ensures Quiet(cfg, s1, b, UnitCandidates(cfg, s1))
  {
    hide UnitCandidates, OwedBars, Discovered;
    var i :| 0 <= i < Throttle(cfg.maxBars) && OwedBars(cfg, st, candles)[i] == b;
    assert Quiet(cfg, st, b, UnitCandidates(cfg, st));
    forall a | a in UnitCandidates(cfg, s1)
      ensures a.fillStamp != b.ts
    {
      assert a.fillStamp == b.ts ==> a in WithStamp(UnitCandidates(cfg, st), b.ts);
    }
    NoStampNoDue(UnitCandidates(cfg, s1), b.ts);
  }

  /** A cycle stuck on the way never gets to the end of the wide one. */
  lemma StuckNeverReaches(c: CostFn, cfg: Config, s: Store, candles: seq<Bar>, m: nat, j: nat)
    requires Restartable(Wide(cfg, candles), s, candles) && RestartSafe(Wide(cfg, candles), s, candles)
    requires Stuck(cfg, Cycles(c, cfg, s, candles, m), candles)
    ensures Cycles(c, cfg, s, candles, j) != Cycle(c, Wide(cfg, candles), s, candles)
  {
    hide StoreSound, Seeded, AscendingBars, AfterMissing, Cycle, Stuck, RestartSafe, Covered;
    var end, st := Cycle(c, Wide(cfg, candles), s, candles), Cycles(c, cfg, s, candles, m);
    EndIsStill(c, cfg, s, candles);
    CyclesAreCrashes(c, cfg, s, candles, m);
    ThrottledCatchUp(c, cfg, s, candles, m);
    StuckCycle(c, cfg, st, candles);
    StuckWideCycle(c, cfg, st, candles);
    StuckStays(c, cfg, st, candles);
    var s1 := Cycle(c, cfg, st, candles);
    assert Cycles(c, cfg, s, candles, m + 1) == s1;
    if Cycles(c, cfg, s, candles, j) == end {
      if j <= m {
        EndStays(c, cfg, s, candles, end, j, m + 1);
      } else {
        EndStays(c, cfg, s, candles, s1, m + 1, j);
      }
      assert false;
    }
  }

  /** Some number of throttled cycles ends where the one wide cycle ends. */
  ghost predicate CatchesUp(c: CostFn, cfg: Config, s: Store, candles: seq<Bar>) {
    exists m: nat :: Cycles(c, cfg, s, candles, m) == Cycle(c, Wide(cfg, candles), s, candles)
  }

  ghost predicate NeverStuck(c: CostFn, cfg: Config, s: Store, candles: seq<Bar>) {
    forall m: nat :: !Stuck(cfg, Cycles(c, cfg, s, candles, m), candles)
  }

  /**
   * Catching up under the throttle works exactly when no cycle finds the position so old that the throttle is used up on
   * bars already survived, with a bar that matters beyond them.
   */
  lemma ThrottledIff(c: CostFn, cfg: Config, s: Store, candles: seq<Bar>)
    requires Restartable(Wide(cfg, candles), s, candles) && RestartSafe(Wide(cfg, candles), s, candles)
    ensures CatchesUp(c, cfg, s, candles) <==> NeverStuck(c, cfg, s, candles)
  {
    hide StoreSound, Seeded, AscendingBars, Cycle, Stuck, RestartSafe, Covered;
    if NeverStuck(c, cfg, s, candles) {
      var end := NeverStuckReaches(c, cfg, s, candles);
    } else if CatchesUp(c, cfg, s, candles) {
      var m: nat :| Stuck(cfg, Cycles(c, cfg, s, candles, m), candles);
      var j: nat :| Cycles(c, cfg, s, candles, j) == Cycle(c, Wide(cfg, candles), s, candles);
      StuckNeverReaches(c, cfg, s, candles, m, j);
    }
  }
}
