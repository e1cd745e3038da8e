/**
 * When a cycle can die after any committed bar without a trace. The next cycle visits the unit only if it still discovers
 * it; then its pass may skip bars from before the open entry. A crash is harmless exactly when no bar that the next cycle
 * may leave out would have closed the position or been due a snapshot.
 */
module Discovery {
  import opened Prelude
  import opened Paper
  import opened Ledger
  import opened LedgerInvariant
  import opened Lifecycle
  import opened CatchUp
  import opened Bars
  import opened Restart
  import opened EarlyBars

  // ---- discovery ------------------------------------------------------------------------------

  /** With one OPEN row a symbol, a unit is discovered by a waiting order or by the symbol's position being its own. */
  lemma DiscoveredBy(cfg: Config, s: Store)
    requires StoreSound(s)
    ensures
      var pos := OpenIn(s, cfg.symbol);
      Discovered(cfg, s) <==> UnitCandidates(cfg, s) != [] || (pos.Some? && pos.value.timeframe == cfg.timeframe)
  {
    hide UnitCandidates, OrdersSound, UniqueOrders, RowsAreFills, FillsHaveRows, OneRowPerOrder;
    var found := FindOpen(s.positions, cfg.symbol);
    if h :| 0 <= h < |s.positions| && s.positions[h].status.OPEN? && s.positions[h].symbol == cfg.symbol &&
            s.positions[h].timeframe == cfg.timeframe
    {
      assert found.value == h;
    }
    if found.Some? && s.positions[found.value].timeframe == cfg.timeframe {
      assert s.positions[found.value].symbol == cfg.symbol;
    }
  }

  /** A unit whose symbol has no position of another timeframe loses nothing when it is not discovered. */
  lemma OwnCycleIsPass(c: CostFn, cfg: Config, s: Store, candles: seq<Bar>)
    requires StoreSound(s) && Seeded(s, cfg.seed) && AscendingBars(candles)
    requires var pos := OpenIn(s, cfg.symbol); pos.Some? ==> pos.value.timeframe == cfg.timeframe
    ensures Cycle(c, cfg, s, candles) == Pass(c, cfg, s, candles)
  {
    hide StoreSound, Seeded, AscendingBars, UnitCandidates, Pass, Discovered;
    DiscoveredBy(cfg, s);
    if !Discovered(cfg, s) {
      IdlePass(c, cfg, s, candles);
    }
  }

  lemma IdlePass(c: CostFn, cfg: Config, s: Store, candles: seq<Bar>)
    requires StoreSound(s) && Seeded(s, cfg.seed) && AscendingBars(candles)
    requires UnitCandidates(cfg, s) == [] && OpenIn(s, cfg.symbol).None?
    ensures Pass(c, cfg, s, candles) == s
  {
    hide StoreSound, Seeded, AscendingBars, UnitCandidates, AfterMissing;
    if candles != [] {
      WholePassIsRun(c, cfg, s, candles);
      MissingFacts(cfg, s, candles);
    }
  }

  // ---- the condition ------------------------------------------------------------------------

  /** No order of the unit is left to wait for after these bars. */
  ghost predicate NoneLeft(cands: seq<Candidate>, candles: seq<Bar>, done: seq<Bar>)
    requires candles != []
  {
    forall a :: a in cands ==> Missing(a, candles) || a.fillStamp in Stamps(done)
  }

  /**
   * A cycle that follows a stop before bar `i` may leave that bar out: it lies before the entry, or the position is
   * another timeframe's and no order of the unit is left, so that the unit is not even visited.
   */
  ghost predicate Skippable(cfg: Config, pos: Position, cands: seq<Candidate>, candles: seq<Bar>, bars: seq<Bar>, i: nat)
    requires candles != [] && i < |bars|
  {
    bars[i].ts < pos.entryTs || (pos.timeframe != cfg.timeframe && NoneLeft(cands, candles, bars[..i]))
  }

  /** A bar that may be left out, met with the position still held, and that is not calm. */
  ghost predicate UncalmAt(cfg: Config, s: Store, candles: seq<Bar>, i: nat)
    requires candles != []
  {
    var pos, bars, cands := OpenIn(s, cfg.symbol), PassBars(cfg, s, candles), UnitCandidates(cfg, s);
    && Discovered(cfg, s) && pos.Some? && i < |bars|
    && HeldOver(pos.value, cands, bars[..i]) && Skippable(cfg, pos.value, cands, candles, bars, i)
    && !CalmBar(pos.value, cands, StampAfter(LatestStamp(s.snapshots), cfg.interval, bars[..i]), cfg.interval, bars[i])
  }

  ghost predicate RestartSafe(cfg: Config, s: Store, candles: seq<Bar>)
    requires candles != []
  {
    forall i: nat :: !UncalmAt(cfg, s, candles, i)
  }

  lemma SafeIsCalmEarly(cfg: Config, s: Store, candles: seq<Bar>)
    requires candles != [] && AscendingBars(candles) && Covered(cfg, s, candles)
    requires Discovered(cfg, s) && RestartSafe(cfg, s, candles)
    ensures CalmEarly(cfg, s, candles)
  {
    hide OpenIn, UnitCandidates, PassBars, BeforeEntry, StampAfter, CalmBar, HeldOver, Discovered, AllBefore,
         AscendingBars, From, Covered;
    var pos := OpenIn(s, cfg.symbol);
    if pos.Some? {
      var early, bars := BeforeEntry(cfg, s, candles), PassBars(cfg, s, candles);
      var cands, latest := UnitCandidates(cfg, s), LatestStamp(s.snapshots);
      PassStartsEarly(cfg, s, candles);
      forall i | 0 <= i < |early| && HeldOver(pos.value, cands, early[..i])
        ensures CalmBar(pos.value, cands, StampAfter(latest, cfg.interval, early[..i]), cfg.interval, early[i])
      {
        assert early[..i] == bars[..i] && early[i] == bars[i];
        EarlyBefore(early, i, pos.value.entryTs);
        assert !UncalmAt(cfg, s, candles, i);
      }
    }
  }

  // ---- a stop that is not discovered ----------------------------------------------------------

  lemma {:induction false} RunOpens(c: CostFn, cfg: Config, s: Store, bars: seq<Bar>, cands: seq<Candidate>)
    requires StoreSound(s) && Seeded(s, cfg.seed) && BarsWait(cfg, s, bars, cands) && OfTimeframe(cands, cfg.timeframe)
    ensures
      var pos := OpenIn(RunStore(c, cfg, s, bars, cands), cfg.symbol);
      pos.Some? ==> pos == OpenIn(s, cfg.symbol) || pos.value.timeframe == cfg.timeframe
  {
    hide StoreSound, Seeded, StoreBar, Orderly, AscendingBars, BarsWait, Ready, RunDone, OpenIn, OfTimeframe;
    if bars != [] {
      var before, b := bars[..|bars| - 1], bars[|bars| - 1];
      assert bars == before + [b];
      BarsWaitPrefix(cfg, s, before, b, cands);
      RunOpens(c, cfg, s, before, cands);
      RunFacts(c, cfg, s, before, cands);
      var mid := RunStore(c, cfg, s, before, cands);
      NextBarReady(cfg, s, mid, before, b, cands);
      RunDoneSound(cfg, s, mid, before, cands);
      BarOpens(c, cfg, mid, b, cands);
    }
  }

  /** A position of another timeframe at the stop is the one the pass started with. */
  lemma StoppedForeign(c: CostFn, cfg: Config, s: Store, candles: seq<Bar>, k: nat, sk: Store)
    requires StoppedAt(c, cfg, s, candles, k, sk)
    ensures
      var pos := OpenIn(sk, cfg.symbol);
      pos.Some? && pos.value.timeframe != cfg.timeframe ==> pos == OpenIn(s, cfg.symbol)
  {
    hide StoreSound, Seeded, AscendingBars, BarsWait, UnitCandidates, RunStore, PassBars, AfterMissing, Anchored,
         OfTimeframe;
    PrefixWaits(cfg, s, candles, k);
    MissingFacts(cfg, s, candles);
    UnitTimeframe(cfg, s);
    RunOpens(c, cfg, AfterMissing(cfg, s, candles).store, PassBars(cfg, s, candles)[..k], UnitCandidates(cfg, s));
  }

  /** What is left of the unit's orders at a stop. */
  lemma NoneLeftIff(c: CostFn, cfg: Config, s: Store, candles: seq<Bar>, k: nat, sk: Store)
    requires StoppedAt(c, cfg, s, candles, k, sk)
    ensures UnitCandidates(cfg, sk) == [] <==> NoneLeft(UnitCandidates(cfg, s), candles, PassBars(cfg, s, candles)[..k])
  {
    hide StoppedAt, UnitCandidates, PassBars;
    RemainingCandidates(c, cfg, s, candles, k, sk);
    HasMember(UnitCandidates(cfg, sk));
  }

  lemma NoneLeftLater(cands: seq<Candidate>, candles: seq<Bar>, bars: seq<Bar>, k: nat, i: nat)
    requires candles != [] && k <= i <= |bars| && NoneLeft(cands, candles, bars[..k])
    ensures NoneLeft(cands, candles, bars[..i])
  {
    forall a | a in cands && !Missing(a, candles)
      ensures a.fillStamp in Stamps(bars[..i])
    {
      var x :| 0 <= x < k && Stamps(bars[..k])[x] == a.fillStamp;
      assert Stamps(bars[..i])[x] == a.fillStamp;
    }
  }

  /** A later bar has no order of the unit. */
  lemma NoneLeftNoneDue(cands: seq<Candidate>, candles: seq<Bar>, bars: seq<Bar>, k: nat, i: nat)
    requires candles != [] && AscendingBars(bars) && k <= i < |bars| && bars[i] in candles
    requires NoneLeft(cands, candles, bars[..k])
    ensures WithStamp(cands, bars[i].ts) == []
  {
    StampsMembers(candles, bars[i].ts);
    forall x | 0 <= x < k
      ensures Stamps(bars[..k])[x] != bars[i].ts
    {
      assert bars[x].ts < bars[i].ts;
    }
    NoStampNoDue(cands, bars[i].ts);
  }

  /** A stop at which the unit is no longer discovered has no order left and no position of its own. */
  lemma UndiscoveredStop(c: CostFn, cfg: Config, s: Store, candles: seq<Bar>, k: nat, sk: Store)
    requires StoppedAt(c, cfg, s, candles, k, sk) && !Discovered(cfg, sk)
    ensures NoneLeft(UnitCandidates(cfg, s), candles, PassBars(cfg, s, candles)[..k])
    ensures
      var pos := OpenIn(sk, cfg.symbol);
      pos.Some? ==> pos == OpenIn(s, cfg.symbol) && pos.value.timeframe != cfg.timeframe
  {
    hide StoppedAt, UnitCandidates, PassBars, Discovered, StoreSound, OpenIn, NoneLeft;
    StopIsSound(c, cfg, s, candles, k, sk);
    DiscoveredBy(cfg, sk);
    NoneLeftIff(c, cfg, s, candles, k, sk);
    StoppedForeign(c, cfg, s, candles, k, sk);
  }

  /** From a safe store the bars ahead of such a stop are quiet. */
  lemma AheadIsQuiet(c: CostFn, cfg: Config, s: Store, candles: seq<Bar>, k: nat, sk: Store, i: nat)
    requires StoppedAt(c, cfg, s, candles, k, sk) && Discovered(cfg, s) && !Discovered(cfg, sk)
    requires RestartSafe(cfg, s, candles) && k <= i < |PassBars(cfg, s, candles)|
    ensures Quiet(cfg, sk, PassBars(cfg, s, candles)[i], UnitCandidates(cfg, s))
  {
    hide UnitCandidates, PassBars, Discovered, StoreSound, OpenIn, NoneLeft, AscendingBars, Seeded, RunStore,
         StampAfter, LatestStamp, HeldOver, RestartSafe, CalmBetween;
    var bars, cands := PassBars(cfg, s, candles), UnitCandidates(cfg, s);
    UndiscoveredStop(c, cfg, s, candles, k, sk);
    WindowIsPassBars(cfg, s, candles);
    NoneLeftNoneDue(cands, candles, bars, k, i);
    var now := OpenIn(sk, cfg.symbol);
    if now.Some? {
      var pos := now.value;
      StoppedHeld(c, cfg, s, candles, k, sk, pos);
      AheadIsCalm(cfg, s, candles, k, pos);
      forall j | k <= j < i
        ensures WithStamp(cands, bars[j].ts) == []
      {
        NoneLeftNoneDue(cands, candles, bars, k, j);
      }
      CalmNarrows(pos, cands, LatestStamp(s.snapshots), cfg.interval, bars, k, |bars|, k, i);
      SkippedStaysHeld(pos, cands, LatestStamp(s.snapshots), cfg.interval, bars, k, i);
      CalmAt(pos, cands, LatestStamp(s.snapshots), cfg.interval, bars, k, |bars|, i);
      SnapshotDueIsStampDue(sk.snapshots, bars[i].ts, cfg.interval);
    }
  }

  lemma AheadIsCalm(cfg: Config, s: Store, candles: seq<Bar>, k: nat, pos: Position)
    requires candles != [] && Discovered(cfg, s) && RestartSafe(cfg, s, candles)
    requires OpenIn(s, cfg.symbol) == Some(pos) && pos.timeframe != cfg.timeframe && k <= |PassBars(cfg, s, candles)|
    requires NoneLeft(UnitCandidates(cfg, s), candles, PassBars(cfg, s, candles)[..k])
    ensures
      CalmBetween(pos, UnitCandidates(cfg, s), LatestStamp(s.snapshots), cfg.interval, PassBars(cfg, s, candles), k,
                  |PassBars(cfg, s, candles)|)
  {
    hide UnitCandidates, PassBars, Discovered, OpenIn, NoneLeft, StampAfter, LatestStamp, HeldOver, CalmBar;
    var bars, cands, latest := PassBars(cfg, s, candles), UnitCandidates(cfg, s), LatestStamp(s.snapshots);
    forall i | k <= i < |bars| && HeldOver(pos, cands, bars[..i])
      ensures CalmBar(pos, cands, StampAfter(latest, cfg.interval, bars[..i]), cfg.interval, bars[i])
    {
      NoneLeftLater(cands, candles, bars, k, i);
      assert !UncalmAt(cfg, s, candles, i);
    }
  }

  /** From a safe store nothing is lost when the next cycle does not visit the unit. */
  lemma UnvisitedEquals(c: CostFn, cfg: Config, s: Store, candles: seq<Bar>, k: nat, sk: Store)
    requires StoppedAt(c, cfg, s, candles, k, sk) && Discovered(cfg, s) && !Discovered(cfg, sk)
    requires RestartSafe(cfg, s, candles)
    ensures Pass(c, cfg, s, candles) == sk
  {
    hide UnitCandidates, PassBars, Discovered, StoreSound, AscendingBars, Seeded, RunStore, RestartSafe, Pass,
         AfterMissing;
    var bars, cands := PassBars(cfg, s, candles), UnitCandidates(cfg, s);
    WholePassIsRun(c, cfg, s, candles);
    RunSplit(c, cfg, AfterMissing(cfg, s, candles).store, bars, k, cands);
    StopIsSound(c, cfg, s, candles, k, sk);
    forall b | b in bars[k..]
      ensures Quiet(cfg, sk, b, cands)
    {
      var i :| 0 <= i < |bars[k..]| && bars[k..][i] == b;
      AheadIsQuiet(c, cfg, s, candles, k, sk, k + i);
    }
    QuietRunChangesNothing(c, cfg, sk, bars[k..], cands);
  }

  // ---- safe stores ------------------------------------------------------------------------------

  /** From a safe store a cycle that dies after any `k` bars, followed by a whole one, ends where a whole one ends. */
  lemma RestartEquivalence(c: CostFn, cfg: Config, s: Store, candles: seq<Bar>, k: nat)
    requires Restartable(cfg, s, candles) && RestartSafe(cfg, s, candles)
    ensures Cycle(c, cfg, CycleStop(c, cfg, s, candles, k), candles) == Cycle(c, cfg, s, candles)
  {
    hide PassPrefix, PassWindow, RestartSafe, Discovered, Pass, StoreSound, Seeded, AscendingBars, Covered, StoppedAt;
    if Discovered(cfg, s) {
      var n := Least(k, |PassWindow(cfg, s, candles).bars|);
      var sk := PassPrefix(c, cfg, s, candles, n);
      if Discovered(cfg, sk) {
        SafeIsCalmEarly(cfg, s, candles);
        SecondPassEquals(c, cfg, s, candles, n);
      } else {
        PrefixStops(c, cfg, s, candles, n);
        UnvisitedEquals(c, cfg, s, candles, n, sk);
      }
    }
  }

  // ---- unsafe stores ----------------------------------------------------------------------------

  lemma SkippedAtEntry(c: CostFn, cfg: Config, s: Store, candles: seq<Bar>, i: nat, si: Store, pos: Position)
    requires StoppedAt(c, cfg, s, candles, i, si) && i < |PassBars(cfg, s, candles)|
    requires OpenIn(s, cfg.symbol) == Some(pos) && OpenIn(si, cfg.symbol) == Some(pos) && Discovered(cfg, si)
    requires Skippable(cfg, pos, UnitCandidates(cfg, s), candles, PassBars(cfg, s, candles), i)
    ensures PassBars(cfg, s, candles)[i].ts < pos.entryTs
  {
    hide UnitCandidates, PassBars, Discovered, StoreSound, OpenIn, NoneLeft, RunStore;
    StopIsSound(c, cfg, s, candles, i, si);
    DiscoveredBy(cfg, si);
    NoneLeftIff(c, cfg, s, candles, i, si);
  }

  lemma SkippableNotEntered(cfg: Config, pos: Position, cands: seq<Candidate>, candles: seq<Bar>, bars: seq<Bar>, i: nat)
    requires candles != [] && AscendingBars(bars) && i < |bars| && Skippable(cfg, pos, cands, candles, bars, i)
    ensures NotEntered(cfg, pos, bars[..i])
  {
  }

  lemma NothingActed(s: Store, ts: int)
    ensures !ActedAt(s, s, ts)
  {
  }

  /**
   * A cycle that dies before an uncalm bar it may leave out: the whole cycle closes the position or values the account at
   * that bar's stamp, the next one never does.
   */
  lemma UncalmStopDiffers(c: CostFn, cfg: Config, s: Store, candles: seq<Bar>, i: nat)
    requires Restartable(cfg, s, candles) && UncalmAt(cfg, s, candles, i)
    ensures
      var si, ts := CycleStop(c, cfg, s, candles, i), PassBars(cfg, s, candles)[i].ts;
      ActedAt(si, Cycle(c, cfg, s, candles), ts) && !ActedAt(si, Cycle(c, cfg, si, candles), ts)
  {
    hide UnitCandidates, StoreSound, Seeded, AscendingBars, PassBars, RunStore, Stamped, ActedAt, StoreBar, OnBar,
         LatestStamp, PassPrefix, Pass, PassWindow, Covered, HeldOver, StampAfter, OpenIn, Discovered, Skippable,
         NotEntered;
    var pos, cands, bars := OpenIn(s, cfg.symbol).value, UnitCandidates(cfg, s), PassBars(cfg, s, candles);
    WindowIsPassBars(cfg, s, candles);
    PrefixStops(c, cfg, s, candles, i);
    var si, b := PassPrefix(c, cfg, s, candles, i), bars[i];
    SkippableNotEntered(cfg, pos, cands, candles, bars, i);
    StoppedHeld(c, cfg, s, candles, i, si, pos);
    NextOnBar(c, cfg, s, candles, i, si, pos);
    SnapshotDueIsStampDue(si.snapshots, b.ts, cfg.interval);
    UncalmBarActs(c, cfg, si, b, cands, pos);
    PassActs(c, cfg, s, candles, i, si, b);
    if Discovered(cfg, si) {
      SkippedAtEntry(c, cfg, s, candles, i, si, pos);
      FreshPassNeverActs(c, cfg, s, candles, i, si, pos, b);
    } else {
      NothingActed(si, b.ts);
    }
  }

  /** A cycle may die anywhere without a trace exactly when the store is safe. */
  lemma RestartIff(c: CostFn, cfg: Config, s: Store, candles: seq<Bar>)
    requires Restartable(cfg, s, candles)
    ensures
      (forall k: nat :: Cycle(c, cfg, CycleStop(c, cfg, s, candles, k), candles) == Cycle(c, cfg, s, candles)) <==>
      RestartSafe(cfg, s, candles)
  {
    hide Cycle, CycleStop, StoreSound, Seeded, Covered, AscendingBars, UncalmAt, ActedAt, PassBars;
    if RestartSafe(cfg, s, candles) {
      forall k: nat
        ensures Cycle(c, cfg, CycleStop(c, cfg, s, candles, k), candles) == Cycle(c, cfg, s, candles)
      {
        RestartEquivalence(c, cfg, s, candles, k);
      }
    } else {
      var i: nat :| UncalmAt(cfg, s, candles, i);
      UncalmStopDiffers(c, cfg, s, candles, i);
    }
  }

  /**
   * The ordinary case: no order due before the open entry, and the position is the unit's own or an order is still to
   * come after the last candle. Such a store is safe.
   */
  lemma EntryFirstIsSafe(cfg: Config, s: Store, candles: seq<Bar>)
    requires candles != [] && AscendingBars(candles)
    requires
      var pos := OpenIn(s, cfg.symbol);
      pos.Some? ==>
        && (forall a :: a in UnitCandidates(cfg, s) && a.fillStamp in Stamps(candles) ==> pos.value.entryTs <= a.fillStamp)
        && (pos.value.timeframe == cfg.timeframe ||
            exists a :: a in UnitCandidates(cfg, s) && candles[|candles| - 1].ts < a.fillStamp)
    ensures RestartSafe(cfg, s, candles)
  {
    hide UnitCandidates, OpenIn, AscendingBars, Discovered, HeldOver, StampAfter, CalmBar, PassBars;
    var pos, cands, bars := OpenIn(s, cfg.symbol), UnitCandidates(cfg, s), PassBars(cfg, s, candles);
    forall i: nat
      ensures !UncalmAt(cfg, s, candles, i)
    {
      if pos.Some? && i < |bars| {
        OwedFromEntry(cfg, s, candles, pos.value, bars[i]);
        if a :| a in cands && candles[|candles| - 1].ts < a.fillStamp {
          ToComeIsLeft(cands, a, cfg, s, candles, i);
        }
      }
    }
  }

  lemma OwedFromEntry(cfg: Config, s: Store, candles: seq<Bar>, pos: Position, b: Bar)
    requires candles != [] && AscendingBars(candles) && OpenIn(s, cfg.symbol) == Some(pos)
    requires forall a :: a in UnitCandidates(cfg, s) && a.fillStamp in Stamps(candles) ==> pos.entryTs <= a.fillStamp
    requires b in PassBars(cfg, s, candles)
    ensures pos.entryTs <= b.ts
  {
    hide UnitCandidates, AscendingBars, OpenIn;
    AnchorIsLeast(UnitCandidates(cfg, s), Some(pos), candles);
    assert b in OwedBars(cfg, s, candles);
  }

  lemma ToComeIsLeft(cands: seq<Candidate>, a: Candidate, cfg: Config, s: Store, candles: seq<Bar>, i: nat)
    requires candles != [] && AscendingBars(candles) && i <= |PassBars(cfg, s, candles)|
    requires a in cands && candles[|candles| - 1].ts < a.fillStamp
    ensures !NoneLeft(cands, candles, PassBars(cfg, s, candles)[..i])
  {
    hide AscendingBars;
    WindowIsPassBars(cfg, s, candles);
    var done := PassBars(cfg, s, candles)[..i];
    StampsMembers(done, a.fillStamp);
    if b :| b in done && b.ts == a.fillStamp {
      PrefixMembers(PassBars(cfg, s, candles), i);
      StampsMembers(candles, b.ts);
      LastIsLatest(candles, b.ts);
    }
  }

  /** A waiting order of the unit whose decision has a known bar. */
  ghost predicate WaitsWithBar(cfg: Config, s: Store, h: nat) {
    && IsPending(s.orders, h) && s.orders[h].symbol == cfg.symbol && s.orders[h].timeframe == cfg.timeframe
    && s.orders[h].decisionId.Some? && s.orders[h].decisionId.value in s.buckets
  }

  ghost predicate OwnPositionOpen(cfg: Config, s: Store) {
    exists i :: 0 <= i < |s.positions| && s.positions[i].status.OPEN? && s.positions[i].symbol == cfg.symbol &&
                s.positions[i].timeframe == cfg.timeframe
  }

  /** A cycle visits a unit exactly for a waiting order of its own with a known bar or an open position of its own. */
  lemma DiscoveredIff(cfg: Config, s: Store)
    requires StoreSound(s)
    ensures Discovered(cfg, s) <==> (exists h :: WaitsWithBar(cfg, s, h)) || OwnPositionOpen(cfg, s)
  {
    hide StoreSound, UnitCandidates, Orderly;
    UnitCandidatesExact(cfg, s);
    var cands := UnitCandidates(cfg, s);
    if cands != [] {
      assert cands[0] in cands;
      assert WaitsWithBar(cfg, s, cands[0].order);
    }
    if h :| WaitsWithBar(cfg, s, h) {
      var x := Resolve(s, h).value;
      assert UnitOrder(cfg, s, x);
      assert x in cands;
    }
  }
}
