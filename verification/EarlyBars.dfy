/**
 * A pass stopped after any committed bar, and a second pass over what it left. An order due before the open position's
 * entry makes the first walk over bars from before that entry; the second may skip them. What a skipped bar would have
 * done is told by whether it is calm: no close through a threshold, no snapshot due.
 */
module EarlyBars {
  import opened Prelude
  import opened Paper
  import opened Ledger
  import opened LedgerInvariant
  import opened Lifecycle
  import opened CatchUp
  import opened Bars
  import opened Restart

  // ---- the condition ------------------------------------------------------------------------

  function LatestStamp(snaps: seq<Snapshot>): Option<int> {
    var latest := LatestSnapshot(snaps);
    if latest.None? then None else Some(latest.value.ts)
  }

  predicate StampDue(latest: Option<int>, ts: int, interval: Option<int>) {
    latest.Some? ==> latest.value < ts && (interval.Some? ==> latest.value + interval.value <= ts)
  }

  /** Stamp of the latest snapshot after valuing the account on these bars, where due. */
  function StampAfter(latest: Option<int>, interval: Option<int>, bars: seq<Bar>): Option<int> {
    if bars == [] then latest
    else
      var before := StampAfter(latest, interval, bars[..|bars| - 1]);
      var ts := bars[|bars| - 1].ts;
      if StampDue(before, ts, interval) then Some(ts) else before
  }

  /** No order due on the bar opposes the position, and its close breaches no threshold. */
  ghost predicate Holds(pos: Position, cands: seq<Candidate>, b: Bar) {
    && pos.ExitFor(b.close).None?
    && forall a :: a in cands && a.fillStamp == b.ts ==> a.side == pos.side
  }

  ghost predicate HeldOver(pos: Position, cands: seq<Candidate>, bars: seq<Bar>) {
    forall i :: 0 <= i < |bars| ==> Holds(pos, cands, bars[i])
  }

  /** A bar without a due order neither stops the position out nor is due a snapshot. */
  predicate CalmBar(pos: Position, cands: seq<Candidate>, latest: Option<int>, interval: Option<int>, b: Bar) {
    WithStamp(cands, b.ts) == [] ==> pos.ExitFor(b.close).None? && !StampDue(latest, b.ts, interval)
  }

  /** Every bar reached with the position still held is calm. */
  ghost predicate Calm(pos: Position, cands: seq<Candidate>, latest: Option<int>, interval: Option<int>, bars: seq<Bar>) {
    CalmBetween(pos, cands, latest, interval, bars, 0, |bars|)
  }

  ghost predicate CalmBetween(pos: Position, cands: seq<Candidate>, latest: Option<int>, interval: Option<int>,
                              bars: seq<Bar>, low: nat, high: nat)
    requires high <= |bars|
  {
    forall i :: low <= i < high && HeldOver(pos, cands, bars[..i]) ==>
      CalmBar(pos, cands, StampAfter(latest, interval, bars[..i]), interval, bars[i])
  }

  /** The bars from the earliest due order up to the open position's entry. */
  function BeforeEntry(cfg: Config, s: Store, candles: seq<Bar>): seq<Bar> {
    var pos := OpenIn(s, cfg.symbol);
    var anchor := AnchorOf(UnitCandidates(cfg, s), pos, candles);
    if pos.None? || anchor.None? then [] else Range(candles, anchor.value, pos.value.entryTs - 1)
  }

  /** The bars before the entry are calm: a second pass may skip any of them. */
  ghost predicate CalmEarly(cfg: Config, s: Store, candles: seq<Bar>) {
    var pos := OpenIn(s, cfg.symbol);
    pos.Some? ==>
      Calm(pos.value, UnitCandidates(cfg, s), LatestStamp(s.snapshots), cfg.interval, BeforeEntry(cfg, s, candles))
  }

  lemma SnapshotDueIsStampDue(snaps: seq<Snapshot>, ts: int, interval: Option<int>)
    ensures SnapshotDue(snaps, ts, interval) <==> StampDue(LatestStamp(snaps), ts, interval)
  {
  }

  // ---- one bar under an open position ---------------------------------------------------------

  ghost predicate SidesAgree(pos: Position, cands: seq<Candidate>, ts: int) {
    forall a :: a in cands && a.fillStamp == ts ==> a.side == pos.side
  }

  ghost predicate OnBar(cfg: Config, s: Store, b: Bar, cands: seq<Candidate>, pos: Position) {
    && StoreSound(s) && Seeded(s, cfg.seed) && Ready(cfg, s, cands, b.ts) && Orderly(cands, cfg.symbol)
    && OfTimeframe(cands, cfg.timeframe) && OpenIn(s, cfg.symbol) == Some(pos)
  }

  ghost predicate OfTimeframe(cands: seq<Candidate>, tf: Timeframe) {
    forall a :: a in cands ==> a.timeframe == tf
  }

  lemma ActingIsOpposed(pos: Position, cands: seq<Candidate>, symbol: string, ts: int)
    requires Orderly(cands, symbol)
    ensures ActingIndex(Some(pos.side), DueAt(cands, ts)) == |DueAt(cands, ts)| <==> SidesAgree(pos, cands, ts)
  {
    DueFacts(cands, symbol, ts);
    var due := DueAt(cands, ts);
    var k := ActingIndex(Some(pos.side), due);
    if k == |due| {
      forall a | a in cands && a.fillStamp == ts
        ensures a.side == pos.side
      {
        assert a in due;
        var i :| 0 <= i < |due| && due[i] == a;
      }
    } else {
      assert due[k] in due;
    }
  }

  /** What the fills at the open leave: the position untouched, or one entered on this bar. */
  lemma FillsUnderPosition(c: CostFn, cfg: Config, s: Store, b: Bar, cands: seq<Candidate>, pos: Position)
    requires OnBar(cfg, s, b, cands, pos)
    ensures
      var p := FillsAtOpen(c, Restore(Fresh(cfg, s)), cfg.symbol, b, cands);
      && Sound(p.ledger) && p.ledger.store.snapshots == s.snapshots
      && (var open := OpenFor(p.ledger.wallet.positions, cfg.symbol);
          if SidesAgree(pos, cands, b.ts) then open == Some(pos) && p.filled == 0
          else open.Some? && open.value.entryTs == b.ts && open.value.timeframe == cfg.timeframe)
  {
    hide StoreSound, Mirrored, Grows, Settles, Orderly, SidesAgree, Restore, DueAt, OfTimeframe;
    var l0, due := Restore(Fresh(cfg, s)), DueAt(cands, b.ts);
    RestoreFacts(cfg, s);
    ActingIsOpposed(pos, cands, cfg.symbol, b.ts);
    ExecutionAgrees(c, Progress(l0, 0, 0), cfg.symbol, b, due);
    FilledTimeframe(c, cfg, s, b, cands, ActingIndex(Some(pos.side), due));
  }

  /** A position that an order of the unit opens is of the unit's timeframe. */
  lemma FilledTimeframe(c: CostFn, cfg: Config, s: Store, b: Bar, cands: seq<Candidate>, k: nat)
    requires Ready(cfg, s, cands, b.ts) && Orderly(cands, cfg.symbol) && OfTimeframe(cands, cfg.timeframe)
    ensures
      k < |DueAt(cands, b.ts)| ==>
        && DueAt(cands, b.ts)[k].order < |s.orders|
        && FilledPosition(c, s.orders[DueAt(cands, b.ts)[k].order], b).timeframe == cfg.timeframe
  {
    hide Orderly;
    DueFacts(cands, cfg.symbol, b.ts);
    var due := DueAt(cands, b.ts);
    if k < |due| {
      assert due[k] in due;
      assert Waiting(s, due[k]);
    }
  }

  /** A bar leaves the open position, or one of the unit's timeframe entered on it. */
  lemma BarOpens(c: CostFn, cfg: Config, s: Store, b: Bar, cands: seq<Candidate>)
    requires StoreSound(s) && Seeded(s, cfg.seed) && Ready(cfg, s, cands, b.ts)
    requires Orderly(cands, cfg.symbol) && OfTimeframe(cands, cfg.timeframe)
    ensures
      var pos := OpenIn(StoreBar(c, cfg, s, b, cands), cfg.symbol);
      pos.Some? ==>
        pos == OpenIn(s, cfg.symbol) || (pos.value.entryTs == b.ts && pos.value.timeframe == cfg.timeframe)
  {
    hide StoreSound, Mirrored, Grows, Settles, Orderly, Restore, DueAt, OfTimeframe, CloseOut, Seeded;
    var l0, due := Restore(Fresh(cfg, s)), DueAt(cands, b.ts);
    var p := FillsAtOpen(c, l0, cfg.symbol, b, cands);
    RestoreFacts(cfg, s);
    ExecutionAgrees(c, Progress(l0, 0, 0), cfg.symbol, b, due);
    FilledTimeframe(c, cfg, s, b, cands, ActingIndex(OpenSide(l0.wallet, cfg.symbol), due));
    BarIsFillsThenClose(c, cfg, s, b, cands);
    CloseOutFacts(c, cfg, p.ledger, b, p.filled > 0);
    OpenInMemory(p.ledger, cfg.symbol);
  }

  lemma CloseOutHeld(c: CostFn, cfg: Config, l: Ledger, b: Bar, pos: Position)
    requires Sound(l) && OpenFor(l.wallet.positions, cfg.symbol) == Some(pos) && pos.ExitFor(b.close).None?
    ensures
      var s' := CloseOut(c, l, cfg.symbol, b, cfg.interval, false).store;
      && OpenIn(s', cfg.symbol) == Some(pos)
      && LatestStamp(s'.snapshots) ==
         if StampDue(LatestStamp(l.store.snapshots), b.ts, cfg.interval) then Some(b.ts) else LatestStamp(l.store.snapshots)
  {
    OpenInMemory(l, cfg.symbol);
    SnapshotDueIsStampDue(l.store.snapshots, b.ts, cfg.interval);
    var l' := CloseOut(c, l, cfg.symbol, b, cfg.interval, false);
    assert l'.store.positions == l.store.positions;
    if SnapshotDue(l.store.snapshots, b.ts, cfg.interval) {
      var x := l'.store.snapshots[|l.store.snapshots|];
      assert l'.store.snapshots == l.store.snapshots + [x];
      LatestSnoc(l.store.snapshots, x);
    }
  }

  lemma HeldBar(c: CostFn, cfg: Config, s: Store, b: Bar, cands: seq<Candidate>, pos: Position)
    requires OnBar(cfg, s, b, cands, pos) && Holds(pos, cands, b)
    ensures
      var s' := StoreBar(c, cfg, s, b, cands);
      && OpenIn(s', cfg.symbol) == Some(pos)
      && LatestStamp(s'.snapshots) ==
         if StampDue(LatestStamp(s.snapshots), b.ts, cfg.interval) then Some(b.ts) else LatestStamp(s.snapshots)
  {
    hide OnBar, CloseOut, Restore, LatestStamp, StampDue, StoreSound, Mirrored;
    FillsUnderPosition(c, cfg, s, b, cands, pos);
    BarIsFillsThenClose(c, cfg, s, b, cands);
    CloseOutHeld(c, cfg, FillsAtOpen(c, Restore(Fresh(cfg, s)), cfg.symbol, b, cands).ledger, b, pos);
  }

  lemma CloseOutLeaves(c: CostFn, cfg: Config, l: Ledger, b: Bar, filled: bool, pos: Position)
    requires Sound(l) && OpenFor(l.wallet.positions, cfg.symbol) == Some(pos)
    ensures
      var s' := CloseOut(c, l, cfg.symbol, b, cfg.interval, filled).store;
      OpenIn(s', cfg.symbol) == if pos.ExitFor(b.close).Some? then None else Some(pos)
  {
    hide StoreSound, Mirrored, Grows;
    var l1 := ExitAt(c, l, cfg.symbol, b.close, b.ts);
    ExitFacts(c, l, cfg.symbol, b);
    OpenInMemory(l1, cfg.symbol);
    assert CloseOut(c, l, cfg.symbol, b, cfg.interval, filled).store.positions == l1.store.positions;
  }

  /** An opposing order or a breached threshold ends the position for good. */
  lemma TurnedBar(c: CostFn, cfg: Config, s: Store, b: Bar, cands: seq<Candidate>, pos: Position)
    requires OnBar(cfg, s, b, cands, pos) && !Holds(pos, cands, b)
    requires pos.entryTs != b.ts || pos.timeframe != cfg.timeframe
    ensures OpenIn(StoreBar(c, cfg, s, b, cands), cfg.symbol) != Some(pos)
  {
    hide OnBar, CloseOut, Restore, StoreSound, Mirrored;
    FillsUnderPosition(c, cfg, s, b, cands, pos);
    BarIsFillsThenClose(c, cfg, s, b, cands);
    var p := FillsAtOpen(c, Restore(Fresh(cfg, s)), cfg.symbol, b, cands);
    CloseOutLeaves(c, cfg, p.ledger, b, p.filled > 0, OpenFor(p.ledger.wallet.positions, cfg.symbol).value);
  }

  // ---- a run of bars before the entry -----------------------------------------------------------

  lemma HeldSnoc(pos: Position, cands: seq<Candidate>, bars: seq<Bar>, b: Bar)
    ensures HeldOver(pos, cands, bars + [b]) <==> HeldOver(pos, cands, bars) && Holds(pos, cands, b)
  {
    assert (bars + [b])[|bars|] == b;
    assert forall i :: 0 <= i < |bars| ==> (bars + [b])[i] == bars[i];
  }

  lemma StampSnoc(latest: Option<int>, interval: Option<int>, bars: seq<Bar>, b: Bar)
    ensures
      var before := StampAfter(latest, interval, bars);
      StampAfter(latest, interval, bars + [b]) == if StampDue(before, b.ts, interval) then Some(b.ts) else before
  {
    assert (bars + [b])[..|bars|] == bars;
  }

  ghost predicate AllBefore(bars: seq<Bar>, ts: int) {
    forall i :: 0 <= i < |bars| ==> bars[i].ts < ts
  }

  /** No bar of the run can open the position anew: it was entered later, or belongs to another timeframe. */
  ghost predicate NotEntered(cfg: Config, pos: Position, bars: seq<Bar>) {
    pos.timeframe != cfg.timeframe || AllBefore(bars, pos.entryTs)
  }

  lemma NotEnteredPrefix(cfg: Config, pos: Position, bars: seq<Bar>, b: Bar)
    requires NotEntered(cfg, pos, bars + [b])
    ensures NotEntered(cfg, pos, bars) && (pos.entryTs != b.ts || pos.timeframe != cfg.timeframe)
  {
    assert (bars + [b])[|bars|] == b;
    assert forall i :: 0 <= i < |bars| ==> (bars + [b])[i] == bars[i];
  }

  /** After a run in which it cannot be opened anew the position is still open iff it was held over all the bars. */
  lemma {:induction false} HeldRun(c: CostFn, cfg: Config, s: Store, bars: seq<Bar>, cands: seq<Candidate>, pos: Position)
    requires StoreSound(s) && Seeded(s, cfg.seed) && BarsWait(cfg, s, bars, cands)
    requires OpenIn(s, cfg.symbol) == Some(pos) && NotEntered(cfg, pos, bars) && OfTimeframe(cands, cfg.timeframe)
    ensures OpenIn(RunStore(c, cfg, s, bars, cands), cfg.symbol) == Some(pos) <==> HeldOver(pos, cands, bars)
    ensures
      HeldOver(pos, cands, bars) ==>
      LatestStamp(RunStore(c, cfg, s, bars, cands).snapshots) == StampAfter(LatestStamp(s.snapshots), cfg.interval, bars)
  {
    hide StoreSound, Seeded, BarDone, StoreBar, Orderly, AscendingBars, BarsWait, Ready, RunDone, OpenIn, LatestStamp,
         NotEntered, OfTimeframe;
    if bars != [] {
      var before, b := bars[..|bars| - 1], bars[|bars| - 1];
      assert bars == before + [b];
      BarsWaitPrefix(cfg, s, before, b, cands);
      NotEnteredPrefix(cfg, pos, before, b);
      HeldRun(c, cfg, s, before, cands, pos);
      RunFacts(c, cfg, s, before, cands);
      var mid := RunStore(c, cfg, s, before, cands);
      NextBarReady(cfg, s, mid, before, b, cands);
      RunDoneSound(cfg, s, mid, before, cands);
      HeldSnoc(pos, cands, before, b);
      StampSnoc(LatestStamp(s.snapshots), cfg.interval, before, b);
      if OpenIn(mid, cfg.symbol) == Some(pos) {
        if Holds(pos, cands, b) {
          HeldBar(c, cfg, mid, b, cands, pos);
        } else {
          TurnedBar(c, cfg, mid, b, cands, pos);
        }
      } else {
        BarOpens(c, cfg, mid, b, cands);
      }
    }
  }

  /** The bars of a covered pass are those before the open entry, then the rest. */
  lemma PassStartsEarly(cfg: Config, s: Store, candles: seq<Bar>)
    requires candles != [] && AscendingBars(candles) && Covered(cfg, s, candles) && OpenIn(s, cfg.symbol).Some?
    ensures AllBefore(BeforeEntry(cfg, s, candles), OpenIn(s, cfg.symbol).value.entryTs)
    ensures
      PassBars(cfg, s, candles) ==
      BeforeEntry(cfg, s, candles) + From(candles, OpenIn(s, cfg.symbol).value.entryTs)
    ensures AscendingBars(PassBars(cfg, s, candles))
  {
    hide AscendingBars, From, Range, AnchorOf, UnitCandidates, OpenIn, AllBefore, PassBars, LoadedBars;
    var pos := OpenIn(s, cfg.symbol);
    AnchorIsLeast(UnitCandidates(cfg, s), pos, candles);
    var anchor := AnchorOf(UnitCandidates(cfg, s), pos, candles).value;
    RangeThenFrom(candles, anchor, pos.value.entryTs - 1);
    RangeBefore(candles, anchor, pos.value.entryTs);
    CoveredBars(cfg, s, candles);
    PassBarsAscend(cfg, s, candles);
  }

  lemma PassBarsAscend(cfg: Config, s: Store, candles: seq<Bar>)
    requires candles != [] && AscendingBars(candles)
    ensures AscendingBars(PassBars(cfg, s, candles))
  {
    WindowIsPassBars(cfg, s, candles);
  }

  lemma RangeBefore(bars: seq<Bar>, low: int, ts: int)
    ensures AllBefore(Range(bars, low, ts - 1), ts)
  {
    var some := Range(bars, low, ts - 1);
    assert forall i :: 0 <= i < |some| ==> some[i] in some;
  }

  lemma PrefixOfConcat(a: seq<Bar>, b: seq<Bar>, k: nat, ts: int)
    requires k <= |a| && AllBefore(a, ts)
    ensures (a + b)[..k] == a[..k] && AllBefore(a[..k], ts)
  {
  }

  /** A stopped pass has the position open iff it was held over the bars so far. */
  lemma StoppedHeld(c: CostFn, cfg: Config, s: Store, candles: seq<Bar>, k: nat, sk: Store, pos: Position)
    requires StoppedAt(c, cfg, s, candles, k, sk) && OpenIn(s, cfg.symbol) == Some(pos)
    requires NotEntered(cfg, pos, PassBars(cfg, s, candles)[..k])
    ensures
      var done, cands := PassBars(cfg, s, candles)[..k], UnitCandidates(cfg, s);
      && (OpenIn(sk, cfg.symbol) == Some(pos) <==> HeldOver(pos, cands, done))
      && (HeldOver(pos, cands, done) ==>
            LatestStamp(sk.snapshots) == StampAfter(LatestStamp(s.snapshots), cfg.interval, done))
  {
    hide StoreSound, Seeded, AscendingBars, BarsWait, UnitCandidates, LatestStamp, HeldOver, From, RunStore,
         PassBars, NotEntered, Anchored, Grows, AfterMissing, StampAfter, OfTimeframe;
    PrefixWaits(cfg, s, candles, k);
    MissingFacts(cfg, s, candles);
    UnitTimeframe(cfg, s);
    HeldRun(c, cfg, AfterMissing(cfg, s, candles).store, PassBars(cfg, s, candles)[..k], UnitCandidates(cfg, s), pos);
  }

  lemma UnitTimeframe(cfg: Config, s: Store)
    ensures OfTimeframe(UnitCandidates(cfg, s), cfg.timeframe)
  {
  }

  lemma StoppedEarly(c: CostFn, cfg: Config, s: Store, candles: seq<Bar>, k: nat, sk: Store, pos: Position)
    requires StoppedAt(c, cfg, s, candles, k, sk) && Covered(cfg, s, candles) && OpenIn(s, cfg.symbol) == Some(pos)
    requires k <= |BeforeEntry(cfg, s, candles)|
    ensures
      var early, cands := BeforeEntry(cfg, s, candles), UnitCandidates(cfg, s);
      && PassBars(cfg, s, candles)[..k] == early[..k]
      && (OpenIn(sk, cfg.symbol) == Some(pos) <==> HeldOver(pos, cands, early[..k]))
      && (HeldOver(pos, cands, early[..k]) ==>
            LatestStamp(sk.snapshots) == StampAfter(LatestStamp(s.snapshots), cfg.interval, early[..k]))
  {
    hide StoreSound, Seeded, AscendingBars, UnitCandidates, LatestStamp, HeldOver, BeforeEntry, From, RunStore,
         PassBars, AllBefore, Covered, StampAfter;
    PassStartsEarly(cfg, s, candles);
    PrefixOfConcat(BeforeEntry(cfg, s, candles), From(candles, pos.entryTs), k, pos.entryTs);
    StoppedHeld(c, cfg, s, candles, k, sk, pos);
  }

  lemma NoOrderHolds(pos: Position, cands: seq<Candidate>, b: Bar)
    requires WithStamp(cands, b.ts) == [] && pos.ExitFor(b.close).None?
    ensures Holds(pos, cands, b)
  {
    assert forall a :: a in cands && a.fillStamp == b.ts ==> a in WithStamp(cands, b.ts);
  }

  // ---- what a second pass skips is quiet ----------------------------------------------------------

  lemma {:induction false} SkippedStaysHeld(pos: Position, cands: seq<Candidate>, latest: Option<int>,
                                            interval: Option<int>, bars: seq<Bar>, k: nat, i: nat)
    requires k <= i <= |bars| && CalmBetween(pos, cands, latest, interval, bars, k, i) && HeldOver(pos, cands, bars[..k])
    requires forall j :: k <= j < i ==> WithStamp(cands, bars[j].ts) == []
    ensures HeldOver(pos, cands, bars[..i])
    ensures StampAfter(latest, interval, bars[..i]) == StampAfter(latest, interval, bars[..k])
  {
    hide HeldOver, StampAfter, CalmBetween, WithStamp;
    if k < i {
      CalmNarrows(pos, cands, latest, interval, bars, k, i, k, i - 1);
      SkippedStaysHeld(pos, cands, latest, interval, bars, k, i - 1);
      assert bars[..i] == bars[..i - 1] + [bars[i - 1]];
      HeldSnoc(pos, cands, bars[..i - 1], bars[i - 1]);
      StampSnoc(latest, interval, bars[..i - 1], bars[i - 1]);
      CalmAt(pos, cands, latest, interval, bars, k, i, i - 1);
      NoOrderHolds(pos, cands, bars[i - 1]);
    }
  }

  /** A bar after the watermark before the fresh anchor has no order of either pass. */
  lemma SkippedHasNoOrder(cfg: Config, sk: Store, pos: Option<Position>, candles: seq<Bar>, cands: seq<Candidate>,
                          cands': seq<Candidate>, done: seq<Bar>, anchor: int, w: int, b: Bar)
    requires Stopped(cfg, sk, pos, candles, cands, cands', done, anchor, w)
    requires b in candles && w < b.ts
    requires
      var next := AnchorOf(cands', OpenIn(sk, cfg.symbol), candles);
      next.Some? ==> b.ts < next.value
    ensures WithStamp(cands, b.ts) == [] && WithStamp(cands', b.ts) == []
  {
    AnchorIsLeast(cands', OpenIn(sk, cfg.symbol), candles);
    StampsMembers(candles, b.ts);
    StampsMembers(done, b.ts);
    NoStampNoDue(cands', b.ts);
    NoStampNoDue(cands, b.ts);
  }

  /** If a bar between watermark and fresh anchor meets an open position, it is the one the pass started with. */
  lemma SkippedIsEarly(c: CostFn, cfg: Config, s: Store, candles: seq<Bar>, k: nat, sk: Store, anchor: int, w: int, b: Bar)
    requires StoppedAt(c, cfg, s, candles, k, sk) && Covered(cfg, s, candles)
    requires
      Stopped(cfg, sk, OpenIn(s, cfg.symbol), candles, UnitCandidates(cfg, s), UnitCandidates(cfg, sk),
              PassBars(cfg, s, candles)[..k], anchor, w)
    requires b in candles && w < b.ts && OpenIn(sk, cfg.symbol).Some?
    requires
      var next := AnchorOf(UnitCandidates(cfg, sk), OpenIn(sk, cfg.symbol), candles);
      next.Some? ==> b.ts < next.value
    ensures OpenIn(s, cfg.symbol) == OpenIn(sk, cfg.symbol)
    ensures
      var early := BeforeEntry(cfg, s, candles);
      && k <= |early|
      && exists i :: k <= i < |early| && early[i] == b
  {
    hide StoreSound, UnitCandidates, Remaining, Orderly, Seeded, AscendingBars, From, BeforeEntry, Covered, PassBars,
         OpenIn, AllBefore;
    var now, done, bars := OpenIn(sk, cfg.symbol), PassBars(cfg, s, candles)[..k], PassBars(cfg, s, candles);
    StillTheSame(cfg, sk, OpenIn(s, cfg.symbol), candles, UnitCandidates(cfg, s), UnitCandidates(cfg, sk), done, anchor,
                 w, b);
    PassStartsEarly(cfg, s, candles);
    var early := BeforeEntry(cfg, s, candles);
    EarlyIndex(bars, early, From(candles, now.value.entryTs), now.value.entryTs, k, w);
    IsEarly(cfg, s, candles, anchor, b);
    LaterIndex(bars, early, From(candles, now.value.entryTs), k, b);
  }

  /** With a bar ahead before the fresh anchor, the open position is the first one and its entry is ahead as well. */
  lemma StillTheSame(cfg: Config, sk: Store, pos: Option<Position>, candles: seq<Bar>, cands: seq<Candidate>,
                     cands': seq<Candidate>, done: seq<Bar>, anchor: int, w: int, b: Bar)
    requires Stopped(cfg, sk, pos, candles, cands, cands', done, anchor, w)
    requires b in candles && w < b.ts && OpenIn(sk, cfg.symbol).Some?
    requires
      var next := AnchorOf(cands', OpenIn(sk, cfg.symbol), candles);
      next.Some? ==> b.ts < next.value
    ensures OpenIn(sk, cfg.symbol) == pos && b.ts < pos.value.entryTs
    ensures AnchorOf(cands, pos, candles) == Some(anchor) && anchor <= b.ts && b !in done
    ensures forall x :: x in done ==> x.ts <= w
  {
    hide StoreSound, AscendingBars, Remaining, OpenIn;
    var now := OpenIn(sk, cfg.symbol);
    AnchorIsLeast(cands', now, candles);
    StampsMembers(done, now.value.entryTs);
  }

  lemma IsEarly(cfg: Config, s: Store, candles: seq<Bar>, anchor: int, b: Bar)
    requires OpenIn(s, cfg.symbol).Some? && AnchorOf(UnitCandidates(cfg, s), OpenIn(s, cfg.symbol), candles) == Some(anchor)
    requires b in candles && anchor <= b.ts < OpenIn(s, cfg.symbol).value.entryTs
    ensures b in BeforeEntry(cfg, s, candles)
  {
  }

  lemma LaterIndex(bars: seq<Bar>, early: seq<Bar>, rest: seq<Bar>, k: nat, b: Bar)
    requires bars == early + rest && k <= |early| && b in early && b !in bars[..k]
    ensures exists i :: k <= i < |early| && early[i] == b
  {
    forall j | 0 <= j < k
      ensures early[j] in bars[..k]
    {
      assert bars[..k][j] == early[j];
    }
    var i :| 0 <= i < |early| && early[i] == b;
  }

  lemma EarlyIndex(bars: seq<Bar>, early: seq<Bar>, rest: seq<Bar>, entry: int, k: nat, w: int)
    requires bars == early + rest && k <= |bars| && w < entry
    requires forall b :: b in rest ==> entry <= b.ts
    requires forall b :: b in bars[..k] ==> b.ts <= w
    ensures k <= |early|
  {
    forall i | 0 <= i < k
      ensures bars[i] in bars[..k]
    {
      assert bars[..k][i] == bars[i];
    }
    if rest != [] {
      assert rest[0] in rest && bars[|early|] == rest[0];
    }
  }

  lemma SkippedIsQuiet(c: CostFn, cfg: Config, s: Store, candles: seq<Bar>, k: nat, sk: Store, anchor: int, w: int, b: Bar)
    requires StoppedAt(c, cfg, s, candles, k, sk) && Covered(cfg, s, candles) && CalmEarly(cfg, s, candles)
    requires
      Stopped(cfg, sk, OpenIn(s, cfg.symbol), candles, UnitCandidates(cfg, s), UnitCandidates(cfg, sk),
              PassBars(cfg, s, candles)[..k], anchor, w)
    requires b in candles && w < b.ts
    requires
      var next := AnchorOf(UnitCandidates(cfg, sk), OpenIn(sk, cfg.symbol), candles);
      next.Some? ==> b.ts < next.value
    ensures Quiet(cfg, sk, b, UnitCandidates(cfg, sk))
  {
    hide StoreSound, UnitCandidates, Seeded, AnchorOf, CalmBetween, HeldOver, OpenIn, BeforeEntry, Stopped, Covered,
         PassBars, LatestStamp, AscendingBars, RunStore, StampAfter;
    var cands, cands', done := UnitCandidates(cfg, s), UnitCandidates(cfg, sk), PassBars(cfg, s, candles)[..k];
    SkippedHasNoOrder(cfg, sk, OpenIn(s, cfg.symbol), candles, cands, cands', done, anchor, w, b);
    if OpenIn(sk, cfg.symbol).Some? {
      var pos, early := OpenIn(sk, cfg.symbol).value, BeforeEntry(cfg, s, candles);
      SkippedIsEarly(c, cfg, s, candles, k, sk, anchor, w, b);
      var i :| k <= i < |early| && early[i] == b;
      StoppedEarly(c, cfg, s, candles, k, sk, pos);
      forall j | k <= j < i
        ensures WithStamp(cands, early[j].ts) == []
      {
        EarlyIsSkipped(cfg, s, sk, candles, k, anchor, w, i, j);
        SkippedHasNoOrder(cfg, sk, OpenIn(s, cfg.symbol), candles, cands, cands', done, anchor, w, early[j]);
      }
      CalmNarrows(pos, cands, LatestStamp(s.snapshots), cfg.interval, early, 0, |early|, k, i);
      SkippedStaysHeld(pos, cands, LatestStamp(s.snapshots), cfg.interval, early, k, i);
      CalmAt(pos, cands, LatestStamp(s.snapshots), cfg.interval, early, 0, |early|, i);
      SnapshotDueIsStampDue(sk.snapshots, b.ts, cfg.interval);
    }
  }

  lemma CalmAt(pos: Position, cands: seq<Candidate>, latest: Option<int>, interval: Option<int>, bars: seq<Bar>,
               low: nat, high: nat, i: nat)
    requires high <= |bars| && CalmBetween(pos, cands, latest, interval, bars, low, high)
    requires low <= i < high && HeldOver(pos, cands, bars[..i])
    ensures CalmBar(pos, cands, StampAfter(latest, interval, bars[..i]), interval, bars[i])
  {
  }

  lemma CalmNarrows(pos: Position, cands: seq<Candidate>, latest: Option<int>, interval: Option<int>, bars: seq<Bar>,
                    low: nat, high: nat, low': nat, high': nat)
    requires low <= low' && high' <= high <= |bars| && CalmBetween(pos, cands, latest, interval, bars, low, high)
    ensures CalmBetween(pos, cands, latest, interval, bars, low', high')
  {
  }

  lemma NotInPrefix(bars: seq<Bar>, k: nat, j: nat)
    requires AscendingBars(bars) && k <= j < |bars|
    ensures bars[j] !in bars[..k]
  {
    forall x | 0 <= x < k
      ensures bars[..k][x] != bars[j]
    {
      assert bars[x].ts < bars[j].ts;
    }
  }

  /** The bars between the stop and a later early bar lie after the watermark and before that bar. */
  lemma EarlyIsSkipped(cfg: Config, s: Store, sk: Store, candles: seq<Bar>, k: nat, anchor: int, w: int, i: nat, j: nat)
    requires candles != [] && AscendingBars(candles) && Covered(cfg, s, candles) && OpenIn(s, cfg.symbol).Some?
    requires k <= j < i < |BeforeEntry(cfg, s, candles)| && k <= |PassBars(cfg, s, candles)|
    requires
      Stopped(cfg, sk, OpenIn(s, cfg.symbol), candles, UnitCandidates(cfg, s), UnitCandidates(cfg, sk),
              PassBars(cfg, s, candles)[..k], anchor, w)
    ensures
      var early := BeforeEntry(cfg, s, candles);
      early[j] in candles && w < early[j].ts < early[i].ts
  {
    hide StoreSound, UnitCandidates, Remaining, OpenIn;
    PassStartsEarly(cfg, s, candles);
    var early, bars := BeforeEntry(cfg, s, candles), PassBars(cfg, s, candles);
    assert bars[j] == early[j] && bars[i] == early[i];
    assert early[j] in early;
    NotInPrefix(bars, k, j);
  }

  lemma SafeSkipsQuiet(c: CostFn, cfg: Config, s: Store, candles: seq<Bar>, k: nat, sk: Store, anchor: int, w: int)
    requires StoppedAt(c, cfg, s, candles, k, sk) && Covered(cfg, s, candles) && CalmEarly(cfg, s, candles)
    requires
      Stopped(cfg, sk, OpenIn(s, cfg.symbol), candles, UnitCandidates(cfg, s), UnitCandidates(cfg, sk),
              PassBars(cfg, s, candles)[..k], anchor, w)
    ensures SkipsQuiet(cfg, sk, candles, UnitCandidates(cfg, sk), w)
  {
    hide StoppedAt, Stopped, Covered, CalmEarly, UnitCandidates, Quiet, AnchorOf, OpenIn;
    var next := AnchorOf(UnitCandidates(cfg, sk), OpenIn(sk, cfg.symbol), candles);
    forall b | b in candles && w < b.ts && (next.Some? ==> b.ts < next.value)
      ensures Quiet(cfg, sk, b, UnitCandidates(cfg, sk))
    {
      SkippedIsQuiet(c, cfg, s, candles, k, sk, anchor, w, b);
    }
  }

  ghost predicate Restartable(cfg: Config, s: Store, candles: seq<Bar>) {
    StoreSound(s) && Seeded(s, cfg.seed) && candles != [] && AscendingBars(candles) && Covered(cfg, s, candles)
  }

  /** With the early bars calm the first `t` bars of a second pass lead where `m` more bars of the stopped pass lead. */
  lemma ResumeSafely(c: CostFn, cfg: Config, s: Store, candles: seq<Bar>, k: nat, sk: Store, t: nat) returns (m: nat)
    requires StoppedAt(c, cfg, s, candles, k, sk) && Covered(cfg, s, candles) && CalmEarly(cfg, s, candles)
    requires t <= |PassBars(cfg, sk, candles)|
    ensures k + m <= |PassBars(cfg, s, candles)|
    ensures t == |PassBars(cfg, sk, candles)| ==> k + m == |PassBars(cfg, s, candles)|
    ensures
      RunStore(c, cfg, sk, Take(PassBars(cfg, sk, candles), t), UnitCandidates(cfg, sk)) ==
      RunStore(c, cfg, sk, Take(PassBars(cfg, s, candles)[k..], m), UnitCandidates(cfg, s))
  {
    hide RunStore, Take, UnitCandidates, OpenIn, AnchorOf, Stopped, SkipsQuiet, CalmEarly, PassBars, Covered,
         StoreSound, Seeded, AscendingBars, From;
    if AnchorOf(UnitCandidates(cfg, s), OpenIn(s, cfg.symbol), candles).Some? {
      var anchor, w := StopIsStopped(c, cfg, s, candles, k, sk);
      SafeSkipsQuiet(c, cfg, s, candles, k, sk, anchor, w);
      m := ResumeWithAnchor(c, cfg, s, candles, k, sk, anchor, w, t);
    } else {
      RestartWhenIdle(c, cfg, s, candles, k, sk);
      NothingTaken(c, cfg, sk, [], UnitCandidates(cfg, s));
      NothingTaken(c, cfg, sk, [], UnitCandidates(cfg, sk));
      m := 0;
    }
  }

  /**
   * With the early bars calm, a second pass over the store left by a stopped one, itself stopped after `t` bars, leaves the
   * store of the first pass stopped somewhere; run to its end, it leaves the store of the first pass run to its end.
   */
  lemma StopAgain(c: CostFn, cfg: Config, s: Store, candles: seq<Bar>, k: nat, t: nat) returns (n: nat)
    requires Restartable(cfg, s, candles) && CalmEarly(cfg, s, candles)
    requires k <= |PassWindow(cfg, s, candles).bars|
    requires t <= |PassWindow(cfg, PassPrefix(c, cfg, s, candles, k), candles).bars|
    ensures k <= n <= |PassWindow(cfg, s, candles).bars|
    ensures PassPrefix(c, cfg, PassPrefix(c, cfg, s, candles, k), candles, t) == PassPrefix(c, cfg, s, candles, n)
    ensures
      t == |PassWindow(cfg, PassPrefix(c, cfg, s, candles, k), candles).bars| ==> n == |PassWindow(cfg, s, candles).bars|
  {
    hide RunStore, Take, CalmEarly, PassPrefix, PassBars, PassWindow, Covered, StoppedAt, StoreSound, AscendingBars,
         Seeded;
    var sk := PassPrefix(c, cfg, s, candles, k);
    PrefixStops(c, cfg, s, candles, k);
    WindowIsPassBars(cfg, s, candles);
    StopIsSound(c, cfg, s, candles, k, sk);
    WindowIsPassBars(cfg, sk, candles);
    FreshPrefixIsRun(c, cfg, s, candles, k, sk, t);
    var m := ResumeSafely(c, cfg, s, candles, k, sk, t);
    ContinuedIsRun(c, cfg, s, candles, k, sk, m);
    n := k + m;
  }

  lemma StopIsSound(c: CostFn, cfg: Config, s: Store, candles: seq<Bar>, k: nat, sk: Store)
    requires StoppedAt(c, cfg, s, candles, k, sk)
    ensures StoreSound(sk) && Seeded(sk, cfg.seed) && candles != [] && AscendingBars(candles)
  {
    StoppedFacts(c, cfg, s, candles, k, sk);
  }

  /** With the early bars calm, a second pass run to its end ends where the stopped one would have. */
  lemma SecondPassEquals(c: CostFn, cfg: Config, s: Store, candles: seq<Bar>, k: nat)
    requires Restartable(cfg, s, candles) && CalmEarly(cfg, s, candles)
    requires k <= |PassWindow(cfg, s, candles).bars|
    ensures Pass(c, cfg, PassPrefix(c, cfg, s, candles, k), candles) == Pass(c, cfg, s, candles)
  {
    hide PassPrefix, PassWindow, CalmEarly;
    var n := StopAgain(c, cfg, s, candles, k, |PassWindow(cfg, PassPrefix(c, cfg, s, candles, k), candles).bars|);
  }

  // ---- what an uncalm bar leaves behind -----------------------------------------------------------

  /** Between two stores rows were only closed, and snapshots only added, with stamps from a set. */
  ghost predicate Stamped(s: Store, s': Store, stamps: set<int>) {
    && |s.positions| <= |s'.positions| && s.snapshots <= s'.snapshots
    && (forall h :: 0 <= h < |s.positions| ==> RowStamped(s.positions[h], s'.positions[h], stamps))
    && forall x :: x in s'.snapshots ==> x in s.snapshots || x.ts in stamps
  }

  predicate RowStamped(r: PositionRow, r': PositionRow, stamps: set<int>) {
    && r'.symbol == r.symbol
    && (r'.status == r.status || (r.status.OPEN? && r'.status.CLOSED? && r'.status.exitTs in stamps))
  }

  lemma StampedTransitive(a: Store, b: Store, d: Store, some: set<int>, more: set<int>)
    requires Stamped(a, b, some) && Stamped(b, d, more)
    ensures Stamped(a, d, some + more)
  {
    forall h | 0 <= h < |a.positions|
      ensures RowStamped(a.positions[h], d.positions[h], some + more)
    {
      assert RowStamped(a.positions[h], b.positions[h], some) && RowStamped(b.positions[h], d.positions[h], more);
    }
  }

  lemma CloseStamps(c: CostFn, l: Ledger, symbol: string, price: real, reason: ExitReason, ts: int)
    requires OpenFor(l.wallet.positions, symbol).Some?
    ensures Stamped(l.store, CloseBoth(c, l, symbol, price, reason, ts).store, {ts})
  {
  }

  lemma FillStamps(c: CostFn, l: Ledger, h: nat, price: real, ts: int)
    ensures Stamped(l.store, Fill(c, l, h, price, ts).store, {ts})
  {
  }

  lemma ActionStamps(c: CostFn, p: Progress, symbol: string, b: Bar, cand: Candidate, action: FillAction)
    ensures Stamped(p.ledger.store, ExecuteOne(c, p, symbol, b, cand, action).ledger.store, {b.ts})
  {
    hide CloseBoth, Fill, Stamped;
    var l := p.ledger;
    Untouched(l, Cancel(l, cand.order), b.ts);
    Untouched(l, l, b.ts);
    var l1 := if action == Flip then SignalClose(c, l, symbol, b.open, b.ts) else l;
    if action == Flip && OpenFor(l.wallet.positions, symbol).Some? {
      CloseStamps(c, l, symbol, b.open, Signal, b.ts);
    }
    FillStamps(c, l1, cand.order, b.open, b.ts);
    StampedTransitive(l.store, l1.store, Fill(c, l1, cand.order, b.open, b.ts).store, {b.ts}, {b.ts});
    assert {b.ts} + {b.ts} == {b.ts};
  }

  lemma Untouched(l: Ledger, l': Ledger, ts: int)
    requires l'.store.positions == l.store.positions && l'.store.snapshots == l.store.snapshots
    ensures Stamped(l.store, l'.store, {ts})
  {
  }

  lemma {:induction false} ExecuteStamps(c: CostFn, p: Progress, symbol: string, b: Bar, cands: seq<Candidate>,
                                         actions: seq<FillAction>)
    requires |cands| == |actions|
    ensures Stamped(p.ledger.store, Execute(c, p, symbol, b, cands, actions).ledger.store, {b.ts})
    decreases cands
  {
    hide Stamped, ExecuteOne;
    if cands == [] {
      Untouched(p.ledger, p.ledger, b.ts);
    } else {
      var p1 := ExecuteOne(c, p, symbol, b, cands[0], actions[0]);
      ActionStamps(c, p, symbol, b, cands[0], actions[0]);
      ExecuteStamps(c, p1, symbol, b, cands[1..], actions[1..]);
      StampedTransitive(p.ledger.store, p1.ledger.store, Execute(c, p, symbol, b, cands, actions).ledger.store, {b.ts},
                        {b.ts});
      assert {b.ts} + {b.ts} == {b.ts};
    }
  }

  lemma CloseOutStamps(c: CostFn, cfg: Config, l: Ledger, b: Bar, filled: bool)
    ensures Stamped(l.store, CloseOut(c, l, cfg.symbol, b, cfg.interval, filled).store, {b.ts})
  {
    hide CloseBoth;
    var hit := ExitHit(l.wallet, cfg.symbol, b.close);
    if hit.Some? {
      CloseStamps(c, l, cfg.symbol, hit.value.0, hit.value.1, b.ts);
    }
    var l1, l' := ExitAt(c, l, cfg.symbol, b.close, b.ts), CloseOut(c, l, cfg.symbol, b, cfg.interval, filled);
    assert Stamped(l.store, l1.store, {b.ts});
    assert l'.store.positions == l1.store.positions && l'.store.snapshots[..|l1.store.snapshots|] == l1.store.snapshots;
  }

  /** A bar closes rows, and adds snapshots, with its own stamp only. */
  lemma BarStamps(c: CostFn, cfg: Config, s: Store, b: Bar, cands: seq<Candidate>)
    ensures Stamped(s, StoreBar(c, cfg, s, b, cands), {b.ts})
  {
    hide Stamped, Execute, CloseOut, Restore, BarOf, Arbitrate;
    var l0, due := Restore(Fresh(cfg, s)), DueAt(cands, b.ts);
    assert l0.store == s by { RestoreKeepsStore(Fresh(cfg, s)); }
    var p := FillsAtOpen(c, l0, cfg.symbol, b, cands);
    ExecuteStamps(c, Progress(l0, 0, 0), cfg.symbol, b, due, Arbitrate(OpenSide(l0.wallet, cfg.symbol), due));
    BarIsFillsThenClose(c, cfg, s, b, cands);
    CloseOutStamps(c, cfg, p.ledger, b, p.filled > 0);
    StampedTransitive(s, p.ledger.store, StoreBar(c, cfg, s, b, cands), {b.ts}, {b.ts});
    assert {b.ts} + {b.ts} == {b.ts};
  }

  function StampSet(bars: seq<Bar>): set<int> {
    set b | b in bars :: b.ts
  }

  lemma {:induction false} RunStamps(c: CostFn, cfg: Config, s: Store, bars: seq<Bar>, cands: seq<Candidate>)
    ensures Stamped(s, RunStore(c, cfg, s, bars, cands), StampSet(bars))
  {
    hide StoreBar;
    if bars != [] {
      var before, b := bars[..|bars| - 1], bars[|bars| - 1];
      assert bars == before + [b];
      RunStamps(c, cfg, s, before, cands);
      var mid := RunStore(c, cfg, s, before, cands);
      BarStamps(c, cfg, mid, b, cands);
      StampedTransitive(s, mid, RunStore(c, cfg, s, bars, cands), StampSet(before), {b.ts});
      assert StampSet(bars) == StampSet(before) + {b.ts};
    }
  }

  /** The position's row was closed, or the account valued, at this stamp. */
  ghost predicate ActedAt(s: Store, s': Store, ts: int) {
    || (exists h :: 0 <= h < |s.positions| && h < |s'.positions| && s.positions[h].status.OPEN? &&
          s'.positions[h].status.CLOSED? && s'.positions[h].status.exitTs == ts)
    || ((exists x :: x in s'.snapshots && x.ts == ts) && forall x :: x in s.snapshots ==> x.ts != ts)
  }

  lemma NotActed(s: Store, s': Store, stamps: set<int>, ts: int)
    requires Stamped(s, s', stamps) && ts !in stamps
    ensures !ActedAt(s, s', ts)
  {
    forall h | 0 <= h < |s.positions|
      ensures !(s.positions[h].status.OPEN? && s'.positions[h].status.CLOSED? && s'.positions[h].status.exitTs == ts)
    {
      assert RowStamped(s.positions[h], s'.positions[h], stamps);
    }
  }

  lemma StaysActed(s: Store, s1: Store, s': Store, stamps: set<int>, ts: int)
    requires ActedAt(s, s1, ts) && Stamped(s1, s', stamps)
    ensures ActedAt(s, s', ts)
  {
    if h :| 0 <= h < |s.positions| && h < |s1.positions| && s.positions[h].status.OPEN? &&
            s1.positions[h].status.CLOSED? && s1.positions[h].status.exitTs == ts
    {
      assert RowStamped(s1.positions[h], s'.positions[h], stamps);
    }
  }

  lemma ClosedOnBar(s: Store, s1: Store, symbol: string, ts: int)
    requires Stamped(s, s1, {ts}) && OpenIn(s, symbol).Some? && OpenIn(s1, symbol).None?
    ensures ActedAt(s, s1, ts)
  {
    var h := FindOpen(s.positions, symbol).value;
    assert RowStamped(s.positions[h], s1.positions[h], {ts});
  }

  lemma ValuedOnBar(s: Store, s1: Store, ts: int, interval: Option<int>)
    requires Stamped(s, s1, {ts}) && SnapshotDue(s.snapshots, ts, interval) && LatestStamp(s1.snapshots) == Some(ts)
    ensures ActedAt(s, s1, ts)
  {
  }

  /** A bar without an order that stops the position out or values the account leaves its stamp. */
  lemma UncalmBarActs(c: CostFn, cfg: Config, s: Store, b: Bar, cands: seq<Candidate>, pos: Position)
    requires OnBar(cfg, s, b, cands, pos) && WithStamp(cands, b.ts) == []
    requires pos.ExitFor(b.close).Some? || SnapshotDue(s.snapshots, b.ts, cfg.interval)
    ensures ActedAt(s, StoreBar(c, cfg, s, b, cands), b.ts)
  {
    hide OnBar, StoreBar, Stamped, ActedAt, StoreSound, Seeded, LatestStamp, WithStamp, OpenIn;
    BarStamps(c, cfg, s, b, cands);
    var s1 := StoreBar(c, cfg, s, b, cands);
    if pos.ExitFor(b.close).Some? {
      BreachCloses(c, cfg, s, b, cands, pos);
      ClosedOnBar(s, s1, cfg.symbol, b.ts);
    } else {
      NoOrderHolds(pos, cands, b);
      HeldBar(c, cfg, s, b, cands, pos);
      SnapshotDueIsStampDue(s.snapshots, b.ts, cfg.interval);
      ValuedOnBar(s, s1, b.ts, cfg.interval);
    }
  }

  lemma BreachCloses(c: CostFn, cfg: Config, s: Store, b: Bar, cands: seq<Candidate>, pos: Position)
    requires OnBar(cfg, s, b, cands, pos) && WithStamp(cands, b.ts) == [] && pos.ExitFor(b.close).Some?
    ensures OpenIn(s, cfg.symbol).Some? && OpenIn(StoreBar(c, cfg, s, b, cands), cfg.symbol).None?
  {
    hide OnBar, CloseOut, Restore, StoreSound, Mirrored;
    assert OpenIn(s, cfg.symbol) == Some(pos) by { PositionOnBar(cfg, s, b, cands, pos); }
    assert forall a :: a in cands && a.fillStamp == b.ts ==> a in WithStamp(cands, b.ts);
    FillsUnderPosition(c, cfg, s, b, cands, pos);
    BarIsFillsThenClose(c, cfg, s, b, cands);
    var p := FillsAtOpen(c, Restore(Fresh(cfg, s)), cfg.symbol, b, cands);
    CloseOutLeaves(c, cfg, p.ledger, b, p.filled > 0, pos);
  }

  lemma PositionOnBar(cfg: Config, s: Store, b: Bar, cands: seq<Candidate>, pos: Position)
    requires OnBar(cfg, s, b, cands, pos)
    ensures OpenIn(s, cfg.symbol) == Some(pos)
  {
  }

  lemma NextOnBar(c: CostFn, cfg: Config, s: Store, candles: seq<Bar>, i: nat, si: Store, pos: Position)
    requires StoppedAt(c, cfg, s, candles, i, si) && i < |PassBars(cfg, s, candles)| && OpenIn(si, cfg.symbol) == Some(pos)
    ensures OnBar(cfg, si, PassBars(cfg, s, candles)[i], UnitCandidates(cfg, s), pos)
  {
    hide UnitCandidates, PassBars, AfterMissing, RunStore, BarsWait, RunDone, Grows, Anchored, OfTimeframe;
    UnitTimeframe(cfg, s);
    var bars, s0, cands := PassBars(cfg, s, candles), AfterMissing(cfg, s, candles).store, UnitCandidates(cfg, s);
    StopIsSound(c, cfg, s, candles, i, si);
    PrefixWaits(cfg, s, candles, i + 1);
    PassFacts(c, cfg, s, candles, i);
    assert bars[..i + 1] == bars[..i] + [bars[i]];
    NextBarReady(cfg, s0, si, bars[..i], bars[i], cands);
    UnitCandidatesExact(cfg, s);
  }

  /** If the next bar is before the entry and has no order, a fresh pass starts beyond it. */
  lemma FreshStartsBeyond(cfg: Config, si: Store, pos: Position, candles: seq<Bar>, cands: seq<Candidate>,
                          cands': seq<Candidate>, done: seq<Bar>, anchor: int, w: int, b: Bar)
    requires Stopped(cfg, si, Some(pos), candles, cands, cands', done, anchor, w) && OpenIn(si, cfg.symbol) == Some(pos)
    requires b.ts < pos.entryTs && WithStamp(cands, b.ts) == []
    requires forall x :: x in candles && w < x.ts ==> b.ts <= x.ts
    ensures
      var next := AnchorOf(cands', Some(pos), candles);
      next.Some? && b.ts < next.value
  {
    hide StoreSound, OpenIn, AscendingBars;
    AnchorIsLeast(cands', Some(pos), candles);
    AnchorIsLeast(cands, Some(pos), candles);
    var next := AnchorOf(cands', Some(pos), candles).value;
    if next < pos.entryTs {
      var a :| a in cands' && a.fillStamp == next;
      assert a in cands && next != b.ts by { assert next == b.ts ==> a in WithStamp(cands, b.ts); }
      StampsMembers(candles, next);
      StampsMembers(done, next);
    }
  }

  lemma FirstIsLeast(bars: seq<Bar>, b: Bar)
    requires AscendingBars(bars) && bars != []
    ensures b in bars ==> bars[0].ts <= b.ts
  {
  }

  lemma FreshBarsBeyond(c: CostFn, cfg: Config, s: Store, candles: seq<Bar>, i: nat, si: Store, pos: Position, b: Bar)
    requires StoppedAt(c, cfg, s, candles, i, si) && Covered(cfg, s, candles)
    requires OpenIn(s, cfg.symbol) == Some(pos) && OpenIn(si, cfg.symbol) == Some(pos)
    requires i < |PassBars(cfg, s, candles)| && b == PassBars(cfg, s, candles)[i]
    requires b.ts < pos.entryTs && WithStamp(UnitCandidates(cfg, s), b.ts) == []
    ensures b.ts !in StampSet(PassBars(cfg, si, candles))
  {
    hide StoreSound, OpenIn, UnitCandidates, Stopped, From, Seeded, AscendingBars, RunStore, PassBars, AnchorOf,
         Covered;
    AnchorIsLeast(UnitCandidates(cfg, s), Some(pos), candles);
    var anchor, w := StopIsStopped(c, cfg, s, candles, i, si);
    WindowIsPassBars(cfg, s, candles);
    AheadIsNoEarlier(PassBars(cfg, s, candles), i, candles, w);
    var cands, cands', done := UnitCandidates(cfg, s), UnitCandidates(cfg, si), PassBars(cfg, s, candles)[..i];
    FreshStartsBeyond(cfg, si, pos, candles, cands, cands', done, anchor, w, b);
    PassBarsFromAnchor(cfg, si, candles, b.ts);
  }

  lemma AheadIsNoEarlier(bars: seq<Bar>, i: nat, candles: seq<Bar>, w: int)
    requires AscendingBars(bars) && i < |bars| && bars[i..] == From(candles, w + 1)
    ensures forall x :: x in candles && w < x.ts ==> bars[i].ts <= x.ts
  {
    SuffixAscending(bars, i);
    forall x | x in candles && w < x.ts
      ensures bars[i].ts <= x.ts
    {
      assert x in From(candles, w + 1);
      FirstIsLeast(bars[i..], x);
    }
  }

  lemma PassBarsFromAnchor(cfg: Config, s: Store, candles: seq<Bar>, ts: int)
    requires
      var next := AnchorOf(UnitCandidates(cfg, s), OpenIn(s, cfg.symbol), candles);
      next.Some? && ts < next.value
    ensures ts !in StampSet(PassBars(cfg, s, candles))
  {
    forall x | x in PassBars(cfg, s, candles)
      ensures ts < x.ts
    {
      assert x in OwedBars(cfg, s, candles);
    }
  }

  lemma SuffixAscending(bars: seq<Bar>, k: nat)
    requires AscendingBars(bars) && k <= |bars|
    ensures AscendingBars(bars[k..])
  {
  }

  lemma WholePassFrom(c: CostFn, cfg: Config, s: Store, candles: seq<Bar>, i: nat, si: Store)
    requires StoppedAt(c, cfg, s, candles, i, si) && i < |PassBars(cfg, s, candles)|
    ensures
      var b, cands := PassBars(cfg, s, candles)[i], UnitCandidates(cfg, s);
      Pass(c, cfg, s, candles) ==
      RunStore(c, cfg, StoreBar(c, cfg, si, b, cands), PassBars(cfg, s, candles)[i + 1..], cands)
  {
    hide StoreBar, UnitCandidates, PassBars, AfterMissing, StoreSound, Seeded, Pass;
    var bars, cands, s0 := PassBars(cfg, s, candles), UnitCandidates(cfg, s), AfterMissing(cfg, s, candles).store;
    WholePassIsRun(c, cfg, s, candles);
    RunSplit(c, cfg, s0, bars, i + 1, cands);
    assert bars[..i + 1][..i] == bars[..i];
  }

  lemma FreshPassIsRun(c: CostFn, cfg: Config, s: Store, candles: seq<Bar>, k: nat, sk: Store)
    requires StoppedAt(c, cfg, s, candles, k, sk)
    ensures Pass(c, cfg, sk, candles) == RunStore(c, cfg, sk, PassBars(cfg, sk, candles), UnitCandidates(cfg, sk))
  {
    hide PassBars, PassWindow, RunStore;
    StopIsSound(c, cfg, s, candles, k, sk);
    FreshPrefixIsRun(c, cfg, s, candles, k, sk, |PassBars(cfg, sk, candles)|);
    TakeAll(PassBars(cfg, sk, candles), |PassBars(cfg, sk, candles)|);
  }

  /** What the next bar does, the whole pass has done. */
  lemma PassActs(c: CostFn, cfg: Config, s: Store, candles: seq<Bar>, i: nat, si: Store, b: Bar)
    requires StoppedAt(c, cfg, s, candles, i, si) && i < |PassBars(cfg, s, candles)| && b == PassBars(cfg, s, candles)[i]
    requires ActedAt(si, StoreBar(c, cfg, si, b, UnitCandidates(cfg, s)), b.ts)
    ensures ActedAt(si, Pass(c, cfg, s, candles), b.ts)
  {
    hide UnitCandidates, RunStore, Stamped, ActedAt, StoreBar, Pass, PassBars, StoppedAt, StampSet;
    var cands, bars := UnitCandidates(cfg, s), PassBars(cfg, s, candles);
    WholePassFrom(c, cfg, s, candles, i, si);
    var s1 := StoreBar(c, cfg, si, b, cands);
    RunStamps(c, cfg, s1, bars[i + 1..], cands);
    StaysActed(si, s1, Pass(c, cfg, s, candles), StampSet(bars[i + 1..]), b.ts);
  }

  /** A second pass that skips the next bar never acts at its stamp. */
  lemma FreshPassNeverActs(c: CostFn, cfg: Config, s: Store, candles: seq<Bar>, i: nat, si: Store, pos: Position, b: Bar)
    requires StoppedAt(c, cfg, s, candles, i, si) && Covered(cfg, s, candles)
    requires OpenIn(s, cfg.symbol) == Some(pos) && OpenIn(si, cfg.symbol) == Some(pos)
    requires i < |PassBars(cfg, s, candles)| && b == PassBars(cfg, s, candles)[i]
    requires b.ts < pos.entryTs && WithStamp(UnitCandidates(cfg, s), b.ts) == []
    ensures !ActedAt(si, Pass(c, cfg, si, candles), b.ts)
  {
    hide UnitCandidates, RunStore, Stamped, ActedAt, Pass, PassBars, StoppedAt, StampSet, OpenIn, Covered;
    FreshPassIsRun(c, cfg, s, candles, i, si);
    RunStamps(c, cfg, si, PassBars(cfg, si, candles), UnitCandidates(cfg, si));
    FreshBarsBeyond(c, cfg, s, candles, i, si, pos, b);
    NotActed(si, Pass(c, cfg, si, candles), StampSet(PassBars(cfg, si, candles)), b.ts);
  }

  lemma EarlyBefore(early: seq<Bar>, i: nat, ts: int)
    requires AllBefore(early, ts) && i < |early|
    ensures early[i].ts < ts
  {
  }

  /** The first valuation of an account is the latest. */
  lemma ValuedAt(s: Store, s': Store, ts: int)
    requires s.snapshots == [] && Stamped(s, s', {ts}) && !SnapshotDue(s'.snapshots, ts, None)
    ensures LatestStamp(s'.snapshots) == Some(ts)
  {
  }

  // ---- a single order on a bar with nothing open ------------------------------------------------

  ghost predicate LoneOrder(c: CostFn, cfg: Config, s: Store, b: Bar, cands: seq<Candidate>, a: Candidate) {
    && StoreSound(s) && Seeded(s, cfg.seed) && Orderly(cands, cfg.symbol) && (forall x :: x in cands <==> x == a)
    && a.fillStamp == b.ts && Waiting(s, a) && OpenIn(s, cfg.symbol).None?
    && FilledPosition(c, s.orders[a.order], b).ExitFor(b.close).None?
  }

  lemma LoneDue(c: CostFn, cfg: Config, s: Store, b: Bar, cands: seq<Candidate>, a: Candidate)
    requires LoneOrder(c, cfg, s, b, cands, a)
    ensures DueAt(cands, b.ts) == [a] && Ready(cfg, s, cands, b.ts)
  {
    hide StoreSound, Seeded;
    DueFacts(cands, cfg.symbol, b.ts);
    AllSame(DueAt(cands, b.ts), a);
    WaitingIsReady(cfg, s, cands, b.ts);
  }

  lemma LoneFillAtOpen(c: CostFn, cfg: Config, s: Store, b: Bar, cands: seq<Candidate>, a: Candidate)
    requires LoneOrder(c, cfg, s, b, cands, a)
    ensures
      var p := FillsAtOpen(c, Restore(Fresh(cfg, s)), cfg.symbol, b, cands);
      && Sound(p.ledger)
      && OpenFor(p.ledger.wallet.positions, cfg.symbol) == Some(FilledPosition(c, s.orders[a.order], b))
  {
    hide StoreSound, Mirrored, Restore, Settles, Grows, DueAt, Orderly;
    var l0 := Restore(Fresh(cfg, s));
    LoneDue(c, cfg, s, b, cands, a);
    RestoreFacts(cfg, s);
    ExecutionAgrees(c, Progress(l0, 0, 0), cfg.symbol, b, DueAt(cands, b.ts));
  }

  /** The order becomes the open position; nothing else is settled, and all stamps are the bar's. */
  lemma LoneFill(c: CostFn, cfg: Config, s: Store, b: Bar, cands: seq<Candidate>, a: Candidate)
    requires LoneOrder(c, cfg, s, b, cands, a)
    ensures
      var s' := StoreBar(c, cfg, s, b, cands);
      && StoreSound(s') && Seeded(s', cfg.seed) && Grows(s, s') && Settles(s.orders, s'.orders, [a], 0)
      && OpenIn(s', cfg.symbol) == Some(FilledPosition(c, s.orders[a.order], b))
      && !SnapshotDue(s'.snapshots, b.ts, cfg.interval)
      && Stamped(s, s', {b.ts})
  {
    hide StoreSound, Mirrored, Restore, Settles, Grows, DueAt, Orderly, CloseOut, Stamped, BarOf;
    var l0, pos := Restore(Fresh(cfg, s)), FilledPosition(c, s.orders[a.order], b);
    LoneDue(c, cfg, s, b, cands, a);
    LoneFillAtOpen(c, cfg, s, b, cands, a);
    var p := FillsAtOpen(c, l0, cfg.symbol, b, cands);
    BarIsFillsThenClose(c, cfg, s, b, cands);
    CloseOutLeaves(c, cfg, p.ledger, b, p.filled > 0, pos);
    RestoreFacts(cfg, s);
    BarFacts(c, cfg, s, b, cands);
    BarStamps(c, cfg, s, b, cands);
  }
}
