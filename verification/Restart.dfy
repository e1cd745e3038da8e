/**
 * A catch-up pass as a run over bars: what it settles, what a pass stopped after any committed bar leaves behind, and what
 * a fresh pass makes of that as long as the bars it skips are quiet.
 */
module Restart {
  import opened Prelude
  import opened Paper
  import opened Ledger
  import opened LedgerInvariant
  import opened Lifecycle
  import opened CatchUp
  import opened Bars

  // ---- candidate lists --------------------------------------------------------------------

  ghost predicate OrderDetermines(cands: seq<Candidate>) {
    forall a, b :: a in cands && b in cands && a.order == b.order ==> a == b
  }

  /** Strictly sorted candidates of one symbol, one per order. */
  ghost predicate Orderly(cands: seq<Candidate>, symbol: string) {
    && StrictlySorted(cands, CandidateKey())
    && OrderDetermines(cands)
    && forall a :: a in cands ==> a.symbol == symbol
  }

  lemma {:induction false} WithStampSorted(cands: seq<Candidate>, ts: int)
    requires StrictlySorted(cands, CandidateKey())
    ensures StrictlySorted(WithStamp(cands, ts), CandidateKey())
  {
    if cands != [] {
      WithStampSorted(cands[1..], ts);
      var rest := WithStamp(cands[1..], ts);
      forall j | 0 <= j < |rest|
        ensures CandidateKey()(cands[0]).Less(CandidateKey()(rest[j]))
      {
        assert rest[j] in rest;
        var k :| 0 <= k < |cands[1..]| && cands[1..][k] == rest[j];
        assert cands[k + 1] == rest[j];
      }
    }
  }

  lemma {:induction false} OfUnitSorted(cands: seq<Candidate>, symbol: string, timeframe: Timeframe)
    requires StrictlySorted(cands, CandidateKey())
    ensures StrictlySorted(OfUnit(cands, symbol, timeframe), CandidateKey())
  {
    if cands != [] {
      OfUnitSorted(cands[1..], symbol, timeframe);
      var rest := OfUnit(cands[1..], symbol, timeframe);
      forall j | 0 <= j < |rest|
        ensures CandidateKey()(cands[0]).Less(CandidateKey()(rest[j]))
      {
        assert rest[j] in rest;
        var k :| 0 <= k < |cands[1..]| && cands[1..][k] == rest[j];
        assert cands[k + 1] == rest[j];
      }
    }
  }

  /** The due list of a bar: sorted, distinct, exactly the candidates with that stamp. */
  lemma DueFacts(cands: seq<Candidate>, symbol: string, ts: int)
    requires Orderly(cands, symbol)
    ensures StrictlySorted(DueAt(cands, ts), CandidateKey())
    ensures forall a :: a in DueAt(cands, ts) <==> a in cands && a.fillStamp == ts
    ensures DistinctOrders(DueAt(cands, ts))
  {
    var some := WithStamp(cands, ts);
    WithStampSorted(cands, ts);
    SortSorts(some, CandidateKey());
    SortKeepsBag(some, CandidateKey());
    var due := DueAt(cands, ts);
    forall i, j | 0 <= i < j < |due|
      ensures due[i].order != due[j].order
    {
      assert due[i] in due && due[j] in due;
      assert CandidateKey()(due[i]).Less(CandidateKey()(due[j]));
    }
  }

  lemma SecondDiffers(cands: seq<Candidate>)
    requires StrictlySorted(cands, CandidateKey())
    ensures |cands| > 1 ==> cands[0] != cands[1] && cands[0] in cands && cands[1] in cands
  {
    if |cands| > 1 {
      assert CandidateKey()(cands[0]).Less(CandidateKey()(cands[1]));
    }
  }

  lemma AllSame(cands: seq<Candidate>, a: Candidate)
    requires StrictlySorted(cands, CandidateKey())
    requires forall x :: x in cands <==> x == a
    ensures cands == [a]
  {
    assert a in cands;
    assert cands[0] in cands;
    SecondDiffers(cands);
  }

  ghost predicate WaitingAt(s: Store, cands: seq<Candidate>, ts: int) {
    forall a :: a in cands && a.fillStamp == ts ==> Waiting(s, a)
  }

  lemma WaitingIsReady(cfg: Config, s: Store, cands: seq<Candidate>, ts: int)
    requires Orderly(cands, cfg.symbol) && WaitingAt(s, cands, ts)
    ensures Ready(cfg, s, cands, ts)
  {
    DueFacts(cands, cfg.symbol, ts);
    var due := DueAt(cands, ts);
    forall i | 0 <= i < |due|
      ensures Waiting(s, due[i]) && due[i].symbol == cfg.symbol
    {
      assert due[i] in due;
    }
  }

  /** A stored order that a pass of this unit would pick up. */
  predicate UnitOrder(cfg: Config, s: Store, a: Candidate) {
    && IsPending(s.orders, a.order)
    && Resolve(s, a.order) == Some(a)
    && a.symbol == cfg.symbol && a.timeframe == cfg.timeframe
  }

  lemma {:induction false} ResolveAllMembers(s: Store, hs: seq<nat>)
    requires UniqueOrders(s.orders) && Distinct(hs) && forall h :: h in hs ==> h < |s.orders|
    ensures forall a :: a in ResolveAll(s, hs) <==> a.order in hs && Resolve(s, a.order) == Some(a)
    ensures DistinctKeys(ResolveAll(s, hs), CandidateKey())
  {
    if hs != [] {
      assert hs == [hs[0]] + hs[1..];
      assert hs[0] in hs;
      forall h | h in hs[1..]
        ensures h < |s.orders|
      {
        assert h in hs;
      }
      ResolveAllMembers(s, hs[1..]);
      var rest := ResolveAll(s, hs[1..]);
      if Resolve(s, hs[0]).Some? {
        var first := Resolve(s, hs[0]).value;
        forall j | 0 <= j < |rest|
          ensures CandidateKey()(first) != CandidateKey()(rest[j])
        {
          assert rest[j] in rest;
          assert rest[j].order in hs[1..];
          assert hs[0] !in hs[1..];
          assert s.orders[hs[0]].uid != s.orders[rest[j].order].uid;
        }
      }
    }
  }

  lemma QueueMirrors(cfg: Config, s: Store)
    requires StoreSound(s)
    ensures PendingMirrors(PendingOrders(s.orders), s.orders)
  {
    RestoreMirrors(Fresh(cfg, s));
    assert Restore(Fresh(cfg, s)).pending == PendingOrders(s.orders);
  }

  lemma PendingCandidatesExact(cfg: Config, s: Store)
    requires StoreSound(s)
    ensures StrictlySorted(PendingCandidates(s), CandidateKey())
    ensures forall a :: a in PendingCandidates(s) <==> IsPending(s.orders, a.order) && Resolve(s, a.order) == Some(a)
  {
    hide OrdersSound, RowsAreFills, FillsHaveRows, OneOpenPerSymbol, OneRowPerOrder, PendingOrders, SortByKey;
    QueueMirrors(cfg, s);
    var hs := PendingOrders(s.orders);
    forall h | h in hs
      ensures h < |s.orders|
    {
      assert IsPending(s.orders, h);
    }
    ResolveAllMembers(s, hs);
    var all := ResolveAll(s, hs);
    SortSorts(all, CandidateKey());
    SortKeepsBag(all, CandidateKey());
  }

  lemma UnitCandidatesExact(cfg: Config, s: Store)
    requires StoreSound(s)
    ensures Orderly(UnitCandidates(cfg, s), cfg.symbol)
    ensures forall a :: a in UnitCandidates(cfg, s) <==> UnitOrder(cfg, s, a)
    ensures forall a :: a in UnitCandidates(cfg, s) ==> Waiting(s, a)
  {
    hide StoreSound, PendingCandidates;
    PendingCandidatesExact(cfg, s);
    OfUnitSorted(PendingCandidates(s), cfg.symbol, cfg.timeframe);
  }

  // ---- runs over bars ---------------------------------------------------------------------

  function RunStore(c: CostFn, cfg: Config, s: Store, bars: seq<Bar>, cands: seq<Candidate>): Store {
    if bars == [] then s
    else StoreBar(c, cfg, RunStore(c, cfg, s, bars[..|bars| - 1], cands), bars[|bars| - 1], cands)
  }

  lemma {:induction false} RunStoreConcat(c: CostFn, cfg: Config, s: Store, a: seq<Bar>, b: seq<Bar>, cands: seq<Candidate>)
    ensures RunStore(c, cfg, s, a + b, cands) == RunStore(c, cfg, RunStore(c, cfg, s, a, cands), b, cands)
  {
    hide StoreBar;
    if b == [] {
      assert a + b == a;
    } else {
      RunStoreConcat(c, cfg, s, a, b[..|b| - 1], cands);
      assert (a + b)[..|a + b| - 1] == a + b[..|b| - 1];
    }
  }

  lemma RunSplit(c: CostFn, cfg: Config, s: Store, bars: seq<Bar>, k: nat, cands: seq<Candidate>)
    requires k <= |bars|
    ensures RunStore(c, cfg, s, bars, cands) == RunStore(c, cfg, RunStore(c, cfg, s, bars[..k], cands), bars[k..], cands)
  {
    assert bars == bars[..k] + bars[k..];
    RunStoreConcat(c, cfg, s, bars[..k], bars[k..], cands);
  }

  lemma {:induction false} QuietRunChangesNothing(c: CostFn, cfg: Config, s: Store, bars: seq<Bar>, cands: seq<Candidate>)
    requires StoreSound(s) && forall b :: b in bars ==> Quiet(cfg, s, b, cands)
    ensures RunStore(c, cfg, s, bars, cands) == s
  {
    if bars != [] {
      QuietRunChangesNothing(c, cfg, s, bars[..|bars| - 1], cands);
      QuietBarChangesNothing(c, cfg, s, bars[|bars| - 1], cands);
    }
  }

  lemma {:induction false} SameDueSameRun(c: CostFn, cfg: Config, s: Store, bars: seq<Bar>, cands: seq<Candidate>,
                                          cands': seq<Candidate>)
    requires forall b :: b in bars ==> DueAt(cands, b.ts) == DueAt(cands', b.ts)
    ensures RunStore(c, cfg, s, bars, cands) == RunStore(c, cfg, s, bars, cands')
  {
    if bars != [] {
      SameDueSameRun(c, cfg, s, bars[..|bars| - 1], cands, cands');
      assert bars[|bars| - 1] in bars;
    }
  }

  /** What a run over ascending bars leaves behind. */
  ghost predicate RunDone(cfg: Config, s: Store, s': Store, bars: seq<Bar>, cands: seq<Candidate>) {
    && StoreSound(s') && Grows(s, s') && Seeded(s', cfg.seed) && |s'.orders| == |s.orders|
    && (forall a :: a in cands && a.order < |s.orders| ==>
          if a.fillStamp in Stamps(bars) then !IsPending(s'.orders, a.order)
          else s'.orders[a.order] == s.orders[a.order])
    && (var pos := OpenIn(s', cfg.symbol);
        pos.Some? ==>
          && (pos == OpenIn(s, cfg.symbol) || pos.value.entryTs in Stamps(bars))
          && forall b :: b in bars && pos.value.entryTs <= b.ts ==> Survived(cfg, s', pos.value, b))
  }

  lemma NotDueStaysNotDue(snaps: seq<Snapshot>, snaps': seq<Snapshot>, ts: int, interval: Option<int>)
    requires snaps <= snaps' && !SnapshotDue(snaps, ts, interval)
    ensures !SnapshotDue(snaps', ts, interval)
  {
    assert LatestSnapshot(snaps).value in snaps';
  }

  lemma UntouchedBySettling(s: Store, s': Store, cands: seq<Candidate>, symbol: string, ts: int, a: Candidate, k: nat)
    requires Orderly(cands, symbol) && a in cands && a.order < |s.orders|
    requires Settles(s.orders, s'.orders, DueAt(cands, ts), k)
    ensures a.fillStamp == ts ==> !IsPending(s'.orders, a.order)
    ensures a.fillStamp != ts ==> s'.orders[a.order] == s.orders[a.order]
  {
    DueFacts(cands, symbol, ts);
    var due := DueAt(cands, ts);
    if a.fillStamp == ts {
      assert a in due;
      var i :| 0 <= i < |due| && due[i] == a;
    } else {
      forall i | 0 <= i < |due|
        ensures due[i].order != a.order
      {
        assert due[i] in due;
      }
    }
  }

  lemma StampsSnoc(bars: seq<Bar>, b: Bar)
    ensures forall t :: t in Stamps(bars + [b]) <==> t in Stamps(bars) || t == b.ts
  {
    var st, st' := Stamps(bars), Stamps(bars + [b]);
    forall t
      ensures t in st' <==> t in st || t == b.ts
    {
      if t in st' {
        var i :| 0 <= i < |st'| && st'[i] == t;
        if i < |bars| {
          assert st[i] == t;
        }
      }
      if t in st {
        var i :| 0 <= i < |st| && st[i] == t;
        assert st'[i] == t;
      }
      assert st'[|bars|] == b.ts;
    }
  }

  /** Bars of a list that each still have all their candidates waiting. */
  ghost predicate BarsWait(cfg: Config, s: Store, bars: seq<Bar>, cands: seq<Candidate>) {
    && Orderly(cands, cfg.symbol) && AscendingBars(bars)
    && forall b :: b in bars ==> WaitingAt(s, cands, b.ts)
  }

  lemma NextBarReady(cfg: Config, s: Store, mid: Store, bars: seq<Bar>, b: Bar, cands: seq<Candidate>)
    requires BarsWait(cfg, s, bars + [b], cands)
    requires RunDone(cfg, s, mid, bars, cands)
    ensures Ready(cfg, mid, cands, b.ts)
  {
    StampsMembers(bars, b.ts);
    forall x | x in bars
      ensures x.ts != b.ts
    {
      var i :| 0 <= i < |bars| && bars[i] == x;
      assert (bars + [b])[i].ts < (bars + [b])[|bars|].ts;
    }
    assert b in bars + [b];
    forall a | a in cands && a.fillStamp == b.ts
      ensures Waiting(mid, a)
    {
      assert Waiting(s, a);
    }
    WaitingIsReady(cfg, mid, cands, b.ts);
  }

  lemma StepRunDone(cfg: Config, s: Store, mid: Store, s': Store, bars: seq<Bar>, b: Bar, cands: seq<Candidate>)
    requires Orderly(cands, cfg.symbol) && AscendingBars(bars + [b])
    requires RunDone(cfg, s, mid, bars, cands)
    requires BarDone(cfg, mid, s', b, DueAt(cands, b.ts))
    ensures RunDone(cfg, s, s', bars + [b], cands)
  {
    StampsSnoc(bars, b);
    GrowsTransitive(s, mid, s');
    var k :| Settles(mid.orders, s'.orders, DueAt(cands, b.ts), k);
    forall a | a in cands && a.order < |s.orders|
      ensures if a.fillStamp in Stamps(bars + [b]) then !IsPending(s'.orders, a.order)
              else s'.orders[a.order] == s.orders[a.order]
    {
      UntouchedBySettling(mid, s', cands, cfg.symbol, b.ts, a, k);
      assert OrderEvolves(mid.orders[a.order], s'.orders[a.order]);
    }
    var pos := OpenIn(s', cfg.symbol);
    if pos.Some? {
      forall x | x in bars + [b] && pos.value.entryTs <= x.ts
        ensures Survived(cfg, s', pos.value, x)
      {
        if x in bars {
          var i :| 0 <= i < |bars| && bars[i] == x;
          assert (bars + [b])[i].ts < (bars + [b])[|bars|].ts;
          assert pos == OpenIn(mid, cfg.symbol);
          NotDueStaysNotDue(mid.snapshots, s'.snapshots, x.ts, cfg.interval);
        }
      }
    }
  }

  lemma NothingRun(cfg: Config, s: Store, cands: seq<Candidate>)
    requires StoreSound(s) && Seeded(s, cfg.seed)
    ensures RunDone(cfg, s, s, [], cands)
  {
  }

  lemma BarsWaitPrefix(cfg: Config, s: Store, bars: seq<Bar>, b: Bar, cands: seq<Candidate>)
    requires BarsWait(cfg, s, bars + [b], cands)
    ensures BarsWait(cfg, s, bars, cands) && Orderly(cands, cfg.symbol) && AscendingBars(bars + [b])
  {
    assert forall x :: x in bars ==> x in bars + [b];
    assert forall i :: 0 <= i < |bars| ==> (bars + [b])[i] == bars[i];
  }

  /** A run over bars whose candidates wait settles them bar by bar and leaves only a position that survived. */
  lemma {:induction false} RunFacts(c: CostFn, cfg: Config, s: Store, bars: seq<Bar>, cands: seq<Candidate>)
    requires StoreSound(s) && Seeded(s, cfg.seed) && BarsWait(cfg, s, bars, cands)
    ensures RunDone(cfg, s, RunStore(c, cfg, s, bars, cands), bars, cands)
  {
    hide StoreSound, Seeded, BarDone, StoreBar, Orderly, AscendingBars, BarsWait, Ready, RunDone;
    if bars == [] {
      NothingRun(cfg, s, cands);
    } else {
      var before, b := bars[..|bars| - 1], bars[|bars| - 1];
      assert bars == before + [b];
      BarsWaitPrefix(cfg, s, before, b, cands);
      RunFacts(c, cfg, s, before, cands);
      var mid := RunStore(c, cfg, s, before, cands);
      NextBarReady(cfg, s, mid, before, b, cands);
      RunDoneSound(cfg, s, mid, before, cands);
      BarFacts(c, cfg, mid, b, cands);
      StepRunDone(cfg, s, mid, StoreBar(c, cfg, mid, b, cands), before, b, cands);
    }
  }

  lemma RunDoneSound(cfg: Config, s: Store, s': Store, bars: seq<Bar>, cands: seq<Candidate>)
    requires RunDone(cfg, s, s', bars, cands)
    ensures StoreSound(s') && Seeded(s', cfg.seed)
  {
  }

  // ---- a pass as a run ----------------------------------------------------------------------

  function AnchorOf(cands: seq<Candidate>, current: Option<Position>, candles: seq<Bar>): Option<int> {
    var anchors := DueStamps(cands, candles) + EntryAnchor(current);
    if anchors == [] then None else Some(MinOf(anchors))
  }

  /** Every bar the unit owes, throttle aside. */
  function OwedBars(cfg: Config, s: Store, candles: seq<Bar>): seq<Bar> {
    var anchor := AnchorOf(UnitCandidates(cfg, s), OpenIn(s, cfg.symbol), candles);
    if anchor.None? then [] else From(candles, anchor.value)
  }

  function PassBars(cfg: Config, s: Store, candles: seq<Bar>): seq<Bar> {
    Take(OwedBars(cfg, s, candles), Throttle(cfg.maxBars))
  }

  lemma {:induction false} FromAscending(bars: seq<Bar>, low: int)
    requires AscendingBars(bars)
    ensures AscendingBars(From(bars, low))
  {
    if bars != [] {
      FromAscending(bars[1..], low);
      var rest := From(bars[1..], low);
      forall j | 0 <= j < |rest|
        ensures bars[0].ts < rest[j].ts
      {
        assert rest[j] in rest;
        var k :| 0 <= k < |bars[1..]| && bars[1..][k] == rest[j];
        assert bars[k + 1] == rest[j];
      }
    }
  }

  lemma {:induction false} FromFrom(bars: seq<Bar>, low: int, high: int)
    requires low <= high
    ensures From(From(bars, low), high) == From(bars, high)
    ensures |From(bars, high)| <= |From(bars, low)|
  {
    if bars != [] {
      FromFrom(bars[1..], low, high);
      var rest := From(bars[1..], low);
      if low <= bars[0].ts {
        assert From(bars, low)[1..] == rest;
      } else {
        assert From(bars, low) == rest;
      }
      assert From(bars, high) == (if high <= bars[0].ts then [bars[0]] else []) + From(bars[1..], high);
    }
  }

  lemma {:induction false} FromIsShorter(bars: seq<Bar>, low: int)
    ensures |From(bars, low)| <= |bars|
  {
    if bars != [] {
      FromIsShorter(bars[1..], low);
    }
  }

  lemma {:induction false} FromAll(bars: seq<Bar>, low: int)
    requires forall b :: b in bars ==> low <= b.ts
    ensures From(bars, low) == bars
  {
    if bars != [] {
      FromAll(bars[1..], low);
    }
  }

  lemma {:induction false} RangeNone(bars: seq<Bar>, low: int, high: int)
    requires forall b :: b in bars ==> high < b.ts
    ensures Range(bars, low, high) == []
  {
    if bars != [] {
      assert bars[0] in bars;
      RangeNone(bars[1..], low, high);
    }
  }

  lemma TailAscending(bars: seq<Bar>)
    requires AscendingBars(bars) && bars != []
    ensures AscendingBars(bars[1..]) && forall b :: b in bars ==> bars[0].ts <= b.ts
  {
  }

  function Kept(b: Bar, keep: bool): seq<Bar> {
    if keep then [b] else []
  }

  lemma RangeUnfolds(bars: seq<Bar>, low: int, high: int)
    requires bars != [] && bars[0].ts <= high
    ensures From(bars, low) == Kept(bars[0], low <= bars[0].ts) + From(bars[1..], low)
    ensures Range(bars, low, high) == Kept(bars[0], low <= bars[0].ts) + Range(bars[1..], low, high)
    ensures From(bars, high + 1) == From(bars[1..], high + 1)
  {
  }

  lemma Regroup<T>(a: seq<T>, b: seq<T>, c: seq<T>)
    ensures a + (b + c) == (a + b) + c
  {
  }

  lemma AllBeyond(bars: seq<Bar>, low: int, high: int)
    requires AscendingBars(bars) && bars != [] && high < bars[0].ts && low <= high + 1
    ensures From(bars, low) == bars && Range(bars, low, high) == [] && From(bars, high + 1) == bars
  {
    hide AscendingBars, From, Range;
    TailAscending(bars);
    RangeNone(bars, low, high);
    FromAll(bars, low);
    FromAll(bars, high + 1);
  }

  lemma {:induction false} RangeThenFrom(bars: seq<Bar>, low: int, high: int)
    requires AscendingBars(bars) && low <= high + 1
    ensures From(bars, low) == Range(bars, low, high) + From(bars, high + 1)
  {
    if bars != [] {
      hide AscendingBars, Kept, From, Range;
      TailAscending(bars);
      if high < bars[0].ts {
        AllBeyond(bars, low, high);
      } else {
        RangeUnfolds(bars, low, high);
        RangeThenFrom(bars[1..], low, high);
        Regroup(Kept(bars[0], low <= bars[0].ts), Range(bars[1..], low, high), From(bars[1..], high + 1));
      }
    }
  }

  lemma StampsMembers(bars: seq<Bar>, t: int)
    ensures t in Stamps(bars) <==> exists b :: b in bars && b.ts == t
  {
    if t in Stamps(bars) {
      var i :| 0 <= i < |bars| && Stamps(bars)[i] == t;
      assert bars[i] in bars && bars[i].ts == t;
    }
    if b :| b in bars && b.ts == t {
      var i :| 0 <= i < |bars| && bars[i] == b;
      assert Stamps(bars)[i] == t;
    }
  }

  lemma {:induction false} BarAtStamp(bars: seq<Bar>, b: Bar)
    requires AscendingBars(bars) && b in bars
    ensures b.ts in Stamps(bars) && BarAt(bars, b.ts) == b
  {
    StampsMembers(bars, b.ts);
    if bars[0] != b {
      assert bars == [bars[0]] + bars[1..];
      BarAtStamp(bars[1..], b);
    }
  }

  lemma {:induction false} SameDueStamps(cands: seq<Candidate>, a: seq<Bar>, b: seq<Bar>)
    requires forall x :: x in cands ==> (x.fillStamp in Stamps(a) <==> x.fillStamp in Stamps(b))
    ensures DueStamps(cands, a) == DueStamps(cands, b)
  {
    if cands != [] {
      SameDueStamps(cands[1..], a, b);
    }
  }

  lemma {:induction false} SameMissing(cands: seq<Candidate>, a: seq<Bar>, b: seq<Bar>, latest: int)
    requires forall x :: x in cands && x.fillStamp <= latest ==> (x.fillStamp in Stamps(a) <==> x.fillStamp in Stamps(b))
    ensures MissingFrom(cands, a, latest) == MissingFrom(cands, b, latest)
  {
    if cands != [] {
      SameMissing(cands[1..], a, b, latest);
    }
  }

  lemma StampInFrom(bars: seq<Bar>, low: int, t: int)
    ensures t in Stamps(From(bars, low)) <==> t in Stamps(bars) && low <= t
  {
    StampsMembers(From(bars, low), t);
    StampsMembers(bars, t);
    if t in Stamps(bars) && low <= t {
      var b :| b in bars && b.ts == t;
      assert b in From(bars, low);
    }
  }

  lemma LoadedStamps(cands: seq<Candidate>, current: Option<Position>, candles: seq<Bar>)
    requires candles != [] && AscendingBars(candles)
    ensures
      var loaded := LoadedBars(cands, current, candles);
      forall x :: x in cands ==> (x.fillStamp in Stamps(loaded) <==> x.fillStamp in Stamps(candles))
  {
    var latest := candles[|candles| - 1].ts;
    var bases := StampsUpTo(cands, latest) + EntryAnchor(current);
    if bases != [] {
      forall x | x in cands
        ensures x.fillStamp in Stamps(From(candles, MinOf(bases))) <==> x.fillStamp in Stamps(candles)
      {
        StampInFrom(candles, MinOf(bases), x.fillStamp);
        if x.fillStamp in Stamps(candles) {
          StampsMembers(candles, x.fillStamp);
          assert x.fillStamp in StampsUpTo(cands, latest);
          assert x.fillStamp in bases;
        }
      }
    }
  }

  lemma LastIsLatest(bars: seq<Bar>, t: int)
    requires AscendingBars(bars) && t in Stamps(bars)
    ensures bars != [] && t <= bars[|bars| - 1].ts
  {
    var i :| 0 <= i < |bars| && Stamps(bars)[i] == t;
  }

  lemma BaseBeforeAnchor(cands: seq<Candidate>, current: Option<Position>, candles: seq<Bar>)
    requires candles != [] && AscendingBars(candles) && AnchorOf(cands, current, candles).Some?
    ensures
      var bases := StampsUpTo(cands, candles[|candles| - 1].ts) + EntryAnchor(current);
      bases != [] && MinOf(bases) <= AnchorOf(cands, current, candles).value
  {
    hide AscendingBars;
    var latest := candles[|candles| - 1].ts;
    var bases := StampsUpTo(cands, latest) + EntryAnchor(current);
    var anchor := AnchorOf(cands, current, candles).value;
    if anchor in DueStamps(cands, candles) {
      LastIsLatest(candles, anchor);
      assert anchor in StampsUpTo(cands, latest);
    }
    assert anchor in bases;
  }

  /** Loading only from the earliest base loses no bar the pass looks at. */
  lemma LoadedIsEnough(cands: seq<Candidate>, current: Option<Position>, candles: seq<Bar>)
    requires candles != [] && AscendingBars(candles)
    ensures
      var loaded, latest := LoadedBars(cands, current, candles), candles[|candles| - 1].ts;
      && AscendingBars(loaded)
      && DueStamps(cands, loaded) == DueStamps(cands, candles)
      && MissingFrom(cands, loaded, latest) == MissingFrom(cands, candles, latest)
      && (var anchor := AnchorOf(cands, current, candles);
          anchor.Some? ==> From(loaded, anchor.value) == From(candles, anchor.value))
      && forall b :: b in loaded ==> b in candles
  {
    var latest := candles[|candles| - 1].ts;
    var loaded := LoadedBars(cands, current, candles);
    LoadedStamps(cands, current, candles);
    SameDueStamps(cands, loaded, candles);
    SameMissing(cands, loaded, candles, latest);
    var bases := StampsUpTo(cands, latest) + EntryAnchor(current);
    if bases != [] {
      FromAscending(candles, MinOf(bases));
    }
    var anchor := AnchorOf(cands, current, candles);
    if anchor.Some? {
      BaseBeforeAnchor(cands, current, candles);
      FromFrom(candles, MinOf(bases), anchor.value);
    }
  }

  lemma TakeStamps(bars: seq<Bar>, n: nat)
    ensures Take(Stamps(bars), n) == Stamps(Take(bars, n))
  {
  }

  lemma StampsAscending(bars: seq<Bar>)
    requires AscendingBars(bars)
    ensures Ascending(Stamps(bars))
  {
  }

  lemma OwedFacts(cfg: Config, s: Store, candles: seq<Bar>)
    requires candles != [] && AscendingBars(candles)
    ensures
      var cands, current := UnitCandidates(cfg, s), OpenIn(s, cfg.symbol);
      OutstandingStamps(cands, LoadedBars(cands, current, candles), current) == Stamps(OwedBars(cfg, s, candles))
    ensures AscendingBars(OwedBars(cfg, s, candles))
    ensures
      forall b :: b in OwedBars(cfg, s, candles) ==>
        b in LoadedBars(UnitCandidates(cfg, s), OpenIn(s, cfg.symbol), candles) && b in candles
  {
    hide UnitCandidates, OpenIn, LoadedBars, From;
    var cands, current := UnitCandidates(cfg, s), OpenIn(s, cfg.symbol);
    LoadedIsEnough(cands, current, candles);
    var anchor := AnchorOf(cands, current, candles);
    if anchor.Some? {
      FromAscending(candles, anchor.value);
    }
  }

  lemma TakeAscending(bars: seq<Bar>, n: nat)
    requires AscendingBars(bars)
    ensures AscendingBars(Take(bars, n))
    ensures forall b :: b in Take(bars, n) ==> b in bars
  {
  }

  /** The window of a pass is the stamps of its bars. */
  lemma WindowIsPassBars(cfg: Config, s: Store, candles: seq<Bar>)
    requires candles != [] && AscendingBars(candles)
    ensures PassWindow(cfg, s, candles).bars == Stamps(PassBars(cfg, s, candles))
    ensures AscendingBars(PassBars(cfg, s, candles))
    ensures
      forall b :: b in PassBars(cfg, s, candles) ==>
        b in LoadedBars(UnitCandidates(cfg, s), OpenIn(s, cfg.symbol), candles) && b in candles
  {
    hide UnitCandidates, OpenIn, LoadedBars, OwedBars, OutstandingStamps, AscendingBars, Ascending, Ordered;
    OwedFacts(cfg, s, candles);
    var owed := OwedBars(cfg, s, candles);
    StampsAscending(owed);
    OrderedAlready(Stamps(owed));
    TakeStamps(owed, Throttle(cfg.maxBars));
    TakeAscending(owed, Throttle(cfg.maxBars));
  }

  // ---- missing bars -----------------------------------------------------------------------

  ghost predicate Names(cands: seq<Candidate>, h: nat) {
    exists a :: a in cands && a.order == h
  }

  /** Named orders are not waiting any more, all other rows and the wallet are as before. */
  ghost predicate CancelsNamed(l: Ledger, l': Ledger, cands: seq<Candidate>) {
    && Sound(l') && Grows(l.store, l'.store)
    && l'.wallet == l.wallet && l'.seed == l.seed
    && l'.store == l.store.(orders := l'.store.orders) && |l'.store.orders| == |l.store.orders|
    && forall h :: 0 <= h < |l.store.orders| ==>
         if Names(cands, h) then !IsPending(l'.store.orders, h) else l'.store.orders[h] == l.store.orders[h]
  }

  lemma NamesCons(cands: seq<Candidate>, h: nat)
    requires cands != []
    ensures Names(cands, h) <==> h == cands[0].order || Names(cands[1..], h)
  {
    assert cands == [cands[0]] + cands[1..];
    if Names(cands[1..], h) {
      var a :| a in cands[1..] && a.order == h;
      assert a in cands;
    }
    assert cands[0] in cands;
  }

  lemma CancelsCons(l: Ledger, l1: Ledger, l': Ledger, cands: seq<Candidate>)
    requires cands != [] && Sound(l) && l1 == Cancel(l, cands[0].order)
    requires CancelsNamed(l1, l', cands[1..])
    ensures CancelsNamed(l, l', cands)
  {
    CancelKeeps(l, cands[0].order);
    GrowsTransitive(l.store, l1.store, l'.store);
    forall h | 0 <= h < |l.store.orders|
      ensures if Names(cands, h) then !IsPending(l'.store.orders, h) else l'.store.orders[h] == l.store.orders[h]
    {
      NamesCons(cands, h);
      assert OrderEvolves(l1.store.orders[h], l'.store.orders[h]);
    }
  }

  lemma {:induction false} CancelAllFacts(l: Ledger, cands: seq<Candidate>)
    requires Sound(l)
    ensures CancelsNamed(l, CancelAll(l, cands), cands)
    decreases cands
  {
    if cands != [] {
      CancelKeeps(l, cands[0].order);
      CancelAllFacts(Cancel(l, cands[0].order), cands[1..]);
      CancelsCons(l, Cancel(l, cands[0].order), CancelAll(l, cands), cands);
    }
  }

  /** No closed candle will ever carry this fill bar. */
  predicate Missing(a: Candidate, candles: seq<Bar>)
    requires candles != []
  {
    a.fillStamp <= candles[|candles| - 1].ts && a.fillStamp !in Stamps(candles)
  }

  lemma HasMember<T>(xs: seq<T>)
    ensures xs != [] ==> exists x :: x in xs
  {
    if xs != [] {
      assert xs[0] in xs;
    }
  }

  lemma MissingFacts(cfg: Config, s: Store, candles: seq<Bar>)
    requires StoreSound(s) && Seeded(s, cfg.seed) && candles != [] && AscendingBars(candles)
    ensures
      var l := AfterMissing(cfg, s, candles);
      && Anchored(cfg, l) && StoreSound(l.store) && Seeded(l.store, cfg.seed) && Grows(s, l.store)
      && l.store == s.(orders := l.store.orders) && |l.store.orders| == |s.orders|
      && forall a :: a in UnitCandidates(cfg, s) ==>
           if Missing(a, candles) then !IsPending(l.store.orders, a.order)
           else a.order < |s.orders| && l.store.orders[a.order] == s.orders[a.order]
    ensures
      (forall a :: a in UnitCandidates(cfg, s) ==> !Missing(a, candles)) ==> AfterMissing(cfg, s, candles).store == s
  {
    var cands, current := UnitCandidates(cfg, s), OpenIn(s, cfg.symbol);
    var latest := candles[|candles| - 1].ts;
    var loaded := LoadedBars(cands, current, candles);
    var doomed := MissingFrom(cands, loaded, latest);
    LoadedIsEnough(cands, current, candles);
    SortKeepsBag(doomed, CandidateKey());
    RestoreFacts(cfg, s);
    UnitCandidatesExact(cfg, s);
    var l0 := Restore(Fresh(cfg, s));
    var list := MissingBarCandidates(cands, loaded, latest);
    CancelAllFacts(l0, list);
    var l := AfterMissing(cfg, s, candles);
    SettlesSeeds(s, l.store, cfg.seed);
    forall a | a in cands
      ensures if Missing(a, candles) then !IsPending(l.store.orders, a.order)
              else a.order < |s.orders| && l.store.orders[a.order] == s.orders[a.order]
    {
      assert Waiting(s, a);
      if Missing(a, candles) {
        assert a in list;
        assert Names(list, a.order);
      } else {
        forall b | b in list
          ensures b.order != a.order
        {
          assert b in cands && Missing(b, candles);
        }
        assert !Names(list, a.order);
      }
    }
    if forall a :: a in cands ==> !Missing(a, candles) {
      HasMember(doomed);
      assert list == [];
    }
  }

  // ---- a pass is a run --------------------------------------------------------------------

  lemma RunBarsSnoc(c: CostFn, cfg: Config, l: Ledger, bars: seq<Bar>, b: Bar, loaded: seq<Bar>, cands: seq<Candidate>)
    requires AscendingBars(loaded) && b in loaded
    requires forall t :: t in Stamps(bars) ==> t in Stamps(loaded)
    ensures forall t :: t in Stamps(bars + [b]) ==> t in Stamps(loaded)
    ensures
      RunBars(c, cfg, l, Stamps(bars + [b]), loaded, cands) ==
      ProcessBar(c, RunBars(c, cfg, l, Stamps(bars), loaded, cands), cfg.symbol, b, cands, cfg.interval).ledger
  {
    hide ProcessBar, AscendingBars;
    BarAtStamp(loaded, b);
    StampsSnoc(bars, b);
    var stamps := Stamps(bars + [b]);
    assert stamps[..|stamps| - 1] == Stamps(bars);
    assert stamps[|stamps| - 1] == b.ts;
  }

  /** A list of loaded bars whose stamps can be looked up. */
  ghost predicate Among(bars: seq<Bar>, loaded: seq<Bar>) {
    && AscendingBars(loaded)
    && (forall b :: b in bars ==> b in loaded)
    && forall t :: t in Stamps(bars) ==> t in Stamps(loaded)
  }

  lemma {:induction false} BarsAreRun(c: CostFn, cfg: Config, l: Ledger, bars: seq<Bar>, loaded: seq<Bar>,
                                      cands: seq<Candidate>)
    requires StoreSound(l.store) && Seeded(l.store, cfg.seed) && Anchored(cfg, l)
    requires BarsWait(cfg, l.store, bars, cands) && Among(bars, loaded)
    ensures
      var l' := RunBars(c, cfg, l, Stamps(bars), loaded, cands);
      Anchored(cfg, l') && l'.store == RunStore(c, cfg, l.store, bars, cands)
  {
    hide StoreSound, Seeded, BarsWait, RunDone, Ready, ProcessBar, StoreBar, Anchored, Among, RunBars, AscendingBars,
         Orderly;
    AmongStamps(bars, loaded);
    if bars == [] {
      NoBars(c, cfg, l, loaded, cands);
    } else {
      var n := |bars| - 1;
      var before, b := bars[..n], bars[n];
      assert bars == before + [b];
      AmongPrefix(before, b, loaded);
      BarsWaitPrefix(cfg, l.store, before, b, cands);
      BarsAreRun(c, cfg, l, before, loaded, cands);
      RunFacts(c, cfg, l.store, before, cands);
      RunBarsSnoc(c, cfg, l, before, b, loaded, cands);
      var mid := RunBars(c, cfg, l, Stamps(before), loaded, cands);
      NextBarReady(cfg, l.store, mid.store, before, b, cands);
      RunDoneSound(cfg, l.store, mid.store, before, cands);
      BarKeepsAnchored(c, cfg, mid, b, cands);
    }
  }

  lemma NoBars(c: CostFn, cfg: Config, l: Ledger, loaded: seq<Bar>, cands: seq<Candidate>)
    ensures RunBars(c, cfg, l, Stamps([]), loaded, cands) == l
  {
  }

  lemma AmongStamps(bars: seq<Bar>, loaded: seq<Bar>)
    requires Among(bars, loaded)
    ensures AscendingBars(loaded) && forall t :: t in Stamps(bars) ==> t in Stamps(loaded)
  {
  }

  lemma AmongPrefix(before: seq<Bar>, b: Bar, loaded: seq<Bar>)
    requires Among(before + [b], loaded)
    ensures Among(before, loaded) && b in loaded && AscendingBars(loaded)
    ensures forall t :: t in Stamps(before) ==> t in Stamps(loaded)
  {
    StampsSnoc(before, b);
    assert b in before + [b];
    assert forall x :: x in before ==> x in before + [b];
  }

  lemma PassBarsWait(cfg: Config, s: Store, candles: seq<Bar>)
    requires StoreSound(s) && Seeded(s, cfg.seed) && candles != [] && AscendingBars(candles)
    ensures
      forall b :: b in candles ==> WaitingAt(AfterMissing(cfg, s, candles).store, UnitCandidates(cfg, s), b.ts)
  {
    hide AfterMissing, UnitCandidates, StoreSound, Seeded, Grows;
    MissingFacts(cfg, s, candles);
    UnitCandidatesExact(cfg, s);
    var s0 := AfterMissing(cfg, s, candles).store;
    forall b, a | b in candles && a in UnitCandidates(cfg, s) && a.fillStamp == b.ts
      ensures Waiting(s0, a)
    {
      StampsMembers(candles, b.ts);
      assert !Missing(a, candles);
      assert Waiting(s, a);
    }
  }

  lemma PrefixWaits(cfg: Config, s: Store, candles: seq<Bar>, k: nat)
    requires StoreSound(s) && Seeded(s, cfg.seed) && candles != [] && AscendingBars(candles)
    requires k <= |PassBars(cfg, s, candles)|
    ensures BarsWait(cfg, AfterMissing(cfg, s, candles).store, PassBars(cfg, s, candles)[..k], UnitCandidates(cfg, s))
  {
    hide AfterMissing, UnitCandidates, StoreSound, Seeded, AscendingBars, PassBars, LoadedBars, Orderly, WaitingAt;
    WindowIsPassBars(cfg, s, candles);
    UnitCandidatesExact(cfg, s);
    PassBarsWait(cfg, s, candles);
    PrefixMembers(PassBars(cfg, s, candles), k);
    PrefixAscends(PassBars(cfg, s, candles), k);
  }

  lemma PrefixAscends(bars: seq<Bar>, k: nat)
    requires AscendingBars(bars) && k <= |bars|
    ensures AscendingBars(bars[..k])
  {
  }

  lemma SubsetIsAmong(bars: seq<Bar>, loaded: seq<Bar>)
    requires AscendingBars(loaded) && forall b :: b in bars ==> b in loaded
    ensures Among(bars, loaded)
  {
    forall t | t in Stamps(bars)
      ensures t in Stamps(loaded)
    {
      StampsMembers(bars, t);
      StampsMembers(loaded, t);
    }
  }

  lemma PrefixMembers<T>(xs: seq<T>, k: nat)
    requires k <= |xs|
    ensures forall x :: x in xs[..k] ==> x in xs
  {
  }

  lemma PrefixAmong(cfg: Config, s: Store, candles: seq<Bar>, k: nat)
    requires candles != [] && AscendingBars(candles) && k <= |PassBars(cfg, s, candles)|
    ensures Among(PassBars(cfg, s, candles)[..k], LoadedBars(UnitCandidates(cfg, s), OpenIn(s, cfg.symbol), candles))
    ensures k <= |PassWindow(cfg, s, candles).bars|
    ensures PassWindow(cfg, s, candles).bars[..k] == Stamps(PassBars(cfg, s, candles)[..k])
  {
    WindowIsPassBars(cfg, s, candles);
    var bars := PassBars(cfg, s, candles);
    PrefixMembers(bars, k);
    LoadedIsEnough(UnitCandidates(cfg, s), OpenIn(s, cfg.symbol), candles);
    SubsetIsAmong(bars[..k], LoadedBars(UnitCandidates(cfg, s), OpenIn(s, cfg.symbol), candles));
    TakeStamps(bars, k);
  }

  lemma PassIsRun(c: CostFn, cfg: Config, s: Store, candles: seq<Bar>, k: nat)
    requires StoreSound(s) && Seeded(s, cfg.seed) && candles != [] && AscendingBars(candles)
    requires k <= |PassBars(cfg, s, candles)|
    ensures k <= |PassWindow(cfg, s, candles).bars|
    ensures
      PassPrefix(c, cfg, s, candles, k) ==
      RunStore(c, cfg, AfterMissing(cfg, s, candles).store, PassBars(cfg, s, candles)[..k], UnitCandidates(cfg, s))
  {
    var cands := UnitCandidates(cfg, s);
    PrefixAmong(cfg, s, candles, k);
    PrefixWaits(cfg, s, candles, k);
    MissingFacts(cfg, s, candles);
    BarsAreRun(c, cfg, AfterMissing(cfg, s, candles), PassBars(cfg, s, candles)[..k],
               LoadedBars(cands, OpenIn(s, cfg.symbol), candles), cands);
  }

  lemma PassFacts(c: CostFn, cfg: Config, s: Store, candles: seq<Bar>, k: nat)
    requires StoreSound(s) && Seeded(s, cfg.seed) && candles != [] && AscendingBars(candles)
    requires k <= |PassBars(cfg, s, candles)|
    ensures
      RunDone(cfg, AfterMissing(cfg, s, candles).store,
              RunStore(c, cfg, AfterMissing(cfg, s, candles).store, PassBars(cfg, s, candles)[..k], UnitCandidates(cfg, s)),
              PassBars(cfg, s, candles)[..k], UnitCandidates(cfg, s))
  {
    PrefixWaits(cfg, s, candles, k);
    MissingFacts(cfg, s, candles);
    RunFacts(c, cfg, AfterMissing(cfg, s, candles).store, PassBars(cfg, s, candles)[..k], UnitCandidates(cfg, s));
  }

  // ---- restarting -------------------------------------------------------------------------

  /** The store after `k` bars of the pass, and what a fresh pass finds there. */
  ghost predicate StoppedAt(c: CostFn, cfg: Config, s: Store, candles: seq<Bar>, k: nat, sk: Store) {
    && StoreSound(s) && Seeded(s, cfg.seed) && candles != [] && AscendingBars(candles)
    && k <= |PassBars(cfg, s, candles)|
    && sk == RunStore(c, cfg, AfterMissing(cfg, s, candles).store, PassBars(cfg, s, candles)[..k], UnitCandidates(cfg, s))
  }

  lemma StoppedFacts(c: CostFn, cfg: Config, s: Store, candles: seq<Bar>, k: nat, sk: Store)
    requires StoppedAt(c, cfg, s, candles, k, sk)
    ensures StoreSound(sk) && Seeded(sk, cfg.seed) && Grows(s, sk) && |sk.orders| == |s.orders|
    ensures
      var done := PassBars(cfg, s, candles)[..k];
      && (forall a :: a in UnitCandidates(cfg, s) ==>
            a.order < |s.orders| &&
            (if Missing(a, candles) || a.fillStamp in Stamps(done) then !IsPending(sk.orders, a.order)
             else sk.orders[a.order] == s.orders[a.order]))
      && (var pos := OpenIn(sk, cfg.symbol);
          pos.Some? ==>
            && (pos == OpenIn(s, cfg.symbol) || pos.value.entryTs in Stamps(done))
            && forall b :: b in done && pos.value.entryTs <= b.ts ==> Survived(cfg, sk, pos.value, b))
  {
    hide StoreSound, Seeded, AscendingBars, PassBars, RunStore, Anchored, Missing, UnitCandidates, AfterMissing,
         Survived;
    PassFacts(c, cfg, s, candles, k);
    MissingFacts(cfg, s, candles);
    UnitCandidatesExact(cfg, s);
    var s0 := AfterMissing(cfg, s, candles).store;
    GrowsTransitive(s, s0, sk);
    forall a | a in UnitCandidates(cfg, s)
      ensures a.order < |s.orders|
      ensures
        if Missing(a, candles) || a.fillStamp in Stamps(PassBars(cfg, s, candles)[..k]) then !IsPending(sk.orders, a.order)
        else sk.orders[a.order] == s.orders[a.order]
    {
      assert Waiting(s, a);
      assert OrderEvolves(s0.orders[a.order], sk.orders[a.order]);
    }
  }

  /** An order still pending at the stop is exactly as it was before the pass. */
  lemma StillUnitOrder(cfg: Config, s: Store, sk: Store, a: Candidate)
    requires Grows(s, sk) && |sk.orders| == |s.orders|
    ensures UnitOrder(cfg, sk, a) ==> UnitOrder(cfg, s, a)
    ensures UnitOrder(cfg, s, a) && sk.orders[a.order] == s.orders[a.order] ==> UnitOrder(cfg, sk, a)
  {
    if UnitOrder(cfg, sk, a) {
      assert OrderEvolves(s.orders[a.order], sk.orders[a.order]);
    }
  }

  /** A fresh pass sees exactly the candidates that are still waiting. */
  ghost predicate Remaining(cands: seq<Candidate>, cands': seq<Candidate>, candles: seq<Bar>, done: seq<Bar>)
    requires candles != []
  {
    forall a :: a in cands' <==> a in cands && !Missing(a, candles) && a.fillStamp !in Stamps(done)
  }

  lemma RemainingCandidates(c: CostFn, cfg: Config, s: Store, candles: seq<Bar>, k: nat, sk: Store)
    requires StoppedAt(c, cfg, s, candles, k, sk)
    ensures Remaining(UnitCandidates(cfg, s), UnitCandidates(cfg, sk), candles, PassBars(cfg, s, candles)[..k])
  {
    StoppedFacts(c, cfg, s, candles, k, sk);
    UnitCandidatesExact(cfg, s);
    UnitCandidatesExact(cfg, sk);
    var cands, cands', done := UnitCandidates(cfg, s), UnitCandidates(cfg, sk), PassBars(cfg, s, candles)[..k];
    forall a
      ensures a in cands' <==> a in cands && !Missing(a, candles) && a.fillStamp !in Stamps(done)
    {
      StillUnitOrder(cfg, s, sk, a);
      assert a in cands' <==> UnitOrder(cfg, sk, a);
      assert a in cands <==> UnitOrder(cfg, s, a);
      assert UnitOrder(cfg, sk, a) ==> IsPending(sk.orders, a.order);
    }
  }

  lemma FromUnfolds(bars: seq<Bar>, low: int)
    requires bars != []
    ensures From(bars, low) == Kept(bars[0], low <= bars[0].ts) + From(bars[1..], low)
  {
  }

  lemma {:induction false} FromConcat(a: seq<Bar>, b: seq<Bar>, low: int)
    ensures From(a + b, low) == From(a, low) + From(b, low)
  {
    hide From, Kept;
    if a == [] {
      assert a + b == b;
      assert From(a, low) == [] by { HasMember(From(a, low)); }
    } else {
      assert (a + b)[0] == a[0] && (a + b)[1..] == a[1..] + b;
      FromUnfolds(a + b, low);
      FromUnfolds(a, low);
      FromConcat(a[1..], b, low);
      Regroup(Kept(a[0], low <= a[0].ts), From(a[1..], low), From(b, low));
    }
  }

  lemma FromSuffix(bars: seq<Bar>, k: nat)
    requires AscendingBars(bars) && 1 <= k <= |bars|
    ensures From(bars, bars[k - 1].ts + 1) == bars[k..]
  {
    hide From;
    var low := bars[k - 1].ts + 1;
    assert bars == bars[..k] + bars[k..];
    FromConcat(bars[..k], bars[k..], low);
    HasMember(From(bars[..k], low));
    FromAll(bars[k..], low);
  }

  /** The same due list on a bar that has not been processed yet. */
  lemma SameDueAhead(cands: seq<Candidate>, cands': seq<Candidate>, symbol: string, candles: seq<Bar>, done: seq<Bar>,
                     b: Bar)
    requires candles != [] && Remaining(cands, cands', candles, done)
    requires Orderly(cands, symbol) && Orderly(cands', symbol)
    requires b in candles && b.ts !in Stamps(done)
    ensures DueAt(cands, b.ts) == DueAt(cands', b.ts)
  {
    DueFacts(cands, symbol, b.ts);
    DueFacts(cands', symbol, b.ts);
    StampsMembers(candles, b.ts);
    SortedUnique(DueAt(cands, b.ts), DueAt(cands', b.ts), CandidateKey());
  }

  /**
   * From the stopped store, every bar after the watermark `w` that a fresh pass would not look at, because it starts at
   * its own anchor, is quiet.
   */
  ghost predicate SkipsQuiet(cfg: Config, sk: Store, candles: seq<Bar>, cands': seq<Candidate>, w: int) {
    var next := AnchorOf(cands', OpenIn(sk, cfg.symbol), candles);
    forall b :: b in candles && w < b.ts && (next.Some? ==> b.ts < next.value) ==> Quiet(cfg, sk, b, cands')
  }

  /** The throttle covers every bar the unit owes. */
  predicate Covered(cfg: Config, s: Store, candles: seq<Bar>) {
    |OwedBars(cfg, s, candles)| <= Throttle(cfg.maxBars)
  }

  /** `done` are the candles from `anchor` up to `w`. */
  ghost predicate UpTo(done: seq<Bar>, candles: seq<Bar>, anchor: int, w: int) {
    forall b :: b in done <==> b in candles && anchor <= b.ts <= w
  }

  /**
   * A stopped pass, seen from its store `sk`: `pos` was open and `cands` were waiting when it started at `anchor`,
   * `done` are the bars up to `w`, `cands'` are waiting now.
   */
  ghost predicate Stopped(cfg: Config, sk: Store, pos: Option<Position>, candles: seq<Bar>, cands: seq<Candidate>,
                          cands': seq<Candidate>, done: seq<Bar>, anchor: int, w: int)
  {
    && candles != [] && AscendingBars(candles) && StoreSound(sk)
    && Remaining(cands, cands', candles, done)
    && AnchorOf(cands, pos, candles) == Some(anchor) && anchor <= w + 1
    && UpTo(done, candles, anchor, w)
    && (done == [] ==> w == anchor - 1)
    && var now := OpenIn(sk, cfg.symbol);
       now.Some? ==>
         && (now == pos || now.value.entryTs in Stamps(done))
         && forall b :: b in done && now.value.entryTs <= b.ts ==> Survived(cfg, sk, now.value, b)
  }

  lemma AnchorIsLeast(cands: seq<Candidate>, pos: Option<Position>, candles: seq<Bar>)
    ensures
      var anchor := AnchorOf(cands, pos, candles);
      && (pos.Some? ==> anchor.Some? && anchor.value <= pos.value.entryTs)
      && (forall a :: a in cands && a.fillStamp in Stamps(candles) ==> anchor.Some? && anchor.value <= a.fillStamp)
      && (anchor.Some? ==>
            || (pos.Some? && anchor.value == pos.value.entryTs)
            || (anchor.value in Stamps(candles) && exists a :: a in cands && a.fillStamp == anchor.value))
  {
    var anchors := DueStamps(cands, candles) + EntryAnchor(pos);
    if pos.Some? {
      assert pos.value.entryTs in EntryAnchor(pos);
      assert pos.value.entryTs in anchors;
    }
    forall a | a in cands && a.fillStamp in Stamps(candles)
      ensures a.fillStamp in anchors
    {
      assert a.fillStamp in DueStamps(cands, candles);
    }
    if anchors != [] {
      assert MinOf(anchors) in DueStamps(cands, candles) || MinOf(anchors) in EntryAnchor(pos);
    }
  }

  /** A stamp is outstanding iff its bar has closed and it is no earlier than a due order or the open entry. */
  lemma OutstandingExact(cands: seq<Candidate>, bars: seq<Bar>, current: Option<Position>, t: int)
    ensures
      t in OutstandingStamps(cands, bars, current) <==>
      && t in Stamps(bars)
      && ((exists a :: a in cands && a.fillStamp in Stamps(bars) && a.fillStamp <= t) ||
          (current.Some? && current.value.entryTs <= t))
  {
    AnchorIsLeast(cands, current, bars);
    var anchors := DueStamps(cands, bars) + EntryAnchor(current);
    if anchors != [] {
      StampInFrom(bars, MinOf(anchors), t);
    }
  }

  /** A fresh pass starts no earlier than the stopped one did. */
  lemma AnchorMovesOn(cfg: Config, sk: Store, pos: Option<Position>, candles: seq<Bar>, cands: seq<Candidate>,
                      cands': seq<Candidate>, done: seq<Bar>, anchor: int, w: int)
    requires Stopped(cfg, sk, pos, candles, cands, cands', done, anchor, w)
    ensures
      var next := AnchorOf(cands', OpenIn(sk, cfg.symbol), candles);
      next.Some? ==> anchor <= next.value
  {
    var now := OpenIn(sk, cfg.symbol);
    AnchorIsLeast(cands, pos, candles);
    AnchorIsLeast(cands', now, candles);
    if now.Some? {
      StampsMembers(done, now.value.entryTs);
    }
  }

  lemma NoStampNoDue(cands: seq<Candidate>, ts: int)
    requires forall a :: a in cands ==> a.fillStamp != ts
    ensures WithStamp(cands, ts) == []
  {
    HasMember(WithStamp(cands, ts));
  }

  /** Done bars at or after the fresh anchor are replays; they are quiet. */
  lemma ReplaysAreQuiet(cfg: Config, sk: Store, pos: Option<Position>, candles: seq<Bar>, cands: seq<Candidate>,
                        cands': seq<Candidate>, done: seq<Bar>, anchor: int, w: int, b: Bar)
    requires Stopped(cfg, sk, pos, candles, cands, cands', done, anchor, w)
    requires b in candles && b.ts <= w
    requires
      var next := AnchorOf(cands', OpenIn(sk, cfg.symbol), candles);
      next.Some? && anchor <= next.value <= b.ts
    ensures Quiet(cfg, sk, b, cands')
  {
    hide StoreSound, AscendingBars;
    var now := OpenIn(sk, cfg.symbol);
    var next := AnchorOf(cands', now, candles).value;
    assert b in done;
    StampsMembers(done, b.ts);
    NoStampNoDue(cands', b.ts);
    AnchorIsLeast(cands', now, candles);
    StampsMembers(candles, next);
    StampsMembers(done, next);
  }

  /** Members of a prefix of ascending bars are told by their stamps. */
  lemma PrefixByStamp(bars: seq<Bar>, k: nat, b: Bar)
    requires AscendingBars(bars) && 1 <= k <= |bars|
    ensures b in bars[..k] <==> b in bars && b.ts <= bars[k - 1].ts
  {
    if b in bars && b.ts <= bars[k - 1].ts {
      var i :| 0 <= i < |bars| && bars[i] == b;
      assert i < k;
      assert bars[..k][i] == b;
    }
    if b in bars[..k] {
      var i :| 0 <= i < k && bars[..k][i] == b;
      assert bars[i] == b;
    }
  }

  lemma PrefixOfFromMember(candles: seq<Bar>, anchor: int, k: nat, b: Bar)
    requires AscendingBars(candles) && 1 <= k <= |From(candles, anchor)|
    ensures b in From(candles, anchor)[..k] <==> b in candles && anchor <= b.ts <= From(candles, anchor)[k - 1].ts
  {
    FromAscending(candles, anchor);
    PrefixByStamp(From(candles, anchor), k, b);
  }

  lemma SuffixOfFrom(candles: seq<Bar>, anchor: int, k: nat)
    requires AscendingBars(candles) && 1 <= k <= |From(candles, anchor)|
    ensures anchor <= From(candles, anchor)[k - 1].ts
    ensures From(candles, anchor)[k..] == From(candles, From(candles, anchor)[k - 1].ts + 1)
  {
    hide From;
    var from := From(candles, anchor);
    assert from[k - 1] in from;
    FromAscending(candles, anchor);
    FromSuffix(from, k);
    FromFrom(candles, anchor, from[k - 1].ts + 1);
  }

  lemma PrefixUpTo(candles: seq<Bar>, anchor: int, k: nat)
    requires AscendingBars(candles) && 1 <= k <= |From(candles, anchor)|
    ensures UpTo(From(candles, anchor)[..k], candles, anchor, From(candles, anchor)[k - 1].ts)
  {
    forall b
      ensures b in From(candles, anchor)[..k] <==> b in candles && anchor <= b.ts <= From(candles, anchor)[k - 1].ts
    {
      PrefixOfFromMember(candles, anchor, k, b);
    }
  }

  lemma EmptyPrefix(bars: seq<Bar>, candles: seq<Bar>, anchor: int)
    ensures bars[0..] == bars && UpTo(bars[..0], candles, anchor, anchor - 1)
  {
  }

  /** A prefix of the bars from an anchor on is the bars up to its last stamp. */
  lemma PrefixOfFrom(candles: seq<Bar>, anchor: int, k: nat) returns (w: int)
    requires AscendingBars(candles) && k <= |From(candles, anchor)|
    ensures anchor <= w + 1 && (k == 0 ==> w == anchor - 1)
    ensures From(candles, anchor)[k..] == From(candles, w + 1)
    ensures UpTo(From(candles, anchor)[..k], candles, anchor, w)
  {
    hide From, AscendingBars, UpTo;
    if k == 0 {
      w := anchor - 1;
      EmptyPrefix(From(candles, anchor), candles, anchor);
    } else {
      w := From(candles, anchor)[k - 1].ts;
      SuffixOfFrom(candles, anchor, k);
      PrefixUpTo(candles, anchor, k);
    }
  }

  lemma CoveredBars(cfg: Config, s: Store, candles: seq<Bar>)
    requires Covered(cfg, s, candles)
    ensures PassBars(cfg, s, candles) == OwedBars(cfg, s, candles)
  {
    TakeAll(OwedBars(cfg, s, candles), Throttle(cfg.maxBars));
  }

  lemma StopIsStopped(c: CostFn, cfg: Config, s: Store, candles: seq<Bar>, k: nat, sk: Store) returns (anchor: int, w: int)
    requires StoppedAt(c, cfg, s, candles, k, sk) && Covered(cfg, s, candles)
    requires AnchorOf(UnitCandidates(cfg, s), OpenIn(s, cfg.symbol), candles).Some?
    ensures
      Stopped(cfg, sk, OpenIn(s, cfg.symbol), candles, UnitCandidates(cfg, s), UnitCandidates(cfg, sk),
              PassBars(cfg, s, candles)[..k], anchor, w)
    ensures PassBars(cfg, s, candles)[k..] == From(candles, w + 1)
    ensures OwedBars(cfg, s, candles) == From(candles, anchor)
  {
    StoppedFacts(c, cfg, s, candles, k, sk);
    RemainingCandidates(c, cfg, s, candles, k, sk);
    CoveredBars(cfg, s, candles);
    var cands, pos, done := UnitCandidates(cfg, s), OpenIn(s, cfg.symbol), PassBars(cfg, s, candles)[..k];
    anchor := AnchorOf(cands, pos, candles).value;
    w := PrefixOfFrom(candles, anchor, k);
    IsStopped(cfg, sk, pos, candles, cands, UnitCandidates(cfg, sk), done, anchor, w);
  }

  lemma IsStopped(cfg: Config, sk: Store, pos: Option<Position>, candles: seq<Bar>, cands: seq<Candidate>,
                  cands': seq<Candidate>, done: seq<Bar>, anchor: int, w: int)
    requires candles != [] && AscendingBars(candles) && StoreSound(sk)
    requires Remaining(cands, cands', candles, done)
    requires AnchorOf(cands, pos, candles) == Some(anchor) && anchor <= w + 1
    requires UpTo(done, candles, anchor, w)
    requires done == [] ==> w == anchor - 1
    requires
      var now := OpenIn(sk, cfg.symbol);
      now.Some? ==>
        && (now == pos || now.value.entryTs in Stamps(done))
        && forall b :: b in done && now.value.entryTs <= b.ts ==> Survived(cfg, sk, now.value, b)
    ensures Stopped(cfg, sk, pos, candles, cands, cands', done, anchor, w)
  {
  }

  lemma QuietThen(c: CostFn, cfg: Config, s: Store, quiet: seq<Bar>, rest: seq<Bar>, cands: seq<Candidate>)
    requires StoreSound(s) && forall b :: b in quiet ==> Quiet(cfg, s, b, cands)
    ensures RunStore(c, cfg, s, quiet + rest, cands) == RunStore(c, cfg, s, rest, cands)
  {
    QuietRunChangesNothing(c, cfg, s, quiet, cands);
    RunStoreConcat(c, cfg, s, quiet, rest, cands);
  }

  // ---- from the stopped store on --------------------------------------------------------------

  lemma TakeOfConcat<T>(a: seq<T>, b: seq<T>, n: nat)
    ensures Take(a + b, n) == if n <= |a| then a[..n] else a + Take(b, n - |a|)
  {
  }

  lemma TakeAll<T>(xs: seq<T>, n: nat)
    requires |xs| <= n
    ensures Take(xs, n) == xs
  {
  }

  /** Quiet bars at the front of a run do nothing; they only use up its length. */
  lemma QuietFront(c: CostFn, cfg: Config, s: Store, quiet: seq<Bar>, rest: seq<Bar>, t: nat, cands: seq<Candidate>)
    requires StoreSound(s) && forall b :: b in quiet ==> Quiet(cfg, s, b, cands)
    ensures
      RunStore(c, cfg, s, Take(quiet + rest, t), cands) ==
      RunStore(c, cfg, s, Take(rest, if |quiet| < t then t - |quiet| else 0), cands)
  {
    TakeOfConcat(quiet, rest, t);
    if t <= |quiet| {
      QuietRunChangesNothing(c, cfg, s, quiet[..t], cands);
    } else {
      QuietThen(c, cfg, s, quiet, Take(rest, t - |quiet|), cands);
    }
  }

  /** The fresh pass starts with replays: its first `t` bars do what some first bars after the watermark do. */
  lemma ReplayFromAnchor(c: CostFn, cfg: Config, sk: Store, pos: Option<Position>, candles: seq<Bar>, cands: seq<Candidate>,
                         cands': seq<Candidate>, done: seq<Bar>, anchor: int, w: int, next: int, t: nat)
    requires Stopped(cfg, sk, pos, candles, cands, cands', done, anchor, w)
    requires AnchorOf(cands', OpenIn(sk, cfg.symbol), candles) == Some(next) && anchor <= next <= w
    ensures
      var replays := |Range(candles, next, w)|;
      RunStore(c, cfg, sk, Take(From(candles, next), t), cands') ==
      RunStore(c, cfg, sk, Take(From(candles, w + 1), if replays < t then t - replays else 0), cands')
    ensures |From(candles, next)| == |Range(candles, next, w)| + |From(candles, w + 1)|
  {
    hide AscendingBars, Quiet, From, Range, Take, AnchorOf, RunStore;
    RangeThenFrom(candles, next, w);
    forall b | b in Range(candles, next, w)
      ensures Quiet(cfg, sk, b, cands')
    {
      ReplaysAreQuiet(cfg, sk, pos, candles, cands, cands', done, anchor, w, b);
    }
    QuietFront(c, cfg, sk, Range(candles, next, w), From(candles, w + 1), t, cands');
  }

  /** The fresh pass starts beyond the watermark: the bars it skips do nothing. */
  lemma SkipToAnchor(c: CostFn, cfg: Config, sk: Store, candles: seq<Bar>, cands': seq<Candidate>, w: int, next: int,
                     t: nat)
    requires AscendingBars(candles) && StoreSound(sk) && SkipsQuiet(cfg, sk, candles, cands', w)
    requires AnchorOf(cands', OpenIn(sk, cfg.symbol), candles) == Some(next) && w < next
    ensures
      var skipped := |Range(candles, w + 1, next - 1)|;
      RunStore(c, cfg, sk, Take(From(candles, w + 1), skipped + t), cands') ==
      RunStore(c, cfg, sk, Take(From(candles, next), t), cands')
    ensures |From(candles, w + 1)| == |Range(candles, w + 1, next - 1)| + |From(candles, next)|
  {
    hide AscendingBars, Quiet, From, Range, Take, AnchorOf, RunStore, StoreSound;
    RangeThenFrom(candles, w + 1, next - 1);
    var skipped := Range(candles, w + 1, next - 1);
    QuietFront(c, cfg, sk, skipped, From(candles, next), |skipped| + t, cands');
    NothingTaken(c, cfg, sk, From(candles, next), cands');
  }

  lemma NothingTaken(c: CostFn, cfg: Config, s: Store, bars: seq<Bar>, cands: seq<Candidate>)
    ensures RunStore(c, cfg, s, Take(bars, 0), cands) == s
  {
  }

  lemma SkipAll(c: CostFn, cfg: Config, sk: Store, candles: seq<Bar>, cands': seq<Candidate>, w: int)
    requires StoreSound(sk) && SkipsQuiet(cfg, sk, candles, cands', w)
    requires AnchorOf(cands', OpenIn(sk, cfg.symbol), candles).None?
    ensures RunStore(c, cfg, sk, From(candles, w + 1), cands') == sk
  {
    QuietRunChangesNothing(c, cfg, sk, From(candles, w + 1), cands');
  }

  function FreshBars(candles: seq<Bar>, next: Option<int>): seq<Bar> {
    if next.None? then [] else From(candles, next.value)
  }

  /** From the stopped store, any first bars of a fresh pass lead where some first bars after the watermark lead. */
  lemma FreshBarsResume(c: CostFn, cfg: Config, sk: Store, pos: Option<Position>, candles: seq<Bar>, cands: seq<Candidate>,
                        cands': seq<Candidate>, done: seq<Bar>, anchor: int, w: int, t: nat) returns (m: nat)
    requires Stopped(cfg, sk, pos, candles, cands, cands', done, anchor, w) && SkipsQuiet(cfg, sk, candles, cands', w)
    requires t <= |FreshBars(candles, AnchorOf(cands', OpenIn(sk, cfg.symbol), candles))|
    ensures m <= |From(candles, w + 1)|
    ensures t == |FreshBars(candles, AnchorOf(cands', OpenIn(sk, cfg.symbol), candles))| ==> m == |From(candles, w + 1)|
    ensures
      RunStore(c, cfg, sk, Take(FreshBars(candles, AnchorOf(cands', OpenIn(sk, cfg.symbol), candles)), t), cands') ==
      RunStore(c, cfg, sk, Take(From(candles, w + 1), m), cands')
  {
    hide AscendingBars, From, Range, RunStore, AnchorOf, StoreSound, SkipsQuiet, Remaining, UpTo;
    var next := AnchorOf(cands', OpenIn(sk, cfg.symbol), candles);
    AnchorMovesOn(cfg, sk, pos, candles, cands, cands', done, anchor, w);
    if next.None? {
      SkipAll(c, cfg, sk, candles, cands', w);
      NothingTaken(c, cfg, sk, [], cands');
      m := |From(candles, w + 1)|;
      TakeAll(From(candles, w + 1), m);
    } else if next.value <= w {
      ReplayFromAnchor(c, cfg, sk, pos, candles, cands, cands', done, anchor, w, next.value, t);
      var replays := |Range(candles, next.value, w)|;
      m := if replays < t then t - replays else 0;
    } else {
      SkipToAnchor(c, cfg, sk, candles, cands', w, next.value, t);
      m := |Range(candles, w + 1, next.value - 1)| + t;
    }
  }

  lemma AheadIsSame(c: CostFn, cfg: Config, sk: Store, pos: Option<Position>, candles: seq<Bar>, cands: seq<Candidate>,
                    cands': seq<Candidate>, done: seq<Bar>, anchor: int, w: int, m: nat)
    requires Stopped(cfg, sk, pos, candles, cands, cands', done, anchor, w)
    requires Orderly(cands, cfg.symbol) && Orderly(cands', cfg.symbol)
    ensures
      RunStore(c, cfg, sk, Take(From(candles, w + 1), m), cands) ==
      RunStore(c, cfg, sk, Take(From(candles, w + 1), m), cands')
  {
    forall b | b in Take(From(candles, w + 1), m)
      ensures DueAt(cands, b.ts) == DueAt(cands', b.ts)
    {
      assert b in From(candles, w + 1);
      StampsMembers(done, b.ts);
      SameDueAhead(cands, cands', cfg.symbol, candles, done, b);
    }
    SameDueSameRun(c, cfg, sk, Take(From(candles, w + 1), m), cands, cands');
  }

  /** The fresh pass owes no more bars than the stopped one did. */
  lemma OwedShrinks(cfg: Config, s: Store, sk: Store, candles: seq<Bar>, done: seq<Bar>, anchor: int, w: int)
    requires
      Stopped(cfg, sk, OpenIn(s, cfg.symbol), candles, UnitCandidates(cfg, s), UnitCandidates(cfg, sk), done, anchor, w)
    ensures |OwedBars(cfg, sk, candles)| <= |OwedBars(cfg, s, candles)|
  {
    AnchorMovesOn(cfg, sk, OpenIn(s, cfg.symbol), candles, UnitCandidates(cfg, s), UnitCandidates(cfg, sk), done,
                  anchor, w);
    var next := AnchorOf(UnitCandidates(cfg, sk), OpenIn(sk, cfg.symbol), candles);
    if next.Some? {
      FromFrom(candles, anchor, next.value);
    }
  }

  lemma OwedIsFresh(cfg: Config, s: Store, candles: seq<Bar>)
    ensures
      OwedBars(cfg, s, candles) ==
      FreshBars(candles, AnchorOf(UnitCandidates(cfg, s), OpenIn(s, cfg.symbol), candles))
  {
  }

  /** Any first bars of a fresh pass from the stopped store lead where some further bars of the stopped pass lead. */
  lemma ResumeWithAnchor(c: CostFn, cfg: Config, s: Store, candles: seq<Bar>, k: nat, sk: Store, anchor: int, w: int,
                         t: nat)
      returns (m: nat)
    requires StoppedAt(c, cfg, s, candles, k, sk) && Covered(cfg, s, candles)
    requires
      Stopped(cfg, sk, OpenIn(s, cfg.symbol), candles, UnitCandidates(cfg, s), UnitCandidates(cfg, sk),
              PassBars(cfg, s, candles)[..k], anchor, w)
    requires PassBars(cfg, s, candles)[k..] == From(candles, w + 1)
    requires SkipsQuiet(cfg, sk, candles, UnitCandidates(cfg, sk), w)
    requires t <= |PassBars(cfg, sk, candles)|
    ensures Covered(cfg, sk, candles)
    ensures m <= |From(candles, w + 1)| && (t == |PassBars(cfg, sk, candles)| ==> m == |From(candles, w + 1)|)
    ensures
      RunStore(c, cfg, sk, Take(PassBars(cfg, sk, candles), t), UnitCandidates(cfg, sk)) ==
      RunStore(c, cfg, sk, Take(From(candles, w + 1), m), UnitCandidates(cfg, s))
  {
    hide RunStore, From, UnitCandidates, Stopped, SkipsQuiet, AnchorOf, StoreSound, AscendingBars, Orderly;
    var done := PassBars(cfg, s, candles)[..k];
    StoppedFacts(c, cfg, s, candles, k, sk);
    UnitCandidatesExact(cfg, s);
    UnitCandidatesExact(cfg, sk);
    var cands, cands' := UnitCandidates(cfg, s), UnitCandidates(cfg, sk);
    OwedShrinks(cfg, s, sk, candles, done, anchor, w);
    CoveredBars(cfg, sk, candles);
    OwedIsFresh(cfg, sk, candles);
    m := FreshBarsResume(c, cfg, sk, OpenIn(s, cfg.symbol), candles, cands, cands', done, anchor, w, t);
    AheadIsSame(c, cfg, sk, OpenIn(s, cfg.symbol), candles, cands, cands', done, anchor, w, m);
  }

  lemma RestartWhenIdle(c: CostFn, cfg: Config, s: Store, candles: seq<Bar>, k: nat, sk: Store)
    requires StoppedAt(c, cfg, s, candles, k, sk)
    requires AnchorOf(UnitCandidates(cfg, s), OpenIn(s, cfg.symbol), candles).None?
    ensures k == 0 && PassBars(cfg, s, candles) == [] && PassBars(cfg, sk, candles) == []
    ensures OwedBars(cfg, sk, candles) == []
  {
    StoppedFacts(c, cfg, s, candles, k, sk);
    RemainingCandidates(c, cfg, s, candles, k, sk);
    AnchorIsLeast(UnitCandidates(cfg, s), OpenIn(s, cfg.symbol), candles);
    AnchorIsLeast(UnitCandidates(cfg, sk), OpenIn(sk, cfg.symbol), candles);
  }

  lemma PrefixStops(c: CostFn, cfg: Config, s: Store, candles: seq<Bar>, k: nat)
    requires StoreSound(s) && Seeded(s, cfg.seed) && candles != [] && AscendingBars(candles)
    requires k <= |PassWindow(cfg, s, candles).bars|
    ensures StoppedAt(c, cfg, s, candles, k, PassPrefix(c, cfg, s, candles, k))
  {
    WindowIsPassBars(cfg, s, candles);
    PassIsRun(c, cfg, s, candles, k);
  }

  lemma WholePassIsRun(c: CostFn, cfg: Config, s: Store, candles: seq<Bar>)
    requires StoreSound(s) && Seeded(s, cfg.seed) && candles != [] && AscendingBars(candles)
    ensures
      Pass(c, cfg, s, candles) ==
      RunStore(c, cfg, AfterMissing(cfg, s, candles).store, PassBars(cfg, s, candles), UnitCandidates(cfg, s))
  {
    WindowIsPassBars(cfg, s, candles);
    var bars := PassBars(cfg, s, candles);
    PassIsRun(c, cfg, s, candles, |bars|);
    assert bars[..|bars|] == bars;
  }

  /** A fresh pass finds nothing missing, so it runs from the stopped store itself. */
  lemma FreshPrefixIsRun(c: CostFn, cfg: Config, s: Store, candles: seq<Bar>, k: nat, sk: Store, t: nat)
    requires StoppedAt(c, cfg, s, candles, k, sk) && t <= |PassBars(cfg, sk, candles)|
    ensures |PassWindow(cfg, sk, candles).bars| == |PassBars(cfg, sk, candles)|
    ensures
      PassPrefix(c, cfg, sk, candles, t) ==
      RunStore(c, cfg, sk, Take(PassBars(cfg, sk, candles), t), UnitCandidates(cfg, sk))
  {
    hide StoreSound, Seeded, AscendingBars, PassBars, RunStore, Missing, UnitCandidates, AfterMissing, Survived, OpenIn,
         PassWindow, PassPrefix;
    StoppedFacts(c, cfg, s, candles, k, sk);
    RemainingCandidates(c, cfg, s, candles, k, sk);
    MissingFacts(cfg, sk, candles);
    WindowIsPassBars(cfg, sk, candles);
    PassIsRun(c, cfg, sk, candles, t);
  }

  lemma PrefixThen<T>(xs: seq<T>, k: nat, m: nat)
    requires k <= |xs| && m <= |xs| - k
    ensures xs[..k + m] == xs[..k] + Take(xs[k..], m)
  {
  }

  /** The stopped pass continued for `m` more bars, as a run from the stopped store. */
  lemma ContinuedIsRun(c: CostFn, cfg: Config, s: Store, candles: seq<Bar>, k: nat, sk: Store, m: nat)
    requires StoppedAt(c, cfg, s, candles, k, sk) && k + m <= |PassBars(cfg, s, candles)|
    ensures |PassWindow(cfg, s, candles).bars| == |PassBars(cfg, s, candles)|
    ensures
      PassPrefix(c, cfg, s, candles, k + m) ==
      RunStore(c, cfg, sk, Take(PassBars(cfg, s, candles)[k..], m), UnitCandidates(cfg, s))
  {
    hide RunStore, Take, PassBars, UnitCandidates, AfterMissing, StoreSound, Seeded, AscendingBars, PassWindow,
         PassPrefix;
    var bars, cands := PassBars(cfg, s, candles), UnitCandidates(cfg, s);
    WindowIsPassBars(cfg, s, candles);
    PassIsRun(c, cfg, s, candles, k + m);
    PrefixThen(bars, k, m);
    RunStoreConcat(c, cfg, AfterMissing(cfg, s, candles).store, bars[..k], Take(bars[k..], m), cands);
  }
}
