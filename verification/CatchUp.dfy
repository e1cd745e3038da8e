/** The orchestrator's per-unit catch-up pass: throttle window, outstanding bars, missing bars, ascending processing. */
module CatchUp {
  import opened Prelude
  import opened Paper
  import opened Ledger
  import opened LedgerInvariant
  import opened Lifecycle

  // ---- throttle window --------------------------------------------------------------------

  ghost predicate Ascending(xs: seq<int>) {
    forall i, j :: 0 <= i < j < |xs| ==> xs[i] < xs[j]
  }

  function InsertStamp(t: int, xs: seq<int>): (r: seq<int>)
    requires Ascending(xs)
    ensures Ascending(r)
    ensures forall x :: x in r <==> x == t || x in xs
  {
    if xs == [] then [t]
    else if t < xs[0] then [t] + xs
    else if t == xs[0] then xs
    else
      var rest := InsertStamp(t, xs[1..]);
      assert xs == [xs[0]] + xs[1..];
      assert forall j :: 0 <= j < |rest| ==> rest[j] in rest;
      [xs[0]] + rest
  }

  /** Distinct stamps in ascending order. */
  function Ordered(stamps: seq<int>): (r: seq<int>)
    ensures Ascending(r)
    ensures forall x :: x in r <==> x in stamps
  {
    if stamps == [] then []
    else
      assert stamps == [stamps[0]] + stamps[1..];
      InsertStamp(stamps[0], Ordered(stamps[1..]))
  }

  function Throttle(maxBars: int): (r: nat)
    ensures r >= 1
  {
    if maxBars < 1 then 1 else maxBars
  }

  function Take<T>(xs: seq<T>, n: nat): seq<T> {
    if n <= |xs| then xs[..n] else xs
  }

  function Drop<T>(xs: seq<T>, n: nat): seq<T> {
    if n <= |xs| then xs[n..] else []
  }

  datatype Window = Window(bars: seq<int>, depth: nat)

  function CatchupWindow(stamps: seq<int>, maxBars: int): Window {
    var ordered := Ordered(stamps);
    var take := Take(ordered, Throttle(maxBars));
    Window(take, |ordered| - |take|)
  }

  /** Process the window, forget it, and go on with the rest: one window per round. */
  function Drain(stamps: seq<int>, maxBars: int): seq<seq<int>>
    decreases |Ordered(stamps)|
  {
    if stamps == [] then []
    else
      assert Ordered(stamps) != [] by { assert stamps[0] in Ordered(stamps); }
      var rest := Drop(Ordered(stamps), Throttle(maxBars));
      OrderedAlready(rest);
      [CatchupWindow(stamps, maxBars).bars] + Drain(rest, maxBars)
  }

  function Flatten(windows: seq<seq<int>>): seq<int> {
    if windows == [] then [] else windows[0] + Flatten(windows[1..])
  }

  lemma {:induction false} OrderedAlready(xs: seq<int>)
    requires Ascending(xs)
    ensures Ordered(xs) == xs
  {
    if xs != [] {
      OrderedAlready(xs[1..]);
    }
  }

  lemma TakeIsPrefix(xs: seq<int>, n: nat, t: int, u: int)
    requires Ascending(xs) && t in xs && u in Take(xs, n) && t < u
    ensures t in Take(xs, n)
  {
    var i :| 0 <= i < |xs| && xs[i] == t;
    var j :| 0 <= j < |Take(xs, n)| && Take(xs, n)[j] == u;
    assert xs[j] == u;
    assert i < j;
    assert Take(xs, n)[i] == t;
  }

  /** A window is an ascending prefix of the distinct stamps, never empty, and counts what it leaves behind. */
  lemma WindowNeverSkips(stamps: seq<int>, maxBars: int)
    ensures
      var w := CatchupWindow(stamps, maxBars);
      && Ascending(w.bars)
      && |w.bars| <= Throttle(maxBars)
      && (stamps != [] ==> w.bars != [])
      && (forall t :: t in w.bars ==> t in stamps)
      && (forall t, u :: t in stamps && u in w.bars && t < u ==> t in w.bars)
      && |w.bars| + w.depth == |Ordered(stamps)|
      && |w.bars| == Least(|Ordered(stamps)|, if maxBars >= 1 then maxBars else 1)
  {
    hide Ordered;
    var ordered, w := Ordered(stamps), CatchupWindow(stamps, maxBars);
    if stamps != [] {
      assert stamps[0] in ordered;
    }
    forall t | t in w.bars
      ensures t in stamps
    {
      assert t in ordered;
    }
    forall t, u | t in stamps && u in w.bars && t < u
      ensures t in w.bars
    {
      TakeIsPrefix(ordered, Throttle(maxBars), t, u);
    }
  }

  lemma TakeDrop(xs: seq<int>, n: nat)
    ensures Take(xs, n) + Drop(xs, n) == xs
    ensures |Take(xs, n)| == (if n <= |xs| then n else |xs|)
    ensures Ascending(xs) ==> Ascending(Drop(xs, n))
  {
  }

  lemma FirstOrdered(stamps: seq<int>)
    requires stamps != []
    ensures Ordered(stamps) != []
  {
    assert stamps[0] in Ordered(stamps);
  }

  lemma DrainUnfolds(stamps: seq<int>, maxBars: int)
    requires stamps != []
    ensures
      var ordered, m := Ordered(stamps), Throttle(maxBars);
      && ordered != [] && Ordered(Drop(ordered, m)) == Drop(ordered, m)
      && Drain(stamps, maxBars) == [Take(ordered, m)] + Drain(Drop(ordered, m), maxBars)
  {
    hide Ordered, Take, Drop, Throttle;
    FirstOrdered(stamps);
    TakeDrop(Ordered(stamps), Throttle(maxBars));
    OrderedAlready(Drop(Ordered(stamps), Throttle(maxBars)));
  }

  lemma RoundsGrow(n: nat, rest: nat, m: nat, rounds: nat)
    requires m >= 1 && n > 0 && rest == (if m <= n then n - m else 0)
    requires (rounds - 1) * m < rest || rest == 0
    requires rest == 0 ==> rounds == 0
    requires rest <= rounds * m
    ensures rounds * m < n <= (rounds + 1) * m
  {
    assert (rounds + 1) * m == rounds * m + m;
    assert (rounds - 1) * m == rounds * m - m;
  }

  /** Draining visits every distinct stamp exactly once, ascending, in ceil(n / max) rounds. */
  lemma {:induction false} DrainVisitsAll(stamps: seq<int>, maxBars: int)
    ensures Flatten(Drain(stamps, maxBars)) == Ordered(stamps)
    ensures
      var n, m, rounds := |Ordered(stamps)|, Throttle(maxBars), |Drain(stamps, maxBars)|;
      if n == 0 then rounds == 0 else (rounds - 1) * m < n <= rounds * m
    decreases |Ordered(stamps)|
  {
    hide Ordered, Drain, Take, Drop, Throttle;
    if stamps == [] {
      EmptyDrain(maxBars);
    } else {
      var ordered, m := Ordered(stamps), Throttle(maxBars);
      DrainUnfolds(stamps, maxBars);
      TakeDrop(ordered, m);
      var rest := Drop(ordered, m);
      DrainVisitsAll(rest, maxBars);
      RoundsGrow(|ordered|, |rest|, m, |Drain(rest, maxBars)|);
    }
  }

  lemma EmptyDrain(maxBars: int)
    ensures Drain([], maxBars) == [] && Ordered([]) == []
  {
  }

  // ---- the pass ---------------------------------------------------------------------------

  datatype Config = Config(
    symbol: string, timeframe: Timeframe, startEquity: real, seed: int, interval: Option<int>, maxBars: int)

  ghost predicate AscendingBars(bars: seq<Bar>) {
    forall i, j :: 0 <= i < j < |bars| ==> bars[i].ts < bars[j].ts
  }

  function Stamps(bars: seq<Bar>): (r: seq<int>)
    ensures |r| == |bars| && forall i :: 0 <= i < |bars| ==> r[i] == bars[i].ts
  {
    if bars == [] then [] else [bars[0].ts] + Stamps(bars[1..])
  }

  /** Bars of a closed interval of time. */
  function Range(bars: seq<Bar>, low: int, high: int): (r: seq<Bar>)
    ensures forall b :: b in r <==> b in bars && low <= b.ts <= high
  {
    if bars == [] then []
    else (if low <= bars[0].ts <= high then [bars[0]] else []) + Range(bars[1..], low, high)
  }

  function From(bars: seq<Bar>, low: int): (r: seq<Bar>)
    ensures forall b :: b in r <==> b in bars && low <= b.ts
  {
    if bars == [] then []
    else (if low <= bars[0].ts then [bars[0]] else []) + From(bars[1..], low)
  }

  function BarAt(bars: seq<Bar>, ts: int): (r: Bar)
    requires ts in Stamps(bars)
    ensures r in bars && r.ts == ts
  {
    if bars[0].ts == ts then bars[0] else BarAt(bars[1..], ts)
  }

  function MinOf(xs: seq<int>): (r: int)
    requires xs != []
    ensures r in xs && forall x :: x in xs ==> r <= x
  {
    if |xs| == 1 then xs[0]
    else
      assert xs == [xs[0]] + xs[1..];
      var rest := MinOf(xs[1..]);
      if xs[0] <= rest then xs[0] else rest
  }

  /** Fill stamps no later than a bound. */
  function StampsUpTo(cands: seq<Candidate>, latest: int): (r: seq<int>)
    ensures forall t :: t in r <==> t <= latest && exists c :: c in cands && c.fillStamp == t
  {
    if cands == [] then []
    else
      assert cands == [cands[0]] + cands[1..];
      (if cands[0].fillStamp <= latest then [cands[0].fillStamp] else []) + StampsUpTo(cands[1..], latest)
  }

  /** Fill stamps that have a closed candle. */
  function DueStamps(cands: seq<Candidate>, bars: seq<Bar>): (r: seq<int>)
    ensures forall t :: t in r <==> t in Stamps(bars) && exists c :: c in cands && c.fillStamp == t
  {
    if cands == [] then []
    else
      assert cands == [cands[0]] + cands[1..];
      (if cands[0].fillStamp in Stamps(bars) then [cands[0].fillStamp] else []) + DueStamps(cands[1..], bars)
  }

  function EntryAnchor(current: Option<Position>): seq<int> {
    if current.None? then [] else [current.value.entryTs]
  }

  /** Pending orders whose fill bar has no candle although a later one has closed. */
  function MissingFrom(cands: seq<Candidate>, bars: seq<Bar>, latest: int): (r: seq<Candidate>)
    ensures forall c :: c in r <==> c in cands && c.fillStamp <= latest && c.fillStamp !in Stamps(bars)
  {
    if cands == [] then []
    else
      (if cands[0].fillStamp <= latest && cands[0].fillStamp !in Stamps(bars) then [cands[0]] else []) +
      MissingFrom(cands[1..], bars, latest)
  }

  function MissingBarCandidates(cands: seq<Candidate>, bars: seq<Bar>, latest: int): seq<Candidate> {
    SortByKey(MissingFrom(cands, bars, latest), CandidateKey())
  }

  /** Closed bars this unit still owes: everything from the earliest anchor on. */
  function OutstandingStamps(cands: seq<Candidate>, bars: seq<Bar>, current: Option<Position>): seq<int> {
    var anchors := DueStamps(cands, bars) + EntryAnchor(current);
    if anchors == [] then [] else Stamps(From(bars, MinOf(anchors)))
  }

  function CancelAll(l: Ledger, cands: seq<Candidate>): Ledger
    decreases cands
  {
    if cands == [] then l else CancelAll(Cancel(l, cands[0].order), cands[1..])
  }

  function RunBars(c: CostFn, cfg: Config, l: Ledger, stamps: seq<int>, bars: seq<Bar>, cands: seq<Candidate>): Ledger
    requires forall t :: t in stamps ==> t in Stamps(bars)
    decreases stamps
  {
    if stamps == [] then l
    else
      var n := |stamps| - 1;
      assert forall t :: t in stamps[..n] ==> t in stamps;
      var mid := RunBars(c, cfg, l, stamps[..n], bars, cands);
      ProcessBar(c, mid, cfg.symbol, BarAt(bars, stamps[n]), cands, cfg.interval).ledger
  }

  /** Candidates, loaded bars and window of one pass over a restored ledger. */
  function UnitCandidates(cfg: Config, s: Store): seq<Candidate> {
    OfUnit(PendingCandidates(s), cfg.symbol, cfg.timeframe)
  }

  function LoadedBars(cands: seq<Candidate>, current: Option<Position>, candles: seq<Bar>): seq<Bar>
    requires candles != []
  {
    var bases := StampsUpTo(cands, candles[|candles| - 1].ts) + EntryAnchor(current);
    if bases == [] then candles else From(candles, MinOf(bases))
  }

  function PassWindow(cfg: Config, s: Store, candles: seq<Bar>): (r: Window)
    requires candles != []
    ensures forall t :: t in r.bars ==> t in Stamps(LoadedBars(UnitCandidates(cfg, s), OpenIn(s, cfg.symbol), candles))
  {
    var cands, current := UnitCandidates(cfg, s), OpenIn(s, cfg.symbol);
    var loaded := LoadedBars(cands, current, candles);
    var stamps := OutstandingStamps(cands, loaded, current);
    assert forall t :: t in stamps ==> t in Stamps(loaded) by {
      forall t | t in stamps
        ensures t in Stamps(loaded)
      {
        var from := From(loaded, MinOf(DueStamps(cands, loaded) + EntryAnchor(current)));
        var i :| 0 <= i < |from| && Stamps(from)[i] == t;
        assert from[i] in from;
        var k :| 0 <= k < |loaded| && loaded[k] == from[i];
        assert Stamps(loaded)[k] == t;
      }
    }
    WindowNeverSkips(stamps, cfg.maxBars);
    CatchupWindow(stamps, cfg.maxBars)
  }

  /** The open position of a symbol according to the store. */
  function OpenIn(s: Store, symbol: string): Option<Position> {
    var h := FindOpen(s.positions, symbol);
    if h.None? then None else Some(ToPosition(s.positions[h.value]))
  }

  /** The ledger after the missing-bar cancellations. */
  function AfterMissing(cfg: Config, s: Store, candles: seq<Bar>): Ledger
    requires candles != []
  {
    var cands, current := UnitCandidates(cfg, s), OpenIn(s, cfg.symbol);
    var loaded := LoadedBars(cands, current, candles);
    CancelAll(Restore(FreshLedger(s, cfg.startEquity, cfg.seed)),
              MissingBarCandidates(cands, loaded, candles[|candles| - 1].ts))
  }

  /** A pass stopped after its first `k` committed bars. */
  function PassPrefix(c: CostFn, cfg: Config, s: Store, candles: seq<Bar>, k: nat): Store
    requires candles != [] && k <= |PassWindow(cfg, s, candles).bars|
  {
    var window := PassWindow(cfg, s, candles).bars;
    var cands := UnitCandidates(cfg, s);
    assert forall t :: t in window[..k] ==> t in window;
    RunBars(c, cfg, AfterMissing(cfg, s, candles), window[..k],
            LoadedBars(cands, OpenIn(s, cfg.symbol), candles), cands).store
  }

  /** One whole pass from a fresh broker: restore, cancel what has no bar, process the window. */
  function Pass(c: CostFn, cfg: Config, s: Store, candles: seq<Bar>): Store {
    if candles == [] then s else PassPrefix(c, cfg, s, candles, |PassWindow(cfg, s, candles).bars|)
  }

  // ---- discovery ----------------------------------------------------------------------------

  /** A cycle visits the unit: one of its orders waits with a known fill bar, or its own position is open. */
  predicate Discovered(cfg: Config, s: Store) {
    || UnitCandidates(cfg, s) != []
    || exists h :: 0 <= h < |s.positions| && s.positions[h].status.OPEN? && s.positions[h].symbol == cfg.symbol &&
                   s.positions[h].timeframe == cfg.timeframe
  }

  /** A cycle of the orchestrator, as far as the unit is concerned. */
  function Cycle(c: CostFn, cfg: Config, s: Store, candles: seq<Bar>): Store {
    if Discovered(cfg, s) then Pass(c, cfg, s, candles) else s
  }

  function Least(a: nat, b: nat): nat {
    if a <= b then a else b
  }

  /** A cycle that dies after `k` committed bars of the unit; a number past the end means all of them. */
  function CycleStop(c: CostFn, cfg: Config, s: Store, candles: seq<Bar>, k: nat): Store
    requires candles != []
  {
    if Discovered(cfg, s) then PassPrefix(c, cfg, s, candles, Least(k, |PassWindow(cfg, s, candles).bars|)) else s
  }
}
