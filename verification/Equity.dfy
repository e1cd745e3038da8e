/** What exits, entries and closes mean for the account's equity, and what the backtest's equity curve holds. */
module Equity {
  import opened Prelude
  import opened Paper
  import opened Lifecycle
  import opened CatchUp
  import D = Driver

  /** What a price is worth to a position: higher is better for a long, lower for a short. */
  predicate NoBetter(pos: Position, a: real, b: real) {
    if pos.side == LONG then a <= b else a >= b
  }

  /**
   * A close triggers the stop-loss exactly when it is no better than the stop, the take-profit exactly when it is no
   * worse than the target and the stop is not breached; the exit is at the threshold, so a take-profit is never booked
   * better than it was set.
   */
  lemma ExitMeaning(pos: Position, close: real)
    ensures
      var stopped := pos.stopLoss.Some? && NoBetter(pos, close, pos.stopLoss.value);
      var reached := pos.takeProfit.Some? && NoBetter(pos, pos.takeProfit.value, close);
      pos.ExitFor(close) ==
      if stopped then Some((pos.stopLoss.value, StopLoss))
      else if reached then Some((pos.takeProfit.value, TakeProfit))
      else None
  {
  }

  lemma BetterIsMore(pos: Position, a: real, b: real)
    requires pos.units > 0.0 && NoBetter(pos, a, b)
    ensures pos.Unrealized(a) <= pos.Unrealized(b)
  {
    assert pos.side == LONG ==> pos.units * (b - a) >= 0.0;
    assert pos.side != LONG ==> pos.units * (a - b) >= 0.0;
  }

  /** Against the close, a stop-loss exit books no less and a take-profit exit books no more. */
  lemma ExitAgainstClose(pos: Position, close: real)
    requires pos.units > 0.0 && pos.ExitFor(close).Some?
    ensures
      var (price, reason) := pos.ExitFor(close).value;
      && reason != Signal
      && (reason == StopLoss ==> Gross(pos, price) >= pos.Unrealized(close))
      && (reason == TakeProfit ==> Gross(pos, price) <= pos.Unrealized(close))
  {
    ExitMeaning(pos, close);
    var (price, reason) := pos.ExitFor(close).value;
    if reason == StopLoss {
      BetterIsMore(pos, close, price);
    } else {
      BetterIsMore(pos, price, close);
    }
  }

  // ---- equity -----------------------------------------------------------------------------

  lemma {:induction false} PnlCons(p: Position, ps: seq<Position>, marks: map<string, real>)
    ensures OpenPnl([p] + ps, marks) == p.Unrealized(MarkOf(marks, p)) + OpenPnl(ps, marks)
  {
    if ps == [] {
      assert [p] + ps == [p] && [p][..0] == [];
    } else {
      var n := |ps| - 1;
      PnlCons(p, ps[..n], marks);
      assert ([p] + ps)[..|[p] + ps| - 1] == [p] + ps[..n];
    }
  }

  lemma {:induction false} PnlIgnoresMark(ps: seq<Position>, marks: map<string, real>, symbol: string, price: real)
    requires forall p :: p in ps ==> p.symbol != symbol
    ensures OpenPnl(ps, marks[symbol := price]) == OpenPnl(ps, marks)
  {
    if ps != [] {
      assert ps[|ps| - 1] in ps;
      PnlIgnoresMark(ps[..|ps| - 1], marks, symbol, price);
    }
  }

  lemma {:induction false} PnlWithout(ps: seq<Position>, symbol: string, marks: map<string, real>)
    requires OpenFor(ps, symbol).Some?
    ensures
      var p := OpenFor(ps, symbol).value;
      OpenPnl(Without(ps, symbol), marks) == OpenPnl(ps, marks) - p.Unrealized(MarkOf(marks, p))
  {
    assert ps == [ps[0]] + ps[1..];
    PnlCons(ps[0], ps[1..], marks);
    if ps[0].symbol != symbol {
      PnlWithout(ps[1..], symbol, marks);
      PnlCons(ps[0], Without(ps[1..], symbol), marks);
    }
  }

  lemma EntryIsWorthNothing(pos: Position)
    ensures pos.Unrealized(pos.entryPrice) == 0.0
  {
  }

  /** An accepted entry costs the account its entry cost and nothing else. */
  lemma EntryCostsEquity(c: CostFn, w: Wallet, e: Entry)
    ensures
      TotalEquity(Enter(c, w, e)) == TotalEquity(w) - if AcceptsEntry(w, e) then PositionOf(c, w.seed, e).costs else 0.0
  {
    if AcceptsEntry(w, e) {
      var pos := PositionOf(c, w.seed, e);
      var marks := w.lastMark[e.symbol := e.refPrice];
      assert (w.positions + [pos])[..|w.positions|] == w.positions;
      PnlIgnoresMark(w.positions, w.lastMark, e.symbol, e.refPrice);
      EntryIsWorthNothing(pos);
      assert OpenPnl(w.positions + [pos], marks) == OpenPnl(w.positions, marks) + pos.Unrealized(e.refPrice);
    }
  }

  lemma GrossIsUnrealized(pos: Position, price: real)
    ensures Gross(pos, price) == pos.Unrealized(price)
  {
  }

  /** Closing at the position's own mark takes the booked costs out of the account and nothing else. */
  lemma CloseCostsEquity(c: CostFn, w: Wallet, symbol: string, price: real, reason: ExitReason, ts: int)
    requires OpenFor(w.positions, symbol).Some? && symbol in w.lastMark && w.lastMark[symbol] == price
    ensures
      var pos := OpenFor(w.positions, symbol).value;
      TotalEquity(CloseAt(c, w, symbol, price, reason, ts)) == TotalEquity(w) - RoundTripCost(c, w.seed, pos, price)
  {
    var pos := OpenFor(w.positions, symbol).value;
    PnlWithout(w.positions, symbol, w.lastMark);
    GrossIsUnrealized(pos, price);
  }

  // ---- the equity curve ---------------------------------------------------------------------

  /** Over ascending bars the curve has one point a bar: its stamp and the account's equity after it. */
  lemma {:induction false} EquityCurve(
    c: CostFn, symbol: string, timeframe: Timeframe, decide: D.Decider, start: Wallet, bars: seq<Bar>, n: nat)
    requires n <= |bars| && AscendingBars(bars)
    ensures
      var points := D.RunFine(c, symbol, timeframe, decide, start, bars, n).points;
      && |points| == n
      && forall k :: 0 <= k < n ==>
           points[k] == (bars[k].ts, D.RunFine(c, symbol, timeframe, decide, start, bars, k + 1).wallet.equity)
  {
    hide D.FillAndExit, D.Scheduled, Observe, Mark, AscendingBars, D.RecordEquity;
    if n > 0 {
      EquityCurve(c, symbol, timeframe, decide, start, bars, n - 1);
      LastStampIsEarlier(bars, n);
      RecordLater(D.RunFine(c, symbol, timeframe, decide, start, bars, n - 1).points, bars[n - 1].ts,
                  D.RunFine(c, symbol, timeframe, decide, start, bars, n).wallet.equity);
    }
  }

  lemma RecordLater(points: seq<(int, real)>, ts: int, equity: real)
    requires points != [] ==> points[|points| - 1].0 < ts
    ensures D.RecordEquity(points, ts, equity) == points + [(ts, equity)]
  {
  }

  lemma LastStampIsEarlier(bars: seq<Bar>, n: nat)
    requires AscendingBars(bars) && 1 <= n <= |bars|
    ensures n > 1 ==> bars[n - 2].ts < bars[n - 1].ts
  {
  }

  /** The last bar with its stamp among the first `n`. */
  predicate LastOfStamp(bars: seq<Bar>, n: nat, k: nat) {
    k < n <= |bars| && (k + 1 < n ==> bars[k].ts < bars[k + 1].ts)
  }

  ghost predicate NeverBack(bars: seq<Bar>) {
    forall i, j :: 0 <= i <= j < |bars| ==> bars[i].ts <= bars[j].ts
  }

  /** A point of the curve: the stamp of a last bar and the equity after it. */
  ghost predicate PointOf(c: CostFn, symbol: string, timeframe: Timeframe, decide: D.Decider, start: Wallet, bars: seq<Bar>,
                          k: nat, point: (int, real))
    requires k < |bars|
  {
    point == (bars[k].ts, D.RunFine(c, symbol, timeframe, decide, start, bars, k + 1).wallet.equity)
  }

  /** One of the first `n` bars, the last of its stamp, has this point. */
  ghost predicate InCurve(c: CostFn, symbol: string, timeframe: Timeframe, decide: D.Decider, start: Wallet,
                          bars: seq<Bar>, n: nat, point: (int, real))
    requires n <= |bars|
  {
    exists k :: 0 <= k < n && LastOfStamp(bars, n, k) && PointOf(c, symbol, timeframe, decide, start, bars, k, point)
  }

  /** One bar more adds its own point and drops those of its stamp. */
  lemma CurveStep(c: CostFn, symbol: string, timeframe: Timeframe, decide: D.Decider, start: Wallet, bars: seq<Bar>, n: nat,
                  p: (int, real))
    requires 0 < n <= |bars| && NeverBack(bars)
    ensures
      InCurve(c, symbol, timeframe, decide, start, bars, n, p) <==>
      PointOf(c, symbol, timeframe, decide, start, bars, n - 1, p) ||
      (InCurve(c, symbol, timeframe, decide, start, bars, n - 1, p) && p.0 < bars[n - 1].ts)
  {
    hide D.RunFine, NeverBack;
    StampsNeverBack(bars, n - 1);
    if PointOf(c, symbol, timeframe, decide, start, bars, n - 1, p) {
      assert LastOfStamp(bars, n, n - 1);
    } else if InCurve(c, symbol, timeframe, decide, start, bars, n - 1, p) && p.0 < bars[n - 1].ts {
      var k :| 0 <= k < n - 1 && LastOfStamp(bars, n - 1, k) &&
               PointOf(c, symbol, timeframe, decide, start, bars, k, p);
      assert LastOfStamp(bars, n, k);
    }
    if InCurve(c, symbol, timeframe, decide, start, bars, n, p) {
      var k :| 0 <= k < n && LastOfStamp(bars, n, k) && PointOf(c, symbol, timeframe, decide, start, bars, k, p);
      if k < n - 1 {
        assert LastOfStamp(bars, n - 1, k) && bars[k].ts < bars[n - 1].ts;
      }
    }
  }

  lemma RecordOne(points: seq<(int, real)>, ts: int, equity: real)
    requires forall i :: 0 <= i < |points| ==> points[i].0 <= ts
    requires forall i, j :: 0 <= i < j < |points| ==> points[i].0 < points[j].0
    ensures
      var now := D.RecordEquity(points, ts, equity);
      && now != [] && now[|now| - 1] == (ts, equity)
      && (forall i, j :: 0 <= i < j < |now| ==> now[i].0 < now[j].0)
      && (forall p :: p in now <==> p == (ts, equity) || (p in points && p.0 < ts))
  {
    var now := D.RecordEquity(points, ts, equity);
    var kept := now[..|now| - 1];
    forall p
      ensures p in kept <==> p in points && p.0 < ts
    {
      if p in points && p.0 < ts {
        var i :| 0 <= i < |points| && points[i] == p;
        assert i < |kept| && kept[i] == p;
      }
    }
    assert now == kept + [(ts, equity)];
  }

  /**
   * Bars of one stamp leave one point, the last one's: over bars whose stamps never go back the curve is strictly
   * ascending, ends at the last bar, and holds exactly the last bar of each stamp with the equity after it.
   */
  lemma {:induction false} CurveKeepsLastOfStamp(
    c: CostFn, symbol: string, timeframe: Timeframe, decide: D.Decider, start: Wallet, bars: seq<Bar>, n: nat)
    requires n <= |bars| && NeverBack(bars)
    ensures
      var points := D.RunFine(c, symbol, timeframe, decide, start, bars, n).points;
      && (points == [] <==> n == 0)
      && (n > 0 ==> points[|points| - 1].0 == bars[n - 1].ts)
      && (forall i, j :: 0 <= i < j < |points| ==> points[i].0 < points[j].0)
      && (forall p :: p in points <==> InCurve(c, symbol, timeframe, decide, start, bars, n, p))
  {
    hide D.FillAndExit, D.Scheduled, Observe, Mark, NeverBack, D.RecordEquity, InCurve;
    if n > 0 {
      CurveKeepsLastOfStamp(c, symbol, timeframe, decide, start, bars, n - 1);
      var before, r := D.RunFine(c, symbol, timeframe, decide, start, bars, n - 1).points,
                       D.RunFine(c, symbol, timeframe, decide, start, bars, n);
      var last := (bars[n - 1].ts, r.wallet.equity);
      StampsNeverBack(bars, n - 1);
      forall i | 0 <= i < |before|
        ensures before[i].0 <= last.0
      {
        assert before[i].0 <= before[|before| - 1].0;
      }
      RecordOne(before, last.0, last.1);
      forall p
        ensures p in r.points <==> InCurve(c, symbol, timeframe, decide, start, bars, n, p)
      {
        CurveStep(c, symbol, timeframe, decide, start, bars, n, p);
      }
    } else {
      NoPoints(c, symbol, timeframe, decide, start, bars);
    }
  }

  lemma NoPoints(c: CostFn, symbol: string, timeframe: Timeframe, decide: D.Decider, start: Wallet, bars: seq<Bar>)
    ensures forall p :: !InCurve(c, symbol, timeframe, decide, start, bars, 0, p)
  {
  }

  lemma StampsNeverBack(bars: seq<Bar>, n: nat)
    requires NeverBack(bars) && n < |bars|
    ensures forall k :: 0 <= k <= n ==> bars[k].ts <= bars[n].ts
    ensures forall k :: 0 <= k < n && bars[k].ts < bars[k + 1].ts ==> bars[k].ts < bars[n].ts
  {
    forall k | 0 <= k < n && bars[k].ts < bars[k + 1].ts
      ensures bars[k].ts < bars[n].ts
    {
      assert bars[k + 1].ts <= bars[n].ts;
    }
  }

  // ---- what a bar leaves to the next -------------------------------------------------------------

  /**
   * After a bar a fill is pending exactly when there is a next bar and the decision at this close has a side on which the
   * symbol's position is not already; it closes what is open and carries the decision's terms.
   */
  lemma PendingAfterBar(
    c: CostFn, symbol: string, timeframe: Timeframe, decide: D.Decider, start: Wallet, bars: seq<Bar>, n: nat)
    requires 0 < n <= |bars|
    ensures
      var before, pending := D.RunFine(c, symbol, timeframe, decide, start, bars, n - 1),
                             D.RunFine(c, symbol, timeframe, decide, start, bars, n).pending;
      var w := D.FillAndExit(c, symbol, timeframe, before.wallet, before.pending, bars[n - 1]);
      var intent, open := decide(bars[..n], w), OpenFor(w.positions, symbol);
      && (pending.Some? <==>
            n < |bars| && intent.Some? && intent.value.direction != FLAT &&
            !(open.Some? && open.value.side == intent.value.direction))
      && (pending.Some? ==>
            && (pending.value.closeExisting <==> exists p :: p in w.positions && p.symbol == symbol)
            && pending.value.direction == intent.value.direction && pending.value.units == intent.value.units
            && pending.value.stopLoss == intent.value.stopLoss && pending.value.takeProfit == intent.value.takeProfit)
  {
    hide D.FillAndExit, D.RecordEquity, Observe, Mark;
  }

  /**
   * A pending fill at the open: with nothing open it enters; with a position open it changes nothing unless it was to
   * close, and then the position goes at that price before the entry.
   */
  lemma FillTakesTheSymbol(c: CostFn, w: Wallet, symbol: string, timeframe: Timeframe, act: D.PendingFill, price: real,
                           ts: int)
    ensures
      var entry := Entry(symbol, timeframe, act.direction, price, ts, act.stopLoss, act.takeProfit, Some(act.units));
      var open := OpenFor(w.positions, symbol);
      D.ApplyFill(c, w, symbol, timeframe, act, price, ts) ==
      if open.None? then Enter(c, w, entry)
      else if act.closeExisting then Enter(c, CloseAt(c, w, symbol, price, Signal, ts), entry)
      else w
  {
  }
}
