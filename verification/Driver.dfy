/** The backtest driver's loop over one symbol's bars, as a function, and its freedom from look-ahead. */
module Driver {
  import opened Prelude
  import opened Paper
  import opened Lifecycle

  /** A PAPER decision with its sizing. */
  datatype Intent = Intent(direction: Direction, units: real, stopLoss: Option<real>, takeProfit: Option<real>)

  datatype PendingFill = PendingFill(
    closeExisting: bool, direction: Direction, units: real, stopLoss: Option<real>, takeProfit: Option<real>)

  /** Any decision procedure over the bars closed so far and the broker; None when nothing is promoted to PAPER. */
  type Decider = (seq<Bar>, Wallet) -> Option<Intent>

  datatype Run = Run(wallet: Wallet, pending: Option<PendingFill>, points: seq<(int, real)>)

  function ScheduleFill(w: Wallet, symbol: string, lastBar: bool, intent: Intent): Option<PendingFill> {
    var current := OpenFor(w.positions, symbol);
    if lastBar || intent.direction == FLAT then None
    else if current.Some? && current.value.side == intent.direction then None
    else Some(PendingFill(current.Some?, intent.direction, intent.units, intent.stopLoss, intent.takeProfit))
  }

  function ApplyFill(c: CostFn, w: Wallet, symbol: string, timeframe: Timeframe, act: PendingFill, price: real,
                     ts: int): Wallet {
    Enter(c, if act.closeExisting then CloseOnSignal(c, w, symbol, price, ts) else w,
          Entry(symbol, timeframe, act.direction, price, ts, act.stopLoss, act.takeProfit, Some(act.units)))
  }

  function RecordEquity(points: seq<(int, real)>, ts: int, equity: real): seq<(int, real)> {
    if points != [] && points[|points| - 1].0 == ts then points[..|points| - 1] + [(ts, equity)]
    else points + [(ts, equity)]
  }

  /** Steps 1 and 2 of a bar: the pending fill at the open, the exit at the close. */
  function FillAndExit(c: CostFn, symbol: string, timeframe: Timeframe, w: Wallet, pending: Option<PendingFill>,
                       bar: Bar): Wallet {
    var w1 := if pending.Some? then ApplyFill(c, w, symbol, timeframe, pending.value, bar.open, bar.ts) else w;
    EvaluateExit(c, w1, symbol, bar.close, bar.ts)
  }

  /** Step 3 of a bar: the decision at the close, before the account is valued there. */
  function Scheduled(symbol: string, decide: Decider, bars: seq<Bar>, i: nat, w2: Wallet): Option<PendingFill>
    requires i < |bars|
  {
    var intent := decide(bars[..i + 1], w2);
    if intent.None? then None else ScheduleFill(w2, symbol, i + 1 >= |bars|, intent.value)
  }

  function StepBar(c: CostFn, symbol: string, timeframe: Timeframe, decide: Decider, bars: seq<Bar>, i: nat, r: Run): Run
    requires i < |bars|
  {
    var bar := bars[i];
    var w2 := FillAndExit(c, symbol, timeframe, r.wallet, r.pending, bar);
    var w3 := Observe(Mark(w2, symbol, bar.close));
    Run(w3, Scheduled(symbol, decide, bars, i, w2), RecordEquity(r.points, bar.ts, w3.equity))
  }

  /** The driver after `n` more bars from a given state. */
  function RunFrom(c: CostFn, symbol: string, timeframe: Timeframe, decide: Decider, start: Run, bars: seq<Bar>,
                   n: nat): Run
    requires n <= |bars|
  {
    if n == 0 then start
    else StepBar(c, symbol, timeframe, decide, bars, n - 1, RunFrom(c, symbol, timeframe, decide, start, bars, n - 1))
  }

  /** The driver after its first `n` bars. */
  function RunFine(c: CostFn, symbol: string, timeframe: Timeframe, decide: Decider, start: Wallet, bars: seq<Bar>,
                   n: nat): Run
    requires n <= |bars|
  {
    RunFrom(c, symbol, timeframe, decide, Run(start, None, []), bars, n)
  }

  /**
   * No look-ahead: two series that agree on their first `k` bars give the same broker state (cash, marks, peak,
   * drawdown, position, trades) and the same equity points over those bars, whatever follows them and whatever of the
   * broker the decisions read.
   */
  lemma {:induction false} NoLookAhead(
    c: CostFn, symbol: string, timeframe: Timeframe, decide: Decider, start: Run, a: seq<Bar>, b: seq<Bar>, k: nat)
    requires k <= |a| && k <= |b| && a[..k] == b[..k]
    ensures
      var ra, rb := RunFrom(c, symbol, timeframe, decide, start, a, k), RunFrom(c, symbol, timeframe, decide, start, b, k);
      && ra.wallet == rb.wallet && ra.points == rb.points
      && (k < |a| && k < |b| ==> ra.pending == rb.pending)
  {
    hide Observe, Mark, FillAndExit, RecordEquity, ScheduleFill;
    if k > 0 {
      assert a[..k - 1] == a[..k][..k - 1] == b[..k][..k - 1] == b[..k - 1];
      assert a[k - 1] == a[..k][k - 1] == b[..k][k - 1] == b[k - 1];
      NoLookAhead(c, symbol, timeframe, decide, start, a, b, k - 1);
    }
  }
}
