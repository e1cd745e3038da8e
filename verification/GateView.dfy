/**
 * What a decision reads of the account, as each side computes it at decision time: the driver before it values the bar,
 * with the marks of the bar before; the live side from the snapshot that already valued it.
 */
module GateView {
  import opened Prelude
  import opened Paper
  import opened Lifecycle
  import opened Driver

  /** Open position, cash and trades, and the inputs of the risk gates: equity, drawdown and the daily loss's base. */
  datatype AccountView = AccountView(
    position: Option<Position>, cash: real, trades: multiset<Trade>, equity: real, drawdown: real, lossBase: real)

  /** Any decision procedure over the bars closed so far and the account view. */
  type Policy = (seq<Bar>, AccountView) -> Option<Intent>

  /** `x or start`: a zero falls back to the start equity. */
  function OrStart(x: real, start: real): real {
    if x != 0.0 then x else start
  }

  function DriverView(w: Wallet, symbol: string, start: real): AccountView {
    AccountView(OpenFor(w.positions, symbol), w.cash, multiset(w.trades), OrStart(TotalEquity(w), start),
                w.maxDrawdownPct, start)
  }

  function LiveView(w: Wallet, symbol: string, start: real): AccountView {
    var equity := OrStart(w.equity, start);
    AccountView(OpenFor(w.positions, symbol), w.cash, multiset(w.trades), equity, w.maxDrawdownPct, equity)
  }

  /** The driver's use of a policy. */
  function Backtest(policy: Policy, symbol: string, start: real): Decider {
    (bars: seq<Bar>, w: Wallet) => policy(bars, DriverView(w, symbol, start))
  }

  /** A policy that reads position, cash and trades only. */
  ghost predicate Blind(policy: Policy) {
    forall bars: seq<Bar>, a: AccountView, b: AccountView ::
      a.position == b.position && a.cash == b.cash && a.trades == b.trades ==> policy(bars, a) == policy(bars, b)
  }

  /** The account's value at a close, for a wallet holding at most the symbol's position. */
  function ValueAt(w: Wallet, close: real): real {
    w.cash + if w.positions == [] then 0.0 else w.positions[0].Unrealized(close)
  }

  ghost predicate AtMostOne(w: Wallet, symbol: string) {
    |w.positions| <= 1 && forall p :: p in w.positions ==> p.symbol == symbol
  }

  lemma MarkedEquity(w: Wallet, symbol: string, close: real)
    requires AtMostOne(w, symbol)
    ensures TotalEquity(Mark(w, symbol, close)) == ValueAt(w, close)
  {
    var marks := w.lastMark[symbol := close];
    if |w.positions| == 1 {
      assert w.positions[0] in w.positions;
      assert MarkOf(marks, w.positions[0]) == close;
      assert OpenPnl(w.positions[..0], marks) == 0.0;
    }
  }

  /** Apart from the three gate inputs both sides see the same account. */
  lemma ViewsShareHoldings(w: Wallet, symbol: string, start: real, close: real)
    ensures
      var d, l := DriverView(w, symbol, start), LiveView(Observe(Mark(w, symbol, close)), symbol, start);
      d.position == l.position && d.cash == l.cash && d.trades == l.trades
  {
  }

  /**
   * The two sides see the same gate inputs at a bar's decision exactly when the account counts as worth its start equity
   * both at the previous marks and at the close, and the close sets no new drawdown.
   */
  lemma GateInputsAgreeIff(w: Wallet, symbol: string, start: real, close: real)
    requires AtMostOne(w, symbol)
    ensures
      DriverView(w, symbol, start) == LiveView(Observe(Mark(w, symbol, close)), symbol, start) <==>
      && (TotalEquity(w) == start || TotalEquity(w) == 0.0) && (ValueAt(w, close) == start || ValueAt(w, close) == 0.0)
      && ObserveDrawdown(w.peakEquity, w.maxDrawdownPct, ValueAt(w, close)) == w.maxDrawdownPct
  {
    MarkedEquity(w, symbol, close);
  }

  /**
   * Each side reads its own equity, the driver the total at its marks and the live side the last valuation, and reads the
   * start equity in place of a zero: the gates never divide by zero when the account was started with something.
   */
  lemma EquityNeverReadsZero(w: Wallet, symbol: string, start: real)
    ensures start != 0.0 ==> DriverView(w, symbol, start).equity != 0.0 && LiveView(w, symbol, start).equity != 0.0
    ensures TotalEquity(w) != 0.0 ==> DriverView(w, symbol, start).equity == TotalEquity(w)
    ensures w.equity != 0.0 ==> LiveView(w, symbol, start).equity == w.equity
    ensures DriverView(w, symbol, start).lossBase == start
    ensures LiveView(w, symbol, start).lossBase == LiveView(w, symbol, start).equity
  {
  }

  /** The live side never sees less drawdown than the driver. */
  lemma LiveSeesMoreDrawdown(w: Wallet, symbol: string, start: real, close: real)
    ensures LiveView(Observe(Mark(w, symbol, close)), symbol, start).drawdown >= DriverView(w, symbol, start).drawdown
  {
  }
}
