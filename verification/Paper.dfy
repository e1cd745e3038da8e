/** Directions, positions, trades and the arithmetic of the paper wallet, as values. */
module Paper {
  import opened Prelude

  datatype Direction = LONG | SHORT | FLAT

  /** The symbol of the concrete cases. */
  const EURUSD := "EURUSD"

  datatype Timeframe = M5 | M15 | H1 | H4 | D1 {
    function Seconds(): int {
      match this
      case M5 => 300
      case M15 => 900
      case H1 => 3600
      case H4 => 14400
      case D1 => 86400
    }
  }

  /** Cost per unit of one fill: (price, seed, symbol, side, notional). Deterministic, otherwise arbitrary. */
  type CostFn = (real, int, string, Direction, real) -> real

  datatype ExitReason = Signal | StopLoss | TakeProfit

  datatype Position = Position(
    symbol: string, timeframe: Timeframe, units: real, entryPrice: real, entryTs: int, side: Direction,
    stopLoss: Option<real>, takeProfit: Option<real>, costs: real)
  {
    function Unrealized(price: real): real {
      units * (if side == LONG then price - entryPrice else entryPrice - price)
    }

    /** The threshold a close breaches, with its reason; stop-loss is looked at first. */
    function ExitFor(close: real): Option<(real, ExitReason)> {
      if side == LONG then
        if stopLoss.Some? && close <= stopLoss.value then Some((stopLoss.value, StopLoss))
        else if takeProfit.Some? && close >= takeProfit.value then Some((takeProfit.value, TakeProfit))
        else None
      else
        if stopLoss.Some? && close >= stopLoss.value then Some((stopLoss.value, StopLoss))
        else if takeProfit.Some? && close <= takeProfit.value then Some((takeProfit.value, TakeProfit))
        else None
    }
  }

  datatype Trade = Trade(
    symbol: string, timeframe: Timeframe, side: Direction, units: real, entryTs: int, entryPrice: real,
    exitTs: int, exitPrice: real, grossPnl: real, costs: real, netPnl: real, exitReason: ExitReason)

  /** The wallet `PaperBroker` updates in place. */
  datatype Wallet = Wallet(
    seed: int, cash: real, equity: real, peakEquity: real, maxDrawdownPct: real,
    positions: seq<Position>, trades: seq<Trade>, lastMark: map<string, real>)

  function FreshWallet(startEquity: real, seed: int): Wallet {
    Wallet(seed, startEquity, startEquity, startEquity, 0.0, [], [], map[])
  }

  // ---- position set -----------------------------------------------------------------------

  /** First open position of a symbol. */
  function OpenFor(ps: seq<Position>, symbol: string): (r: Option<Position>)
    ensures r.None? <==> forall p :: p in ps ==> p.symbol != symbol
    ensures r.Some? ==> r.value in ps && r.value.symbol == symbol
  {
    if ps == [] then None
    else if ps[0].symbol == symbol then Some(ps[0])
    else OpenFor(ps[1..], symbol)
  }

  /** The list after deleting the first position of a symbol. */
  function Without(ps: seq<Position>, symbol: string): seq<Position> {
    if ps == [] then []
    else if ps[0].symbol == symbol then ps[1..]
    else [ps[0]] + Without(ps[1..], symbol)
  }

  lemma {:induction false} WithoutBag(ps: seq<Position>, symbol: string)
    ensures OpenFor(ps, symbol).None? ==> Without(ps, symbol) == ps
    ensures
      OpenFor(ps, symbol).Some? ==>
      multiset(ps) == multiset(Without(ps, symbol)) + multiset{OpenFor(ps, symbol).value}
  {
    if ps != [] {
      assert ps == [ps[0]] + ps[1..];
      WithoutBag(ps[1..], symbol);
    }
  }

  ghost predicate OnePerSymbol(ps: seq<Position>) {
    forall i, j :: 0 <= i < j < |ps| ==> ps[i].symbol != ps[j].symbol
  }

  lemma {:induction false} OnlyOpenFor(ps: seq<Position>, p: Position)
    requires OnePerSymbol(ps) && p in ps
    ensures OpenFor(ps, p.symbol) == Some(p)
  {
    if ps[0] != p {
      OnlyOpenFor(ps[1..], p);
      var i :| 1 <= i < |ps| && ps[i] == p;
      assert ps[0].symbol != ps[i].symbol;
    }
  }

  lemma DistinctCons(p: Position, some: seq<Position>, all: seq<Position>)
    requires OnePerSymbol([p] + all) && OnePerSymbol(some)
    requires forall q :: q in some ==> q in all
    ensures OnePerSymbol([p] + some)
  {
    forall j | 0 <= j < |some|
      ensures some[j].symbol != p.symbol
    {
      assert some[j] in all;
      var k :| 0 <= k < |all| && all[k] == some[j];
      assert ([p] + all)[0].symbol != ([p] + all)[k + 1].symbol;
    }
  }

  lemma {:induction false} WithoutMembers(ps: seq<Position>, symbol: string)
    requires OnePerSymbol(ps)
    ensures OnePerSymbol(Without(ps, symbol))
    ensures forall p :: p in Without(ps, symbol) <==> p in ps && p.symbol != symbol
  {
    if ps != [] {
      var rest := ps[1..];
      WithoutMembers(rest, symbol);
      assert ps == [ps[0]] + rest;
      if ps[0].symbol == symbol {
        forall i | 0 <= i < |rest|
          ensures rest[i].symbol != symbol
        {
          assert ps[0].symbol != ps[i + 1].symbol;
        }
      } else {
        DistinctCons(ps[0], Without(rest, symbol), rest);
      }
    }
  }

  lemma {:induction false} AppendedIsFound(ps: seq<Position>, p: Position)
    requires forall q :: q in ps ==> q.symbol != p.symbol
    ensures OpenFor(ps + [p], p.symbol) == Some(p) && Without(ps + [p], p.symbol) == ps
  {
    if ps != [] {
      assert (ps + [p])[1..] == ps[1..] + [p];
      assert ps == [ps[0]] + ps[1..];
      AppendedIsFound(ps[1..], p);
    }
  }

  // ---- entry ------------------------------------------------------------------------------

  datatype Entry = Entry(
    symbol: string, timeframe: Timeframe, direction: Direction, refPrice: real, ts: int,
    stopLoss: Option<real>, takeProfit: Option<real>, units: Option<real>)

  function FillCost(c: CostFn, seed: int, symbol: string, side: Direction, units: real, price: real): real {
    c(price, seed, symbol, side, units * price) * units
  }

  predicate AcceptsEntry(w: Wallet, e: Entry) {
    && e.direction != FLAT
    && e.units.Some? && e.units.value > 0.0
    && OpenFor(w.positions, e.symbol).None?
  }

  function PositionOf(c: CostFn, seed: int, e: Entry): Position
    requires e.units.Some?
  {
    Position(e.symbol, e.timeframe, e.units.value, e.refPrice, e.ts, e.direction, e.stopLoss, e.takeProfit,
             FillCost(c, seed, e.symbol, e.direction, e.units.value, e.refPrice))
  }

  function Enter(c: CostFn, w: Wallet, e: Entry): Wallet {
    if !AcceptsEntry(w, e) then w
    else
      var pos := PositionOf(c, w.seed, e);
      w.(cash := w.cash - pos.costs,
         lastMark := w.lastMark[e.symbol := e.refPrice],
         positions := w.positions + [pos])
  }

  // ---- exit -------------------------------------------------------------------------------

  function Gross(pos: Position, price: real): real {
    if pos.side == LONG then pos.units * (price - pos.entryPrice) else pos.units * (pos.entryPrice - price)
  }

  /** Costs booked at the close: the exit fill's cost and, once more, the entry's. */
  function RoundTripCost(c: CostFn, seed: int, pos: Position, price: real): real {
    FillCost(c, seed, pos.symbol, pos.side, pos.units, price) + pos.costs
  }

  function Net(c: CostFn, seed: int, pos: Position, price: real): real {
    Gross(pos, price) - RoundTripCost(c, seed, pos, price)
  }

  function TradeOf(c: CostFn, seed: int, pos: Position, price: real, reason: ExitReason, ts: int): Trade {
    Trade(pos.symbol, pos.timeframe, pos.side, pos.units, pos.entryTs, pos.entryPrice, ts, price,
          Round6(Gross(pos, price)), Round6(RoundTripCost(c, seed, pos, price)),
          Round6(Net(c, seed, pos, price)), reason)
  }

  function CloseAt(c: CostFn, w: Wallet, symbol: string, price: real, reason: ExitReason, ts: int): Wallet
    requires OpenFor(w.positions, symbol).Some?
  {
    var pos := OpenFor(w.positions, symbol).value;
    w.(cash := w.cash + Gross(pos, price) - RoundTripCost(c, w.seed, pos, price),
       trades := w.trades + [TradeOf(c, w.seed, pos, price, reason, ts)],
       positions := Without(w.positions, symbol))
  }

  /** The exit a close triggers, if any: threshold price and reason. */
  function ExitHit(w: Wallet, symbol: string, close: real): Option<(real, ExitReason)> {
    var pos := OpenFor(w.positions, symbol);
    if pos.None? then None else pos.value.ExitFor(close)
  }

  function EvaluateExit(c: CostFn, w: Wallet, symbol: string, close: real, ts: int): Wallet {
    var hit := ExitHit(w, symbol, close);
    if hit.None? then w else CloseAt(c, w, symbol, hit.value.0, hit.value.1, ts)
  }

  function CloseOnSignal(c: CostFn, w: Wallet, symbol: string, price: real, ts: int): Wallet {
    if OpenFor(w.positions, symbol).None? then w else CloseAt(c, w, symbol, price, Signal, ts)
  }

  /** Sum of the recorded results. */
  function NetSum(trades: seq<Trade>): real {
    if trades == [] then 0.0 else NetSum(trades[..|trades| - 1]) + trades[|trades| - 1].netPnl
  }

  // ---- valuation --------------------------------------------------------------------------

  function Mark(w: Wallet, symbol: string, price: real): Wallet {
    w.(lastMark := w.lastMark[symbol := price])
  }

  function MarkOf(marks: map<string, real>, p: Position): real {
    if p.symbol in marks then marks[p.symbol] else p.entryPrice
  }

  function OpenPnl(ps: seq<Position>, marks: map<string, real>): real {
    if ps == [] then 0.0
    else OpenPnl(ps[..|ps| - 1], marks) + ps[|ps| - 1].Unrealized(MarkOf(marks, ps[|ps| - 1]))
  }

  function TotalEquity(w: Wallet): real {
    w.cash + OpenPnl(w.positions, w.lastMark)
  }

  /** One valuation: equity, running peak and running drawdown. */
  function ObservePeak(peak: real, equity: real): real {
    if equity > peak then equity else peak
  }

  function ObserveDrawdown(peak: real, drawdown: real, equity: real): real {
    var top := ObservePeak(peak, equity);
    if top > 0.0 && (top - equity) / top > drawdown then (top - equity) / top else drawdown
  }

  function Observe(w: Wallet): Wallet {
    var equity := TotalEquity(w);
    w.(equity := equity,
       peakEquity := ObservePeak(w.peakEquity, equity),
       maxDrawdownPct := ObserveDrawdown(w.peakEquity, w.maxDrawdownPct, equity))
  }
}
