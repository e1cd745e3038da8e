/**
 * The broker the backtest and the ledger share, as objects updated in place; each method is tied to its wallet function.
 */
module PaperBrokers {
  import opened Prelude
  import opened Paper

  lemma {:induction false} FirstOpen(ps: seq<Position>, i: nat, symbol: string)
    requires i < |ps| && ps[i].symbol == symbol && forall k :: 0 <= k < i ==> ps[k].symbol != symbol
    ensures OpenFor(ps, symbol) == Some(ps[i])
  {
    if i > 0 {
      FirstOpen(ps[1..], i - 1, symbol);
    }
  }

  /** Deleting the first position of a symbol cuts the list at its index. */
  lemma {:induction false} WithoutAt(ps: seq<Position>, i: nat, symbol: string)
    requires i < |ps| && ps[i].symbol == symbol && forall k :: 0 <= k < i ==> ps[k].symbol != symbol
    ensures Without(ps, symbol) == ps[..i] + ps[i + 1..]
  {
    if i > 0 {
      var rest := ps[1..];
      WithoutAt(rest, i - 1, symbol);
      assert ps[0].symbol != symbol;
      assert Without(ps, symbol) == [ps[0]] + Without(rest, symbol);
      assert ps[..i] == [ps[0]] + rest[..i - 1];
      assert ps[i + 1..] == rest[i..];
    }
  }

  /** Open positions, in the order they were opened. */
  class PositionSet {
    var positions: seq<Position>

    constructor ()
      ensures positions == []
    {
      positions := [];
    }

    method Find(symbol: string) returns (found: Option<Position>)
      ensures found == OpenFor(positions, symbol)
    {
      var i := 0;
      while i < |positions|
        invariant 0 <= i <= |positions|
        invariant OpenFor(positions, symbol) == OpenFor(positions[i..], symbol)
      {
        if positions[i].symbol == symbol {
          return Some(positions[i]);
        }
        assert positions[i..][1..] == positions[i + 1..];
        i := i + 1;
      }
      found := None;
    }

    method Close(symbol: string) returns (closed: bool)
      modifies this
      ensures positions == Without(old(positions), symbol)
      ensures closed == OpenFor(old(positions), symbol).Some?
    {
      var i := 0;
      while i < |positions|
        invariant 0 <= i <= |positions| && positions == old(positions)
        invariant forall k :: 0 <= k < i ==> positions[k].symbol != symbol
      {
        if positions[i].symbol == symbol {
          FirstOpen(positions, i, symbol);
          WithoutAt(positions, i, symbol);
          positions := positions[..i] + positions[i + 1..];
          return true;
        }
        i := i + 1;
      }
      WithoutBag(positions, symbol);
      closed := false;
    }
  }

  class PaperBroker {
    const cost: CostFn
    const positions: PositionSet
    var seed: int
    var cash: real
    var equity: real
    var peakEquity: real
    var maxDrawdownPct: real
    var trades: seq<Trade>
    var lastMark: map<string, real>

    /** The whole state as a value. */
    function View(): Wallet
      reads this, positions
    {
      Wallet(seed, cash, equity, peakEquity, maxDrawdownPct, positions.positions, trades, lastMark)
    }

    constructor (cost: CostFn, startEquity: real, seed: int)
      ensures View() == FreshWallet(startEquity, seed) && fresh(positions) && this.cost == cost
    {
      this.cost := cost;
      this.seed, cash, equity, peakEquity := seed, startEquity, startEquity, startEquity;
      maxDrawdownPct := 0.0;
      positions := new PositionSet();
      trades := [];
      lastMark := map[];
    }

    method MarkPosition(symbol: string, price: real)
      modifies this
      ensures View() == Mark(old(View()), symbol, price)
    {
      lastMark := lastMark[symbol := price];
    }

    /** Cash plus the unrealized result of every open position at its last mark. */
    method Equity() returns (total: real)
      ensures total == TotalEquity(View())
    {
      var ps, unrealized, i := positions.positions, 0.0, 0;
      while i < |ps|
        invariant 0 <= i <= |ps| && ps == positions.positions
        invariant unrealized == OpenPnl(ps[..i], lastMark)
      {
        var p := ps[i];
        var mark := if p.symbol in lastMark then lastMark[p.symbol] else p.entryPrice;
        assert ps[..i + 1][..i] == ps[..i];
        unrealized := unrealized + p.Unrealized(mark);
        i := i + 1;
      }
      assert ps[..i] == ps;
      total := cash + unrealized;
    }

    method EnterAtNextOpen(e: Entry)
      modifies this, positions
      ensures View() == Enter(cost, old(View()), e)
    {
      if e.direction == FLAT || e.units.None? || e.units.value <= 0.0 {
        return;
      }
      var open := positions.Find(e.symbol);
      if open.Some? {
        return;
      }
      var units := e.units.value;
      var total := FillCost(cost, seed, e.symbol, e.direction, units, e.refPrice);
      var pos := Position(e.symbol, e.timeframe, units, e.refPrice, e.ts, e.direction, e.stopLoss, e.takeProfit, total);
      cash := cash - total;
      lastMark := lastMark[e.symbol := e.refPrice];
      positions.positions := positions.positions + [pos];
    }

    /** The stop-loss or take-profit exit a close triggers. */
    method ExitOnClose(symbol: string, close: real, ts: int) returns (trade: Option<Trade>)
      modifies this, positions
      ensures View() == EvaluateExit(cost, old(View()), symbol, close, ts)
      ensures trade.Some? <==> ExitHit(old(View()), symbol, close).Some?
      ensures trade.Some? ==> View().trades == old(View()).trades + [trade.value] && trade.value.symbol == symbol
    {
      var open := positions.Find(symbol);
      if open.None? {
        return None;
      }
      var hit := open.value.ExitFor(close);
      if hit.None? {
        return None;
      }
      var t := ClosePosition(symbol, hit.value.0, hit.value.1, ts);
      trade := Some(t);
    }

    method CloseAtSignal(symbol: string, price: real, ts: int) returns (trade: Option<Trade>)
      modifies this, positions
      ensures View() == CloseOnSignal(cost, old(View()), symbol, price, ts)
      ensures trade.Some? <==> OpenFor(old(View()).positions, symbol).Some?
      ensures trade.Some? ==> View().trades == old(View()).trades + [trade.value] && trade.value.symbol == symbol
    {
      var open := positions.Find(symbol);
      if open.None? {
        return None;
      }
      var t := ClosePosition(symbol, price, Signal, ts);
      trade := Some(t);
    }

    method ClosePosition(symbol: string, price: real, reason: ExitReason, ts: int) returns (trade: Trade)
      requires OpenFor(positions.positions, symbol).Some?
      modifies this, positions
      ensures View() == CloseAt(cost, old(View()), symbol, price, reason, ts)
      ensures View().trades == old(View()).trades + [trade] && trade.symbol == symbol
    {
      var open := positions.Find(symbol);
      var pos := open.value;
      var costTotal := FillCost(cost, seed, symbol, pos.side, pos.units, price) + pos.costs;
      var gross := if pos.side == LONG then pos.units * (price - pos.entryPrice) else pos.units * (pos.entryPrice - price);
      var net := gross - costTotal;
      assert gross == Gross(pos, price) && costTotal == RoundTripCost(cost, seed, pos, price);
      cash := cash + gross;
      cash := cash - costTotal;
      trade := Trade(symbol, pos.timeframe, pos.side, pos.units, pos.entryTs, pos.entryPrice, ts, price,
                     Round6(gross), Round6(costTotal), Round6(net), reason);
      assert trade == TradeOf(cost, seed, pos, price, reason, ts);
      trades := trades + [trade];
      var _ := positions.Close(symbol);
    }

    /** Value the account: equity, running peak and running drawdown. */
    method State() returns (now: real)
      modifies this
      ensures View() == Observe(old(View()))
      ensures now == TotalEquity(old(View()))
    {
      now := Equity();
      equity := now;
      if now > peakEquity {
        peakEquity := now;
      }
      if peakEquity > 0.0 {
        var dd := (peakEquity - now) / peakEquity;
        if dd > maxDrawdownPct {
          maxDrawdownPct := dd;
        }
      }
    }
  }
}
