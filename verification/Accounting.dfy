/** Whole-run laws of the paper wallet: cash conservation, rounding drift and online drawdown. */
module Accounting {
  import opened Prelude
  import opened Paper

  datatype WalletOp =
    | EnterOp(entry: Entry)
    | ExitOp(symbol: string, close: real, ts: int)
    | SignalOp(symbol: string, price: real, ts: int)
    | MarkOp(symbol: string, price: real)
    | SeedOp(seed: int)
    | ObserveOp

  function Step(c: CostFn, w: Wallet, op: WalletOp): Wallet {
    match op
    case EnterOp(e) => Enter(c, w, e)
    case ExitOp(symbol, close, ts) => EvaluateExit(c, w, symbol, close, ts)
    case SignalOp(symbol, price, ts) => CloseOnSignal(c, w, symbol, price, ts)
    case MarkOp(symbol, price) => Mark(w, symbol, price)
    case SeedOp(seed) => w.(seed := seed)
    case ObserveOp => Observe(w)
  }

  function Run(c: CostFn, w: Wallet, ops: seq<WalletOp>): Wallet {
    if ops == [] then w else Step(c, Run(c, w, ops[..|ops| - 1]), ops[|ops| - 1])
  }

  // ---- the independent account book -------------------------------------------------------

  /** What really happened to the account, in unrounded amounts. */
  datatype Event =
    | Opened(pos: Position)
    | Closed(pos: Position, gross: real, exitCost: real, trade: Trade)

  function ClosedEvent(c: CostFn, w: Wallet, symbol: string, price: real, reason: ExitReason, ts: int): Event
    requires OpenFor(w.positions, symbol).Some?
  {
    var pos := OpenFor(w.positions, symbol).value;
    Closed(pos, Gross(pos, price), FillCost(c, w.seed, pos.symbol, pos.side, pos.units, price),
           TradeOf(c, w.seed, pos, price, reason, ts))
  }

  function EventOf(c: CostFn, w: Wallet, op: WalletOp): Option<Event> {
    match op
    case EnterOp(e) => if AcceptsEntry(w, e) then Some(Opened(PositionOf(c, w.seed, e))) else None
    case ExitOp(symbol, close, ts) =>
      var hit := ExitHit(w, symbol, close);
      if hit.None? then None else Some(ClosedEvent(c, w, symbol, hit.value.0, hit.value.1, ts))
    case SignalOp(symbol, price, ts) =>
      if OpenFor(w.positions, symbol).None? then None else Some(ClosedEvent(c, w, symbol, price, Signal, ts))
    case _ => None
  }

  function Book(c: CostFn, w: Wallet, ops: seq<WalletOp>): seq<Event> {
    if ops == [] then []
    else
      var before := ops[..|ops| - 1];
      var ev := EventOf(c, Run(c, w, before), ops[|ops| - 1]);
      Book(c, w, before) + if ev.Some? then [ev.value] else []
  }

  /** The amounts of a book: gross results, exit costs, and entry costs of opened and of closed positions. */
  datatype Totals = Totals(gross: real, exitCosts: real, entryOpened: real, entryClosed: real, netPnl: real, closed: nat)

  function Tally(book: seq<Event>): Totals {
    if book == [] then Totals(0.0, 0.0, 0.0, 0.0, 0.0, 0)
    else
      var t := Tally(book[..|book| - 1]);
      match book[|book| - 1]
      case Opened(pos) => t.(entryOpened := t.entryOpened + pos.costs)
      case Closed(pos, gross, exitCost, trade) =>
        t.(gross := t.gross + gross, exitCosts := t.exitCosts + exitCost,
           entryClosed := t.entryClosed + pos.costs, netPnl := t.netPnl + trade.netPnl, closed := t.closed + 1)
  }

  function EntryCosts(ps: seq<Position>): real {
    if ps == [] then 0.0 else ps[0].costs + EntryCosts(ps[1..])
  }

  function TradesIn(book: seq<Event>): seq<Trade> {
    if book == [] then []
    else
      TradesIn(book[..|book| - 1]) +
      (match book[|book| - 1] case Opened(_) => [] case Closed(_, _, _, trade) => [trade])
  }

  lemma {:induction false} EntryCostsSnoc(ps: seq<Position>, p: Position)
    ensures EntryCosts(ps + [p]) == EntryCosts(ps) + p.costs
  {
    if ps != [] {
      assert (ps + [p])[1..] == ps[1..] + [p];
      EntryCostsSnoc(ps[1..], p);
    }
  }

  lemma {:induction false} EntryCostsWithout(ps: seq<Position>, symbol: string)
    requires OpenFor(ps, symbol).Some?
    ensures EntryCosts(Without(ps, symbol)) == EntryCosts(ps) - OpenFor(ps, symbol).value.costs
  {
    if ps[0].symbol != symbol {
      EntryCostsWithout(ps[1..], symbol);
      assert Without(ps, symbol)[1..] == Without(ps[1..], symbol);
    }
  }

  lemma TallySnoc(book: seq<Event>, ev: Event)
    ensures
      var t := Tally(book);
      Tally(book + [ev]) ==
      match ev
      case Opened(pos) => t.(entryOpened := t.entryOpened + pos.costs)
      case Closed(pos, gross, exitCost, trade) =>
        t.(gross := t.gross + gross, exitCosts := t.exitCosts + exitCost,
           entryClosed := t.entryClosed + pos.costs, netPnl := t.netPnl + trade.netPnl, closed := t.closed + 1)
    ensures TradesIn(book + [ev]) == TradesIn(book) + (match ev case Opened(_) => [] case Closed(_, _, _, trade) => [trade])
  {
    assert (book + [ev])[..|book|] == book;
  }

  lemma StepBooks(c: CostFn, w: Wallet, op: WalletOp)
    ensures
      var w', ev := Step(c, w, op), EventOf(c, w, op);
      if ev.None? then w'.cash == w.cash && w'.positions == w.positions && w'.trades == w.trades
      else
        match ev.value
        case Opened(pos) =>
          && w'.cash == w.cash - pos.costs
          && EntryCosts(w'.positions) == EntryCosts(w.positions) + pos.costs
          && w'.trades == w.trades
        case Closed(pos, gross, exitCost, trade) =>
          && w'.cash == w.cash + gross - exitCost - pos.costs
          && EntryCosts(w'.positions) == EntryCosts(w.positions) - pos.costs
          && w'.trades == w.trades + [trade]
          && Abs(trade.netPnl - (gross - exitCost - pos.costs)) <= HALF_MICRO
  {
    var ev := EventOf(c, w, op);
    if ev.Some? {
      match ev.value
      case Opened(pos) => EntryCostsSnoc(w.positions, pos);
      case Closed(pos, gross, exitCost, trade) =>
        EntryCostsWithout(w.positions, pos.symbol);
        Round6Near(gross - (exitCost + pos.costs));
    }
  }

  lemma BookSnoc(c: CostFn, w: Wallet, ops: seq<WalletOp>)
    requires ops != []
    ensures
      var before := ops[..|ops| - 1];
      var ev := EventOf(c, Run(c, w, before), ops[|ops| - 1]);
      Book(c, w, ops) == if ev.Some? then Book(c, w, before) + [ev.value] else Book(c, w, before)
  {
  }

  /**
   * After any sequence of entries, exits and signal closes: cash is the start plus the gross results minus the exit
   * costs, minus the entry cost of every position ever opened, minus the entry cost of every closed one once more.
   * What is still open accounts for the difference between the last two, and the trade list is the book's.
   */
  lemma {:induction false} CashConservation(c: CostFn, w: Wallet, ops: seq<WalletOp>)
    ensures
      var end, t := Run(c, w, ops), Tally(Book(c, w, ops));
      && end.cash == w.cash + t.gross - t.exitCosts - t.entryOpened - t.entryClosed
      && EntryCosts(end.positions) == EntryCosts(w.positions) + t.entryOpened - t.entryClosed
      && end.trades == w.trades + TradesIn(Book(c, w, ops))
  {
    if ops != [] {
      var before := ops[..|ops| - 1];
      CashConservation(c, w, before);
      BookSnoc(c, w, ops);
      StepBooks(c, Run(c, w, before), ops[|ops| - 1]);
      var ev := EventOf(c, Run(c, w, before), ops[|ops| - 1]);
      if ev.Some? {
        TallySnoc(Book(c, w, before), ev.value);
      }
    }
  }

  predicate NearlyExact(ev: Event) {
    ev.Closed? ==> Abs(ev.trade.netPnl - (ev.gross - ev.exitCost - ev.pos.costs)) <= HALF_MICRO
  }

  lemma {:induction false} BookNearlyExact(c: CostFn, w: Wallet, ops: seq<WalletOp>)
    ensures forall ev :: ev in Book(c, w, ops) ==> NearlyExact(ev)
  {
    if ops != [] {
      BookNearlyExact(c, w, ops[..|ops| - 1]);
      BookSnoc(c, w, ops);
      StepBooks(c, Run(c, w, ops[..|ops| - 1]), ops[|ops| - 1]);
    }
  }

  lemma {:induction false} TallyDrift(book: seq<Event>)
    requires forall ev :: ev in book ==> NearlyExact(ev)
    ensures
      var t := Tally(book);
      Abs(t.netPnl - (t.gross - t.exitCosts - t.entryClosed)) <= HALF_MICRO * t.closed as real
  {
    if book != [] {
      TallyDrift(book[..|book| - 1]);
      assert NearlyExact(book[|book| - 1]);
    }
  }

  /** The rounded trade results drift from the unrounded ones by at most half a micro-unit a trade. */
  lemma RoundedNetsDrift(c: CostFn, w: Wallet, ops: seq<WalletOp>)
    ensures
      var t := Tally(Book(c, w, ops));
      Abs(t.netPnl - (t.gross - t.exitCosts - t.entryClosed)) <= HALF_MICRO * t.closed as real
  {
    BookNearlyExact(c, w, ops);
    TallyDrift(Book(c, w, ops));
  }

  ghost predicate NonNegative(c: CostFn) {
    forall price: real, seed: int, symbol: string, side: Direction, notional: real ::
      c(price, seed, symbol, side, notional) >= 0.0
  }

  lemma OpenedCostNonNegative(c: CostFn, w: Wallet, op: WalletOp)
    requires NonNegative(c)
    ensures var ev := EventOf(c, w, op); ev.Some? && ev.value.Opened? ==> ev.value.pos.costs >= 0.0
  {
    var ev := EventOf(c, w, op);
    if ev.Some? && ev.value.Opened? {
      var e := op.entry;
      assert c(e.refPrice, w.seed, e.symbol, e.direction, e.units.value * e.refPrice) >= 0.0;
    }
  }

  lemma {:induction false} OpenedCostsNonNegative(c: CostFn, w: Wallet, ops: seq<WalletOp>)
    requires NonNegative(c)
    ensures Tally(Book(c, w, ops)).entryOpened >= 0.0
    ensures
      Tally(Book(c, w, ops)).entryOpened == 0.0 <==>
      forall ev :: ev in Book(c, w, ops) && ev.Opened? ==> ev.pos.costs == 0.0
  {
    if ops != [] {
      var before, op := ops[..|ops| - 1], ops[|ops| - 1];
      OpenedCostsNonNegative(c, w, before);
      OpenedCostNonNegative(c, Run(c, w, before), op);
      var book := Book(c, w, before);
      var ev := EventOf(c, Run(c, w, before), op);
      if ev.Some? {
        TallySnoc(book, ev.value);
        assert Book(c, w, ops) == book + [ev.value];
      } else {
        assert Book(c, w, ops) == book;
      }
    }
  }

  lemma NetSumSnoc(trades: seq<Trade>, t: Trade)
    ensures NetSum(trades + [t]) == NetSum(trades) + t.netPnl
  {
    assert (trades + [t])[..|trades|] == trades;
  }

  /** Recorded results and number of the trades of a book. */
  lemma {:induction false} TallyTrades(book: seq<Event>)
    ensures NetSum(TradesIn(book)) == Tally(book).netPnl && |TradesIn(book)| == Tally(book).closed
  {
    if book != [] {
      var before := TradesIn(book[..|book| - 1]);
      TallyTrades(book[..|book| - 1]);
      if book[|book| - 1].Closed? {
        NetSumSnoc(before, book[|book| - 1].trade);
      } else {
        assert before + [] == before;
      }
    }
  }

  /**
   * A run that starts and ends flat should leave start + the trades' nets in cash. It does exactly when no position
   * ever paid an entry cost, because an entry cost leaves cash at the entry and again at the close. The recorded nets
   * of the trade list miss cash by the entry costs, up to their rounding.
   */
  lemma FlatRunKeepsNetsIff(c: CostFn, w: Wallet, ops: seq<WalletOp>)
    requires NonNegative(c)
    requires w.positions == [] && Run(c, w, ops).positions == []
    ensures
      var end, t := Run(c, w, ops), Tally(Book(c, w, ops));
      && end.cash == w.cash + (t.gross - t.exitCosts - t.entryClosed) - t.entryClosed
      && (end.cash == w.cash + (t.gross - t.exitCosts - t.entryClosed) <==>
          forall ev :: ev in Book(c, w, ops) && ev.Opened? ==> ev.pos.costs == 0.0)
      && (w.trades == [] ==>
            Abs(end.cash - (w.cash + NetSum(end.trades) - t.entryClosed)) <= HALF_MICRO * |end.trades| as real)
  {
    hide Book, Tally, Run, NetSum, TradesIn;
    CashConservation(c, w, ops);
    RoundedNetsDrift(c, w, ops);
    TallyTrades(Book(c, w, ops));
    OpenedCostsNonNegative(c, w, ops);
    assert EntryCosts([]) == 0.0;
    assert [] + TradesIn(Book(c, w, ops)) == TradesIn(Book(c, w, ops));
  }

  // ---- one entry and one close, in amounts -------------------------------------------------------

  /** A rate paid for every unit. */
  function EveryUnit(rate: real, units: real): real {
    rate * units
  }

  function Notional(units: real, price: real): real {
    units * price
  }

  /** What a position of this many units gains from one price to another. */
  function Gain(side: Direction, units: real, from: real, to: real): real {
    if side == LONG then units * (to - from) else units * (from - to)
  }

  /**
   * An entry is accepted exactly for a side, a positive size and a symbol that is not open. It then takes the cost per
   * unit, of the notional, for every unit from cash, and opens the requested position carrying that amount; what is
   * open, marked or booked otherwise stays. Anything else changes nothing.
   */
  lemma EntryPaysEveryUnit(c: CostFn, w: Wallet, e: Entry)
    ensures
      var w' := Enter(c, w, e);
      if e.direction != FLAT && e.units.Some? && e.units.value > 0.0 && forall p :: p in w.positions ==>
        p.symbol != e.symbol
      then
        var units := e.units.value;
        var cost := EveryUnit(c(e.refPrice, w.seed, e.symbol, e.direction, Notional(units, e.refPrice)), units);
        && w'.cash == w.cash - cost
        && w'.positions == w.positions + [Position(e.symbol, e.timeframe, units, e.refPrice, e.ts, e.direction,
                                                   e.stopLoss, e.takeProfit, cost)]
        && w' == w.(cash := w'.cash, positions := w'.positions, lastMark := w.lastMark[e.symbol := e.refPrice])
      else w' == w
  {
    hide FillCost, EveryUnit, Notional;
    if AcceptsEntry(w, e) {
      CostOfUnits(c, w.seed, e.symbol, e.direction, e.units.value, e.refPrice);
    }
  }

  lemma CostOfUnits(c: CostFn, seed: int, symbol: string, side: Direction, units: real, price: real)
    ensures
      FillCost(c, seed, symbol, side, units, price) ==
      EveryUnit(c(price, seed, symbol, side, Notional(units, price)), units)
  {
  }

  /** A close at this price of what an entry opened, in amounts: the gross result, the exit cost, the entry cost again. */
  function Settled(c: CostFn, w: Wallet, e: Entry, units: real, price: real, reason: ExitReason, ts: int): Wallet {
    var entryCost := EveryUnit(c(e.refPrice, w.seed, e.symbol, e.direction, Notional(units, e.refPrice)), units);
    var exitCost := EveryUnit(c(price, w.seed, e.symbol, e.direction, Notional(units, price)), units);
    var gross := Gain(e.direction, units, e.refPrice, price);
    w.(cash := w.cash + gross - exitCost - 2.0 * entryCost,
       trades := w.trades + [Trade(e.symbol, e.timeframe, e.direction, units, e.ts, e.refPrice, ts, price, Round6(gross),
                                   Round6(exitCost + entryCost), Round6(gross - (exitCost + entryCost)), reason)],
       lastMark := w.lastMark[e.symbol := e.refPrice])
  }

  lemma SettledAt(c: CostFn, w: Wallet, e: Entry, pos: Position, price: real, reason: ExitReason, ts: int)
    requires e.units.Some? && OpenFor(Enter(c, w, e).positions, e.symbol) == Some(pos)
    requires Enter(c, w, e) == w.(cash := w.cash - pos.costs, positions := w.positions + [pos],
                                  lastMark := w.lastMark[e.symbol := e.refPrice])
    requires Without(w.positions + [pos], e.symbol) == w.positions
    requires
      var units := e.units.value;
      var cost := EveryUnit(c(e.refPrice, w.seed, e.symbol, e.direction, Notional(units, e.refPrice)), units);
      pos == Position(e.symbol, e.timeframe, units, e.refPrice, e.ts, e.direction, e.stopLoss, e.takeProfit, cost)
    ensures
      CloseAt(c, Enter(c, w, e), e.symbol, price, reason, ts) == Settled(c, w, e, e.units.value, price, reason, ts)
  {
    hide FillCost, EveryUnit, Notional, Gain, Gross, Round6, Enter, OpenFor, Without;
    CostOfUnits(c, w.seed, e.symbol, e.direction, e.units.value, price);
    GrossIsGain(pos, price);
  }

  /**
   * Entering and closing again, on a signal or at the close that breaches a threshold: the account is as before but for
   * the trade, the mark, and cash, which moves by the gross result less the exit cost and twice the entry cost.
   */
  lemma EnterThenClose(c: CostFn, w: Wallet, e: Entry, price: real, ts: int)
    requires e.direction != FLAT && e.units.Some? && e.units.value > 0.0
    requires forall p :: p in w.positions ==> p.symbol != e.symbol
    ensures
      var w', units := Enter(c, w, e), e.units.value;
      var above, below := e.direction == LONG, e.direction == SHORT;
      && CloseOnSignal(c, w', e.symbol, price, ts) == Settled(c, w, e, units, price, Signal, ts)
      && EvaluateExit(c, w', e.symbol, price, ts) ==
         if e.stopLoss.Some? && (if above then price <= e.stopLoss.value else price >= e.stopLoss.value) then
           Settled(c, w, e, units, e.stopLoss.value, StopLoss, ts)
         else if e.takeProfit.Some? && (if below then price <= e.takeProfit.value else price >= e.takeProfit.value) then
           Settled(c, w, e, units, e.takeProfit.value, TakeProfit, ts)
         else w'
  {
    hide FillCost, EveryUnit, Notional, Gain, Gross, Round6, Enter, OpenFor;
    EntryPaysEveryUnit(c, w, e);
    var pos := Enter(c, w, e).positions[|w.positions|];
    AppendedIsFound(w.positions, pos);
    SettledAt(c, w, e, pos, price, Signal, ts);
    if pos.ExitFor(price).Some? {
      SettledAt(c, w, e, pos, pos.ExitFor(price).value.0, pos.ExitFor(price).value.1, ts);
    }
  }

  // ---- a constant cost per unit ------------------------------------------------------------------

  ghost predicate CostsPerUnit(c: CostFn, k: real) {
    forall price: real, seed: int, symbol: string, side: Direction, notional: real ::
      c(price, seed, symbol, side, notional) == k
  }

  /** Units of all positions opened and of all closed, and the gross results of the closes. */
  datatype Turnover = Turnover(entered: real, closed: real, gross: real)

  function Add(t: Turnover, ev: Event): Turnover {
    match ev
    case Opened(pos) => t.(entered := t.entered + pos.units)
    case Closed(pos, _, _, trade) =>
      t.(closed := t.closed + pos.units, gross := t.gross + Gain(pos.side, pos.units, pos.entryPrice, trade.exitPrice))
  }

  function TurnoverOf(book: seq<Event>): Turnover {
    if book == [] then Turnover(0.0, 0.0, 0.0) else Add(TurnoverOf(book[..|book| - 1]), book[|book| - 1])
  }

  predicate CarriesPerUnit(pos: Position, k: real) {
    pos.costs == EveryUnit(k, pos.units)
  }

  lemma PerUnitCost(c: CostFn, k: real, seed: int, symbol: string, side: Direction, units: real, price: real)
    requires CostsPerUnit(c, k)
    ensures FillCost(c, seed, symbol, side, units, price) == EveryUnit(k, units)
  {
    assert c(price, seed, symbol, side, units * price) == k;
  }

  lemma PerUnitStep(c: CostFn, w: Wallet, op: WalletOp, k: real)
    requires CostsPerUnit(c, k) && forall p :: p in w.positions ==> CarriesPerUnit(p, k)
    ensures forall p :: p in Step(c, w, op).positions ==> CarriesPerUnit(p, k)
    ensures
      var w', ev := Step(c, w, op), EventOf(c, w, op);
      w'.cash == w.cash +
      if ev.None? then 0.0
      else match ev.value
           case Opened(pos) => -EveryUnit(k, pos.units)
           case Closed(pos, _, _, trade) =>
             Gain(pos.side, pos.units, pos.entryPrice, trade.exitPrice) - 2.0 * EveryUnit(k, pos.units)
  {
    hide CostsPerUnit, FillCost, Round6, Position.ExitFor, EveryUnit;
    var ev := EventOf(c, w, op);
    if ev.Some? {
      match ev.value
      case Opened(pos) => PerUnitCost(c, k, w.seed, pos.symbol, pos.side, pos.units, pos.entryPrice);
      case Closed(pos, _, _, trade) =>
        PerUnitCost(c, k, w.seed, pos.symbol, pos.side, pos.units, trade.exitPrice);
        GrossIsGain(pos, trade.exitPrice);
        assert CarriesPerUnit(pos, k);
        WithoutSubset(w.positions, pos.symbol);
    }
  }

  lemma GrossIsGain(pos: Position, price: real)
    ensures Gross(pos, price) == Gain(pos.side, pos.units, pos.entryPrice, price)
  {
  }

  lemma WithoutSubset(ps: seq<Position>, symbol: string)
    ensures forall p :: p in Without(ps, symbol) ==> p in ps
  {
    WithoutBag(ps, symbol);
    assert forall p :: p in Without(ps, symbol) ==> p in multiset(Without(ps, symbol));
    assert forall p :: p in multiset(ps) ==> p in ps;
  }

  lemma PerUnitAdds(k: real, t: Turnover, ev: Event, start: real, cash: real, cash': real)
    requires cash == start + t.gross - EveryUnit(k, t.entered + 2.0 * t.closed)
    requires
      cash' == cash +
      match ev
      case Opened(pos) => -EveryUnit(k, pos.units)
      case Closed(pos, _, _, trade) =>
        Gain(pos.side, pos.units, pos.entryPrice, trade.exitPrice) - 2.0 * EveryUnit(k, pos.units)
    ensures cash' == start + Add(t, ev).gross - EveryUnit(k, Add(t, ev).entered + 2.0 * Add(t, ev).closed)
  {
    hide Gain;
    var units := ev.pos.units;
    match ev
    case Opened(_) => assert k * (t.entered + units + 2.0 * t.closed) == k * (t.entered + 2.0 * t.closed) + k * units;
    case Closed(_, _, _, _) =>
      assert k * (t.entered + 2.0 * (t.closed + units)) == k * (t.entered + 2.0 * t.closed) + 2.0 * (k * units);
  }

  lemma NothingOfRate(k: real)
    ensures EveryUnit(k, 0.0 + 2.0 * 0.0) == 0.0
  {
  }

  /**
   * With a constant cost k per unit, every run from an account with nothing open has in cash its start, plus the gross
   * results, minus k for every unit opened and 2k for every unit closed.
   */
  lemma {:induction false} PerUnitConservation(c: CostFn, w: Wallet, ops: seq<WalletOp>, k: real)
    requires CostsPerUnit(c, k) && w.positions == []
    ensures forall p :: p in Run(c, w, ops).positions ==> CarriesPerUnit(p, k)
    ensures
      var t := TurnoverOf(Book(c, w, ops));
      Run(c, w, ops).cash == w.cash + t.gross - EveryUnit(k, t.entered + 2.0 * t.closed)
  {
    hide CostsPerUnit, Step, EventOf, CarriesPerUnit, Add, EveryUnit;
    if ops == [] {
      NothingOfRate(k);
    } else {
      var before, op := ops[..|ops| - 1], ops[|ops| - 1];
      PerUnitConservation(c, w, before, k);
      PerUnitStep(c, Run(c, w, before), op, k);
      BookSnoc(c, w, ops);
      var book, ev := Book(c, w, before), EventOf(c, Run(c, w, before), op);
      if ev.Some? {
        assert (book + [ev.value])[..|book|] == book;
        PerUnitAdds(k, TurnoverOf(book), ev.value, w.cash, Run(c, w, before).cash, Run(c, w, ops).cash);
      }
    }
  }

  lemma UnitsStep(c: CostFn, w: Wallet, op: WalletOp)
    ensures
      var units := OpenUnits(Step(c, w, op).positions) - OpenUnits(w.positions);
      match EventOf(c, w, op)
      case None => units == 0.0
      case Some(Opened(pos)) => units == pos.units
      case Some(Closed(pos, _, _, _)) => units == -pos.units
  {
    hide FillCost, Gross, RoundTripCost, Net, Round6, Position.ExitFor;
    var ev := EventOf(c, w, op);
    if ev.Some? {
      match ev.value
      case Opened(pos) => UnitsSnoc(w.positions, pos);
      case Closed(pos, _, _, _) => UnitsWithout(w.positions, pos.symbol);
    }
  }

  /** The units opened and not closed are those of the open positions. */
  lemma {:induction false} UnitsBalance(c: CostFn, w: Wallet, ops: seq<WalletOp>)
    ensures
      var t := TurnoverOf(Book(c, w, ops));
      OpenUnits(Run(c, w, ops).positions) == OpenUnits(w.positions) + t.entered - t.closed
  {
    hide Step, EventOf, OpenUnits, Gain;
    if ops != [] {
      var before, op := ops[..|ops| - 1], ops[|ops| - 1];
      UnitsBalance(c, w, before);
      BookSnoc(c, w, ops);
      UnitsStep(c, Run(c, w, before), op);
      var book, ev := Book(c, w, before), EventOf(c, Run(c, w, before), op);
      if ev.Some? {
        assert (book + [ev.value])[..|book|] == book;
      }
    }
  }

  function OpenUnits(ps: seq<Position>): real {
    if ps == [] then 0.0 else ps[0].units + OpenUnits(ps[1..])
  }

  lemma {:induction false} UnitsSnoc(ps: seq<Position>, p: Position)
    ensures OpenUnits(ps + [p]) == OpenUnits(ps) + p.units
  {
    if ps != [] {
      assert (ps + [p])[1..] == ps[1..] + [p];
      UnitsSnoc(ps[1..], p);
    }
  }

  lemma {:induction false} UnitsWithout(ps: seq<Position>, symbol: string)
    requires OpenFor(ps, symbol).Some?
    ensures OpenUnits(Without(ps, symbol)) == OpenUnits(ps) - OpenFor(ps, symbol).value.units
  {
    if ps[0].symbol != symbol {
      UnitsWithout(ps[1..], symbol);
      assert Without(ps, symbol)[1..] == Without(ps[1..], symbol);
    }
  }

  // ---- valuation ------------------------------------------------------------------------------

  /** One more position adds what it has gained at its symbol's mark, and nothing while the symbol has none. */
  lemma PositionAddsItsGain(w: Wallet, p: Position)
    ensures
      TotalEquity(w.(positions := w.positions + [p])) ==
      TotalEquity(w) + if p.symbol in w.lastMark then Gain(p.side, p.units, p.entryPrice, w.lastMark[p.symbol]) else 0.0
    ensures w.positions == [] ==> TotalEquity(w) == w.cash
  {
    assert (w.positions + [p])[..|w.positions|] == w.positions;
  }

  ghost predicate AllMarked(w: Wallet) {
    forall p :: p in w.positions ==> p.symbol in w.lastMark
  }

  lemma StepKeepsMarks(c: CostFn, w: Wallet, op: WalletOp)
    requires AllMarked(w)
    ensures AllMarked(Step(c, w, op))
  {
    hide FillCost, Gross, RoundTripCost, Net, Round6, Position.ExitFor, Observe;
    var ev := EventOf(c, w, op);
    if ev.Some? && ev.value.Closed? {
      WithoutSubset(w.positions, ev.value.pos.symbol);
    }
    ObserveKeepsMarks(w);
  }

  lemma ObserveKeepsMarks(w: Wallet)
    ensures Observe(w).positions == w.positions && Observe(w).lastMark == w.lastMark
  {
  }

  /** Over every run from a fresh account each open position has a mark, so none is ever valued without one. */
  lemma {:induction false} EveryPositionIsMarked(c: CostFn, start: real, seed: int, ops: seq<WalletOp>)
    ensures AllMarked(Run(c, FreshWallet(start, seed), ops))
  {
    hide AllMarked, Step;
    if ops == [] {
      NothingToMark(start, seed);
    } else {
      EveryPositionIsMarked(c, start, seed, ops[..|ops| - 1]);
      StepKeepsMarks(c, Run(c, FreshWallet(start, seed), ops[..|ops| - 1]), ops[|ops| - 1]);
    }
  }

  lemma NothingToMark(start: real, seed: int)
    ensures AllMarked(FreshWallet(start, seed))
  {
  }

  // ---- online drawdown --------------------------------------------------------------------

  /** The equities a run valued, in order. */
  function Observed(c: CostFn, w: Wallet, ops: seq<WalletOp>): seq<real> {
    if ops == [] then []
    else
      var before := ops[..|ops| - 1];
      Observed(c, w, before) + if ops[|ops| - 1].ObserveOp? then [TotalEquity(Run(c, w, before))] else []
  }

  ghost predicate AllPositive(es: seq<real>) {
    forall i :: 0 <= i < |es| ==> es[i] > 0.0
  }

  ghost predicate IsPeakOf(m: real, es: seq<real>) {
    && m in es
    && forall i :: 0 <= i < |es| ==> es[i] <= m
  }

  /** Relative fall from an earlier to a later equity. */
  function Fall(es: seq<real>, i: nat, j: nat): real
    requires i <= j < |es| && es[i] > 0.0
  {
    (es[i] - es[j]) / es[i]
  }

  /** The largest fall over all pairs i <= j. */
  ghost predicate IsMaxFall(d: real, es: seq<real>)
    requires AllPositive(es)
  {
    && (forall i, j :: 0 <= i <= j < |es| ==> Fall(es, i, j) <= d)
    && (exists i, j :: 0 <= i <= j < |es| && Fall(es, i, j) == d)
  }

  lemma FallGrowsWithPeak(high: real, top: real, e: real)
    requires 0.0 < high <= top && 0.0 < e
    ensures (high - e) / high <= (top - e) / top
  {
    var x := e / top;
    assert x * top == e;
    assert x * high <= x * top;
    assert high - e <= (1.0 - x) * high;
    assert top - e == (1.0 - x) * top;
  }

  /** One more valuation keeps peak and drawdown equal to their definitions. */
  lemma ObserveKeepsDefinitions(es: seq<real>, peak: real, drawdown: real, e: real)
    requires AllPositive(es) && e > 0.0
    requires IsPeakOf(peak, es) && IsMaxFall(drawdown, es)
    ensures IsPeakOf(ObservePeak(peak, e), es + [e])
    ensures IsMaxFall(ObserveDrawdown(peak, drawdown, e), es + [e])
  {
    var es', top, d := es + [e], ObservePeak(peak, e), ObserveDrawdown(peak, drawdown, e);
    var n := |es|;
    assert forall k :: 0 <= k < n ==> es'[k] == es[k];
    assert es'[n] == e;
    assert top in es' by {
      if e > peak { assert es'[n] == top; } else {
        var k :| 0 <= k < n && es[k] == peak;
        assert es'[k] == top;
      }
    }
    forall i, j | 0 <= i <= j < |es'|
      ensures Fall(es', i, j) <= d
    {
      if j < n {
        assert Fall(es', i, j) == Fall(es, i, j);
      } else {
        FallGrowsWithPeak(es'[i], top, e);
      }
    }
    if d == drawdown {
      var i, j :| 0 <= i <= j < n && Fall(es, i, j) == drawdown;
      assert Fall(es', i, j) == d;
    } else {
      var k :| 0 <= k <= n && es'[k] == top;
      assert Fall(es', k, n) == d;
    }
  }

  lemma StepObserves(c: CostFn, w: Wallet, op: WalletOp)
    ensures
      var w' := Step(c, w, op);
      if op.ObserveOp? then
        && w'.peakEquity == ObservePeak(w.peakEquity, TotalEquity(w))
        && w'.maxDrawdownPct == ObserveDrawdown(w.peakEquity, w.maxDrawdownPct, TotalEquity(w))
      else w'.peakEquity == w.peakEquity && w'.maxDrawdownPct == w.maxDrawdownPct
  {
  }

  /** The tracked peak and drawdown are the running maximum and the maximal fall of start plus all valued equities. */
  lemma {:induction false} OnlineDrawdown(c: CostFn, w: Wallet, es: seq<real>, ops: seq<WalletOp>)
    requires AllPositive(es) && IsPeakOf(w.peakEquity, es) && IsMaxFall(w.maxDrawdownPct, es)
    requires AllPositive(Observed(c, w, ops))
    ensures AllPositive(es + Observed(c, w, ops))
    ensures IsPeakOf(Run(c, w, ops).peakEquity, es + Observed(c, w, ops))
    ensures IsMaxFall(Run(c, w, ops).maxDrawdownPct, es + Observed(c, w, ops))
  {
    if ops == [] {
      assert es + [] == es;
    } else {
      var before := ops[..|ops| - 1];
      var seen, now := Observed(c, w, before), Observed(c, w, ops);
      assert forall i :: 0 <= i < |seen| ==> seen[i] == now[i];
      OnlineDrawdown(c, w, es, before);
      var mid := Run(c, w, before);
      StepObserves(c, mid, ops[|ops| - 1]);
      if ops[|ops| - 1].ObserveOp? {
        assert now[|seen|] == TotalEquity(mid);
        ObserveKeepsDefinitions(es + seen, mid.peakEquity, mid.maxDrawdownPct, TotalEquity(mid));
        assert es + seen + [TotalEquity(mid)] == es + now;
      } else {
        assert now == seen;
      }
    }
  }

  lemma OnlineDrawdownFromStart(c: CostFn, start: real, seed: int, ops: seq<WalletOp>)
    requires start > 0.0
    requires AllPositive(Observed(c, FreshWallet(start, seed), ops))
    ensures
      var w := FreshWallet(start, seed);
      var es := [start] + Observed(c, w, ops);
      && IsPeakOf(Run(c, w, ops).peakEquity, es)
      && AllPositive(es) && IsMaxFall(Run(c, w, ops).maxDrawdownPct, es)
  {
    assert Fall([start], 0, 0) == 0.0;
    OnlineDrawdown(c, FreshWallet(start, seed), [start], ops);
  }

  /** Neither figure ever falls, whatever the equities are. */
  lemma {:induction false} DrawdownNeverFalls(c: CostFn, w: Wallet, ops: seq<WalletOp>, more: seq<WalletOp>)
    ensures Run(c, w, ops + more).maxDrawdownPct >= Run(c, w, ops).maxDrawdownPct
    ensures Run(c, w, ops + more).peakEquity >= Run(c, w, ops).peakEquity
    decreases |more|
  {
    hide Step, TotalEquity;
    if more == [] {
      assert ops + more == ops;
    } else {
      var before := more[..|more| - 1];
      DrawdownNeverFalls(c, w, ops, before);
      assert (ops + more)[..|ops + more| - 1] == ops + before;
      StepObserves(c, Run(c, w, ops + before), more[|more| - 1]);
    }
  }
}
