/** The paper lifecycle: fill arbitration and the processing of one unit-bar, as functions of the ledger. */
module Lifecycle {
  import opened Prelude
  import opened Paper
  import opened Ledger
  import opened LedgerInvariant

  datatype Bar = Bar(ts: int, open: real, close: real)

  /** A pending order with its fill bar; `order` is the row's handle, the other fields never change in the row. */
  datatype Candidate = Candidate(
    order: nat, symbol: string, timeframe: Timeframe, side: Direction, createdAt: int, uid: nat, fillStamp: int)

  datatype FillAction = FillNow | Flip | Superseded

  // ---- candidates -------------------------------------------------------------------------

  function CandidateKey(): Candidate -> Key {
    (c: Candidate) => Key(c.fillStamp, c.createdAt, c.uid)
  }

  function CandidateOf(o: OrderRow, h: nat, bucket: int): Candidate {
    Candidate(h, o.symbol, o.timeframe, o.side, o.createdAt, o.uid, bucket + o.timeframe.Seconds())
  }

  /** Orders whose decision has no known bar have no fill bar and stay pending. */
  function Resolve(s: Store, h: nat): Option<Candidate>
    requires h < |s.orders|
  {
    var d := s.orders[h].decisionId;
    if d.Some? && d.value in s.buckets then Some(CandidateOf(s.orders[h], h, s.buckets[d.value])) else None
  }

  function ResolveAll(s: Store, hs: seq<nat>): seq<Candidate> {
    if hs == [] then []
    else
      (if hs[0] < |s.orders| && Resolve(s, hs[0]).Some? then [Resolve(s, hs[0]).value] else []) + ResolveAll(s, hs[1..])
  }

  function PendingCandidates(s: Store): seq<Candidate> {
    SortByKey(ResolveAll(s, PendingOrders(s.orders)), CandidateKey())
  }

  function OfUnit(cands: seq<Candidate>, symbol: string, timeframe: Timeframe): (r: seq<Candidate>)
    ensures forall c :: c in r <==> c in cands && c.symbol == symbol && c.timeframe == timeframe
  {
    if cands == [] then []
    else
      (if cands[0].symbol == symbol && cands[0].timeframe == timeframe then [cands[0]] else []) +
      OfUnit(cands[1..], symbol, timeframe)
  }

  function WithStamp(cands: seq<Candidate>, ts: int): (r: seq<Candidate>)
    ensures forall c :: c in r <==> c in cands && c.fillStamp == ts
  {
    if cands == [] then []
    else (if cands[0].fillStamp == ts then [cands[0]] else []) + WithStamp(cands[1..], ts)
  }

  /** Candidates due at a bar, oldest first. */
  function DueAt(cands: seq<Candidate>, ts: int): seq<Candidate> {
    SortByKey(WithStamp(cands, ts), CandidateKey())
  }

  // ---- arbitration ------------------------------------------------------------------------

  /** One round of the arbitration loop: the action, the side held afterwards, and whether the bar is taken. */
  function ArbitrateOne(current: Option<Direction>, filled: bool, side: Direction): (FillAction, Option<Direction>, bool) {
    if current.None? && !filled then (FillNow, Some(side), true)
    else if current == Some(side) then (Superseded, current, filled)
    else if current.Some? && !filled then (Flip, Some(side), true)
    else (Superseded, current, filled)
  }

  function ArbitrateFrom(current: Option<Direction>, filled: bool, cands: seq<Candidate>): (r: seq<FillAction>)
    ensures |r| == |cands|
    decreases cands
  {
    if cands == [] then []
    else
      var (action, current', filled') := ArbitrateOne(current, filled, cands[0].side);
      [action] + ArbitrateFrom(current', filled', cands[1..])
  }

  function Arbitrate(openSide: Option<Direction>, cands: seq<Candidate>): (r: seq<FillAction>)
    ensures |r| == |cands|
  {
    ArbitrateFrom(openSide, false, cands)
  }

  /** Index of the first candidate the open side does not already satisfy; |cands| when there is none. */
  function ActingIndex(openSide: Option<Direction>, cands: seq<Candidate>): (r: nat)
    ensures r <= |cands|
    ensures forall i :: 0 <= i < r ==> openSide == Some(cands[i].side)
    ensures r < |cands| ==> openSide != Some(cands[r].side)
  {
    if cands == [] then 0
    else if openSide != Some(cands[0].side) then 0
    else 1 + ActingIndex(openSide, cands[1..])
  }

  lemma {:induction false} TakenBarSupersedes(current: Option<Direction>, cands: seq<Candidate>)
    ensures forall i :: 0 <= i < |cands| ==> ArbitrateFrom(current, true, cands)[i] == Superseded
  {
    if cands != [] {
      TakenBarSupersedes(current, cands[1..]);
    }
  }

  /** Exactly the acting candidate acts: a fill when nothing is open, a flip otherwise; all others are superseded. */
  lemma {:induction false} OnlyOneActs(openSide: Option<Direction>, cands: seq<Candidate>)
    ensures
      var k := ActingIndex(openSide, cands);
      forall i :: 0 <= i < |cands| ==>
        Arbitrate(openSide, cands)[i] ==
        if i != k then Superseded else if openSide.None? then FillNow else Flip
  {
    if cands != [] {
      if openSide == Some(cands[0].side) {
        OnlyOneActs(openSide, cands[1..]);
        assert Arbitrate(openSide, cands) == [Superseded] + Arbitrate(openSide, cands[1..]);
      } else {
        TakenBarSupersedes(Some(cands[0].side), cands[1..]);
        assert Arbitrate(openSide, cands)[1..] == ArbitrateFrom(Some(cands[0].side), true, cands[1..]);
      }
    }
  }

  // ---- one unit-bar -----------------------------------------------------------------------

  datatype Progress = Progress(ledger: Ledger, filled: nat, superseded: nat)

  function ExecuteOne(c: CostFn, p: Progress, symbol: string, bar: Bar, cand: Candidate, action: FillAction): Progress {
    var l := p.ledger;
    match action
    case Superseded =>
      Progress(Cancel(l, cand.order), p.filled, p.superseded + if IsPending(l.store.orders, cand.order) then 1 else 0)
    case _ =>
      var l1 := if action == Flip then SignalClose(c, l, symbol, bar.open, bar.ts) else l;
      Progress(Fill(c, l1, cand.order, bar.open, bar.ts), p.filled + if Fillable(l1, cand.order) then 1 else 0,
               p.superseded)
  }

  function Execute(c: CostFn, p: Progress, symbol: string, bar: Bar, cands: seq<Candidate>,
                   actions: seq<FillAction>): Progress
    requires |cands| == |actions|
    decreases cands
  {
    if cands == [] then p
    else Execute(c, ExecuteOne(c, p, symbol, bar, cands[0], actions[0]), symbol, bar, cands[1..], actions[1..])
  }

  predicate SnapshotDue(snaps: seq<Snapshot>, ts: int, interval: Option<int>) {
    var latest := LatestSnapshot(snaps);
    latest.Some? ==> !(latest.value.ts >= ts || (interval.Some? && ts < latest.value.ts + interval.value))
  }

  function OpenSide(w: Wallet, symbol: string): Option<Direction> {
    var pos := OpenFor(w.positions, symbol);
    if pos.None? then None else Some(pos.value.side)
  }

  datatype BarResult = BarResult(ledger: Ledger, filled: nat, exits: nat, superseded: nat, snapshotWritten: bool)

  /** Step 2 of the sequence: fills and flips at the bar's open. */
  function FillsAtOpen(c: CostFn, l: Ledger, symbol: string, bar: Bar, cands: seq<Candidate>): Progress {
    var due := DueAt(cands, bar.ts);
    Execute(c, Progress(l, 0, 0), symbol, bar, due, Arbitrate(OpenSide(l.wallet, symbol), due))
  }

  /** restore, fill or flip at the open, exit at the close, mark, snapshot. */
  function ProcessBar(c: CostFn, l: Ledger, symbol: string, bar: Bar, cands: seq<Candidate>,
                      interval: Option<int>): BarResult {
    var p := FillsAtOpen(c, Restore(l), symbol, bar, cands);
    var exits := if ExitHit(p.ledger.wallet, symbol, bar.close).Some? then 1 else 0;
    var l2 := MarkPrice(ExitAt(c, p.ledger, symbol, bar.close, bar.ts), symbol, bar.close);
    var changed := p.filled > 0 || exits > 0 || OpenFor(l2.wallet.positions, symbol).Some?;
    var written := changed && SnapshotDue(l2.store.snapshots, bar.ts, interval);
    BarResult(if written then TakeSnapshot(l2, bar.ts) else l2, p.filled, exits, p.superseded, written)
  }

  // ---- what a bar does --------------------------------------------------------------------

  /** A candidate still describes its order row, which is waiting. */
  predicate Waiting(s: Store, cand: Candidate) {
    && IsPending(s.orders, cand.order)
    && var o := s.orders[cand.order]; cand == CandidateOf(o, cand.order, cand.fillStamp - o.timeframe.Seconds())
  }

  ghost predicate DistinctOrders(cands: seq<Candidate>) {
    forall i, j :: 0 <= i < j < |cands| ==> cands[i].order != cands[j].order
  }

  ghost predicate AllWaiting(s: Store, cands: seq<Candidate>, symbol: string) {
    && DistinctOrders(cands)
    && forall i :: 0 <= i < |cands| ==> Waiting(s, cands[i]) && cands[i].symbol == symbol
  }

  /** The orders of `cands` are settled: the one at index `acting` FILLED, the others CANCELLED; no other order moved. */
  ghost predicate Settles(orders: seq<OrderRow>, orders': seq<OrderRow>, cands: seq<Candidate>, acting: nat) {
    && |orders'| == |orders|
    && (forall i :: 0 <= i < |cands| ==>
          cands[i].order < |orders'| && orders'[cands[i].order].status == if i == acting then FILLED else CANCELLED)
    && (forall h :: 0 <= h < |orders| && (forall i :: 0 <= i < |cands| ==> cands[i].order != h) ==> orders'[h] == orders[h])
  }

  lemma SettlesCons(orders: seq<OrderRow>, mid: seq<OrderRow>, orders': seq<OrderRow>, cands: seq<Candidate>,
                    first: bool, acting: nat)
    requires cands != [] && DistinctOrders(cands)
    requires Settles(orders, mid, cands[..1], if first then 0 else 1)
    requires Settles(mid, orders', cands[1..], if first then |cands| - 1 else acting)
    ensures Settles(orders, orders', cands, if first then 0 else acting + 1)
  {
    assert cands[..1][0] == cands[0];
    assert forall i :: 1 <= i < |cands| ==> cands[1..][i - 1] == cands[i];
    assert orders'[cands[0].order] == mid[cands[0].order] by {
      forall i | 0 <= i < |cands[1..]|
        ensures cands[1..][i].order != cands[0].order
      {
        assert cands[1..][i] == cands[i + 1];
      }
    }
    forall i | 1 <= i < |cands|
      ensures cands[i].order < |orders'|
      ensures orders'[cands[i].order].status == if i == (if first then 0 else acting + 1) then FILLED else CANCELLED
    {
      assert cands[1..][i - 1] == cands[i];
    }
    forall h | 0 <= h < |orders| && (forall i :: 0 <= i < |cands| ==> cands[i].order != h)
      ensures orders'[h] == orders[h]
    {
      assert mid[h] == orders[h];
    }
  }

  lemma StillWaiting(s: Store, s': Store, cands: seq<Candidate>, symbol: string, acting: nat)
    requires cands != [] && AllWaiting(s, cands, symbol)
    requires Settles(s.orders, s'.orders, cands[..1], acting)
    ensures AllWaiting(s', cands[1..], symbol)
  {
    forall i | 0 <= i < |cands[1..]|
      ensures Waiting(s', cands[1..][i]) && cands[1..][i].symbol == symbol
    {
      assert cands[1..][i] == cands[i + 1] && Waiting(s, cands[i + 1]);
      assert cands[..1][0].order != cands[i + 1].order;
    }
  }

  ghost predicate OnlyCancels(p: Progress, p': Progress, cands: seq<Candidate>) {
    && Sound(p'.ledger) && Grows(p.ledger.store, p'.ledger.store)
    && Settles(p.ledger.store.orders, p'.ledger.store.orders, cands, |cands|)
    && p'.ledger.wallet == p.ledger.wallet
    && p'.ledger.store == p.ledger.store.(orders := p'.ledger.store.orders)
    && p'.filled == p.filled && p'.superseded == p.superseded + |cands|
  }

  lemma SupersededOne(c: CostFn, p: Progress, symbol: string, bar: Bar, cand: Candidate)
    requires Sound(p.ledger) && Waiting(p.ledger.store, cand)
    ensures
      var p' := ExecuteOne(c, p, symbol, bar, cand, Superseded);
      && Sound(p'.ledger) && Grows(p.ledger.store, p'.ledger.store)
      && Settles(p.ledger.store.orders, p'.ledger.store.orders, [cand], 1)
      && p'.ledger.wallet == p.ledger.wallet
      && p'.ledger.store == p.ledger.store.(orders := p'.ledger.store.orders)
      && p'.filled == p.filled && p'.superseded == p.superseded + 1
  {
    CancelKeeps(p.ledger, cand.order);
    assert [cand][0] == cand;
  }

  lemma NoneCancelled(p: Progress)
    requires Sound(p.ledger)
    ensures OnlyCancels(p, p, [])
  {
  }

  lemma CancelsOneMore(p: Progress, p1: Progress, p': Progress, cands: seq<Candidate>)
    requires cands != [] && DistinctOrders(cands)
    requires OnlyCancels(p, p1, [cands[0]]) && OnlyCancels(p1, p', cands[1..])
    ensures OnlyCancels(p, p', cands)
  {
    assert cands[..1] == [cands[0]];
    GrowsTransitive(p.ledger.store, p1.ledger.store, p'.ledger.store);
    SettlesCons(p.ledger.store.orders, p1.ledger.store.orders, p'.ledger.store.orders, cands, false, |cands| - 1);
  }

  lemma {:induction false} SupersededAll(c: CostFn, p: Progress, symbol: string, bar: Bar, cands: seq<Candidate>,
                                         actions: seq<FillAction>)
    requires Sound(p.ledger) && AllWaiting(p.ledger.store, cands, symbol)
    requires |cands| == |actions| && forall i :: 0 <= i < |actions| ==> actions[i] == Superseded
    ensures OnlyCancels(p, Execute(c, p, symbol, bar, cands, actions), cands)
    decreases cands
  {
    hide Sound, Settles, Grows, Waiting, OnlyCancels;
    if cands == [] {
      NoneCancelled(p);
    } else {
      var p1 := ExecuteOne(c, p, symbol, bar, cands[0], Superseded);
      assert cands[..1] == [cands[0]];
      assert Waiting(p.ledger.store, cands[0]);
      SupersededOne(c, p, symbol, bar, cands[0]);
      StillWaiting(p.ledger.store, p1.ledger.store, cands, symbol, 1);
      SupersededAll(c, p1, symbol, bar, cands[1..], actions[1..]);
      var p' := Execute(c, p1, symbol, bar, cands[1..], actions[1..]);
      CancelsOneMore(p, p1, p', cands);
    }
  }

  function FilledPosition(c: CostFn, o: OrderRow, bar: Bar): Position {
    PositionOf(c, o.seed, EntryOf(o, bar.open, bar.ts))
  }

  lemma FillOne(c: CostFn, l: Ledger, bar: Bar, cand: Candidate)
    requires Sound(l) && Waiting(l.store, cand) && OpenFor(l.wallet.positions, cand.symbol).None?
    ensures
      var l' := Fill(c, l, cand.order, bar.open, bar.ts);
      && Sound(l') && Grows(l.store, l'.store) && Fillable(l, cand.order)
      && Settles(l.store.orders, l'.store.orders, [cand], 0)
      && l'.store.snapshots == l.store.snapshots
      && OpenFor(l'.wallet.positions, cand.symbol) == Some(FilledPosition(c, l.store.orders[cand.order], bar))
  {
    assert Fillable(l, cand.order);
    FillKeeps(c, l, cand.order, bar.open, bar.ts);
    FillEffect(c, l, cand.order, bar.open, bar.ts);
    var l' := Fill(c, l, cand.order, bar.open, bar.ts);
    assert [cand][0] == cand;
    var pos := FilledPosition(c, l.store.orders[cand.order], bar);
    assert l'.wallet.positions[|l.wallet.positions|] == pos;
    OnlyOpenFor(l'.wallet.positions, pos);
  }

  /** The acting candidate, alone: any opposing position goes, and the order becomes the one open position. */
  lemma ActingOne(c: CostFn, p: Progress, symbol: string, bar: Bar, cand: Candidate, action: FillAction)
    requires Sound(p.ledger) && Waiting(p.ledger.store, cand) && cand.symbol == symbol
    requires action == if OpenFor(p.ledger.wallet.positions, symbol).None? then FillNow else Flip
    ensures
      var p' := ExecuteOne(c, p, symbol, bar, cand, action);
      && Sound(p'.ledger) && Grows(p.ledger.store, p'.ledger.store)
      && Settles(p.ledger.store.orders, p'.ledger.store.orders, [cand], 0)
      && p'.ledger.store.snapshots == p.ledger.store.snapshots
      && p'.filled == p.filled + 1 && p'.superseded == p.superseded
      && OpenFor(p'.ledger.wallet.positions, symbol) == Some(FilledPosition(c, p.ledger.store.orders[cand.order], bar))
  {
    hide StoreSound, Mirrored;
    var l := p.ledger;
    if action == Flip {
      var l1 := SignalClose(c, l, symbol, bar.open, bar.ts);
      CloseKeeps(c, l, symbol, bar.open, Signal, bar.ts);
      assert l1.store.orders == l.store.orders && l1.store.snapshots == l.store.snapshots;
      FillOne(c, l1, bar, cand);
      GrowsTransitive(l.store, l1.store, Fill(c, l1, cand.order, bar.open, bar.ts).store);
    } else {
      FillOne(c, l, bar, cand);
    }
  }

  /** What the arbitrated actions of a bar must achieve. */
  ghost predicate Executes(c: CostFn, p: Progress, p': Progress, symbol: string, bar: Bar, cands: seq<Candidate>, k: nat)
    requires AllWaiting(p.ledger.store, cands, symbol)
  {
    && Sound(p'.ledger) && Grows(p.ledger.store, p'.ledger.store)
    && Settles(p.ledger.store.orders, p'.ledger.store.orders, cands, k)
    && p'.ledger.store.snapshots == p.ledger.store.snapshots
    && p'.filled == p.filled + (if k < |cands| then 1 else 0)
    && p'.superseded == p.superseded + |cands| - (if k < |cands| then 1 else 0)
    && if k < |cands| then
         OpenFor(p'.ledger.wallet.positions, symbol) == Some(FilledPosition(c, p.ledger.store.orders[cands[k].order], bar))
       else
         p'.ledger.wallet == p.ledger.wallet && p'.ledger.store == p.ledger.store.(orders := p'.ledger.store.orders)
  }

  lemma ActsThenCancels(c: CostFn, p: Progress, p1: Progress, p': Progress, symbol: string, bar: Bar, cands: seq<Candidate>)
    requires AllWaiting(p.ledger.store, cands, symbol) && cands != []
    requires Grows(p.ledger.store, p1.ledger.store)
    requires Settles(p.ledger.store.orders, p1.ledger.store.orders, cands[..1], 0)
    requires p1.ledger.store.snapshots == p.ledger.store.snapshots
    requires p1.filled == p.filled + 1 && p1.superseded == p.superseded
    requires
      OpenFor(p1.ledger.wallet.positions, symbol) == Some(FilledPosition(c, p.ledger.store.orders[cands[0].order], bar))
    requires OnlyCancels(p1, p', cands[1..])
    ensures Executes(c, p, p', symbol, bar, cands, 0)
  {
    SettlesCons(p.ledger.store.orders, p1.ledger.store.orders, p'.ledger.store.orders, cands, true, 0);
    GrowsTransitive(p.ledger.store, p1.ledger.store, p'.ledger.store);
  }

  lemma ActsFirst(c: CostFn, p: Progress, symbol: string, bar: Bar, cands: seq<Candidate>, actions: seq<FillAction>)
    requires Sound(p.ledger) && AllWaiting(p.ledger.store, cands, symbol) && cands != [] && |actions| == |cands|
    requires actions[0] == if OpenFor(p.ledger.wallet.positions, symbol).None? then FillNow else Flip
    requires forall i :: 1 <= i < |cands| ==> actions[i] == Superseded
    ensures Executes(c, p, Execute(c, p, symbol, bar, cands, actions), symbol, bar, cands, 0)
  {
    hide Sound, Executes, Settles, OnlyCancels, Grows;
    assert cands[..1] == [cands[0]];
    assert Waiting(p.ledger.store, cands[0]);
    var p1 := ExecuteOne(c, p, symbol, bar, cands[0], actions[0]);
    ActingOne(c, p, symbol, bar, cands[0], actions[0]);
    StillWaiting(p.ledger.store, p1.ledger.store, cands, symbol, 0);
    SupersededAll(c, p1, symbol, bar, cands[1..], actions[1..]);
    ActsThenCancels(c, p, p1, Execute(c, p1, symbol, bar, cands[1..], actions[1..]), symbol, bar, cands);
  }

  lemma SkipsFirst(c: CostFn, p: Progress, p': Progress, symbol: string, bar: Bar, cands: seq<Candidate>, k: nat)
    requires Sound(p.ledger) && AllWaiting(p.ledger.store, cands, symbol) && cands != []
    ensures
      var p1 := ExecuteOne(c, p, symbol, bar, cands[0], Superseded);
      && Sound(p1.ledger) && AllWaiting(p1.ledger.store, cands[1..], symbol) && p1.ledger.wallet == p.ledger.wallet
      && (Executes(c, p1, p', symbol, bar, cands[1..], k) && k <= |cands| - 1 ==>
          Executes(c, p, p', symbol, bar, cands, k + 1))
  {
    hide Sound, Settles, Grows;
    assert cands[..1] == [cands[0]];
    assert Waiting(p.ledger.store, cands[0]);
    var p1 := ExecuteOne(c, p, symbol, bar, cands[0], Superseded);
    SupersededOne(c, p, symbol, bar, cands[0]);
    StillWaiting(p.ledger.store, p1.ledger.store, cands, symbol, 1);
    if Executes(c, p1, p', symbol, bar, cands[1..], k) && k <= |cands| - 1 {
      SettlesCons(p.ledger.store.orders, p1.ledger.store.orders, p'.ledger.store.orders, cands, false, k);
      GrowsTransitive(p.ledger.store, p1.ledger.store, p'.ledger.store);
      if k + 1 < |cands| {
        assert cands[1..][k] == cands[k + 1];
        assert cands[..1][0].order != cands[k + 1].order;
      }
    }
  }

  /**
   * Running the arbitrated actions of a bar: the acting order is FILLED and opens the symbol's only position, every
   * other due order is CANCELLED, none stays PENDING, no order outside the list moves, and at most one fill happens.
   */
  lemma {:induction false} ExecutionAgrees(c: CostFn, p: Progress, symbol: string, bar: Bar, cands: seq<Candidate>)
    requires Sound(p.ledger) && AllWaiting(p.ledger.store, cands, symbol)
    ensures
      var side := OpenSide(p.ledger.wallet, symbol);
      Executes(c, p, Execute(c, p, symbol, bar, cands, Arbitrate(side, cands)), symbol, bar, cands,
               ActingIndex(side, cands))
    decreases cands
  {
    hide Sound, Settles, Grows, AllWaiting, ExecuteOne, Executes;
    var side := OpenSide(p.ledger.wallet, symbol);
    if cands == [] {
      NothingExecuted(c, p, symbol, bar);
    } else {
      var actions := Arbitrate(side, cands);
      OnlyOneActs(side, cands);
      if side == Some(cands[0].side) {
        var p1 := ExecuteOne(c, p, symbol, bar, cands[0], Superseded);
        SkipsFirst(c, p, Execute(c, p1, symbol, bar, cands[1..], actions[1..]), symbol, bar, cands,
                   ActingIndex(side, cands[1..]));
        assert actions[1..] == Arbitrate(side, cands[1..]);
        ExecutionAgrees(c, p1, symbol, bar, cands[1..]);
      } else {
        ActsFirst(c, p, symbol, bar, cands, actions);
      }
    }
  }

  lemma NothingExecuted(c: CostFn, p: Progress, symbol: string, bar: Bar)
    requires Sound(p.ledger) && AllWaiting(p.ledger.store, [], symbol)
    ensures Executes(c, p, p, symbol, bar, [], 0)
  {
  }
}
