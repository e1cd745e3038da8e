/** What processing one unit-bar does to the store, from whatever broker: the facts restart and parity rest on. */
module Bars {
  import opened Prelude
  import opened Paper
  import opened Ledger
  import opened LedgerInvariant
  import opened Lifecycle
  import opened CatchUp

  /** Every order carries the broker's own seed. */
  ghost predicate Seeded(s: Store, seed: int) {
    forall h :: 0 <= h < |s.orders| ==> s.orders[h].seed == seed
  }

  /** A broker whose memory adds nothing to the store: before the first snapshot it still holds the start values. */
  ghost predicate Anchored(cfg: Config, l: Ledger) {
    && l.wallet.seed == cfg.seed && l.seed == cfg.seed
    && (l.store.snapshots == [] ==>
          && l.wallet.cash == cfg.startEquity && l.wallet.equity == cfg.startEquity
          && l.wallet.peakEquity == cfg.startEquity && l.wallet.maxDrawdownPct == 0.0)
  }

  function Fresh(cfg: Config, s: Store): Ledger {
    FreshLedger(s, cfg.startEquity, cfg.seed)
  }

  lemma AnchoredRestoresAlike(cfg: Config, l: Ledger)
    requires Anchored(cfg, l)
    ensures Restore(l) == Restore(Fresh(cfg, l.store))
  {
  }

  /** Processing one bar from a fresh broker. */
  function BarOf(c: CostFn, cfg: Config, s: Store, b: Bar, cands: seq<Candidate>): BarResult {
    ProcessBar(c, Fresh(cfg, s), cfg.symbol, b, cands, cfg.interval)
  }

  function StoreBar(c: CostFn, cfg: Config, s: Store, b: Bar, cands: seq<Candidate>): Store {
    BarOf(c, cfg, s, b, cands).ledger.store
  }

  ghost predicate Ready(cfg: Config, s: Store, cands: seq<Candidate>, ts: int) {
    AllWaiting(s, DueAt(cands, ts), cfg.symbol)
  }

  /** The position survived this bar's close and the bar has its snapshot. */
  predicate Survived(cfg: Config, s: Store, pos: Position, b: Bar) {
    pos.ExitFor(b.close).None? && !SnapshotDue(s.snapshots, b.ts, cfg.interval)
  }

  /** What a bar leaves behind. */
  ghost predicate BarDone(cfg: Config, s: Store, s': Store, b: Bar, due: seq<Candidate>) {
    && StoreSound(s') && Grows(s, s') && Seeded(s', cfg.seed)
    && (exists k :: Settles(s.orders, s'.orders, due, k))
    && (var pos := OpenIn(s', cfg.symbol);
        pos.Some? ==> Survived(cfg, s', pos.value, b) && (pos == OpenIn(s, cfg.symbol) || pos.value.entryTs == b.ts))
  }

  lemma OpenInMemory(l: Ledger, symbol: string)
    requires Sound(l)
    ensures OpenFor(l.wallet.positions, symbol) == OpenIn(l.store, symbol)
  {
    OpenAgrees(l, symbol);
  }

  lemma SettlesSeeds(s: Store, s': Store, seed: int)
    requires Seeded(s, seed) && Grows(s, s') && |s'.orders| == |s.orders|
    ensures Seeded(s', seed)
  {
    forall h | 0 <= h < |s'.orders|
      ensures s'.orders[h].seed == seed
    {
      assert OrderEvolves(s.orders[h], s'.orders[h]);
    }
  }

  lemma LatestSnoc(snaps: seq<Snapshot>, s: Snapshot)
    ensures LatestSnapshot(snaps + [s]).Some? && LatestSnapshot(snaps + [s]).value.ts >= s.ts
    ensures (forall x :: x in snaps ==> x.ts <= s.ts) ==> LatestSnapshot(snaps + [s]) == Some(s)
  {
    assert (snaps + [s])[..|snaps|] == snaps;
    assert (snaps + [s])[|snaps|] == s;
    assert s in snaps + [s];
  }

  /** The steps of a bar after the fills: exit at the close, mark, snapshot. */
  function CloseOut(c: CostFn, l: Ledger, symbol: string, b: Bar, interval: Option<int>, filled: bool): Ledger {
    var exits := ExitHit(l.wallet, symbol, b.close).Some?;
    var l2 := MarkPrice(ExitAt(c, l, symbol, b.close, b.ts), symbol, b.close);
    if (filled || exits || OpenFor(l2.wallet.positions, symbol).Some?) && SnapshotDue(l2.store.snapshots, b.ts, interval)
    then TakeSnapshot(l2, b.ts) else l2
  }

  lemma ExitFacts(c: CostFn, l: Ledger, symbol: string, b: Bar)
    requires Sound(l)
    ensures
      var l' := ExitAt(c, l, symbol, b.close, b.ts);
      && Sound(l') && Grows(l.store, l'.store)
      && l'.store.orders == l.store.orders && l'.store.snapshots == l.store.snapshots
      && l'.wallet.seed == l.wallet.seed
      && (if ExitHit(l.wallet, symbol, b.close).Some? then OpenFor(l'.wallet.positions, symbol).None? else l' == l)
  {
    hide StoreSound, Mirrored;
    var hit := ExitHit(l.wallet, symbol, b.close);
    if hit.Some? {
      CloseKeeps(c, l, symbol, hit.value.0, hit.value.1, b.ts);
    }
  }

  lemma CloseOutFacts(c: CostFn, cfg: Config, l: Ledger, b: Bar, filled: bool)
    requires Sound(l)
    ensures
      var l' := CloseOut(c, l, cfg.symbol, b, cfg.interval, filled);
      && Sound(l') && Grows(l.store, l'.store) && l'.store.orders == l.store.orders
      && l'.wallet.seed == l.wallet.seed && l'.seed == l.seed
      && (var pos := OpenIn(l'.store, cfg.symbol);
          pos.Some? ==> Survived(cfg, l'.store, pos.value, b) && pos == OpenIn(l.store, cfg.symbol))
      && (l'.store.snapshots == [] ==>
            && !filled && l.store.snapshots == []
            && l'.wallet.cash == l.wallet.cash && l'.wallet.equity == l.wallet.equity
            && l'.wallet.peakEquity == l.wallet.peakEquity && l'.wallet.maxDrawdownPct == l.wallet.maxDrawdownPct)
  {
    hide StoreSound, Mirrored;
    ExitFacts(c, l, cfg.symbol, b);
    var l1 := ExitAt(c, l, cfg.symbol, b.close, b.ts);
    var l2 := MarkPrice(l1, cfg.symbol, b.close);
    ValuationKeeps(l1, cfg.symbol, b.close, b.ts);
    ValuationKeeps(l2, cfg.symbol, b.close, b.ts);
    var l' := CloseOut(c, l, cfg.symbol, b, cfg.interval, filled);
    if l' != l2 {
      LatestSnoc(l2.store.snapshots, l'.store.snapshots[|l2.store.snapshots|]);
    }
    OpenInMemory(l, cfg.symbol);
    OpenInMemory(l', cfg.symbol);
  }

  lemma RestoreKeepsStore(l: Ledger)
    ensures Restore(l).store == l.store
  {
  }

  lemma RestoreFacts(cfg: Config, s: Store)
    requires StoreSound(s)
    ensures
      var l := Restore(Fresh(cfg, s));
      Sound(l) && l.store == s && OpenFor(l.wallet.positions, cfg.symbol) == OpenIn(s, cfg.symbol)
  {
    RestoreMirrors(Fresh(cfg, s));
    OpenInMemory(Restore(Fresh(cfg, s)), cfg.symbol);
  }

  /** What the fills at the open leave behind. */
  ghost predicate FillsDone(cfg: Config, s: Store, p: Progress, b: Bar, due: seq<Candidate>, k: nat) {
    && Sound(p.ledger) && Grows(s, p.ledger.store)
    && Settles(s.orders, p.ledger.store.orders, due, k)
    && p.ledger.store.snapshots == s.snapshots
    && (var pos := OpenIn(p.ledger.store, cfg.symbol);
        pos.Some? ==> pos == OpenIn(s, cfg.symbol) || pos.value.entryTs == b.ts)
  }

  lemma FillsFacts(c: CostFn, cfg: Config, s: Store, b: Bar, cands: seq<Candidate>)
    requires StoreSound(s) && Ready(cfg, s, cands, b.ts)
    ensures
      var l0, due := Restore(Fresh(cfg, s)), DueAt(cands, b.ts);
      FillsDone(cfg, s, FillsAtOpen(c, l0, cfg.symbol, b, cands), b, due, ActingIndex(OpenSide(l0.wallet, cfg.symbol), due))
  {
    hide StoreSound, Sound, Grows, Settles, Restore, DueAt, AllWaiting;
    var l0, due := Restore(Fresh(cfg, s)), DueAt(cands, b.ts);
    RestoreFacts(cfg, s);
    ExecutionAgrees(c, Progress(l0, 0, 0), cfg.symbol, b, due);
    OpenInMemory(FillsAtOpen(c, l0, cfg.symbol, b, cands).ledger, cfg.symbol);
  }

  lemma ClosedOutIsDone(c: CostFn, cfg: Config, s: Store, p: Progress, b: Bar, due: seq<Candidate>, k: nat)
    requires Seeded(s, cfg.seed) && FillsDone(cfg, s, p, b, due, k)
    ensures
      var s' := CloseOut(c, p.ledger, cfg.symbol, b, cfg.interval, p.filled > 0).store;
      BarDone(cfg, s, s', b, due) && Settles(s.orders, s'.orders, due, k)
  {
    hide Settles, Grows, CloseOut, StoreSound, Mirrored, Seeded;
    CloseOutFacts(c, cfg, p.ledger, b, p.filled > 0);
    var s' := CloseOut(c, p.ledger, cfg.symbol, b, cfg.interval, p.filled > 0).store;
    GrowsTransitive(s, p.ledger.store, s');
    SettlesLength(s.orders, s'.orders, due, k);
    SettlesSeeds(s, s', cfg.seed);
  }

  lemma SettlesLength(orders: seq<OrderRow>, orders': seq<OrderRow>, due: seq<Candidate>, k: nat)
    requires Settles(orders, orders', due, k)
    ensures |orders'| == |orders|
  {
  }

  /** One bar keeps the store sound, settles exactly the due orders, and leaves only a position that survived it. */
  lemma BarFacts(c: CostFn, cfg: Config, s: Store, b: Bar, cands: seq<Candidate>)
    requires StoreSound(s) && Seeded(s, cfg.seed) && Ready(cfg, s, cands, b.ts)
    ensures BarDone(cfg, s, StoreBar(c, cfg, s, b, cands), b, DueAt(cands, b.ts))
    ensures
      Settles(s.orders, StoreBar(c, cfg, s, b, cands).orders, DueAt(cands, b.ts),
              ActingIndex(OpenSide(Restore(Fresh(cfg, s)).wallet, cfg.symbol), DueAt(cands, b.ts)))
  {
    hide BarOf, BarDone, Settles, FillsDone, StoreSound, Seeded, Ready, Restore;
    var l0, due := Restore(Fresh(cfg, s)), DueAt(cands, b.ts);
    FillsFacts(c, cfg, s, b, cands);
    BarIsFillsThenClose(c, cfg, s, b, cands);
    ClosedOutIsDone(c, cfg, s, FillsAtOpen(c, l0, cfg.symbol, b, cands), b, due,
                    ActingIndex(OpenSide(l0.wallet, cfg.symbol), due));
  }

  lemma FillFacts(c: CostFn, cfg: Config, s: Store, b: Bar, cands: seq<Candidate>)
    requires StoreSound(s) && Seeded(s, cfg.seed) && Ready(cfg, s, cands, b.ts)
    ensures
      var l0 := Restore(Fresh(cfg, s));
      var p := FillsAtOpen(c, l0, cfg.symbol, b, cands);
      && Sound(p.ledger) && p.ledger.store.snapshots == s.snapshots
      && p.ledger.wallet.seed == cfg.seed && p.ledger.seed == cfg.seed
      && (p.filled == 0 ==> p.ledger.wallet == l0.wallet)
  {
    var l0 := Restore(Fresh(cfg, s));
    RestoreFacts(cfg, s);
    var due := DueAt(cands, b.ts);
    ExecutionAgrees(c, Progress(l0, 0, 0), cfg.symbol, b, due);
    ExecuteKeepsSeed(c, cfg, Progress(l0, 0, 0), b, due, Arbitrate(OpenSide(l0.wallet, cfg.symbol), due));
  }

  lemma BarIsFillsThenClose(c: CostFn, cfg: Config, s: Store, b: Bar, cands: seq<Candidate>)
    ensures
      var p := FillsAtOpen(c, Restore(Fresh(cfg, s)), cfg.symbol, b, cands);
      BarOf(c, cfg, s, b, cands).ledger == CloseOut(c, p.ledger, cfg.symbol, b, cfg.interval, p.filled > 0)
  {
  }

  /** The broker that processed the bar is as good as a fresh one. */
  lemma BarKeepsAnchored(c: CostFn, cfg: Config, l: Ledger, b: Bar, cands: seq<Candidate>)
    requires StoreSound(l.store) && Seeded(l.store, cfg.seed) && Ready(cfg, l.store, cands, b.ts)
    requires Anchored(cfg, l)
    ensures
      var l' := ProcessBar(c, l, cfg.symbol, b, cands, cfg.interval).ledger;
      Anchored(cfg, l') && l'.store == StoreBar(c, cfg, l.store, b, cands)
  {
    hide StoreSound, Mirrored, Seeded;
    AnchoredRestoresAlike(cfg, l);
    FillFacts(c, cfg, l.store, b, cands);
    BarIsFillsThenClose(c, cfg, l.store, b, cands);
    var p := FillsAtOpen(c, Restore(Fresh(cfg, l.store)), cfg.symbol, b, cands);
    CloseOutFacts(c, cfg, p.ledger, b, p.filled > 0);
  }

  lemma {:induction false} ExecuteKeepsSeed(c: CostFn, cfg: Config, p: Progress, b: Bar, cands: seq<Candidate>,
                                            actions: seq<FillAction>)
    requires |cands| == |actions|
    requires Seeded(p.ledger.store, cfg.seed) && p.ledger.wallet.seed == cfg.seed && p.ledger.seed == cfg.seed
    ensures
      var l' := Execute(c, p, cfg.symbol, b, cands, actions).ledger;
      l'.wallet.seed == cfg.seed && l'.seed == cfg.seed && Seeded(l'.store, cfg.seed)
    decreases cands
  {
    if cands != [] {
      ExecuteKeepsSeed(c, cfg, ExecuteOne(c, p, cfg.symbol, b, cands[0], actions[0]), b, cands[1..], actions[1..]);
    }
  }

  // ---- quiet bars -------------------------------------------------------------------------

  /** A bar with nothing to fill, and no position that it could stop out or that it still owes a snapshot. */
  ghost predicate Quiet(cfg: Config, s: Store, b: Bar, cands: seq<Candidate>) {
    && WithStamp(cands, b.ts) == []
    && var pos := OpenIn(s, cfg.symbol); pos.Some? ==> Survived(cfg, s, pos.value, b)
  }

  /** Replaying a bar that the open position has survived changes nothing. */
  lemma QuietBarChangesNothing(c: CostFn, cfg: Config, s: Store, b: Bar, cands: seq<Candidate>)
    requires StoreSound(s) && Quiet(cfg, s, b, cands)
    ensures StoreBar(c, cfg, s, b, cands) == s
  {
    RestoreFacts(cfg, s);
  }

  // ---- an empty ledger with two orders ----------------------------------------------------------

  lemma TwoAccepted(buckets: map<nat, int>, q: Request, q': Request)
    requires q.direction != FLAT && q.units > 0.0
    requires q'.direction != FLAT && q'.units > 0.0 && q'.uid != q.uid && q'.decisionId != q.decisionId
    ensures
      var l := Submit(Submit(FreshLedger(Store([], [], [], buckets), 1000.0, 7), q), q');
      Sound(l) && l.store == Store([NewOrder(7, q), NewOrder(7, q')], [], [], buckets)
  {
    hide Sound, StoreAccepts, GuardAccepts;
    var l := FreshLedger(Store([], [], [], buckets), 1000.0, 7);
    EmptyLedgerSound(1000.0, 7, buckets);
    FirstAccepted(l, q);
    SubmitKeeps(l, q);
    SecondAccepted(Submit(l, q), q, q');
    SubmitKeeps(Submit(l, q), q');
  }

  lemma FirstAccepted(l: Ledger, q: Request)
    requires l == FreshLedger(Store([], [], [], l.store.buckets), 1000.0, 7)
    requires q.direction != FLAT && q.units > 0.0
    ensures GuardAccepts(l, q) && StoreAccepts(l.store.orders, NewOrder(l.seed, q))
  {
  }

  lemma SecondAccepted(l: Ledger, q: Request, q': Request)
    requires l.wallet.positions == [] && l.pending == [0] && l.store.orders == [NewOrder(l.seed, q)]
    requires q'.direction != FLAT && q'.units > 0.0 && q'.uid != q.uid && q'.decisionId != q.decisionId
    ensures GuardAccepts(l, q') && StoreAccepts(l.store.orders, NewOrder(l.seed, q'))
  {
  }
}
