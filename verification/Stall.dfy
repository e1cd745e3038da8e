/**
 * Progress under the throttle. A pass replays from the entry of the open position, so it reaches a new bar exactly when
 * the position is younger, in bars, than the throttle; an older position is never looked at again.
 */
module Stall {
  import opened Prelude
  import opened Paper
  import opened Ledger
  import opened LedgerInvariant
  import opened Lifecycle
  import opened CatchUp
  import opened Bars
  import opened Restart

  /** `pos` is open, survived every bar up to `w` with its snapshot written, and all waiting orders fill later. */
  ghost predicate Settled(cfg: Config, s: Store, candles: seq<Bar>, pos: Position, w: int) {
    && StoreSound(s) && Seeded(s, cfg.seed)
    && candles != [] && AscendingBars(candles)
    && OpenIn(s, cfg.symbol) == Some(pos) && pos.entryTs <= w
    && (forall b :: b in candles && pos.entryTs <= b.ts <= w ==> Survived(cfg, s, pos, b))
    && (forall a :: a in UnitCandidates(cfg, s) ==> w < a.fillStamp)
  }

  /** Age of the position in bars at `w`. */
  function Age(candles: seq<Bar>, pos: Position, w: int): nat {
    |Range(candles, pos.entryTs, w)|
  }

  /** New bars a pass may still reach. */
  function Allowance(cfg: Config, candles: seq<Bar>, pos: Position, w: int): nat {
    if Age(candles, pos, w) < Throttle(cfg.maxBars) then Throttle(cfg.maxBars) - Age(candles, pos, w) else 0
  }

  lemma SettledAnchor(cfg: Config, s: Store, candles: seq<Bar>, pos: Position, w: int)
    requires Settled(cfg, s, candles, pos, w)
    ensures AnchorOf(UnitCandidates(cfg, s), OpenIn(s, cfg.symbol), candles) == Some(pos.entryTs)
    ensures OwedBars(cfg, s, candles) == Range(candles, pos.entryTs, w) + From(candles, w + 1)
  {
    AnchorIsLeast(UnitCandidates(cfg, s), OpenIn(s, cfg.symbol), candles);
    RangeThenFrom(candles, pos.entryTs, w);
  }

  lemma SettledBarsAreQuiet(cfg: Config, s: Store, candles: seq<Bar>, pos: Position, w: int, s0: Store, bars: seq<Bar>)
    requires Settled(cfg, s, candles, pos, w)
    requires s0.positions == s.positions && s0.snapshots == s.snapshots
    requires forall b :: b in bars ==> b in Range(candles, pos.entryTs, w)
    ensures forall b :: b in bars ==> Quiet(cfg, s0, b, UnitCandidates(cfg, s))
  {
    forall b | b in bars
      ensures Quiet(cfg, s0, b, UnitCandidates(cfg, s))
    {
      assert b in Range(candles, pos.entryTs, w);
      NoStampNoDue(UnitCandidates(cfg, s), b.ts);
      assert Survived(cfg, s, pos, b);
    }
  }

  /** From a settled store a pass processes exactly the first `Allowance` bars after the watermark, and nothing else. */
  lemma PassFromSettled(c: CostFn, cfg: Config, s: Store, candles: seq<Bar>, pos: Position, w: int)
    requires Settled(cfg, s, candles, pos, w)
    ensures
      Pass(c, cfg, s, candles) ==
      RunStore(c, cfg, AfterMissing(cfg, s, candles).store,
               Take(From(candles, w + 1), Allowance(cfg, candles, pos, w)), UnitCandidates(cfg, s))
  {
    hide StoreBar, UnitCandidates, From, Range, Pass, AfterMissing, StoreSound, Seeded, AscendingBars;
    var quiet, rest := Range(candles, pos.entryTs, w), From(candles, w + 1);
    var s0, cands := AfterMissing(cfg, s, candles).store, UnitCandidates(cfg, s);
    WholePassIsRun(c, cfg, s, candles);
    MissingFacts(cfg, s, candles);
    SettledAnchor(cfg, s, candles, pos, w);
    SettledBarsAreQuiet(cfg, s, candles, pos, w, s0, quiet);
    QuietFront(c, cfg, s0, quiet, rest, Throttle(cfg.maxBars), cands);
  }

  /** A pass reaches a bar after the watermark iff one has closed and the position is younger than the throttle. */
  lemma ProgressIff(cfg: Config, s: Store, candles: seq<Bar>, pos: Position, w: int)
    requires Settled(cfg, s, candles, pos, w)
    ensures
      (exists b :: b in PassBars(cfg, s, candles) && w < b.ts) <==>
      From(candles, w + 1) != [] && Age(candles, pos, w) < Throttle(cfg.maxBars)
  {
    var old_, new_ := Range(candles, pos.entryTs, w), From(candles, w + 1);
    var t := Throttle(cfg.maxBars);
    SettledAnchor(cfg, s, candles, pos, w);
    TakeOfConcat(old_, new_, t);
    if t <= |old_| {
      PrefixMembers(old_, t);
    } else if b :| b in PassBars(cfg, s, candles) && w < b.ts {
      assert b in Take(new_, t - |old_|);
    }
    if new_ != [] && |old_| < t {
      assert PassBars(cfg, s, candles)[|old_|] == new_[0];
      assert new_[0] in new_;
    }
  }

  /** Feeds of later passes: the bars up to the watermark stay what they were. */
  ghost predicate SameHistory(feed: seq<Bar>, candles: seq<Bar>, w: int) {
    && feed != [] && AscendingBars(feed)
    && forall b :: b in feed && b.ts <= w ==> b in candles
  }

  /** What goes on around a stalled unit: cycles, and decisions with their orders, of any unit. */
  datatype Event =
    | CycleOver(feed: seq<Bar>)
    | Decided(decision: nat, bucket: int, request: Request)

  /** A decision is recorded with its bar, and its order submitted through a restored broker. */
  function AfterDecision(cfg: Config, s: Store, decision: nat, bucket: int, q: Request): Store {
    Submit(Restore(Fresh(cfg, s.(buckets := s.buckets[decision := bucket]))), q).store
  }

  function Happen(c: CostFn, cfg: Config, s: Store, event: Event): Store {
    match event
    case CycleOver(feed) => Cycle(c, cfg, s, feed)
    case Decided(decision, bucket, q) => AfterDecision(cfg, s, decision, bucket, q)
  }

  function Events(c: CostFn, cfg: Config, s: Store, events: seq<Event>): Store {
    if events == [] then s else Happen(c, cfg, Events(c, cfg, s, events[..|events| - 1]), events[|events| - 1])
  }

  /** Cycles see an unchanged past in which the position has reached the throttle; decisions are on bars not before `w`. */
  ghost predicate Later(cfg: Config, candles: seq<Bar>, pos: Position, w: int, event: Event) {
    match event
    case CycleOver(feed) => SameHistory(feed, candles, w) && Throttle(cfg.maxBars) <= Age(feed, pos, w)
    case Decided(_, bucket, _) => w < bucket + cfg.timeframe.Seconds()
  }

  lemma StalledPass(c: CostFn, cfg: Config, s: Store, candles: seq<Bar>, pos: Position, w: int)
    requires Settled(cfg, s, candles, pos, w) && Throttle(cfg.maxBars) <= Age(candles, pos, w)
    ensures
      var s' := Pass(c, cfg, s, candles);
      && s'.positions == s.positions && s'.snapshots == s.snapshots && |s'.orders| == |s.orders|
      && StoreSound(s') && Seeded(s', cfg.seed) && Grows(s, s')
  {
    PassFromSettled(c, cfg, s, candles, pos, w);
    MissingFacts(cfg, s, candles);
  }

  lemma StaysSettled(cfg: Config, s: Store, s': Store, candles: seq<Bar>, feed: seq<Bar>, pos: Position, w: int)
    requires Settled(cfg, s, candles, pos, w) && SameHistory(feed, candles, w)
    requires s'.positions == s.positions && s'.snapshots == s.snapshots && |s'.orders| == |s.orders|
    requires StoreSound(s') && Seeded(s', cfg.seed) && Grows(s, s')
    ensures Settled(cfg, s', feed, pos, w)
  {
    hide UnitCandidates, StoreSound, Grows, AscendingBars, Seeded;
    UnitCandidatesExact(cfg, s);
    UnitCandidatesExact(cfg, s');
    forall a | a in UnitCandidates(cfg, s')
      ensures w < a.fillStamp
    {
      StillUnitOrder(cfg, s, s', a);
    }
  }

  lemma BucketsDoNotMatter(cfg: Config, s: Store, buckets: map<nat, int>)
    requires StoreSound(s) && Seeded(s, cfg.seed)
    ensures
      var s' := s.(buckets := buckets);
      StoreSound(s') && Seeded(s', cfg.seed) && OpenIn(s', cfg.symbol) == OpenIn(s, cfg.symbol)
  {
  }

  lemma SubmissionEffect(cfg: Config, s: Store, q: Request)
    requires StoreSound(s) && Seeded(s, cfg.seed)
    ensures
      var s' := Submit(Restore(Fresh(cfg, s)), q).store;
      && StoreSound(s') && Seeded(s', cfg.seed)
      && (s' == s || s' == s.(orders := s.orders + [NewOrder(cfg.seed, q)]))
  {
    hide StoreSound, Mirrored, Restore, SubmitOutcome;
    RestoreFacts(cfg, s);
    RestoredStart(cfg, s);
    SubmitKeeps(Restore(Fresh(cfg, s)), q);
  }

  lemma RestoredStart(cfg: Config, s: Store)
    ensures Restore(Fresh(cfg, s)).seed == cfg.seed && Restore(Fresh(cfg, s)).store == s
  {
  }

  /** Recording a decision on a later bar makes no order due by `w`. */
  lemma NoneDueByDecision(cfg: Config, s: Store, s': Store, decision: nat, bucket: int, q: Request, a: Candidate, w: int)
    requires w < bucket + cfg.timeframe.Seconds()
    requires s'.buckets == s.buckets[decision := bucket]
    requires s'.orders == s.orders || s'.orders == s.orders + [NewOrder(cfg.seed, q)]
    requires q.decisionId == Some(decision) || s'.orders == s.orders
    requires UnitOrder(cfg, s', a)
    ensures UnitOrder(cfg, s, a) || w < a.fillStamp
  {
  }

  lemma DecisionKeepsSettled(cfg: Config, s: Store, candles: seq<Bar>, pos: Position, w: int, decision: nat,
                             bucket: int, q: Request)
    requires Settled(cfg, s, candles, pos, w) && w < bucket + cfg.timeframe.Seconds() && q.decisionId == Some(decision)
    ensures
      var s' := AfterDecision(cfg, s, decision, bucket, q);
      s'.positions == s.positions && s'.snapshots == s.snapshots && Settled(cfg, s', candles, pos, w)
  {
    hide UnitCandidates, StoreSound, AscendingBars, Seeded, Submit, Restore;
    var s1 := s.(buckets := s.buckets[decision := bucket]);
    BucketsDoNotMatter(cfg, s, s1.buckets);
    SubmissionEffect(cfg, s1, q);
    var s' := AfterDecision(cfg, s, decision, bucket, q);
    UnitCandidatesExact(cfg, s);
    UnitCandidatesExact(cfg, s');
    forall a | a in UnitCandidates(cfg, s')
      ensures w < a.fillStamp
    {
      NoneDueByDecision(cfg, s, s', decision, bucket, q, a, w);
    }
  }

  lemma StalledCycleKeepsSettled(c: CostFn, cfg: Config, s: Store, candles: seq<Bar>, pos: Position, w: int, feed: seq<Bar>)
    requires Settled(cfg, s, candles, pos, w) && SameHistory(feed, candles, w) && Throttle(cfg.maxBars) <= Age(feed, pos, w)
    ensures
      var s' := Cycle(c, cfg, s, feed);
      s'.positions == s.positions && s'.snapshots == s.snapshots && Settled(cfg, s', candles, pos, w)
  {
    hide Discovered, Pass, StoreSound, Seeded, UnitCandidates, AscendingBars, Age;
    StaysSettled(cfg, s, s, candles, feed, pos, w);
    StalledPass(c, cfg, s, feed, pos, w);
    StaysSettled(cfg, s, Pass(c, cfg, s, feed), candles, candles, pos, w);
  }

  /**
   * Once the open position is as old as the throttle, no later cycle ever looks at a new bar, whatever decisions and
   * orders come in between: positions and snapshots stay as they are, so a breached stop-loss is never acted on and an
   * opposing order never filled.
   */
  lemma {:induction false} StallsForever(c: CostFn, cfg: Config, s: Store, candles: seq<Bar>, events: seq<Event>,
                                         pos: Position, w: int)
    requires Settled(cfg, s, candles, pos, w)
    requires forall i :: 0 <= i < |events| ==> Later(cfg, candles, pos, w, events[i])
    requires
      forall i :: 0 <= i < |events| && events[i].Decided? ==> events[i].request.decisionId == Some(events[i].decision)
    ensures
      var s' := Events(c, cfg, s, events);
      s'.positions == s.positions && s'.snapshots == s.snapshots && Settled(cfg, s', candles, pos, w)
  {
    hide Settled, Cycle, SameHistory, AfterDecision, Age;
    if events != [] {
      var n := |events| - 1;
      StallsForever(c, cfg, s, candles, events[..n], pos, w);
      var mid := Events(c, cfg, s, events[..n]);
      match events[n]
      case CycleOver(feed) => StalledCycleKeepsSettled(c, cfg, mid, candles, pos, w, feed);
      case Decided(decision, bucket, q) => DecisionKeepsSettled(cfg, mid, candles, pos, w, decision, bucket, q);
    }
  }
}
