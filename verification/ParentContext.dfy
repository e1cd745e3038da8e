/** The backtest's memory of recent decisions and the parent context it feeds into finer timeframes. */
module ParentContext {
  import opened Prelude
  import opened Paper
  import opened Fusion
  import opened Decision

  datatype Recent = Recent(direction: Direction, confidence: real, validUntil: int, bucketTs: int)

  type Memory = map<(string, Timeframe), Recent>

  const CONTEXT_WEIGHT := 0.15

  function Rank(tf: Timeframe): int {
    match tf
    case M5 => 0
    case M15 => 1
    case H1 => 2
    case H4 => 3
    case D1 => 4
  }

  /** Timeframes rank by their length. */
  lemma RankIsLength(a: Timeframe, b: Timeframe)
    ensures Rank(a) < Rank(b) <==> a.Seconds() < b.Seconds()
    ensures Rank(a) == Rank(b) <==> a == b
    ensures H1.Seconds() == 60 * 60 && 12 * M5.Seconds() == 4 * M15.Seconds() == H1.Seconds()
    ensures H4.Seconds() == 4 * H1.Seconds() && D1.Seconds() == 24 * H1.Seconds()
  {
    match a
    case M5 => match b { case _ => }
    case M15 => match b { case _ => }
    case H1 => match b { case _ => }
    case H4 => match b { case _ => }
    case D1 => match b { case _ => }
  }

  function RankKey(): Timeframe -> Key {
    (tf: Timeframe) => Key(Rank(tf), 0, 0)
  }

  /** Entries after the first occurrence of a timeframe; none when it is absent. */
  function After(ordered: seq<Timeframe>, tf: Timeframe): seq<Timeframe> {
    if ordered == [] then []
    else if ordered[0] == tf then ordered[1..]
    else After(ordered[1..], tf)
  }

  /** Configured timeframes above a given one, nearest first. */
  function Parents(configured: seq<Timeframe>, tf: Timeframe): seq<Timeframe> {
    After(SortByKey(configured, RankKey()), tf)
  }

  predicate Usable(last: Memory, symbol: string, tf: Timeframe, now: int) {
    && (symbol, tf) in last
    && var r := last[(symbol, tf)]; r.validUntil >= now && r.direction != FLAT && r.confidence > 0.0
  }

  function FirstUsable(last: Memory, symbol: string, parents: seq<Timeframe>, now: int): Option<Context> {
    if parents == [] then None
    else if Usable(last, symbol, parents[0], now) then
      Some(Context(last[(symbol, parents[0])].direction, last[(symbol, parents[0])].confidence, CONTEXT_WEIGHT))
    else FirstUsable(last, symbol, parents[1..], now)
  }

  function ContextAt(last: Memory, symbol: string, tf: Timeframe, configured: seq<Timeframe>, now: int): Option<Context> {
    FirstUsable(last, symbol, Parents(configured, tf), now)
  }

  function Remember(last: Memory, symbol: string, tf: Timeframe, bucket: int, o: Outcome): Memory {
    if o.Persist? then
      last[(symbol, tf) := Recent(o.fused.direction, o.fused.confidence, bucket + 4 * tf.Seconds(), bucket)]
    else last
  }

  const BACKTEST_ORCH := OrchParams(0.5, 0.5, 0.15)

  class BacktestDecisionEngine {
    var last: Memory

    constructor ()
      ensures last == map[]
    {
      last := map[];
    }

    method ParentContext(symbol: string, tf: Timeframe, configured: seq<Timeframe>, now: int)
      returns (context: Option<Context>)
      ensures context == ContextAt(last, symbol, tf, configured, now)
    {
      var parents, i := Parents(configured, tf), 0;
      assert parents[0..] == parents;
      while i < |parents|
        invariant 0 <= i <= |parents|
        invariant FirstUsable(last, symbol, parents, now) == FirstUsable(last, symbol, parents[i..], now)
      {
        assert parents[i..][1..] == parents[i + 1..];
        if (symbol, parents[i]) in last {
          var recent := last[(symbol, parents[i])];
          if recent.validUntil >= now && recent.direction != FLAT && recent.confidence > 0.0 {
            return Some(Context(recent.direction, recent.confidence, CONTEXT_WEIGHT));
          }
        }
        i := i + 1;
      }
      context := None;
    }

    /** Decide with the remembered parent context and remember what is persisted. */
    method Decide(symbol: string, tf: Timeframe, bucket: int, now: int, inputs: Inputs, configured: seq<Timeframe>,
                  p: RiskParams)
      returns (o: Outcome)
      modifies this
      ensures o == ComputeDecision(inputs.(parent := ContextAt(old(last), symbol, tf, configured, now)), BACKTEST_ORCH, p)
      ensures last == Remember(old(last), symbol, tf, bucket, o)
    {
      hide ComputeDecision, ContextAt;
      var parent := ParentContext(symbol, tf, configured, now);
      o := ComputeDecision(inputs.(parent := parent), BACKTEST_ORCH, p);
      if o.Persist? {
        last := last[(symbol, tf) := Recent(o.fused.direction, o.fused.confidence, bucket + tf.Seconds() * 4, bucket)];
      }
    }
  }

  // ---- context frames run before the fine frame ------------------------------------------------

  /** A bar on which a frame decides: past the warm-up, with a technical signal. Its bucket is also its `now`. */
  datatype Step = Step(bucket: int, inputs: Inputs)

  datatype Frame = Frame(symbol: string, timeframe: Timeframe)

  /** The bars of every frame. */
  type Feeds = Frame -> seq<Step>

  /** Outcomes of one frame with their buckets, in the order they were made. */
  type History = seq<(int, Outcome)>

  function Feed(last: Memory, f: Frame, h: History): Memory {
    if h == [] then last
    else Remember(Feed(last, f, h[..|h| - 1]), f.symbol, f.timeframe, h[|h| - 1].0, h[|h| - 1].1)
  }

  function DecideStep(last: Memory, f: Frame, configured: seq<Timeframe>, p: RiskParams, step: Step): Outcome {
    var parent := ContextAt(last, f.symbol, f.timeframe, configured, step.bucket);
    ComputeDecision(step.inputs.(parent := parent), BACKTEST_ORCH, p)
  }

  function FrameHistory(last: Memory, f: Frame, configured: seq<Timeframe>, p: RiskParams, steps: seq<Step>): (h: History)
    ensures |h| == |steps|
  {
    if steps == [] then []
    else
      var n := |steps| - 1;
      var before := FrameHistory(last, f, configured, p, steps[..n]);
      before + [(steps[n].bucket, DecideStep(Feed(last, f, before), f, configured, p, steps[n]))]
  }

  /** The engine's memory after one frame has run over its bars. */
  function FrameRun(last: Memory, f: Frame, configured: seq<Timeframe>, p: RiskParams, steps: seq<Step>): Memory {
    Feed(last, f, FrameHistory(last, f, configured, p, steps))
  }

  function RunFrames(last: Memory, configured: seq<Timeframe>, p: RiskParams, feeds: Feeds, frames: seq<Frame>): Memory {
    if frames == [] then last
    else
      var n := |frames| - 1;
      FrameRun(RunFrames(last, configured, p, feeds, frames[..n]), frames[n], configured, p, feeds(frames[n]))
  }

  function FallingKey(): Timeframe -> Key {
    (tf: Timeframe) => Key(-Rank(tf), 0, 0)
  }

  function Frames(symbols: seq<string>, tf: Timeframe): seq<Frame> {
    if symbols == [] then [] else Frames(symbols[..|symbols| - 1], tf) + [Frame(symbols[|symbols| - 1], tf)]
  }

  function FramesOf(ordered: seq<Timeframe>, fine: Timeframe, symbols: seq<string>): seq<Frame> {
    if ordered == [] then []
    else
      var n := |ordered| - 1;
      FramesOf(ordered[..n], fine, symbols) + if ordered[n] == fine then [] else Frames(symbols, ordered[n])
  }

  /** The driver's order: larger timeframes first, the fine one left out, every symbol of a timeframe in turn. */
  function ContextFrames(configured: seq<Timeframe>, fine: Timeframe, symbols: seq<string>): seq<Frame> {
    FramesOf(SortByKey(configured, FallingKey()), fine, symbols)
  }

  /** One context frame: decide on each of its bars, oldest first. */
  method RunContextFrame(engine: BacktestDecisionEngine, f: Frame, configured: seq<Timeframe>, p: RiskParams,
                         steps: seq<Step>)
    modifies engine
    ensures engine.last == FrameRun(old(engine.last), f, configured, p, steps)
  {
    hide ComputeDecision, ContextAt, Remember;
    var i := 0;
    ghost var start := engine.last;
    while i < |steps|
      invariant 0 <= i <= |steps|
      invariant engine.last == FrameRun(start, f, configured, p, steps[..i])
    {
      assert steps[..i + 1][..i] == steps[..i];
      FrameSnoc(start, f, configured, p, steps[..i], steps[i]);
      assert steps[..i] + [steps[i]] == steps[..i + 1];
      var o := engine.Decide(f.symbol, f.timeframe, steps[i].bucket, steps[i].bucket, steps[i].inputs, configured, p);
      i := i + 1;
    }
    assert steps[..i] == steps;
  }

  lemma FrameSnoc(last: Memory, f: Frame, configured: seq<Timeframe>, p: RiskParams, steps: seq<Step>, step: Step)
    ensures
      var before := FrameRun(last, f, configured, p, steps);
      FrameRun(last, f, configured, p, steps + [step]) ==
      Remember(before, f.symbol, f.timeframe, step.bucket, DecideStep(before, f, configured, p, step))
  {
    hide DecideStep, Remember;
    assert (steps + [step])[..|steps|] == steps;
    var h, o := FrameHistory(last, f, configured, p, steps),
        DecideStep(FrameRun(last, f, configured, p, steps), f, configured, p, step);
    assert (h + [(step.bucket, o)])[..|h|] == h;
  }

  lemma RunSnoc(last: Memory, configured: seq<Timeframe>, p: RiskParams, feeds: Feeds, frames: seq<Frame>, f: Frame)
    ensures
      RunFrames(last, configured, p, feeds, frames + [f]) ==
      FrameRun(RunFrames(last, configured, p, feeds, frames), f, configured, p, feeds(f))
  {
    hide FrameRun;
    assert (frames + [f])[..|frames|] == frames;
  }

  lemma {:induction false} RunConcat(last: Memory, configured: seq<Timeframe>, p: RiskParams, feeds: Feeds,
                                     a: seq<Frame>, b: seq<Frame>)
    ensures
      RunFrames(last, configured, p, feeds, a + b) ==
      RunFrames(RunFrames(last, configured, p, feeds, a), configured, p, feeds, b)
  {
    hide FrameRun;
    if b == [] {
      assert a + b == a;
    } else {
      var n := |b| - 1;
      RunConcat(last, configured, p, feeds, a, b[..n]);
      assert (a + b)[..|a| + n] == a + b[..n];
    }
  }

  /** Every symbol of one timeframe in turn. */
  method RunTimeframe(engine: BacktestDecisionEngine, configured: seq<Timeframe>, tf: Timeframe, symbols: seq<string>,
                      feeds: Feeds, p: RiskParams)
    modifies engine
    ensures engine.last == RunFrames(old(engine.last), configured, p, feeds, Frames(symbols, tf))
  {
    hide FrameRun;
    ghost var start := engine.last;
    var j := 0;
    while j < |symbols|
      invariant 0 <= j <= |symbols|
      invariant engine.last == RunFrames(start, configured, p, feeds, Frames(symbols[..j], tf))
    {
      var f := Frame(symbols[j], tf);
      assert symbols[..j + 1][..j] == symbols[..j];
      RunContextFrame(engine, f, configured, p, feeds(f));
      RunSnoc(start, configured, p, feeds, Frames(symbols[..j], tf), f);
      j := j + 1;
    }
    assert symbols[..j] == symbols;
  }

  /** Every context frame in the driver's order, before the fine loop. */
  method RunContexts(engine: BacktestDecisionEngine, configured: seq<Timeframe>, fine: Timeframe, symbols: seq<string>,
                     feeds: Feeds, p: RiskParams)
    modifies engine
    ensures engine.last == RunFrames(old(engine.last), configured, p, feeds, ContextFrames(configured, fine, symbols))
  {
    hide FrameRun, Frames, RunFrames, FramesOf;
    var ordered := SortByKey(configured, FallingKey());
    ghost var start := engine.last;
    NoFrames(start, configured, p, feeds, fine, symbols);
    assert ordered[..0] == [];
    var i := 0;
    while i < |ordered|
      invariant 0 <= i <= |ordered|
      invariant engine.last == RunFrames(start, configured, p, feeds, FramesOf(ordered[..i], fine, symbols))
    {
      assert ordered[..i + 1][..i] == ordered[..i];
      FramesOfSnoc(ordered[..i], ordered[i], fine, symbols);
      assert ordered[..i] + [ordered[i]] == ordered[..i + 1];
      if ordered[i] != fine {
        RunTimeframe(engine, configured, ordered[i], symbols, feeds, p);
        RunConcat(start, configured, p, feeds, FramesOf(ordered[..i], fine, symbols), Frames(symbols, ordered[i]));
      }
      i := i + 1;
    }
    assert ordered[..i] == ordered;
  }

  lemma FramesOfSnoc(ordered: seq<Timeframe>, tf: Timeframe, fine: Timeframe, symbols: seq<string>)
    ensures
      FramesOf(ordered + [tf], fine, symbols) ==
      if tf == fine then FramesOf(ordered, fine, symbols) else FramesOf(ordered, fine, symbols) + Frames(symbols, tf)
  {
    assert (ordered + [tf])[..|ordered|] == ordered;
  }

  lemma NoFrames(last: Memory, configured: seq<Timeframe>, p: RiskParams, feeds: Feeds, fine: Timeframe,
                 symbols: seq<string>)
    ensures RunFrames(last, configured, p, feeds, []) == last && FramesOf([], fine, symbols) == []
  {
  }

  // ---- what a frame leaves in memory ------------------------------------------------------------

  /** The last persisted outcome; what the engine remembers. */
  function LastPersisted(h: History): (r: Option<(int, Outcome)>)
    ensures r.Some? ==> r.value.1.Persist?
  {
    if h == [] then None
    else if h[|h| - 1].1.Persist? then Some(h[|h| - 1])
    else LastPersisted(h[..|h| - 1])
  }

  function RecentOf(tf: Timeframe, d: (int, Outcome)): Recent
    requires d.1.Persist?
  {
    Recent(d.1.fused.direction, d.1.fused.confidence, d.0 + 4 * tf.Seconds(), d.0)
  }

  lemma {:induction false} FeedKeepsLast(last: Memory, f: Frame, h: History)
    ensures
      var d := LastPersisted(h);
      Feed(last, f, h) == if d.None? then last else last[(f.symbol, f.timeframe) := RecentOf(f.timeframe, d.value)]
  {
    if h != [] {
      FeedKeepsLast(last, f, h[..|h| - 1]);
    }
  }

  ghost predicate DistinctFrames(frames: seq<Frame>) {
    forall i, j :: 0 <= i < j < |frames| ==> frames[i] != frames[j]
  }

  /** The outcomes of a frame as the run of all frames makes them. */
  function HistoryIn(configured: seq<Timeframe>, p: RiskParams, feeds: Feeds, frames: seq<Frame>, i: nat): History
    requires i < |frames|
  {
    FrameHistory(RunFrames(map[], configured, p, feeds, frames[..i]), frames[i], configured, p, feeds(frames[i]))
  }

  /** After the context frames the memory of a frame is the last decision of its whole run, if it made one. */
  lemma {:induction false} RunRemembersLast(configured: seq<Timeframe>, p: RiskParams, feeds: Feeds, frames: seq<Frame>,
                                            i: nat)
    requires DistinctFrames(frames) && i < |frames|
    ensures
      var last, f, d := RunFrames(map[], configured, p, feeds, frames), frames[i],
          LastPersisted(HistoryIn(configured, p, feeds, frames, i));
      if d.None? then (f.symbol, f.timeframe) !in last
      else (f.symbol, f.timeframe) in last && last[(f.symbol, f.timeframe)] == RecentOf(f.timeframe, d.value)
  {
    hide FrameHistory;
    var n := |frames| - 1;
    var before := frames[..n];
    var mid, f := RunFrames(map[], configured, p, feeds, before), frames[n];
    FeedKeepsLast(mid, f, FrameHistory(mid, f, configured, p, feeds(f)));
    if i < n {
      RunRemembersLast(configured, p, feeds, before, i);
      assert before[..i] == frames[..i];
    } else {
      OnlyItsFrames(configured, p, feeds, before, f);
    }
  }

  lemma {:induction false} OnlyItsFrames(configured: seq<Timeframe>, p: RiskParams, feeds: Feeds, frames: seq<Frame>,
                                         f: Frame)
    requires f !in frames
    ensures (f.symbol, f.timeframe) !in RunFrames(map[], configured, p, feeds, frames)
  {
    hide FrameHistory;
    if frames != [] {
      var n := |frames| - 1;
      OnlyItsFrames(configured, p, feeds, frames[..n], f);
      var mid := RunFrames(map[], configured, p, feeds, frames[..n]);
      FeedKeepsLast(mid, frames[n], FrameHistory(mid, frames[n], configured, p, feeds(frames[n])));
      assert frames[n] in frames;
    }
  }

  // ---- decisions have a side --------------------------------------------------------------------

  lemma FusedHasSide(f: Fused, threshold: real, context: Option<Context>)
    requires threshold > 0.0 && f.threshold == threshold
    requires f.direction == DirectionForScore(f.score, threshold) && f.confidence == Min(1.0, Abs(f.score))
    ensures
      var g := if context.Some? then ApplyContext(f, context.value) else f;
      g.direction != FLAT ==> g.confidence > 0.0
  {
    hide Nudge, Round6;
  }

  lemma OwnConfidence(signals: map<Agent, AgentSignal>, weights: map<Agent, real>, threshold: real)
    ensures
      var o := Fuse(signals, weights, threshold);
      o.Ok? && o.fused.voting != [] ==> o.fused.confidence == Min(1.0, Abs(o.fused.score))
  {
    hide Voters, Renormalized, Blend, Aligning, Round6, Round4;
  }

  /** A persisted outcome takes a side, with some confidence. */
  lemma PersistedHasSide(inputs: Inputs, orch: OrchParams, p: RiskParams)
    requires orch.threshold > 0.0
    ensures
      var o := ComputeDecision(inputs, orch, p);
      o.Persist? ==> o.fused.direction != FLAT && o.fused.confidence > 0.0
  {
    hide Assessed, FirstFailing, Fuse, ApplyContext;
    var own := Fuse(inputs.signals, inputs.weights, orch.threshold);
    OwnSide(inputs.signals, inputs.weights, orch.threshold);
    OwnConfidence(inputs.signals, inputs.weights, orch.threshold);
    if own.Ok? && own.fused.voting != [] {
      FusedHasSide(own.fused, orch.threshold, inputs.parent);
    }
    if own.Ok? && inputs.parent.Some? {
      ContextKeepsAgreement(own.fused, inputs.parent.value);
    }
  }

  ghost predicate Sided(h: History) {
    forall i :: 0 <= i < |h| && h[i].1.Persist? ==> h[i].1.fused.direction != FLAT && h[i].1.fused.confidence > 0.0
  }

  lemma {:induction false} FrameIsSided(last: Memory, f: Frame, configured: seq<Timeframe>, p: RiskParams, steps: seq<Step>)
    ensures Sided(FrameHistory(last, f, configured, p, steps))
  {
    hide ComputeDecision, ContextAt;
    if steps != [] {
      var n := |steps| - 1;
      FrameIsSided(last, f, configured, p, steps[..n]);
      var mid := FrameRun(last, f, configured, p, steps[..n]);
      PersistedHasSide(steps[n].inputs.(parent := ContextAt(mid, f.symbol, f.timeframe, configured, steps[n].bucket)),
                       BACKTEST_ORCH, p);
    }
  }

  lemma {:induction false} HistoryOfPrefix(last: Memory, f: Frame, configured: seq<Timeframe>, p: RiskParams,
                                           steps: seq<Step>, k: nat)
    requires k <= |steps|
    ensures FrameHistory(last, f, configured, p, steps[..k]) == FrameHistory(last, f, configured, p, steps)[..k]
    ensures forall i :: 0 <= i < |steps| ==> FrameHistory(last, f, configured, p, steps)[i].0 == steps[i].bucket
  {
    hide DecideStep, Feed;
    if steps == [] || k == |steps| {
      assert steps[..k] == steps;
    }
    if steps != [] {
      var n := |steps| - 1;
      HistoryOfPrefix(last, f, configured, p, steps[..n], if k < n then k else n);
      if k <= n {
        assert steps[..n][..k] == steps[..k];
      }
    }
  }

  // ---- which parent speaks ------------------------------------------------------------------------

  /** The parents nearer than a given one. */
  function Nearer(parents: seq<Timeframe>, tf: Timeframe): seq<Timeframe> {
    if parents == [] || parents[0] == tf then [] else [parents[0]] + Nearer(parents[1..], tf)
  }

  function ContextOf(r: Recent): Context {
    Context(r.direction, r.confidence, CONTEXT_WEIGHT)
  }

  lemma {:induction false} FirstUsableSplits(last: Memory, symbol: string, parents: seq<Timeframe>, tf: Timeframe, now: int)
    requires tf in parents
    ensures
      FirstUsable(last, symbol, parents, now) ==
      var nearer := FirstUsable(last, symbol, Nearer(parents, tf), now);
      if nearer.Some? then nearer
      else if Usable(last, symbol, tf, now) then Some(ContextOf(last[(symbol, tf)]))
      else FirstUsable(last, symbol, After(parents, tf), now)
  {
    if parents[0] != tf {
      FirstUsableSplits(last, symbol, parents[1..], tf, now);
      assert Nearer(parents, tf)[1..] == Nearer(parents[1..], tf);
    }
  }

  ghost predicate AgreeElsewhere(last: Memory, last': Memory, key: (string, Timeframe)) {
    && (forall other :: other != key ==> (other in last <==> other in last'))
    && forall other :: other != key && other in last ==> last[other] == last'[other]
  }

  lemma {:induction false} FirstUsableIgnores(last: Memory, last': Memory, symbol: string, parents: seq<Timeframe>,
                                              tf: Timeframe, now: int)
    requires AgreeElsewhere(last, last', (symbol, tf)) && tf !in parents
    ensures FirstUsable(last, symbol, parents, now) == FirstUsable(last', symbol, parents, now)
  {
    if parents != [] {
      assert parents[0] != tf;
      FirstUsableIgnores(last, last', symbol, parents[1..], tf, now);
    }
  }

  lemma {:induction false} NotNearer(parents: seq<Timeframe>, tf: Timeframe)
    ensures tf !in Nearer(parents, tf)
  {
    if parents != [] && parents[0] != tf {
      NotNearer(parents[1..], tf);
    }
  }

  ghost predicate DistinctTimeframes(tfs: seq<Timeframe>) {
    forall i, j :: 0 <= i < j < |tfs| ==> tfs[i] != tfs[j]
  }

  lemma {:induction false} AfterSorted(ordered: seq<Timeframe>, fine: Timeframe, tf: Timeframe)
    requires StrictlySorted(ordered, RankKey())
    ensures tf in After(ordered, fine) <==> fine in ordered && tf in ordered && Rank(fine) < Rank(tf)
  {
    if ordered != [] {
      AfterSorted(ordered[1..], fine, tf);
      assert forall k :: 1 <= k < |ordered| ==> RankKey()(ordered[0]).Less(RankKey()(ordered[k]));
    }
  }

  /** The parents of a timeframe are the configured ones above it. */
  lemma ParentsAreAbove(configured: seq<Timeframe>, fine: Timeframe, tf: Timeframe)
    requires DistinctTimeframes(configured)
    ensures tf in Parents(configured, fine) <==> fine in configured && tf in configured && Rank(fine) < Rank(tf)
  {
    SortSorts(configured, RankKey());
    SortKeepsBag(configured, RankKey());
    AfterSorted(SortByKey(configured, RankKey()), fine, tf);
  }

  /** A configured timeframe above another one whose last decision of the symbol still counts at a moment. */
  ghost predicate Heard(last: Memory, symbol: string, configured: seq<Timeframe>, fine: Timeframe, now: int,
                        tf: Timeframe) {
    && fine in configured && tf in configured && fine.Seconds() < tf.Seconds()
    && (symbol, tf) in last
    && last[(symbol, tf)].direction != FLAT && last[(symbol, tf)].confidence > 0.0 && now <= last[(symbol, tf)].validUntil
  }

  /** The context is what this timeframe was last decided to, with the fixed weight. */
  predicate SaidBy(last: Memory, symbol: string, tf: Timeframe, x: Context) {
    (symbol, tf) in last && x == Context(last[(symbol, tf)].direction, last[(symbol, tf)].confidence, 0.15)
  }

  ghost predicate IsNearest(last: Memory, symbol: string, parents: seq<Timeframe>, now: int, tf: Timeframe) {
    && tf in parents && Usable(last, symbol, tf, now)
    && forall nearer :: nearer in parents && Rank(nearer) < Rank(tf) ==> !Usable(last, symbol, nearer, now)
  }

  lemma LaterRank(parents: seq<Timeframe>)
    requires StrictlySorted(parents, RankKey()) && parents != []
    ensures StrictlySorted(parents[1..], RankKey())
    ensures forall tf :: tf in parents[1..] ==> Rank(parents[0]) < Rank(tf)
    ensures forall tf :: tf in parents <==> tf == parents[0] || tf in parents[1..]
  {
    hide Rank;
    assert parents == [parents[0]] + parents[1..];
    forall tf | tf in parents[1..]
      ensures Rank(parents[0]) < Rank(tf)
    {
      var i :| 1 <= i < |parents| && parents[i] == tf;
      assert RankKey()(parents[0]).Less(RankKey()(parents[i]));
    }
  }

  lemma {:induction false} FirstOfParents(last: Memory, symbol: string, parents: seq<Timeframe>, now: int)
    requires StrictlySorted(parents, RankKey())
    ensures
      match FirstUsable(last, symbol, parents, now)
      case None => forall tf :: tf in parents ==> !Usable(last, symbol, tf, now)
      case Some(x) => exists tf :: IsNearest(last, symbol, parents, now, tf) && SaidBy(last, symbol, tf, x)
  {
    hide Rank, StrictlySorted;
    if parents != [] {
      LaterRank(parents);
      if Usable(last, symbol, parents[0], now) {
        assert IsNearest(last, symbol, parents, now, parents[0]);
      } else {
        FirstOfParents(last, symbol, parents[1..], now);
        if FirstUsable(last, symbol, parents[1..], now).Some? {
          var x := FirstUsable(last, symbol, parents[1..], now).value;
          var tf :| IsNearest(last, symbol, parents[1..], now, tf) && SaidBy(last, symbol, tf, x);
          assert IsNearest(last, symbol, parents, now, tf);
        }
      }
    }
  }

  lemma {:induction false} AfterKeepsSorted(ordered: seq<Timeframe>, tf: Timeframe)
    requires StrictlySorted(ordered, RankKey())
    ensures StrictlySorted(After(ordered, tf), RankKey())
  {
    if ordered != [] && ordered[0] != tf {
      AfterKeepsSorted(ordered[1..], tf);
    }
  }

  /**
   * The context of a decision: nothing when no longer configured timeframe is heard; otherwise side and confidence of the
   * shortest one that is, with the fixed weight.
   */
  lemma NearestIsHeard(last: Memory, symbol: string, configured: seq<Timeframe>, fine: Timeframe, now: int)
    requires DistinctTimeframes(configured)
    ensures
      match ContextAt(last, symbol, fine, configured, now)
      case None => forall tf :: !Heard(last, symbol, configured, fine, now, tf)
      case Some(x) =>
        exists tf :: Heard(last, symbol, configured, fine, now, tf) && SaidBy(last, symbol, tf, x)
          && forall other :: Heard(last, symbol, configured, fine, now, other) ==> tf.Seconds() <= other.Seconds()
  {
    hide FirstUsable, Parents, Rank;
    var parents := Parents(configured, fine);
    ParentsAreSorted(configured, fine);
    FirstOfParents(last, symbol, parents, now);
    forall tf
      ensures Heard(last, symbol, configured, fine, now, tf) <==> tf in parents && Usable(last, symbol, tf, now)
    {
      ParentsAreAbove(configured, fine, tf);
      RankIsLength(fine, tf);
    }
    if FirstUsable(last, symbol, parents, now).Some? {
      var x := FirstUsable(last, symbol, parents, now).value;
      var tf :| IsNearest(last, symbol, parents, now, tf) && SaidBy(last, symbol, tf, x);
      forall other | Heard(last, symbol, configured, fine, now, other)
        ensures tf.Seconds() <= other.Seconds()
      {
        RankIsLength(other, tf);
      }
      assert Heard(last, symbol, configured, fine, now, tf);
    }
  }

  lemma ParentsAreSorted(configured: seq<Timeframe>, fine: Timeframe)
    requires DistinctTimeframes(configured)
    ensures StrictlySorted(Parents(configured, fine), RankKey())
  {
    SortSorts(configured, RankKey());
    AfterKeepsSorted(SortByKey(configured, RankKey()), fine);
  }

  /**
   * What is remembered of a decision: a kept one replaces the timeframe's last, and is heard by shorter timeframes up to
   * four of its own bars after its bucket and not later; a skipped or failed one leaves the memory as it was.
   */
  lemma HeardForFourBars(last: Memory, symbol: string, tf: Timeframe, bucket: int, o: Outcome, configured: seq<Timeframe>,
                         fine: Timeframe, now: int)
    requires fine in configured && tf in configured && fine.Seconds() < tf.Seconds()
    ensures
      var next := Remember(last, symbol, tf, bucket, o);
      && AgreeElsewhere(last, next, (symbol, tf))
      && (!o.Persist? ==> next == last)
      && (o.Persist? && o.fused.direction != FLAT && o.fused.confidence > 0.0 ==>
            && (Heard(next, symbol, configured, fine, now, tf) <==> now <= bucket + 4 * tf.Seconds())
            && next[(symbol, tf)].direction == o.fused.direction && next[(symbol, tf)].confidence == o.fused.confidence)
  {
  }

  /** The backtest's own thresholds: half of the agents, half of the weight, and a score of 0.15. */
  lemma BacktestThresholds(inputs: Inputs, p: RiskParams)
    requires FusedWithContext(inputs, 0.15).Ok? && FusedWithContext(inputs, 0.15).fused.voting != []
    ensures
      var f, o := FusedWithContext(inputs, 0.15).fused, ComputeDecision(inputs, BACKTEST_ORCH, p);
      && (o == Skip(InsufficientCoverage) <==> inputs.coverage < 0.5)
      && (o == Skip(WeakFlat) <==> inputs.coverage >= 0.5 && f.direction == FLAT)
      && (o.Persist? ==> (o.veto == Some(LowAgreement) <==> f.agreement < 0.5))
  {
    hide FusedWithContext, ComputeDecision;
    OutcomeIs(inputs, BACKTEST_ORCH, p);
  }

  // ---- looking ahead ------------------------------------------------------------------------------

  ghost predicate AscendingSteps(steps: seq<Step>) {
    forall i, j :: 0 <= i < j < |steps| ==> steps[i].bucket < steps[j].bucket
  }

  /** The first `k` bars are those up to a moment. */
  ghost predicate MadeBy(steps: seq<Step>, k: nat, now: int) {
    && AscendingSteps(steps) && k <= |steps|
    && forall i :: 0 <= i < |steps| ==> (steps[i].bucket <= now <==> i < k)
  }

  lemma {:induction false} LastIsMember(h: History)
    ensures LastPersisted(h).Some? ==> LastPersisted(h).value in h
  {
    if h != [] && !h[|h| - 1].1.Persist? {
      LastIsMember(h[..|h| - 1]);
    }
  }

  /** The frame's last decision, when it was made after a moment: after its first `k` bars. */
  function LaterDecision(h: History, k: nat): Option<(int, Outcome)>
    requires k <= |h|
  {
    LastPersisted(h[k..])
  }

  lemma {:induction false} LastOfParts(h: History, k: nat)
    requires k <= |h|
    ensures LastPersisted(h) == if LaterDecision(h, k).Some? then LaterDecision(h, k) else LastPersisted(h[..k])
  {
    if k < |h| {
      var n := |h| - 1;
      assert h[k..][..n - k] == h[..n][k..];
      if !h[n].1.Persist? {
        LastOfParts(h[..n], k);
        assert h[..n][..k] == h[..k];
      }
    } else {
      assert h[..k] == h;
    }
  }

  lemma LaterFacts(h: History, k: nat, now: int)
    requires k <= |h| && Sided(h) && forall i :: k <= i < |h| ==> now < h[i].0
    ensures
      var d := LaterDecision(h, k);
      d.Some? ==> now < d.value.0 && d.value.1.fused.direction != FLAT && d.value.1.fused.confidence > 0.0
  {
    LastIsMember(h[k..]);
    var d := LaterDecision(h, k);
    if d.Some? {
      var i :| 0 <= i < |h[k..]| && h[k..][i] == d.value;
      assert h[k + i] == d.value;
    }
  }

  /** The parent cannot be heard: it is not configured above the frame, or a nearer one speaks. */
  predicate Unheard(last: Memory, symbol: string, parents: seq<Timeframe>, tf: Timeframe, now: int) {
    tf !in parents || FirstUsable(last, symbol, Nearer(parents, tf), now).Some?
  }

  /** What is heard from a parent on: its own remembered decision while usable, else what lies above it. */
  function HeardFrom(last: Memory, symbol: string, parents: seq<Timeframe>, tf: Timeframe, now: int): Option<Context> {
    if Usable(last, symbol, tf, now) then Some(ContextOf(last[(symbol, tf)]))
    else FirstUsable(last, symbol, After(parents, tf), now)
  }

  lemma HearsLater(last: Memory, past: Memory, full: Memory, f: Frame, parents: seq<Timeframe>, now: int, d: (int, Outcome))
    requires d.1.Persist? && now < d.0 && d.1.fused.direction != FLAT && d.1.fused.confidence > 0.0
    requires full == past[(f.symbol, f.timeframe) := RecentOf(f.timeframe, d)]
    requires AgreeElsewhere(last, past, (f.symbol, f.timeframe))
    ensures
      FirstUsable(full, f.symbol, parents, now) == FirstUsable(past, f.symbol, parents, now) <==>
      || Unheard(last, f.symbol, parents, f.timeframe, now)
      || HeardFrom(past, f.symbol, parents, f.timeframe, now) == Some(ContextOf(RecentOf(f.timeframe, d)))
  {
    var symbol, tf := f.symbol, f.timeframe;
    NotNearer(parents, tf);
    FirstUsableIgnores(last, past, symbol, Nearer(parents, tf), tf, now);
    FirstUsableIgnores(last, full, symbol, Nearer(parents, tf), tf, now);
    if tf in parents {
      FirstUsableSplits(full, symbol, parents, tf, now);
      FirstUsableSplits(past, symbol, parents, tf, now);
    } else {
      FirstUsableIgnores(past, full, symbol, parents, tf, now);
    }
  }

  /**
   * The context fed to a frame at a moment is the same as if the parent had stopped there, exactly when the parent is
   * not heard, or persists nothing later, or its later decision says what is heard without it.
   */
  lemma ContextIsCausalIff(last: Memory, f: Frame, fine: Timeframe, configured: seq<Timeframe>, p: RiskParams,
                           steps: seq<Step>, k: nat, now: int)
    requires MadeBy(steps, k, now)
    ensures
      var parents, h := Parents(configured, fine), FrameHistory(last, f, configured, p, steps);
      var past, later := FrameRun(last, f, configured, p, steps[..k]), LaterDecision(h, k);
      ContextAt(FrameRun(last, f, configured, p, steps), f.symbol, fine, configured, now) ==
      ContextAt(past, f.symbol, fine, configured, now) <==>
      || Unheard(last, f.symbol, parents, f.timeframe, now)
      || later.None?
      || HeardFrom(past, f.symbol, parents, f.timeframe, now) == Some(ContextOf(RecentOf(f.timeframe, later.value)))
  {
    hide FrameHistory, Parents, FirstUsable, Unheard, HeardFrom, Feed;
    var h := FrameHistory(last, f, configured, p, steps);
    HistoryOfPrefix(last, f, configured, p, steps, k);
    FrameIsSided(last, f, configured, p, steps);
    FeedKeepsLast(last, f, h);
    FeedKeepsLast(last, f, h[..k]);
    LastOfParts(h, k);
    LaterFacts(h, k, now);
    var later := LaterDecision(h, k);
    if later.Some? {
      HearsLater(last, Feed(last, f, h[..k]), Feed(last, f, h), f, Parents(configured, fine), now, later.value);
    }
  }

  // ---- the future can always speak ------------------------------------------------------------------

  /** Inputs with a sure vote: nothing to size, so the decision is recorded but blocked. */
  function Sure(side: Direction): Inputs {
    Inputs(SureVote(side), TECHNICAL_ONLY, None, None, 1.0, GateState(0.0, 0.0, 0.0, 0.0, false), None)
  }

  /** Whatever the context, a sure vote is persisted on its side. */
  lemma SureIsPersisted(side: Direction, parent: Option<Context>, p: RiskParams)
    requires side != FLAT && (parent.Some? ==> parent.value.weight == CONTEXT_WEIGHT)
    ensures
      var o := ComputeDecision(Sure(side).(parent := parent), BACKTEST_ORCH, p);
      o.Persist? && o.fused.direction == side && (parent.None? ==> o.fused.confidence == 1.0)
  {
    hide Fuse, Assessed, FirstFailing, Round6;
    SureFuse(side, 0.15);
    var f := Fuse(SureVote(side), TECHNICAL_ONLY, 0.15).fused;
    if parent.Some? && parent.value.confidence > 0.0 {
      SmallNudge(parent.value);
      ContextKeepsAgreement(f, parent.value);
    }
  }

  lemma SmallNudge(context: Context)
    requires context.weight == CONTEXT_WEIGHT && context.confidence > 0.0
    ensures -0.15 <= Nudge(context) <= 0.15
  {
  }

  lemma {:induction false} ContextWeighs(last: Memory, symbol: string, parents: seq<Timeframe>, now: int)
    ensures
      var context := FirstUsable(last, symbol, parents, now);
      context.Some? ==> context.value.weight == CONTEXT_WEIGHT && context.value.confidence > 0.0
  {
    if parents != [] {
      ContextWeighs(last, symbol, parents[1..], now);
    }
  }

  lemma SnocSteps(steps: seq<Step>, step: Step, k: nat, now: int)
    requires MadeBy(steps, k, now) && k == |steps| && now < step.bucket
    ensures MadeBy(steps + [step], k, now) && (steps + [step])[..k] == steps
  {
  }

  lemma SureIsLater(last: Memory, f: Frame, configured: seq<Timeframe>, p: RiskParams, steps: seq<Step>, now: int,
                    side: Direction)
    requires side != FLAT
    ensures
      var h := FrameHistory(last, f, configured, p, steps + [Step(now + 1, Sure(side))]);
      var later := LaterDecision(h, |steps|);
      later.Some? && later.value.0 == now + 1 && later.value.1.fused.direction == side
  {
    hide ComputeDecision, FirstUsable, Parents, Sure;
    var all := steps + [Step(now + 1, Sure(side))];
    var h, n := FrameHistory(last, f, configured, p, all), |steps|;
    assert all[..n] == steps;
    var mid := FrameRun(last, f, configured, p, steps);
    var parent := ContextAt(mid, f.symbol, f.timeframe, configured, now + 1);
    ContextWeighs(mid, f.symbol, Parents(configured, f.timeframe), now + 1);
    assert parent == FirstUsable(mid, f.symbol, Parents(configured, f.timeframe), now + 1);
    SureIsPersisted(side, parent, p);
    assert h[n..] == [h[n]];
  }

  /**
   * Wherever a parent is heard, its future can change what is heard: any bars up to a moment have two continuations by
   * one later bar that feed the frame different contexts at that moment.
   */
  lemma FutureChangesContext(last: Memory, f: Frame, fine: Timeframe, configured: seq<Timeframe>, p: RiskParams,
                             steps: seq<Step>, now: int)
    requires MadeBy(steps, |steps|, now) && !Unheard(last, f.symbol, Parents(configured, fine), f.timeframe, now)
    ensures
      var a, b := steps + [Step(now + 1, Sure(LONG))], steps + [Step(now + 1, Sure(SHORT))];
      && MadeBy(a, |steps|, now) && MadeBy(b, |steps|, now) && a[..|steps|] == b[..|steps|] == steps
      && ContextAt(FrameRun(last, f, configured, p, a), f.symbol, fine, configured, now) !=
         ContextAt(FrameRun(last, f, configured, p, b), f.symbol, fine, configured, now)
  {
    hide FrameHistory, Parents, Feed, ComputeDecision, Sure;
    SnocSteps(steps, Step(now + 1, Sure(LONG)), |steps|, now);
    SnocSteps(steps, Step(now + 1, Sure(SHORT)), |steps|, now);
    HeardAtOnce(last, f, fine, configured, p, steps, now, LONG);
    HeardAtOnce(last, f, fine, configured, p, steps, now, SHORT);
  }

  lemma HeardAtOnce(last: Memory, f: Frame, fine: Timeframe, configured: seq<Timeframe>, p: RiskParams, steps: seq<Step>,
                    now: int, side: Direction)
    requires MadeBy(steps, |steps|, now) && !Unheard(last, f.symbol, Parents(configured, fine), f.timeframe, now)
    requires side != FLAT
    ensures
      var context := ContextAt(FrameRun(last, f, configured, p, steps + [Step(now + 1, Sure(side))]), f.symbol, fine,
                               configured, now);
      context.Some? && context.value.direction == side
  {
    hide FrameHistory, ComputeDecision, Sure, Parents, Feed;
    var all, k := steps + [Step(now + 1, Sure(side))], |steps|;
    var h, parents := FrameHistory(last, f, configured, p, all), Parents(configured, fine);
    SnocSteps(steps, Step(now + 1, Sure(side)), k, now);
    SureIsLater(last, f, configured, p, steps, now, side);
    HistoryOfPrefix(last, f, configured, p, all, k);
    FrameIsSided(last, f, configured, p, all);
    LastOfParts(h, k);
    LaterFacts(h, k, now);
    FeedKeepsLast(last, f, h);
    var full := Feed(last, f, h);
    NotNearer(parents, f.timeframe);
    FirstUsableIgnores(last, full, f.symbol, Nearer(parents, f.timeframe), f.timeframe, now);
    FirstUsableSplits(full, f.symbol, parents, f.timeframe, now);
  }

  // ---- a whole run that looks ahead ------------------------------------------------------------------

  /** One hourly bar, at 3600, with a sure vote; no other context bars. */
  function Hourly(side: Direction): Feeds {
    (f: Frame) => if f == Frame(EURUSD, H1) then [Step(3600, Sure(side))] else []
  }

  /** The driver's run over five minutes and hours hands the fine frame, at moment 0, the decision of 3600. */
  lemma DriverLooksAhead(p: RiskParams, side: Direction)
    requires side != FLAT
    ensures
      var frames := ContextFrames([M5, H1], M5, [EURUSD]);
      && frames == [Frame(EURUSD, H1)]
      && ContextAt(RunFrames(map[], [M5, H1], p, Hourly(side), frames), EURUSD, M5, [M5, H1], 0) ==
         Some(Context(side, 1.0, CONTEXT_WEIGHT))
      && ContextAt(RunFrames(map[], [M5, H1], p, f => [], frames), EURUSD, M5, [M5, H1], 0) == None
  {
    hide ComputeDecision, Sure;
    var f := Frame(EURUSD, H1);
    TwoTimeframes();
    SureIsPersisted(side, None, p);
    assert [f][..0] == [];
    assert [Step(3600, Sure(side))][..0] == [];
    assert FrameHistory(map[], f, [M5, H1], p, []) == [];
    assert Sure(side).(parent := None) == Sure(side) by { SureHasNoParent(side); }
    var o := DecideStep(map[], f, [M5, H1], p, Step(3600, Sure(side)));
    assert FrameHistory(map[], f, [M5, H1], p, [Step(3600, Sure(side))]) == [(3600, o)];
    assert [(3600, o)][..0] == [];
    assert Feed(map[], f, []) == map[];
    assert Feed(map[], f, [(3600, o)]) == Remember(map[], EURUSD, H1, 3600, o);
  }

  lemma SureHasNoParent(side: Direction)
    ensures Sure(side).parent == None
  {
  }

  lemma TwoTimeframes()
    ensures Parents([M5, H1], M5) == [H1] && Parents([M5, H1], H1) == []
    ensures ContextFrames([M5, H1], M5, [EURUSD]) == [Frame(EURUSD, H1)]
  {
    assert [M5, H1][1..] == [H1] && [H1][1..] == [];
    assert SortByKey([H1], RankKey()) == [H1] && SortByKey([M5, H1], RankKey()) == [M5, H1];
    assert SortByKey([H1], FallingKey()) == [H1] && InsertByKey(M5, [H1], FallingKey()) == [H1, M5];
    assert SortByKey([M5, H1], FallingKey()) == [H1, M5];
    assert [H1, M5][..1] == [H1] && [H1][..0] == [] && [EURUSD][..0] == [];
    assert Frames([EURUSD], H1) == [Frame(EURUSD, H1)];
    assert FramesOf([H1], M5, [EURUSD]) == [Frame(EURUSD, H1)];
  }
}
