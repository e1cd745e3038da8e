/** Fusion of the directional agents' votes, and the nudge from a higher timeframe. */
module Fusion {
  import opened Prelude
  import opened Paper

  datatype Agent = Technical | Fundamental | Sentiment

  /** Order in which agents are asked. */
  const DIRECTIONAL: seq<Agent> := [Technical, Fundamental, Sentiment]

  datatype AgentSignal = AgentSignal(direction: Direction, confidence: real)

  datatype Fused = Fused(
    score: real, direction: Direction, confidence: real, agreement: real, weights: map<Agent, real>,
    voting: seq<Agent>, threshold: real, preContextScore: real)

  /** A voter without a positive weight beside one that has it is looked up in vain. */
  datatype FuseOutcome = Ok(fused: Fused) | MissingWeight

  datatype Context = Context(direction: Direction, confidence: real, weight: real)

  function SignOf(d: Direction): int {
    match d
    case FLAT => 0
    case LONG => 1
    case SHORT => -1
  }

  function Opposite(d: Direction): Direction {
    match d
    case FLAT => FLAT
    case LONG => SHORT
    case SHORT => LONG
  }

  function DirectionForScore(score: real, threshold: real): Direction {
    if score >= threshold then LONG else if score <= -threshold then SHORT else FLAT
  }

  function WeightOf(weights: map<Agent, real>, a: Agent): real {
    if a in weights then weights[a] else 0.0
  }

  predicate Votes(signals: map<Agent, AgentSignal>, a: Agent) {
    a in signals && signals[a].direction != FLAT && signals[a].confidence > 0.0
  }

  function Vote(signal: AgentSignal): real {
    SignOf(signal.direction) as real * signal.confidence
  }

  function Weighted(w: real, signal: AgentSignal): real {
    w * Vote(signal)
  }

  function Voters(signals: map<Agent, AgentSignal>, agents: seq<Agent>): (r: seq<Agent>)
    ensures forall a :: a in r <==> a in agents && Votes(signals, a)
  {
    if agents == [] then []
    else
      var n := |agents| - 1;
      assert agents == agents[..n] + [agents[n]];
      Voters(signals, agents[..n]) + if Votes(signals, agents[n]) then [agents[n]] else []
  }

  /** Sum of the positive weights of a list of agents. */
  function PositiveWeight(weights: map<Agent, real>, agents: seq<Agent>): (r: real)
    ensures r >= 0.0
  {
    if agents == [] then 0.0
    else
      var n := |agents| - 1;
      PositiveWeight(weights, agents[..n]) + Max(WeightOf(weights, agents[n]), 0.0)
  }

  function Renormalized(weights: map<Agent, real>, voters: seq<Agent>): map<Agent, real> {
    var total := PositiveWeight(weights, voters);
    if total <= 0.0 then map[]
    else map a | a in voters && WeightOf(weights, a) > 0.0 :: WeightOf(weights, a) / total
  }

  ghost predicate Weighed(w: map<Agent, real>, signals: map<Agent, AgentSignal>, voters: seq<Agent>) {
    forall i :: 0 <= i < |voters| ==> voters[i] in w && voters[i] in signals
  }

  /** Weighted sum of the votes. */
  function Blend(w: map<Agent, real>, signals: map<Agent, AgentSignal>, voters: seq<Agent>): real
    requires Weighed(w, signals, voters)
  {
    if voters == [] then 0.0
    else
      var n := |voters| - 1;
      Blend(w, signals, voters[..n]) + Weighted(w[voters[n]], signals[voters[n]])
  }

  /** Weight of the voters on one side. */
  function Aligning(w: map<Agent, real>, signals: map<Agent, AgentSignal>, voters: seq<Agent>, side: Direction): real
    requires Weighed(w, signals, voters)
  {
    if voters == [] then 0.0
    else
      var n := |voters| - 1;
      Aligning(w, signals, voters[..n], side) + if signals[voters[n]].direction == side then w[voters[n]] else 0.0
  }

  function NoVotes(threshold: real): Fused {
    Fused(0.0, FLAT, 0.0, 0.0, map[], [], threshold, 0.0)
  }

  lemma VotersHaveWeights(w: map<Agent, real>, signals: map<Agent, AgentSignal>, voters: seq<Agent>)
    requires voters == Voters(signals, DIRECTIONAL) && forall a :: a in voters ==> a in w
    ensures Weighed(w, signals, voters)
  {
    hide Voters;
    forall i | 0 <= i < |voters|
      ensures voters[i] in w && voters[i] in signals
    {
      MemberAt(voters, i);
    }
  }

  function Fuse(signals: map<Agent, AgentSignal>, weights: map<Agent, real>, threshold: real): FuseOutcome {
    var voters := Voters(signals, DIRECTIONAL);
    var w := Renormalized(weights, voters);
    if voters == [] || w == map[] then Ok(NoVotes(threshold))
    else if exists a :: a in voters && a !in w then MissingWeight
    else
      assert Weighed(w, signals, voters) by { VotersHaveWeights(w, signals, voters); }
      var score := Round6(Blend(w, signals, voters));
      var direction := DirectionForScore(score, threshold);
      Ok(Fused(score, direction, Min(1.0, Abs(score)), Round4(Aligning(w, signals, voters, direction)), w, voters,
               threshold, 0.0))
  }

  function Nudge(context: Context): real {
    context.weight * SignOf(context.direction) as real * Min(1.0, context.confidence)
  }

  function ApplyContext(f: Fused, context: Context): Fused {
    if context.confidence <= 0.0 then f
    else
      var score := f.score + Nudge(context);
      f.(score := Round6(score), direction := DirectionForScore(score, f.threshold),
         confidence := Min(1.0, Abs(score)), preContextScore := f.score)
  }

  // ---- the loop ---------------------------------------------------------------------------

  lemma VoteIs(signal: AgentSignal)
    ensures Vote(signal) == SignOf(signal.direction) as real * signal.confidence
  {
  }

  lemma NoVoters(signals: map<Agent, AgentSignal>)
    ensures Voters(signals, []) == []
  {
  }

  lemma VotersSnoc(signals: map<Agent, AgentSignal>, agents: seq<Agent>, a: Agent)
    ensures Voters(signals, agents + [a]) == Voters(signals, agents) + if Votes(signals, a) then [a] else []
  {
    assert (agents + [a])[..|agents|] == agents;
  }

  /** Ask the agents in order; FLAT or unconfident ones do not vote. */
  method CollectVotes(signals: map<Agent, AgentSignal>) returns (voters: seq<Agent>, votes: map<Agent, real>)
    ensures voters == Voters(signals, DIRECTIONAL)
    ensures forall a :: a in voters ==> a in votes && a in signals && votes[a] == Vote(signals[a])
  {
    hide Voters, Vote;
    NoVoters(signals);
    assert DIRECTIONAL[..0] == [];
    voters, votes := [], map[];
    var i := 0;
    while i < |DIRECTIONAL|
      invariant 0 <= i <= |DIRECTIONAL|
      invariant voters == Voters(signals, DIRECTIONAL[..i])
      invariant forall a :: a in voters ==> a in votes && a in signals && votes[a] == Vote(signals[a])
    {
      var a := DIRECTIONAL[i];
      VotersSnoc(signals, DIRECTIONAL[..i], a);
      assert DIRECTIONAL[..i] + [a] == DIRECTIONAL[..i + 1];
      if a in signals && SignOf(signals[a].direction) != 0 && signals[a].confidence > 0.0 {
        voters := voters + [a];
        votes := votes[a := SignOf(signals[a].direction) as real * signals[a].confidence];
        VoteIs(signals[a]);
      }
      i := i + 1;
    }
    assert DIRECTIONAL[..i] == DIRECTIONAL;
  }

  /** Weighted sum of collected votes; None when a voter has no weight. */
  method WeighVotes(w: map<Agent, real>, signals: map<Agent, AgentSignal>, voters: seq<Agent>, votes: map<Agent, real>)
    returns (sum: Option<real>)
    requires forall a :: a in voters ==> a in votes && a in signals && votes[a] == Vote(signals[a])
    ensures sum.None? <==> exists a :: a in voters && a !in w
    ensures sum.Some? ==> Weighed(w, signals, voters) && sum.value == Blend(w, signals, voters)
  {
    hide Vote;
    var total, j := 0.0, 0;
    while j < |voters|
      invariant 0 <= j <= |voters|
      invariant Weighed(w, signals, voters[..j])
      invariant total == Blend(w, signals, voters[..j])
    {
      assert voters[j] in voters;
      if voters[j] !in w {
        return None;
      }
      assert voters[..j + 1][..j] == voters[..j];
      total := total + w[voters[j]] * votes[voters[j]];
      j := j + 1;
    }
    assert voters[..j] == voters;
    sum := Some(total);
  }

  /** Collect the votes, then weigh them. */
  method FuseSignals(signals: map<Agent, AgentSignal>, weights: map<Agent, real>, threshold: real)
    returns (outcome: FuseOutcome)
    ensures outcome == Fuse(signals, weights, threshold)
  {
    hide Voters, Renormalized, Blend, Vote, Aligning, Round6, Round4;
    var voters, votes := CollectVotes(signals);
    if voters == [] {
      return Ok(NoVotes(threshold));
    }
    var w := Renormalized(weights, voters);
    if w == map[] {
      return Ok(NoVotes(threshold));
    }
    var sum := WeighVotes(w, signals, voters, votes);
    if sum.None? {
      return MissingWeight;
    }
    var score := Round6(sum.value);
    var direction := DirectionForScore(score, threshold);
    var agreement := Round4(Aligning(w, signals, voters, direction));
    outcome := Ok(Fused(score, direction, Min(1.0, Abs(score)), agreement, w, voters, threshold, 0.0));
  }

  // ---- bounds -----------------------------------------------------------------------------

  predicate Confident(signals: map<Agent, AgentSignal>) {
    forall a :: a in signals ==> 0.0 <= signals[a].confidence <= 1.0
  }

  function Share(w: map<Agent, real>, voters: seq<Agent>): real
    requires forall i :: 0 <= i < |voters| ==> voters[i] in w
  {
    if voters == [] then 0.0
    else
      var n := |voters| - 1;
      Share(w, voters[..n]) + w[voters[n]]
  }

  lemma {:induction false} ShareScales(weights: map<Agent, real>, w: map<Agent, real>, voters: seq<Agent>, total: real)
    requires forall i :: 0 <= i < |voters| ==> voters[i] in w
    requires forall i :: 0 <= i < |voters| ==>
      WeightOf(weights, voters[i]) > 0.0 && w[voters[i]] * total == WeightOf(weights, voters[i])
    ensures Share(w, voters) * total == PositiveWeight(weights, voters)
  {
    if voters != [] {
      var n := |voters| - 1;
      ShareScales(weights, w, voters[..n], total);
      assert (Share(w, voters[..n]) + w[voters[n]]) * total == Share(w, voters[..n]) * total + w[voters[n]] * total;
    }
  }

  lemma DivideBack(x: real, t: real)
    requires t > 0.0 && x > 0.0
    ensures x / t * t == x && x / t > 0.0
  {
    var q := x / t;
    assert q * t == x;
  }

  lemma UnitScale(x: real, t: real)
    requires t > 0.0 && x * t == t
    ensures x == 1.0
  {
    assert (x - 1.0) * t == 0.0;
  }

  lemma RenormalizedWeight(weights: map<Agent, real>, voters: seq<Agent>, a: Agent)
    requires a in Renormalized(weights, voters)
    ensures
      var total, w := PositiveWeight(weights, voters), Renormalized(weights, voters);
      total > 0.0 && WeightOf(weights, a) > 0.0 && w[a] > 0.0 && w[a] * total == WeightOf(weights, a) && a in voters
  {
    hide PositiveWeight, WeightOf;
    DivideBack(WeightOf(weights, a), PositiveWeight(weights, voters));
  }

  /** The weights of the voters sum to one. */
  lemma SharesSumToOne(weights: map<Agent, real>, voters: seq<Agent>)
    requires Renormalized(weights, voters) != map[]
    requires forall i :: 0 <= i < |voters| ==> voters[i] in Renormalized(weights, voters)
    ensures Share(Renormalized(weights, voters), voters) == 1.0
  {
    hide Renormalized, PositiveWeight, WeightOf, Share;
    var total, w := PositiveWeight(weights, voters), Renormalized(weights, voters);
    var a :| a in w;
    RenormalizedWeight(weights, voters, a);
    forall i | 0 <= i < |voters|
      ensures WeightOf(weights, voters[i]) > 0.0 && w[voters[i]] * total == WeightOf(weights, voters[i])
    {
      RenormalizedWeight(weights, voters, voters[i]);
    }
    ShareScales(weights, w, voters, total);
    UnitScale(Share(w, voters), total);
  }

  lemma ScaleBound(w: real, v: real)
    requires w > 0.0 && -1.0 <= v <= 1.0
    ensures -w <= w * v <= w
  {
  }

  lemma VoteBound(w: real, x: AgentSignal)
    requires w > 0.0 && 0.0 <= x.confidence <= 1.0
    ensures -w <= Weighted(w, x) <= w
  {
    assert -1.0 <= Vote(x) <= 1.0;
    ScaleBound(w, Vote(x));
  }

  lemma {:induction false} BlendWithinShare(w: map<Agent, real>, signals: map<Agent, AgentSignal>, voters: seq<Agent>)
    requires Weighed(w, signals, voters)
    requires forall i :: 0 <= i < |voters| ==> w[voters[i]] > 0.0 && 0.0 <= signals[voters[i]].confidence <= 1.0
    ensures -Share(w, voters) <= Blend(w, signals, voters) <= Share(w, voters)
  {
    hide Weighted;
    if voters != [] {
      var n := |voters| - 1;
      BlendWithinShare(w, signals, voters[..n]);
      VoteBound(w[voters[n]], signals[voters[n]]);
    }
  }

  lemma {:induction false} AligningWithinShare(w: map<Agent, real>, signals: map<Agent, AgentSignal>,
                                               voters: seq<Agent>, side: Direction)
    requires Weighed(w, signals, voters) && forall i :: 0 <= i < |voters| ==> w[voters[i]] > 0.0
    ensures 0.0 <= Aligning(w, signals, voters, side) <= Share(w, voters)
    ensures
      (forall i :: 0 <= i < |voters| ==> signals[voters[i]].direction != side) ==> Aligning(w, signals, voters, side) == 0.0
  {
    if voters != [] {
      AligningWithinShare(w, signals, voters[..|voters| - 1], side);
    }
  }

  lemma RoundWhole(n: int)
    ensures RoundInt(n as real) == n
  {
    assert (n as real).Floor == n;
  }

  lemma RoundZero()
    ensures Round4(0.0) == 0.0
  {
    RoundWhole(0);
  }

  /** Rounding does not leave an interval with whole ends. */
  lemma RoundBetween(y: real, low: int, high: int)
    requires low as real <= y <= high as real
    ensures low <= RoundInt(y) <= high
  {
    hide RoundInt;
    RoundWhole(low);
    RoundWhole(high);
    RoundIntMonotone(low as real, y);
    RoundIntMonotone(y, high as real);
  }

  lemma Round4InUnit(x: real)
    requires 0.0 <= x <= 1.0
    ensures 0.0 <= Round4(x) <= 1.0
  {
    RoundBetween(x * 10000.0, 0, 10000);
  }

  lemma Round6InUnit(x: real)
    requires -1.0 <= x <= 1.0
    ensures -1.0 <= Round6(x) <= 1.0
  {
    RoundBetween(x * 1000000.0, -1000000, 1000000);
  }

  lemma MemberAt(agents: seq<Agent>, i: nat)
    requires i < |agents|
    ensures agents[i] in agents
  {
  }

  /** When fusion succeeds every voter has its share. */
  lemma VotersWeighed(signals: map<Agent, AgentSignal>, weights: map<Agent, real>, voters: seq<Agent>, w: map<Agent, real>)
    requires voters == Voters(signals, DIRECTIONAL) && w == Renormalized(weights, voters)
    requires forall a :: a in voters ==> a in w
    ensures Weighed(w, signals, voters)
    ensures forall i :: 0 <= i < |voters| ==> Votes(signals, voters[i]) && w[voters[i]] > 0.0
  {
    hide Voters, Renormalized;
    forall i | 0 <= i < |voters|
      ensures voters[i] in w && Votes(signals, voters[i]) && w[voters[i]] > 0.0
    {
      MemberAt(voters, i);
      RenormalizedWeight(weights, voters, voters[i]);
    }
  }

  /** Score in [-1, 1], confidence its magnitude, agreement in [0, 1] and zero exactly without an aligned voter. */
  lemma FuseBounds(signals: map<Agent, AgentSignal>, weights: map<Agent, real>, threshold: real)
    requires Confident(signals) && Fuse(signals, weights, threshold).Ok?
    ensures
      var f := Fuse(signals, weights, threshold).fused;
      && -1.0 <= f.score <= 1.0 && f.confidence == Abs(f.score) && 0.0 <= f.agreement <= 1.0
      && (f.direction == FLAT ==> f.agreement == 0.0)
      && (f.voting != [] ==>
            (forall i :: 0 <= i < |f.voting| ==> f.voting[i] in f.weights) && Share(f.weights, f.voting) == 1.0)
  {
    var voters := Voters(signals, DIRECTIONAL);
    var w := Renormalized(weights, voters);
    hide Blend, Aligning, Share, Round6, Round4, Voters, Renormalized;
    if voters != [] && w != map[] {
      VotersWeighed(signals, weights, voters, w);
      SharesSumToOne(weights, voters);
      BlendWithinShare(w, signals, voters);
      Round6InUnit(Blend(w, signals, voters));
      var direction := DirectionForScore(Round6(Blend(w, signals, voters)), threshold);
      AligningWithinShare(w, signals, voters, direction);
      Round4InUnit(Aligning(w, signals, voters, direction));
      RoundZero();
    }
  }

  /** Fusion fails exactly when some voter has a positive weight and another has none. */
  lemma FuseFailsIff(signals: map<Agent, AgentSignal>, weights: map<Agent, real>, threshold: real)
    ensures
      Fuse(signals, weights, threshold).MissingWeight? <==>
      exists a, b :: Votes(signals, a) && Votes(signals, b) && WeightOf(weights, a) > 0.0 && WeightOf(weights, b) <= 0.0
  {
    hide Blend, Aligning, Round6, Round4, PositiveWeight;
    var voters := Voters(signals, DIRECTIONAL);
    var w := Renormalized(weights, voters);
    SomeWeight(weights, voters);
    if a, b :| Votes(signals, a) && Votes(signals, b) && WeightOf(weights, a) > 0.0 && WeightOf(weights, b) <= 0.0 {
      IsDirectional(a);
      IsDirectional(b);
      assert a in voters && b in voters;
      assert a in w && b !in w;
    }
    if Fuse(signals, weights, threshold).MissingWeight? {
      var b :| b in voters && b !in w;
      var a :| a in w;
      assert WeightOf(weights, a) > 0.0 && a in voters;
    }
  }

  lemma IsDirectional(a: Agent)
    ensures a in DIRECTIONAL
  {
    match a
    case Technical => assert DIRECTIONAL[0] == a;
    case Fundamental => assert DIRECTIONAL[1] == a;
    case Sentiment => assert DIRECTIONAL[2] == a;
  }

  lemma {:induction false} SomeWeight(weights: map<Agent, real>, voters: seq<Agent>)
    ensures PositiveWeight(weights, voters) > 0.0 <==> exists a :: a in voters && WeightOf(weights, a) > 0.0
  {
    if voters != [] {
      var n := |voters| - 1;
      SomeWeight(weights, voters[..n]);
      assert voters == voters[..n] + [voters[n]];
      if WeightOf(weights, voters[n]) > 0.0 {
        assert voters[n] in voters;
      }
    }
  }

  // ---- what a vote is worth ---------------------------------------------------------------------

  /** Weight a voter brings; an agent that does not vote brings none. */
  function Stake(signals: map<Agent, AgentSignal>, weights: map<Agent, real>, a: Agent): real {
    if Votes(signals, a) then Max(WeightOf(weights, a), 0.0) else 0.0
  }

  /** Its weight times its confidence, upwards for LONG and downwards for SHORT. */
  function Pull(signals: map<Agent, AgentSignal>, weights: map<Agent, real>, a: Agent): real {
    if !Votes(signals, a) then 0.0
    else
      WeightOf(weights, a) * if signals[a].direction == LONG then signals[a].confidence else -signals[a].confidence
  }

  /** Its weight when it votes for this side. */
  function Backing(signals: map<Agent, AgentSignal>, weights: map<Agent, real>, a: Agent, side: Direction): real {
    if Votes(signals, a) && signals[a].direction == side then Max(WeightOf(weights, a), 0.0) else 0.0
  }

  /** Sums over the agents asked, of weights, of pulls and of weights on one side. */
  function Tally(signals: map<Agent, AgentSignal>, weights: map<Agent, real>, agents: seq<Agent>,
                 side: Direction): (real, real, real) {
    if agents == [] then (0.0, 0.0, 0.0)
    else
      var n := |agents| - 1;
      var t := Tally(signals, weights, agents[..n], side);
      (t.0 + Stake(signals, weights, agents[n]), t.1 + Pull(signals, weights, agents[n]),
       t.2 + Backing(signals, weights, agents[n], side))
  }

  /** The renormalized weights bring this total back to the configured ones. */
  ghost predicate Scaled(w: map<Agent, real>, weights: map<Agent, real>, voters: seq<Agent>, total: real) {
    forall a :: a in voters ==> a in w && WeightOf(weights, a) > 0.0 && Times(w[a], total) == WeightOf(weights, a)
  }

  lemma ScaleOne(w: real, weight: real, x: AgentSignal, total: real)
    requires Times(w, total) == weight && x.direction != FLAT
    ensures Times(Weighted(w, x), total) == weight * if x.direction == LONG then x.confidence else -x.confidence
  {
    var v := if x.direction == LONG then x.confidence else -x.confidence;
    assert Vote(x) == v;
    assert w * v * total == w * total * v;
  }

  lemma ScaleSum(a: real, b: real, total: real)
    ensures Times(a + b, total) == Times(a, total) + Times(b, total)
  {
  }

  lemma ScaleNothing(total: real)
    ensures Times(0.0, total) == 0.0
  {
  }

  lemma {:induction false} SumsScale(w: map<Agent, real>, weights: map<Agent, real>, signals: map<Agent, AgentSignal>,
                                     agents: seq<Agent>, total: real, side: Direction)
    requires Weighed(w, signals, Voters(signals, agents))
    requires Scaled(w, weights, Voters(signals, agents), total)
    ensures
      var voters, t := Voters(signals, agents), Tally(signals, weights, agents, side);
      && Times(Blend(w, signals, voters), total) == t.1 && Times(Aligning(w, signals, voters, side), total) == t.2
  {
    hide Weighted, Times, Stake, Pull, Backing, WeightOf, Voters, Tally, Blend, Aligning;
    if agents == [] {
      NoVoters(signals);
      NobodyAsked(signals, weights, side);
      NothingWeighed(w, signals, side);
      ScaleNothing(total);
    } else {
      var n := |agents| - 1;
      var a, rest := agents[n], Voters(signals, agents[..n]);
      assert agents == agents[..n] + [a];
      VotersSnoc(signals, agents[..n], a);
      TallySnoc(signals, weights, agents[..n], a, side);
      assert forall i :: 0 <= i < |rest| ==> Voters(signals, agents)[i] == rest[i];
      SumsScale(w, weights, signals, agents[..n], total, side);
      if Votes(signals, a) {
        assert a in Voters(signals, agents);
        WeighedSnoc(w, signals, rest, a, side);
        OneScales(w, weights, signals, rest, a, total, side);
      } else {
        assert rest + [] == rest;
        NoVoteNoPull(signals, weights, a, side);
      }
    }
  }

  lemma NothingWeighed(w: map<Agent, real>, signals: map<Agent, AgentSignal>, side: Direction)
    ensures Blend(w, signals, []) == 0.0 && Aligning(w, signals, [], side) == 0.0
  {
  }

  lemma NoVoteNoPull(signals: map<Agent, AgentSignal>, weights: map<Agent, real>, a: Agent, side: Direction)
    requires !Votes(signals, a)
    ensures Pull(signals, weights, a) == 0.0 && Backing(signals, weights, a, side) == 0.0
  {
  }

  lemma WeighedSnoc(w: map<Agent, real>, signals: map<Agent, AgentSignal>, voters: seq<Agent>, a: Agent, side: Direction)
    requires Weighed(w, signals, voters) && a in w && a in signals
    ensures Weighed(w, signals, voters + [a])
    ensures Blend(w, signals, voters + [a]) == Blend(w, signals, voters) + Weighted(w[a], signals[a])
    ensures
      Aligning(w, signals, voters + [a], side) ==
      Aligning(w, signals, voters, side) + if signals[a].direction == side then w[a] else 0.0
  {
    hide Weighted;
    assert (voters + [a])[..|voters|] == voters;
  }

  lemma OneScales(w: map<Agent, real>, weights: map<Agent, real>, signals: map<Agent, AgentSignal>, rest: seq<Agent>,
                  a: Agent, total: real, side: Direction)
    requires Weighed(w, signals, rest) && a in w && Votes(signals, a)
    requires WeightOf(weights, a) > 0.0 && Times(w[a], total) == WeightOf(weights, a)
    ensures
      Times(Blend(w, signals, rest) + Weighted(w[a], signals[a]), total) ==
      Times(Blend(w, signals, rest), total) + Pull(signals, weights, a)
    ensures
      Times(Aligning(w, signals, rest, side) + (if signals[a].direction == side then w[a] else 0.0), total) ==
      Times(Aligning(w, signals, rest, side), total) + Backing(signals, weights, a, side)
  {
    hide Weighted, Max, Times, Blend, Aligning, WeightOf;
    ScaleOne(w[a], WeightOf(weights, a), signals[a], total);
    ScaleSum(Blend(w, signals, rest), Weighted(w[a], signals[a]), total);
    ScaleSum(Aligning(w, signals, rest, side), w[a], total);
    MaxOfPositive(WeightOf(weights, a));
  }

  lemma MaxOfPositive(x: real)
    requires x > 0.0
    ensures Max(x, 0.0) == x
  {
  }

  lemma TallySnoc(signals: map<Agent, AgentSignal>, weights: map<Agent, real>, agents: seq<Agent>, a: Agent,
                  side: Direction)
    ensures
      var t := Tally(signals, weights, agents, side);
      Tally(signals, weights, agents + [a], side) ==
      (t.0 + Stake(signals, weights, a), t.1 + Pull(signals, weights, a), t.2 + Backing(signals, weights, a, side))
  {
    hide Stake, Pull, Backing;
    assert (agents + [a])[..|agents|] == agents;
  }

  lemma AskedInOrder()
    ensures [] + [Technical] + [Fundamental] + [Sentiment] == DIRECTIONAL
  {
  }

  lemma ThreeTallies(signals: map<Agent, AgentSignal>, weights: map<Agent, real>, side: Direction)
    ensures
      Tally(signals, weights, DIRECTIONAL, side) ==
      (Stake(signals, weights, Technical) + Stake(signals, weights, Fundamental) + Stake(signals, weights, Sentiment),
       Pull(signals, weights, Technical) + Pull(signals, weights, Fundamental) + Pull(signals, weights, Sentiment),
       Backing(signals, weights, Technical, side) + Backing(signals, weights, Fundamental, side) +
       Backing(signals, weights, Sentiment, side))
  {
    hide Tally, Stake, Pull, Backing;
    AskedInOrder();
    TallySnoc(signals, weights, [], Technical, side);
    TallySnoc(signals, weights, [] + [Technical], Fundamental, side);
    TallySnoc(signals, weights, [] + [Technical] + [Fundamental], Sentiment, side);
    NobodyAsked(signals, weights, side);
  }

  lemma NobodyAsked(signals: map<Agent, AgentSignal>, weights: map<Agent, real>, side: Direction)
    ensures Tally(signals, weights, [], side) == (0.0, 0.0, 0.0)
  {
  }

  lemma ThreeVoters(signals: map<Agent, AgentSignal>)
    ensures
      Voters(signals, DIRECTIONAL) ==
      (if Votes(signals, Technical) then [Technical] else []) + (if Votes(signals, Fundamental) then [Fundamental] else [])
      + (if Votes(signals, Sentiment) then [Sentiment] else [])
  {
    hide Voters, Votes;
    AskedInOrder();
    NoVoters(signals);
    VotersSnoc(signals, [], Technical);
    VotersSnoc(signals, [] + [Technical], Fundamental);
    VotersSnoc(signals, [] + [Technical] + [Fundamental], Sentiment);
  }

  lemma Quotient(x: real, total: real, y: real)
    requires total > 0.0 && Times(x, total) == y
    ensures x == y / total
  {
  }

  lemma ShareIs(weights: map<Agent, real>, voters: seq<Agent>)
    ensures
      forall a :: a in Renormalized(weights, voters) ==>
        var total, w := PositiveWeight(weights, voters), Renormalized(weights, voters);
        total > 0.0 && w[a] == WeightOf(weights, a) / total && Times(w[a], total) == WeightOf(weights, a)
  {
    hide WeightOf, PositiveWeight;
  }

  /**
   * A fused result in plain terms of the three agents. Without a weighted voter it is the empty FLAT one. Otherwise the
   * score is the weighted sum of the votes over the weight of all voters, the agreement the weight on the fused side over
   * the same, each with its rounding, and each voter's share its part of that weight.
   */
  lemma FusedOfThree(signals: map<Agent, AgentSignal>, weights: map<Agent, real>, threshold: real)
    requires Fuse(signals, weights, threshold).Ok?
    ensures
      var f := Fuse(signals, weights, threshold).fused;
      var total :=
        Stake(signals, weights, Technical) + Stake(signals, weights, Fundamental) + Stake(signals, weights, Sentiment);
      if total <= 0.0 then f == Fused(0.0, FLAT, 0.0, 0.0, map[], [], threshold, 0.0)
      else
        var pull :=
          Pull(signals, weights, Technical) + Pull(signals, weights, Fundamental) + Pull(signals, weights, Sentiment);
        var backing :=
          Backing(signals, weights, Technical, f.direction) + Backing(signals, weights, Fundamental, f.direction) +
          Backing(signals, weights, Sentiment, f.direction);
        && f.score == Round6(pull / total) && f.agreement == Round4(backing / total)
        && f.direction == (if f.score >= threshold then LONG else if f.score <= -threshold then SHORT else FLAT)
        && f.confidence == Min(1.0, Abs(f.score)) && f.threshold == threshold && f.preContextScore == 0.0
        && f.voting == (if Votes(signals, Technical) then [Technical] else []) +
                       (if Votes(signals, Fundamental) then [Fundamental] else []) +
                       (if Votes(signals, Sentiment) then [Sentiment] else [])
        && (forall a :: a in f.weights <==> a in signals && signals[a].direction != FLAT && signals[a].confidence > 0.0)
        && (forall a :: a in f.weights ==> a in weights && f.weights[a] == weights[a] / total && a in f.voting)
  {
    hide Votes, Stake, Pull, Backing, Voters, Round6, Round4, Tally, PositiveWeight, Blend, Aligning, WeightOf, Times,
         Renormalized;
    var f, voters := Fuse(signals, weights, threshold).fused, Voters(signals, DIRECTIONAL);
    var w, total := Renormalized(weights, voters), PositiveWeight(weights, voters);
    ThreeTallies(signals, weights, f.direction);
    ThreeVoters(signals);
    WeightOfVoters(signals, weights, DIRECTIONAL, f.direction);
    if total > 0.0 {
      HasShare(weights, voters);
      WeighedInFull(signals, weights, total);
      SumsScale(w, weights, signals, DIRECTIONAL, total, f.direction);
      Quotient(Blend(w, signals, voters), total, Tally(signals, weights, DIRECTIONAL, f.direction).1);
      Quotient(Aligning(w, signals, voters, f.direction), total, Tally(signals, weights, DIRECTIONAL, f.direction).2);
      ShareIs(weights, voters);
      forall a
        ensures a in w <==> a in signals && signals[a].direction != FLAT && signals[a].confidence > 0.0
        ensures a in w ==> a in weights && weights[a] == WeightOf(weights, a) && a in voters
      {
        VotingIs(signals, weights, a);
        IsDirectional(a);
      }
    } else {
      NoShare(weights, voters);
    }
  }

  /** Who votes and with what weight: a side, some confidence, and what the table says. */
  lemma VotingIs(signals: map<Agent, AgentSignal>, weights: map<Agent, real>, a: Agent)
    ensures Votes(signals, a) <==> a in signals && signals[a].direction != FLAT && signals[a].confidence > 0.0
    ensures WeightOf(weights, a) == if a in weights then weights[a] else 0.0
  {
  }

  lemma NoShare(weights: map<Agent, real>, voters: seq<Agent>)
    requires PositiveWeight(weights, voters) <= 0.0
    ensures Renormalized(weights, voters) == map[]
  {
  }

  /** When fusion succeeds with some weight, exactly the agents that vote have a share, and the total brings it back. */
  lemma WeighedInFull(signals: map<Agent, AgentSignal>, weights: map<Agent, real>, total: real)
    requires forall a :: a in Voters(signals, DIRECTIONAL) ==> a in Renormalized(weights, Voters(signals, DIRECTIONAL))
    requires total == PositiveWeight(weights, Voters(signals, DIRECTIONAL))
    ensures
      var voters := Voters(signals, DIRECTIONAL);
      var w := Renormalized(weights, voters);
      && Weighed(w, signals, voters) && Scaled(w, weights, voters, total)
      && forall a :: a in w <==> Votes(signals, a)
  {
    hide Voters, Renormalized, Votes, PositiveWeight, WeightOf, Times;
    var voters := Voters(signals, DIRECTIONAL);
    var w := Renormalized(weights, voters);
    VotersWeighed(signals, weights, voters, w);
    ShareIs(weights, voters);
    forall a
      ensures a in w <==> Votes(signals, a)
      ensures a in w ==> WeightOf(weights, a) > 0.0
    {
      IsDirectional(a);
      if a in w {
        RenormalizedWeight(weights, voters, a);
      }
    }
  }

  lemma HasShare(weights: map<Agent, real>, voters: seq<Agent>)
    requires PositiveWeight(weights, voters) > 0.0
    ensures voters != [] && Renormalized(weights, voters) != map[]
  {
    SomeWeight(weights, voters);
    var a :| a in voters && WeightOf(weights, a) > 0.0;
    assert a in Renormalized(weights, voters);
  }

  lemma {:induction false} WeightOfVoters(
    signals: map<Agent, AgentSignal>, weights: map<Agent, real>, agents: seq<Agent>, side: Direction)
    ensures PositiveWeight(weights, Voters(signals, agents)) == Tally(signals, weights, agents, side).0
  {
    hide Pull, Backing, Votes, Voters, Tally, PositiveWeight, WeightOf, Max;
    if agents == [] {
      NoVoters(signals);
      NobodyAsked(signals, weights, side);
      assert PositiveWeight(weights, []) == 0.0 by { NoWeight(weights); }
    } else {
      var n := |agents| - 1;
      var a, rest := agents[n], Voters(signals, agents[..n]);
      assert agents == agents[..n] + [a];
      WeightOfVoters(signals, weights, agents[..n], side);
      VotersSnoc(signals, agents[..n], a);
      TallySnoc(signals, weights, agents[..n], a, side);
      WeightSnoc(weights, rest, a);
      assert rest + [] == rest;
    }
  }

  lemma NoWeight(weights: map<Agent, real>)
    ensures PositiveWeight(weights, []) == 0.0
  {
  }

  lemma WeightSnoc(weights: map<Agent, real>, voters: seq<Agent>, a: Agent)
    ensures PositiveWeight(weights, voters + [a]) == PositiveWeight(weights, voters) + Max(WeightOf(weights, a), 0.0)
  {
    assert (voters + [a])[..|voters|] == voters;
  }

  // ---- agreement ------------------------------------------------------------------------------

  lemma {:induction false} SidesShare(w: map<Agent, real>, signals: map<Agent, AgentSignal>, voters: seq<Agent>)
    requires Weighed(w, signals, voters) && forall i :: 0 <= i < |voters| ==> signals[voters[i]].direction != FLAT
    ensures Aligning(w, signals, voters, LONG) + Aligning(w, signals, voters, SHORT) == Share(w, voters)
  {
    if voters != [] {
      SidesShare(w, signals, voters[..|voters| - 1]);
    }
  }

  lemma {:induction false} AllAlign(w: map<Agent, real>, signals: map<Agent, AgentSignal>, voters: seq<Agent>,
                                    side: Direction)
    requires Weighed(w, signals, voters) && forall i :: 0 <= i < |voters| ==> w[voters[i]] > 0.0
    ensures
      Aligning(w, signals, voters, side) == Share(w, voters) <==>
      forall i :: 0 <= i < |voters| ==> signals[voters[i]].direction == side
  {
    if voters != [] {
      var n := |voters| - 1;
      AllAlign(w, signals, voters[..n], side);
      AligningWithinShare(w, signals, voters[..n], side);
      assert forall i :: 0 <= i < n ==> voters[..n][i] == voters[i];
    }
  }

  /** Before rounding the two sides' agreements sum to one, and one side has it all iff every voter is on that side. */
  lemma SidesSumToOne(signals: map<Agent, AgentSignal>, weights: map<Agent, real>, threshold: real, side: Direction)
    requires Fuse(signals, weights, threshold).Ok? && Fuse(signals, weights, threshold).fused.voting != []
    ensures
      var f := Fuse(signals, weights, threshold).fused;
      && Weighed(f.weights, signals, f.voting)
      && Aligning(f.weights, signals, f.voting, LONG) + Aligning(f.weights, signals, f.voting, SHORT) == 1.0
      && (Aligning(f.weights, signals, f.voting, side) == 1.0 <==>
          forall a :: Votes(signals, a) ==> signals[a].direction == side)
      && f.agreement == Round4(Aligning(f.weights, signals, f.voting, f.direction))
  {
    hide Aligning, Share, Voters, Renormalized, Round4, Round6, Blend;
    var voters := Voters(signals, DIRECTIONAL);
    var w := Renormalized(weights, voters);
    VotersWeighed(signals, weights, voters, w);
    SharesSumToOne(weights, voters);
    SidesShare(w, signals, voters);
    AllAlign(w, signals, voters, side);
    forall a | Votes(signals, a)
      ensures a in voters
    {
      IsDirectional(a);
    }
  }

  ghost predicate DistinctAgents(voters: seq<Agent>) {
    forall i, j :: 0 <= i < j < |voters| ==> voters[i] != voters[j]
  }

  function Turned(signals: map<Agent, AgentSignal>, a: Agent, side: Direction): map<Agent, AgentSignal>
    requires a in signals
  {
    signals[a := signals[a].(direction := side)]
  }

  /** One voter that changes over to a side adds exactly its share to that side's agreement. */
  lemma {:induction false} TurningAddsShare(w: map<Agent, real>, signals: map<Agent, AgentSignal>, voters: seq<Agent>,
                                            a: Agent, side: Direction)
    requires Weighed(w, signals, voters) && DistinctAgents(voters) && a in signals && signals[a].direction != side
    ensures Weighed(w, Turned(signals, a, side), voters)
    ensures
      Aligning(w, Turned(signals, a, side), voters, side) ==
      Aligning(w, signals, voters, side) + if a in voters then w[a] else 0.0
  {
    if voters != [] {
      var n := |voters| - 1;
      TurningAddsShare(w, signals, voters[..n], a, side);
      assert voters == voters[..n] + [voters[n]];
      assert voters[n] !in voters[..n];
    }
  }

  /** The voters of a fusion are distinct, and changing one over to the other side leaves who votes alone. */
  lemma TurnedVoters(signals: map<Agent, AgentSignal>, a: Agent, side: Direction)
    requires Votes(signals, a) && side != FLAT
    ensures DistinctAgents(Voters(signals, DIRECTIONAL)) && a in Voters(signals, DIRECTIONAL)
    ensures Voters(Turned(signals, a, side), DIRECTIONAL) == Voters(signals, DIRECTIONAL)
  {
    hide Voters;
    IsDirectional(a);
    ThreeVoters(signals);
    ThreeVoters(Turned(signals, a, side));
  }

  // ---- mirror symmetry ----------------------------------------------------------------------

  function MirrorSignal(x: AgentSignal): AgentSignal {
    x.(direction := Opposite(x.direction))
  }

  /** All agents take the other side, equally confident. */
  function Mirror(signals: map<Agent, AgentSignal>): map<Agent, AgentSignal> {
    map a | a in signals :: MirrorSignal(signals[a])
  }

  lemma RoundIntOdd(y: real)
    ensures RoundInt(-y) == -RoundInt(y)
  {
    if y == y.Floor as real {
      assert (-y).Floor == -y.Floor;
    } else {
      assert (-y).Floor == -y.Floor - 1;
    }
  }

  lemma Round6Odd(x: real)
    ensures Round6(-x) == -Round6(x)
  {
    RoundIntOdd(x * 1000000.0);
  }

  lemma {:induction false} MirrorVoters(signals: map<Agent, AgentSignal>, agents: seq<Agent>)
    ensures Voters(Mirror(signals), agents) == Voters(signals, agents)
  {
    if agents != [] {
      MirrorVoters(signals, agents[..|agents| - 1]);
    }
  }

  lemma MirrorVote(w: real, x: AgentSignal)
    ensures Weighted(w, MirrorSignal(x)) == -Weighted(w, x)
  {
    assert Vote(MirrorSignal(x)) == -Vote(x);
  }

  lemma {:induction false} MirrorSums(w: map<Agent, real>, signals: map<Agent, AgentSignal>, voters: seq<Agent>,
                                      side: Direction)
    requires Weighed(w, signals, voters)
    ensures Weighed(w, Mirror(signals), voters)
    ensures Blend(w, Mirror(signals), voters) == -Blend(w, signals, voters)
    ensures Aligning(w, Mirror(signals), voters, Opposite(side)) == Aligning(w, signals, voters, side)
  {
    hide Weighted;
    if voters != [] {
      var n := |voters| - 1;
      MirrorSums(w, signals, voters[..n], side);
      MirrorVote(w[voters[n]], signals[voters[n]]);
    }
  }

  /** Turning every agent round turns the score and the direction round and leaves confidence and agreement alone. */
  lemma FuseIsOdd(signals: map<Agent, AgentSignal>, weights: map<Agent, real>, threshold: real)
    requires threshold > 0.0
    ensures
      var f, g := Fuse(signals, weights, threshold), Fuse(Mirror(signals), weights, threshold);
      if f.MissingWeight? then g.MissingWeight?
      else
        g.Ok? && g.fused == f.fused.(score := -f.fused.score, direction := Opposite(f.fused.direction))
  {
    hide Blend, Aligning, Voters, Renormalized, Round6, Round4, Mirror, Opposite;
    var voters := Voters(signals, DIRECTIONAL);
    var w := Renormalized(weights, voters);
    MirrorVoters(signals, DIRECTIONAL);
    var f := Fuse(signals, weights, threshold);
    if voters != [] && w != map[] && f.Ok? {
      VotersWeighed(signals, weights, voters, w);
      MirrorSums(w, signals, voters, f.fused.direction);
      Round6Odd(Blend(w, signals, voters));
      OppositeSide(f.fused.score, threshold);
    } else {
      OppositeSide(0.0, threshold);
    }
  }

  lemma OppositeSide(score: real, threshold: real)
    requires threshold > 0.0
    ensures DirectionForScore(-score, threshold) == Opposite(DirectionForScore(score, threshold))
    ensures Opposite(FLAT) == FLAT
  {
  }

  // ---- context ----------------------------------------------------------------------------

  lemma NudgeBound(context: Context)
    requires context.weight >= 0.0 && 0.0 < context.confidence
    ensures -context.weight <= Nudge(context) <= context.weight
  {
    var m, x := Min(1.0, context.confidence), context.weight;
    assert 0.0 <= x * m <= x;
    match context.direction
    case FLAT => assert Nudge(context) == x * 0.0 * m;
    case LONG => assert Nudge(context) == x * 1.0 * m;
    case SHORT => assert Nudge(context) == x * (-1.0) * m;
  }

  /**
   * A usable context adds its weight, scaled by its confidence, on its own side; the side and the confidence are those of
   * the new score before rounding, the old score is kept, and who voted and agreed stays. Any other changes nothing.
   */
  lemma ContextAdds(f: Fused, context: Context)
    ensures
      if context.confidence <= 0.0 then ApplyContext(f, context) == f
      else
        var push := Times(context.weight, Min(1.0, context.confidence));
        var score := f.score + match context.direction case FLAT => 0.0 case LONG => push case SHORT => -push;
        ApplyContext(f, context) ==
        Fused(Round6(score), if score >= f.threshold then LONG else if score <= -f.threshold then SHORT else FLAT,
              Min(1.0, Abs(score)), f.agreement, f.weights, f.voting, f.threshold, f.score)
  {
    hide Nudge, Times, Round6, SignOf;
    NudgeIs(context);
  }

  lemma NudgeIs(context: Context)
    ensures
      var push := Times(context.weight, Min(1.0, context.confidence));
      Nudge(context) == match context.direction case FLAT => 0.0 case LONG => push case SHORT => -push
  {
    hide Min;
    var m, x := Min(1.0, context.confidence), context.weight;
    match context.direction
    case FLAT => assert Nudge(context) == x * 0.0 * m;
    case LONG => assert Nudge(context) == x * 1.0 * m;
    case SHORT => assert Nudge(context) == x * (-1.0) * m;
  }

  /** Below twice the threshold the context can lift a side into FLAT or out of it, never into the opposite side. */
  lemma ContextNeverReverses(f: Fused, context: Context)
    requires f.direction == DirectionForScore(f.score, f.threshold) && f.direction != FLAT
    requires 0.0 <= context.weight < 2.0 * f.threshold
    ensures ApplyContext(f, context).direction != Opposite(f.direction)
  {
    hide Nudge;
    if context.confidence > 0.0 {
      NudgeBound(context);
    }
  }

  /** Least multiple of a micro-unit that is not below a value. */
  function Ceil6(x: real): real {
    -((-x * 1000000.0).Floor as real) / 1000000.0
  }

  lemma Ceil6Facts(x: real)
    ensures x <= Ceil6(x) && Round6(Ceil6(x)) == Ceil6(x)
  {
    var k := -(-x * 1000000.0).Floor;
    assert Ceil6(x) == k as real / 1000000.0;
    assert Ceil6(x) * 1000000.0 == k as real;
    assert (k as real).Floor == k;
  }

  lemma Ceil6Least(x: real, n: int)
    requires x <= n as real / 1000000.0
    ensures Ceil6(x) <= n as real / 1000000.0
  {
    assert -x * 1000000.0 >= (-n) as real;
    assert (-x * 1000000.0).Floor >= -n;
  }

  /** Signals, weights and a context on which a fused side turns into its opposite. */
  ghost predicate Reverses(signals: map<Agent, AgentSignal>, weights: map<Agent, real>, threshold: real, context: Context) {
    && Confident(signals)
    && var o := Fuse(signals, weights, threshold);
       o.Ok? && o.fused.direction != FLAT && ApplyContext(o.fused, context).direction == Opposite(o.fused.direction)
  }

  lemma OnlyVoter(signals: map<Agent, AgentSignal>, weights: map<Agent, real>)
    requires Votes(signals, Technical) && !Votes(signals, Fundamental) && !Votes(signals, Sentiment)
    requires Technical in weights && weights[Technical] == 1.0
    ensures Voters(signals, DIRECTIONAL) == [Technical]
    ensures Renormalized(weights, [Technical]) == map[Technical := 1.0]
  {
    assert DIRECTIONAL[..2] == [Technical, Fundamental] && [Technical, Fundamental][..1] == [Technical];
    assert [Technical][..0] == [];
    assert Voters(signals, [Technical]) == [Technical];
    assert Voters(signals, [Technical, Fundamental]) == [Technical];
    assert PositiveWeight(weights, [Technical]) == 1.0;
  }

  lemma OneVoter(confidence: real, threshold: real)
    requires 0.0 < confidence <= 1.0
    ensures
      var o := Fuse(map[Technical := AgentSignal(LONG, confidence)], map[Technical := 1.0], threshold);
      o.Ok? && o.fused.score == Round6(confidence) && o.fused.direction == DirectionForScore(Round6(confidence), threshold)
      && o.fused.threshold == threshold
  {
    hide Voters, Renormalized, Round6, Round4;
    var signals, weights := map[Technical := AgentSignal(LONG, confidence)], map[Technical := 1.0];
    OnlyVoter(signals, weights);
    assert [Technical][..0] == [];
    assert Blend(weights, signals, [Technical]) == confidence;
  }

  lemma StrongContextReverses(threshold: real, weight: real)
    requires 0.0 < threshold && Ceil6(threshold) <= 1.0 && Ceil6(threshold) + threshold <= weight
    ensures Reverses(map[Technical := AgentSignal(LONG, Ceil6(threshold))], map[Technical := 1.0], threshold,
                     Context(SHORT, 1.0, weight))
  {
    Ceil6Facts(threshold);
    OneVoter(Ceil6(threshold), threshold);
  }

  lemma FusedSide(signals: map<Agent, AgentSignal>, weights: map<Agent, real>, threshold: real)
    requires threshold > 0.0 && Confident(signals) && Fuse(signals, weights, threshold).Ok?
    ensures
      var f := Fuse(signals, weights, threshold).fused;
      && f.threshold == threshold && f.direction == DirectionForScore(f.score, threshold)
      && -1.0 <= f.score <= 1.0
      && (f.direction == LONG ==> Ceil6(threshold) <= f.score)
      && (f.direction == SHORT ==> f.score <= -Ceil6(threshold))
  {
    hide Voters, Renormalized, Blend, Aligning, Ceil6;
    FuseBounds(signals, weights, threshold);
    var f := Fuse(signals, weights, threshold).fused;
    var voters := Voters(signals, DIRECTIONAL);
    if f.direction != FLAT {
      VotersWeighed(signals, weights, voters, Renormalized(weights, voters));
      var n := RoundInt(Blend(Renormalized(weights, voters), signals, voters) * 1000000.0);
      assert f.score == n as real / 1000000.0;
      if f.direction == LONG {
        Ceil6Least(threshold, n);
      } else {
        assert f.score == -((-n) as real / 1000000.0);
        Ceil6Least(threshold, -n);
      }
    }
  }

  lemma ReversalNeedsWeight(signals: map<Agent, AgentSignal>, weights: map<Agent, real>, threshold: real, context: Context)
    requires 0.0 < threshold && context.weight >= 0.0 && Reverses(signals, weights, threshold, context)
    ensures Ceil6(threshold) <= 1.0 && Ceil6(threshold) + threshold <= context.weight
  {
    hide Fuse, Nudge, Ceil6, Confident;
    FusedSide(signals, weights, threshold);
    if context.confidence > 0.0 {
      NudgeBound(context);
    }
  }

  /** For a threshold and a context weight, exactly when some agents' side can be reversed by some context. */
  lemma ReversiblePair(threshold: real, weight: real)
    requires 0.0 < threshold && weight >= 0.0
    ensures
      (exists signals: map<Agent, AgentSignal>, weights: map<Agent, real>, context: Context ::
         context.weight == weight && Reverses(signals, weights, threshold, context)) <==>
      Ceil6(threshold) <= 1.0 && Ceil6(threshold) + threshold <= weight
  {
    if signals: map<Agent, AgentSignal>, weights: map<Agent, real>, context: Context :|
      context.weight == weight && Reverses(signals, weights, threshold, context)
    {
      ReversalNeedsWeight(signals, weights, threshold, context);
    }
    if Ceil6(threshold) <= 1.0 && Ceil6(threshold) + threshold <= weight {
      StrongContextReverses(threshold, weight);
      assert Context(SHORT, 1.0, weight).weight == weight;
    }
  }

  // ---- one sure vote ------------------------------------------------------------------------

  /** A single technical vote of full confidence. */
  function SureVote(side: Direction): map<Agent, AgentSignal> {
    map[Technical := AgentSignal(side, 1.0)]
  }

  const TECHNICAL_ONLY: map<Agent, real> := map[Technical := 1.0]

  lemma SureVoters(side: Direction)
    requires side != FLAT
    ensures Voters(SureVote(side), DIRECTIONAL) == [Technical]
    ensures Renormalized(TECHNICAL_ONLY, [Technical]) == TECHNICAL_ONLY
  {
    hide Voters, PositiveWeight;
    var signals, weights := SureVote(side), TECHNICAL_ONLY;
    NoVoters(signals);
    VotersSnoc(signals, [], Technical);
    VotersSnoc(signals, [Technical], Fundamental);
    VotersSnoc(signals, [Technical, Fundamental], Sentiment);
    assert [] + [Technical] == [Technical] && [Technical] + [Fundamental] == [Technical, Fundamental];
    assert [Technical, Fundamental] + [Sentiment] == DIRECTIONAL;
    OnlyTechnical(weights);
  }

  lemma OnlyTechnical(weights: map<Agent, real>)
    requires weights == TECHNICAL_ONLY
    ensures PositiveWeight(weights, [Technical]) == 1.0
  {
    assert [Technical][..0] == [];
    assert PositiveWeight(weights, []) == 0.0;
  }

  lemma SureFuse(side: Direction, threshold: real)
    requires side != FLAT && 0.0 < threshold <= 1.0
    ensures
      var o := Fuse(SureVote(side), TECHNICAL_ONLY, threshold);
      && o.Ok? && o.fused.score == SignOf(side) as real && o.fused.direction == side && o.fused.confidence == 1.0
      && o.fused.agreement == 1.0 && o.fused.voting == [Technical] && o.fused.threshold == threshold
  {
    hide Voters, Renormalized, Round6, Round4, Blend, Aligning;
    var w, signals := TECHNICAL_ONLY, SureVote(side);
    SureVoters(side);
    SureSums(side);
    WholeRounds(side);
    assert Technical in w;
  }

  lemma SureSums(side: Direction)
    requires side != FLAT
    ensures Weighed(TECHNICAL_ONLY, SureVote(side), [Technical])
    ensures Blend(TECHNICAL_ONLY, SureVote(side), [Technical]) == SignOf(side) as real
    ensures Aligning(TECHNICAL_ONLY, SureVote(side), [Technical], side) == 1.0
  {
    assert [Technical][..0] == [];
  }

  lemma WholeRounds(side: Direction)
    ensures Round6(SignOf(side) as real) == SignOf(side) as real && Round4(1.0) == 1.0
  {
    hide RoundInt;
    RoundWhole(10000);
    RoundWhole(0);
    RoundWhole(1000000);
    RoundWhole(-1000000);
  }
}
