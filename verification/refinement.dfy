/** Properties of the refinement controller as a whole: where each edge
    leads, what the two retry cycles re-run, the budgets that bound them,
    and facts about complete runs.
 */
module Refinement {
  import opened AgentStates
  import opened Capabilities
  import Generate
  import Groundedness
  import Precision
  import opened Workflow

  /** The successor sets of the compiled graph. The three plain edges of
      the main flow have a single successor each; the two gated nodes have
      exactly the targets of their routing tables; both refine nodes loop
      back to a fixed node; the fallback always ends the run. */
  lemma SuccessorTable()
    ensures Successors(ExpandQuery) == {RetrieveContext}
    ensures Successors(RetrieveContext) == {CraftResponse}
    ensures Successors(CraftResponse) == {ScoreGroundedness}
    ensures Successors(ScoreGroundedness) == {CheckPrecision, RefineResponse, MaxIterationsReached}
    ensures Successors(RefineResponse) == {CraftResponse}
    ensures Successors(CheckPrecision) == {End, RefineQuery, MaxIterationsReached}
    ensures Successors(RefineQuery) == {ExpandQuery}
    ensures Successors(MaxIterationsReached) == {End}
    ensures Successors(End) == {}
  {
  }

  /** END is entered only from `check_precision` on "pass" or from
      `max_iterations_reached`. */
  lemma EndOnlyFromPassOrFallback(s: AgentState)
    ensures forall a: Stage :: (a, End) in Edges <==> a == CheckPrecision || a == MaxIterationsReached
    ensures Route(CheckPrecision, s) == End <==> Precision.ShouldContinuePrecision(s) == Precision.Pass
    ensures Route(MaxIterationsReached, s) == End
  {
  }

  /** After `score_groundedness` the next node is a function of the gate's
      answer alone, and each answer has its own target. */
  lemma GroundednessRouting(s: AgentState)
    ensures Route(ScoreGroundedness, s) == CheckPrecision <==> AtLeast(s.groundednessScore, Groundedness.Threshold)
    ensures Route(ScoreGroundedness, s) == MaxIterationsReached <==>
      !AtLeast(s.groundednessScore, Groundedness.Threshold) && s.groundednessLoopCount > s.loopMaxIter
    ensures Route(ScoreGroundedness, s) == RefineResponse <==>
      !AtLeast(s.groundednessScore, Groundedness.Threshold) && s.groundednessLoopCount <= s.loopMaxIter
  {
  }

  /** After `check_precision` likewise, with "pass" leading to END. */
  lemma PrecisionRouting(s: AgentState)
    ensures Route(CheckPrecision, s) == End <==> AtLeast(s.precisionScore, Precision.Threshold)
    ensures Route(CheckPrecision, s) == MaxIterationsReached <==>
      !AtLeast(s.precisionScore, Precision.Threshold) && s.precisionLoopCount > s.loopMaxIter
    ensures Route(CheckPrecision, s) == RefineQuery <==>
      !AtLeast(s.precisionScore, Precision.Threshold) && s.precisionLoopCount <= s.loopMaxIter
  {
  }

  /** A groundedness retry re-enters at `craft_response` and re-scores
      without expanding or retrieving again: the expanded query and the
      context the new response is scored against are the ones it had, and
      the new response is generated from the same query, context and
      `query_feedback` as before. The critique `refine_response` just wrote
      is not among the generator's inputs. */
  lemma GroundednessRetryKeepsRetrieval(s: AgentState, o: Oracles, t: nat)
    ensures
      var v := Run(Config(RefineResponse, s), o, t).visited;
      && |v| >= 3
      && v[0] == RefineResponse && v[1] == CraftResponse && v[2] == ScoreGroundedness
    ensures
      var n1 := Next(Config(RefineResponse, s), o, t);
      && n1.Ok? && n1.value.stage == CraftResponse
      && var n2 := Next(n1.value, o, t + 1);
      && n2.Ok? && n2.value.stage == ScoreGroundedness
      && n2.value.state.context == s.context
      && n2.value.state.expandedQuery == s.expandedQuery
      && n2.value.state.response == o.llm(t + 1, Generation(s.query, JoinedContext(s.context), s.queryFeedback))
  {
  }

  /** A precision retry re-enters at `expand_query` and re-runs expansion,
      retrieval and generation before scoring again. */
  lemma PrecisionRetryRestartsPipeline(s: AgentState, o: Oracles, t: nat)
    ensures
      var v := Run(Config(RefineQuery, s), o, t).visited;
      && |v| >= 5
      && v[0] == RefineQuery && v[1] == ExpandQuery && v[2] == RetrieveContext
      && v[3] == CraftResponse && v[4] == ScoreGroundedness
  {
    var c1 := PlainStep(Config(RefineQuery, s), o, t);
    var c2 := PlainStep(c1, o, t + 1);
    var c3 := PlainStep(c2, o, t + 2);
    var c4 := PlainStep(c3, o, t + 3);
    assert Run(c4, o, t + 4).visited[0] == ScoreGroundedness;
  }

  /** A node with a single outgoing edge and no scorer call always moves on
      along that edge. */
  lemma PlainStep(c: Config, o: Oracles, t: nat) returns (c': Config)
    requires c.stage in {ExpandQuery, RetrieveContext, CraftResponse, RefineResponse, RefineQuery, MaxIterationsReached}
    ensures Next(c, o, t) == Ok(c')
    ensures c'.stage == Route(c.stage, c.state)
    ensures c'.state.groundednessLoopCount == c.state.groundednessLoopCount
    ensures c'.state.precisionLoopCount == c.state.precisionLoopCount
    ensures c'.state.loopMaxIter == c.state.loopMaxIter
    ensures Run(c, o, t).visited == [c.stage] + Run(c', o, t + 1).visited
    ensures Run(c, o, t).outcome == Run(c', o, t + 1).outcome
  {
    c' := Next(c, o, t).value;
    RunStep(c, o, t);
  }

  /** Unfolds a run by one successful transition. */
  lemma RunStep(c: Config, o: Oracles, t: nat)
    requires c.stage != End
    requires Next(c, o, t).Ok?
    ensures Run(c, o, t).visited == [c.stage] + Run(Next(c, o, t).value, o, t + 1).visited
    ensures Run(c, o, t).outcome == Run(Next(c, o, t).value, o, t + 1).outcome
  {
  }

  /** Every run is a path of the compiled graph that never passes
      through END, ends in END only after `check_precision` or
      `max_iterations_reached`, and fails only at a scoring node. */
  lemma {:induction false} RunFollowsEdges(c: Config, o: Oracles, t: nat)
    ensures var v := Run(c, o, t).visited;
      forall i :: 0 <= i < |v| - 1 ==> (v[i], v[i + 1]) in Edges
    ensures End !in Run(c, o, t).visited
    ensures var r := Run(c, o, t);
      r.outcome.Ok? && |r.visited| > 0 ==> (Last(r.visited), End) in Edges
    ensures var r := Run(c, o, t);
      r.outcome.Err? ==> |r.visited| > 0 && Last(r.visited) in {ScoreGroundedness, CheckPrecision}
    decreases Rank(c)
  {
    if c.stage != End {
      var n := Next(c, o, t);
      if n.Ok? {
        var c' := n.value;
        NextLowersRank(c, o, t);
        RunFollowsEdges(c', o, t + 1);
        RunStep(c, o, t);
        var v' := Run(c', o, t + 1).visited;
        var v := Run(c, o, t).visited;
        assert forall i :: 1 <= i < |v| ==> v[i] == v'[i - 1];
      }
    }
  }

  /** Termination: when every scorer reply parses, the run reaches END,
      after at most `Rank(c)` nodes. */
  lemma {:induction false} RunCompletes(c: Config, o: Oracles, t: nat)
    requires ScoresParse(o)
    ensures Run(c, o, t).outcome.Ok?
    ensures |Run(c, o, t).visited| <= Rank(c)
    decreases Rank(c)
  {
    if c.stage != End {
      var c' := Next(c, o, t).value;
      NextLowersRank(c, o, t);
      RunCompletes(c', o, t + 1);
      RunStep(c, o, t);
    }
  }

  /** No transition other than the two scoring nodes touches a counter or
      a score, and each scoring node raises its own counter by one and
      leaves the other alone. */
  lemma CountersOnlyMovedByScorers(c: Config, o: Oracles, t: nat)
    requires c.stage != End
    requires Next(c, o, t).Ok?
    ensures
      var s' := Next(c, o, t).value.state;
      && s'.groundednessLoopCount ==
           c.state.groundednessLoopCount + (if c.stage == ScoreGroundedness then 1 else 0)
      && s'.precisionLoopCount ==
           c.state.precisionLoopCount + (if c.stage == CheckPrecision then 1 else 0)
      && (c.stage != ScoreGroundedness ==> s'.groundednessScore == c.state.groundednessScore)
      && (c.stage != CheckPrecision ==> s'.precisionScore == c.state.precisionScore)
  {
  }

  /** Over a whole run `query` and the ceiling never change and neither
      counter is ever reset or lowered; in particular restarting the
      pipeline through `refine_query` keeps the groundedness counter. */
  lemma {:induction false} RunPreserves(c: Config, o: Oracles, t: nat)
    ensures Run(c, o, t).outcome.Ok? ==> Preserves(c.state, Run(c, o, t).outcome.value)
    decreases Rank(c)
  {
    if c.stage != End {
      var n := Next(c, o, t);
      if n.Ok? {
        NextLowersRank(c, o, t);
        RunPreserves(n.value, o, t + 1);
      }
    }
  }

  /** A completed run that ends at `check_precision` ended there because
      the precision score passed, and one that ends at
      `max_iterations_reached` answers with the fallback message. */
  lemma {:induction false} RunEndsOnPass(c: Config, o: Oracles, t: nat)
    ensures var r := Run(c, o, t);
      r.outcome.Ok? && |r.visited| > 0 && Last(r.visited) == CheckPrecision ==>
        AtLeast(r.outcome.value.precisionScore, Precision.Threshold)
    ensures var r := Run(c, o, t);
      r.outcome.Ok? && |r.visited| > 0 && Last(r.visited) == MaxIterationsReached ==>
        r.outcome.value.response == Generate.FallbackMessage
    decreases Rank(c)
  {
    if c.stage != End {
      var n := Next(c, o, t);
      if n.Ok? {
        var c' := n.value;
        NextLowersRank(c, o, t);
        RunStep(c, o, t);
        RunEndsOnPass(c', o, t + 1);
        if c'.stage == End && c.stage == CheckPrecision {
          PrecisionRouting(c'.state);
        }
      }
    }
  }

  lemma OccurrencesCons(x: Stage, xs: seq<Stage>, y: Stage)
    ensures Occurrences([x] + xs, y) == (if x == y then 1 else 0) + Occurrences(xs, y)
  {
    assert ([x] + xs)[1..] == xs;
  }

  /** Query retries still allowed from `c`: `refine_query` is entered only
      after the precision counter has been raised to at most the ceiling. */
  function QueryRetriesLeft(c: Config): nat {
    var s := c.state;
    (if s.precisionLoopCount <= s.loopMaxIter then s.loopMaxIter - s.precisionLoopCount else 0)
      + (if c.stage == RefineQuery then 1 else 0)
  }

  /** Response retries still allowed from `c`, likewise for the
      groundedness counter. */
  function ResponseRetriesLeft(c: Config): nat {
    var s := c.state;
    (if s.groundednessLoopCount <= s.loopMaxIter then s.loopMaxIter - s.groundednessLoopCount else 0)
      + (if c.stage == RefineResponse then 1 else 0)
  }

  /** One transition spends a query retry exactly when it executes
      `refine_query`, and never adds one. */
  lemma QueryRetriesStep(c: Config, o: Oracles, t: nat)
    requires c.stage != End
    requires Next(c, o, t).Ok?
    ensures QueryRetriesLeft(Next(c, o, t).value) + (if c.stage == RefineQuery then 1 else 0) <= QueryRetriesLeft(c)
  {
    var c' := Next(c, o, t).value;
    if c.stage == CheckPrecision {
      PrecisionRouting(c'.state);
    }
  }

  /** One transition spends a response retry exactly when it executes
      `refine_response`, and never adds one. */
  lemma ResponseRetriesStep(c: Config, o: Oracles, t: nat)
    requires c.stage != End
    requires Next(c, o, t).Ok?
    ensures ResponseRetriesLeft(Next(c, o, t).value) + (if c.stage == RefineResponse then 1 else 0) <= ResponseRetriesLeft(c)
  {
    var c' := Next(c, o, t).value;
    if c.stage == ScoreGroundedness {
      GroundednessRouting(c'.state);
    }
  }

  /** `refine_query` is executed at most as often as the precision counter
      can still pass its gate. */
  lemma {:induction false} RefineQueryVisits(c: Config, o: Oracles, t: nat)
    ensures Occurrences(Run(c, o, t).visited, RefineQuery) <= QueryRetriesLeft(c)
    decreases Rank(c)
  {
    if c.stage != End && Next(c, o, t).Ok? {
      var c' := Next(c, o, t).value;
      NextLowersRank(c, o, t);
      RefineQueryVisits(c', o, t + 1);
      QueryRetriesStep(c, o, t);
      RunStep(c, o, t);
      OccurrencesCons(c.stage, Run(c', o, t + 1).visited, RefineQuery);
    }
  }

  /** `refine_response` is executed at most as often as the groundedness
      counter can still pass its gate, across all precision retries. */
  lemma {:induction false} RefineResponseVisits(c: Config, o: Oracles, t: nat)
    ensures Occurrences(Run(c, o, t).visited, RefineResponse) <= ResponseRetriesLeft(c)
    decreases Rank(c)
  {
    if c.stage != End && Next(c, o, t).Ok? {
      var c' := Next(c, o, t).value;
      NextLowersRank(c, o, t);
      RefineResponseVisits(c', o, t + 1);
      ResponseRetriesStep(c, o, t);
      RunStep(c, o, t);
      OccurrencesCons(c.stage, Run(c', o, t + 1).visited, RefineResponse);
    }
  }

  /** Every groundedness reply parses but never reaches the threshold. */
  ghost predicate GroundednessAlwaysLow(o: Oracles) {
    forall t: nat, p: Prompt :: p.GroundednessRubric? ==>
      o.scorer(t, p).Parsed? && !AtLeast(o.scorer(t, p).score, Groundedness.Threshold)
  }

  /** With the groundedness counter at `g <= loop_max_iter` on entry to
      `craft_response` and a scorer that never reaches 4.0, scoring runs
      `loop_max_iter + 1 - g` more times, precision is never checked, and
      the run ends with the fallback response. */
  lemma {:induction false} GroundednessRetriesExhaust(s: AgentState, o: Oracles, t: nat)
    requires s.groundednessLoopCount <= s.loopMaxIter
    requires GroundednessAlwaysLow(o)
    ensures Occurrences(Run(Config(CraftResponse, s), o, t).visited, ScoreGroundedness)
      == s.loopMaxIter + 1 - s.groundednessLoopCount
    ensures CheckPrecision !in Run(Config(CraftResponse, s), o, t).visited
    ensures Run(Config(CraftResponse, s), o, t).outcome.Ok?
    ensures Run(Config(CraftResponse, s), o, t).outcome.value.response == Generate.FallbackMessage
    decreases s.loopMaxIter - s.groundednessLoopCount
  {
    var c1 := PlainStep(Config(CraftResponse, s), o, t);
    var c2 := ScoreLow(c1, o, t + 1);
    var v2 := Run(c2, o, t + 2).visited;
    OccurrencesCons(ScoreGroundedness, v2, ScoreGroundedness);
    OccurrencesCons(CraftResponse, [ScoreGroundedness] + v2, ScoreGroundedness);
    if s.groundednessLoopCount == s.loopMaxIter {
      FallbackEndsRun(c2, o, t + 2);
    } else {
      var c3 := PlainStep(c2, o, t + 2);
      GroundednessRetriesExhaust(c3.state, o, t + 3);
      OccurrencesCons(RefineResponse, Run(c3, o, t + 3).visited, ScoreGroundedness);
    }
  }

  /** `max_iterations_reached` ends the run at once with the fallback
      response. */
  lemma FallbackEndsRun(c: Config, o: Oracles, t: nat)
    requires c.stage == MaxIterationsReached
    ensures Run(c, o, t).visited == [MaxIterationsReached]
    ensures Run(c, o, t).outcome.Ok?
    ensures Run(c, o, t).outcome.value.response == Generate.FallbackMessage
  {
  }

  /** A low groundedness score raises the counter and routes to the
      fallback once the counter exceeds the ceiling, to `refine_response`
      before that. */
  lemma ScoreLow(c: Config, o: Oracles, t: nat) returns (c': Config)
    requires c.stage == ScoreGroundedness
    requires GroundednessAlwaysLow(o)
    ensures Next(c, o, t) == Ok(c')
    ensures c'.state.groundednessLoopCount == c.state.groundednessLoopCount + 1
    ensures c'.state.loopMaxIter == c.state.loopMaxIter
    ensures c'.stage ==
      (if c.state.groundednessLoopCount + 1 > c.state.loopMaxIter then MaxIterationsReached else RefineResponse)
    ensures Run(c, o, t).visited == [ScoreGroundedness] + Run(c', o, t + 1).visited
    ensures Run(c, o, t).outcome == Run(c', o, t + 1).outcome
  {
    var p := GroundednessRubric(JoinedContext(c.state.context), c.state.response);
    assert o.scorer(t, p).Parsed? && !AtLeast(o.scorer(t, p).score, Groundedness.Threshold);
    c' := Next(c, o, t).value;
    GroundednessRouting(c'.state);
    RunStep(c, o, t);
  }

  /** Scenario at the boundary: a precision reply of exactly 4.0 passes,
      the run goes straight to END and the response is returned as it is. */
  lemma PrecisionBoundaryPasses(s: AgentState, o: Oracles, t: nat)
    requires o.scorer(t, PrecisionRubric(s.query, s.response)) == Parsed(Finite(4.0))
    ensures
      var r := Run(Config(CheckPrecision, s), o, t);
      && r.visited == [CheckPrecision]
      && r.outcome.Ok?
      && r.outcome.value.response == s.response
  {
  }

  /** The two scores are read only by the gates, and each gate runs right
      after its scorer has overwritten its score, so the scores a state
      holds before they are scored have no effect: runs from states that
      differ only in their scores execute the same nodes and end alike. */
  lemma {:induction false} StaleScoresNeverRead(stage: Stage, a: AgentState, b: AgentState, o: Oracles, t: nat)
    requires OnlyChanged(a, b, {GroundednessScoreField, PrecisionScoreField})
    ensures
      var ra := Run(Config(stage, a), o, t);
      var rb := Run(Config(stage, b), o, t);
      && ra.visited == rb.visited
      && ra.outcome.Ok? == rb.outcome.Ok?
      && (ra.outcome.Err? ==> ra.outcome == rb.outcome)
      && (ra.outcome.Ok? ==>
            OnlyChanged(ra.outcome.value, rb.outcome.value, {GroundednessScoreField, PrecisionScoreField}))
    decreases Rank(Config(stage, a))
  {
    if stage != End {
      NextIgnoresScores(stage, a, b, o, t);
      var na := Next(Config(stage, a), o, t);
      var nb := Next(Config(stage, b), o, t);
      if na.Ok? {
        NextLowersRank(Config(stage, a), o, t);
        StaleScoresNeverRead(na.value.stage, na.value.state, nb.value.state, o, t + 1);
      }
    }
  }

  lemma ScoresOnlyDiffer(a: AgentState, b: AgentState)
    requires OnlyChanged(a, b, {GroundednessScoreField, PrecisionScoreField})
    ensures b == a.(groundednessScore := b.groundednessScore, precisionScore := b.precisionScore)
  {
  }

  /** One transition from two states that differ only in their scores. */
  lemma NextIgnoresScores(stage: Stage, a: AgentState, b: AgentState, o: Oracles, t: nat)
    requires stage != End
    requires OnlyChanged(a, b, {GroundednessScoreField, PrecisionScoreField})
    ensures
      var na := Next(Config(stage, a), o, t);
      var nb := Next(Config(stage, b), o, t);
      && na.Ok? == nb.Ok?
      && (na.Err? ==> na == nb)
      && (na.Ok? ==> na.value.stage == nb.value.stage)
      && (na.Ok? ==> OnlyChanged(na.value.state, nb.value.state, {GroundednessScoreField, PrecisionScoreField}))
  {
    ScoresOnlyDiffer(a, b);
    var na := Next(Config(stage, a), o, t);
    var nb := Next(Config(stage, b), o, t);
    if na.Ok? {
      var sa := na.value.state;
      var sb := nb.value.state;
      assert sb == sa.(groundednessScore := sb.groundednessScore, precisionScore := sb.precisionScore);
      if stage == ScoreGroundedness {
        assert sa.groundednessScore == sb.groundednessScore;
      }
      if stage == CheckPrecision {
        assert sa.precisionScore == sb.precisionScore;
      }
    }
  }
}
