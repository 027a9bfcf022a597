/** Groundedness evaluation: the `score_groundedness` node and the
    `should_continue_groundedness` gate that routes after it.
 */
module Groundedness {
  import opened AgentStates
  import opened Capabilities

  /** The score a response needs to count as grounded (inclusive). */
  const Threshold: real := 4.0

  /** The labels `should_continue_groundedness` returns. */
  datatype Decision =
    | ToCheckPrecision  // "check_precision"
    | ToRefineResponse  // "refine_response"
    | ToMaxIterations   // "max_iterations_reached"

  /** `score_groundedness`: the scorer sees the joined context and the
      response; the parsed score is stored and the loop counter goes up by
      exactly one. Nothing else is written. A reply `float` rejects aborts. */
  function ScoreGroundedness(s: AgentState, scorer: Prompt -> ScorerReply): (r: Result<AgentState>)
    ensures
      var reply := scorer(GroundednessRubric(JoinedContext(s.context), s.response));
      && (r.Ok? <==> reply.Parsed?)
      && (r.Ok? ==> r.value.groundednessScore == reply.score)
      && (r.Err? ==> r.error == ScoreParseError(GroundednessRubric(JoinedContext(s.context), s.response)))
    ensures r.Ok? ==> r.value.groundednessLoopCount == s.groundednessLoopCount + 1
    ensures r.Ok? ==> OnlyChanged(s, r.value, {GroundednessScoreField, GroundednessLoopCountField})
  {
    var prompt := GroundednessRubric(JoinedContext(s.context), s.response);
    match scorer(prompt)
    case ParseError => Err(ScoreParseError(prompt))
    case Parsed(score) =>
      Ok(s.(groundednessScore := score, groundednessLoopCount := s.groundednessLoopCount + 1))
  }

  /** `should_continue_groundedness`: a score of at least 4.0 moves on to
      the precision check whatever the counter says; below it, a counter
      strictly above `loop_max_iter` gives up, otherwise the response is
      refined. */
  function ShouldContinueGroundedness(s: AgentState): (d: Decision)
    ensures d == ToCheckPrecision <==> AtLeast(s.groundednessScore, Threshold)
    ensures d == ToMaxIterations <==>
      !AtLeast(s.groundednessScore, Threshold) && s.groundednessLoopCount > s.loopMaxIter
    ensures d == ToRefineResponse <==>
      !AtLeast(s.groundednessScore, Threshold) && s.groundednessLoopCount <= s.loopMaxIter
  {
    if AtLeast(s.groundednessScore, Threshold) then ToCheckPrecision
    else if s.groundednessLoopCount > s.loopMaxIter then ToMaxIterations
    else ToRefineResponse
  }

  /** The gate reads only the score, the counter and the ceiling. */
  lemma GateReadsOnlyItsInputs(a: AgentState, b: AgentState)
    requires a.groundednessScore == b.groundednessScore
    requires a.groundednessLoopCount == b.groundednessLoopCount
    requires a.loopMaxIter == b.loopMaxIter
    ensures ShouldContinueGroundedness(a) == ShouldContinueGroundedness(b)
  {
  }

  /** Boundary cases of the inclusive threshold under Python float
      comparison: exactly 4.0 and +inf pass, NaN never does. */
  lemma ThresholdBoundary(s: AgentState)
    ensures s.groundednessScore == Finite(4.0) ==> ShouldContinueGroundedness(s) == ToCheckPrecision
    ensures s.groundednessScore == PosInf ==> ShouldContinueGroundedness(s) == ToCheckPrecision
    ensures s.groundednessScore == NaN ==> ShouldContinueGroundedness(s) != ToCheckPrecision
  {
  }
}
