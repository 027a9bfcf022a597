/** Precision evaluation: the `check_precision` node and the
    `should_continue_precision` gate that routes after it.
 */
module Precision {
  import opened AgentStates
  import opened Capabilities

  /** The score a response needs to count as precise (inclusive). */
  const Threshold: real := 4.0

  /** The labels `should_continue_precision` returns. */
  datatype Decision =
    | Pass              // "pass"
    | ToRefineQuery     // "refine_query"
    | ToMaxIterations   // "max_iterations_reached"

  /** `check_precision`: the scorer sees the query and the response, not
      the context; the parsed score is stored and the loop counter goes up
      by exactly one. Nothing else is written. A reply `float` rejects
      aborts. */
  function CheckPrecision(s: AgentState, scorer: Prompt -> ScorerReply): (r: Result<AgentState>)
    ensures
      var reply := scorer(PrecisionRubric(s.query, s.response));
      && (r.Ok? <==> reply.Parsed?)
      && (r.Ok? ==> r.value.precisionScore == reply.score)
      && (r.Err? ==> r.error == ScoreParseError(PrecisionRubric(s.query, s.response)))
    ensures r.Ok? ==> r.value.precisionLoopCount == s.precisionLoopCount + 1
    ensures r.Ok? ==> OnlyChanged(s, r.value, {PrecisionScoreField, PrecisionLoopCountField})
  {
    var prompt := PrecisionRubric(s.query, s.response);
    match scorer(prompt)
    case ParseError => Err(ScoreParseError(prompt))
    case Parsed(score) =>
      Ok(s.(precisionScore := score, precisionLoopCount := s.precisionLoopCount + 1))
  }

  /** `should_continue_precision`: a score of at least 4.0 passes whatever
      the counter says; below it, a counter strictly above `loop_max_iter`
      gives up, otherwise the query is refined. */
  function ShouldContinuePrecision(s: AgentState): (d: Decision)
    ensures d == Pass <==> AtLeast(s.precisionScore, Threshold)
    ensures d == ToMaxIterations <==>
      !AtLeast(s.precisionScore, Threshold) && s.precisionLoopCount > s.loopMaxIter
    ensures d == ToRefineQuery <==>
      !AtLeast(s.precisionScore, Threshold) && s.precisionLoopCount <= s.loopMaxIter
  {
    if AtLeast(s.precisionScore, Threshold) then Pass
    else if s.precisionLoopCount > s.loopMaxIter then ToMaxIterations
    else ToRefineQuery
  }

  /** The gate reads only the score, the counter and the ceiling. */
  lemma GateReadsOnlyItsInputs(a: AgentState, b: AgentState)
    requires a.precisionScore == b.precisionScore
    requires a.precisionLoopCount == b.precisionLoopCount
    requires a.loopMaxIter == b.loopMaxIter
    ensures ShouldContinuePrecision(a) == ShouldContinuePrecision(b)
  {
  }

  /** The context plays no part in the precision score: states that differ
      only in `context` get the same verdict from the same scorer. */
  lemma ScoreIgnoresContext(a: AgentState, b: AgentState, scorer: Prompt -> ScorerReply)
    requires OnlyChanged(a, b, {ContextField})
    ensures CheckPrecision(a, scorer).Ok? == CheckPrecision(b, scorer).Ok?
    ensures CheckPrecision(a, scorer).Ok? ==>
      CheckPrecision(a, scorer).value.precisionScore == CheckPrecision(b, scorer).value.precisionScore
  {
  }
}
