/** The `agentic_rag` tool: build the initial record for a user query and
    run the compiled graph on it. The theorems here are about whole runs
    from that initial record.
 */
module Tool {
  import opened AgentStates
  import opened Capabilities
  import Generate
  import Precision
  import opened Workflow
  import Refinement

  /** `"loop_max_iter": 3`. */
  const LoopMaxIter: int := 3

  /** The most nodes one invocation can execute: the rank of the initial
      configuration, `6 * 4 + 3 * 4 + 6`. */
  const MaxSteps: nat := 42

  /** The record `agentic_rag` passes to `WORKFLOW_APP.invoke`: both
      counters at zero, both scores 0.0, every text empty, no context and a
      ceiling of three. `groundedness_check` is declared in `AgentState` but
      neither set here nor read by any node, so it has no counterpart. */
  function InitialState(query: string): (s: AgentState)
    ensures s.query == query
    ensures s.groundednessLoopCount == 0 && s.precisionLoopCount == 0
    ensures s.loopMaxIter == LoopMaxIter
    ensures s.expandedQuery == "" && s.response == "" && s.feedback == "" && s.queryFeedback == ""
    ensures s.context == []
    ensures s.precisionScore == Finite(0.0) && s.groundednessScore == Finite(0.0)
    ensures Rank(Config(Start, s)) == MaxSteps
  {
    AgentState(
      query := query,
      expandedQuery := "",
      context := [],
      response := "",
      precisionScore := Finite(0.0),
      groundednessScore := Finite(0.0),
      groundednessLoopCount := 0,
      precisionLoopCount := 0,
      feedback := "",
      queryFeedback := "",
      loopMaxIter := LoopMaxIter
    )
  }

  /** `agentic_rag(query)`: one run of the graph from `expand_query`. It
      executes at most `MaxSteps` nodes, starts with `expand_query`, and a
      completed run answers the same query under the same ceiling. */
  function AgenticRag(query: string, o: Oracles): (r: Execution)
    ensures 1 <= |r.visited| <= MaxSteps
    ensures r.visited[0] == ExpandQuery
    ensures r.outcome.Ok? ==> r.outcome.value.query == query
    ensures r.outcome.Ok? ==> r.outcome.value.loopMaxIter == LoopMaxIter
  {
    var c := Config(Start, InitialState(query));
    Refinement.RunPreserves(c, o, 0);
    Run(c, o, 0)
  }

  /** Termination: if every scorer reply parses as a float, the run
      reaches END, and the last node executed is either `check_precision`,
      whose precision score then passed, or `max_iterations_reached`, whose
      answer is then the fallback message. */
  lemma AgenticRagTerminates(query: string, o: Oracles)
    requires ScoresParse(o)
    ensures AgenticRag(query, o).outcome.Ok?
    ensures var v := AgenticRag(query, o).visited;
      Last(v) == CheckPrecision || Last(v) == MaxIterationsReached
    ensures var r := AgenticRag(query, o);
      Last(r.visited) == CheckPrecision ==> AtLeast(r.outcome.value.precisionScore, Precision.Threshold)
    ensures var r := AgenticRag(query, o);
      Last(r.visited) == MaxIterationsReached ==> r.outcome.value.response == Generate.FallbackMessage
  {
    var c := Config(Start, InitialState(query));
    Refinement.RunCompletes(c, o, 0);
    Refinement.RunFollowsEdges(c, o, 0);
    Refinement.RunEndsOnPass(c, o, 0);
    Refinement.EndOnlyFromPassOrFallback(InitialState(query));
  }

  /** Neither retry node runs more than `loop_max_iter` times in one
      invocation. */
  lemma RetriesAtMostLoopMaxIter(query: string, o: Oracles)
    ensures Occurrences(AgenticRag(query, o).visited, RefineQuery) <= LoopMaxIter
    ensures Occurrences(AgenticRag(query, o).visited, RefineResponse) <= LoopMaxIter
  {
    var c := Config(Start, InitialState(query));
    Refinement.RefineQueryVisits(c, o, 0);
    Refinement.RefineResponseVisits(c, o, 0);
  }

  /** With a ceiling of 3 and groundedness scores that never reach 4.0,
      `score_groundedness` runs four times (the first pass and three
      retries, because the counter test is strict), precision is never
      checked, and the fallback message is the answer. */
  lemma LowGroundednessScoresFourTimes(query: string, o: Oracles)
    requires Refinement.GroundednessAlwaysLow(o)
    ensures Occurrences(AgenticRag(query, o).visited, ScoreGroundedness) == LoopMaxIter + 1
    ensures CheckPrecision !in AgenticRag(query, o).visited
    ensures AgenticRag(query, o).outcome.Ok?
    ensures AgenticRag(query, o).outcome.value.response == Generate.FallbackMessage
  {
    var c0 := Config(Start, InitialState(query));
    var c1 := Refinement.PlainStep(c0, o, 0);
    var c2 := Refinement.PlainStep(c1, o, 1);
    Refinement.GroundednessRetriesExhaust(c2.state, o, 2);
    var v2 := Run(c2, o, 2).visited;
    Refinement.OccurrencesCons(RetrieveContext, v2, ScoreGroundedness);
    Refinement.OccurrencesCons(ExpandQuery, [RetrieveContext] + v2, ScoreGroundedness);
  }

  /** The initial scores of 0.0 are never read: whatever scores the
      initial record held, the run executes the same nodes and ends with
      the same record apart from scores no scorer wrote. */
  lemma InitialScoresUnread(query: string, o: Oracles, g: Float, p: Float)
    ensures
      var r := AgenticRag(query, o);
      var r' := Run(Config(Start, InitialState(query).(groundednessScore := g, precisionScore := p)), o, 0);
      && r.visited == r'.visited
      && r.outcome.Ok? == r'.outcome.Ok?
      && (r.outcome.Ok? ==>
            OnlyChanged(r.outcome.value, r'.outcome.value, {GroundednessScoreField, PrecisionScoreField}))
  {
    var s := InitialState(query);
    Refinement.StaleScoresNeverRead(Start, s, s.(groundednessScore := g, precisionScore := p), o, 0);
  }
}
