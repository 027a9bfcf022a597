/** The refinement controller built by `create_workflow`: eight nodes, the
    unconditional edges between them, the two conditional routing tables,
    and the run that threads one `AgentState` through the graph until END.
 */
module Workflow {
  import opened AgentStates
  import opened Capabilities
  import Retrieve
  import Generate
  import Groundedness
  import Precision

  datatype Stage =
    | ExpandQuery
    | RetrieveContext
    | CraftResponse
    | ScoreGroundedness
    | RefineResponse
    | CheckPrecision
    | RefineQuery
    | MaxIterationsReached
    | End

  /** `add_edge(START, "expand_query")`. */
  const Start: Stage := ExpandQuery

  /** The mapping handed to `add_conditional_edges` after `score_groundedness`. */
  const GroundednessRoutes: map<Groundedness.Decision, Stage> := map[
    Groundedness.ToCheckPrecision := CheckPrecision,
    Groundedness.ToRefineResponse := RefineResponse,
    Groundedness.ToMaxIterations := MaxIterationsReached
  ]

  /** The mapping handed to `add_conditional_edges` after `check_precision`. */
  const PrecisionRoutes: map<Precision.Decision, Stage> := map[
    Precision.Pass := End,
    Precision.ToRefineQuery := RefineQuery,
    Precision.ToMaxIterations := MaxIterationsReached
  ]

  /** Every edge of the compiled graph: the plain `add_edge` calls and one
      edge per entry of each routing table. */
  const Edges: set<(Stage, Stage)> := {
    (ExpandQuery, RetrieveContext),
    (RetrieveContext, CraftResponse),
    (CraftResponse, ScoreGroundedness),
    (ScoreGroundedness, CheckPrecision),
    (ScoreGroundedness, RefineResponse),
    (ScoreGroundedness, MaxIterationsReached),
    (RefineResponse, CraftResponse),
    (CheckPrecision, End),
    (CheckPrecision, RefineQuery),
    (CheckPrecision, MaxIterationsReached),
    (RefineQuery, ExpandQuery),
    (MaxIterationsReached, End)
  }

  function Successors(a: Stage): set<Stage> {
    set e | e in Edges && e.0 == a :: e.1
  }

  /** The fields each node writes. */
  function Writes(stage: Stage): set<Field> {
    match stage
    case ExpandQuery => {ExpandedQueryField}
    case RetrieveContext => {ContextField}
    case CraftResponse => {ResponseField}
    case ScoreGroundedness => {GroundednessScoreField, GroundednessLoopCountField}
    case RefineResponse => {FeedbackField}
    case CheckPrecision => {PrecisionScoreField, PrecisionLoopCountField}
    case RefineQuery => {QueryFeedbackField}
    case MaxIterationsReached => {ResponseField}
    case End => {}
  }

  /** Runs the node `stage` on `s` as step `t` of a run; only the two
      scoring nodes can fail, and only when a score does not parse. */
  function Apply(stage: Stage, s: AgentState, o: Oracles, t: nat): (r: Result<AgentState>)
    requires stage != End
    ensures r.Ok? ==> OnlyChanged(s, r.value, Writes(stage))
    ensures r.Ok? ==>
      r.value.groundednessLoopCount == s.groundednessLoopCount + (if stage == ScoreGroundedness then 1 else 0)
    ensures r.Ok? ==>
      r.value.precisionLoopCount == s.precisionLoopCount + (if stage == CheckPrecision then 1 else 0)
    ensures r.Err? ==> stage == ScoreGroundedness || stage == CheckPrecision
    ensures ScoresParse(o) ==> r.Ok?
  {
    var llm := (p: Prompt) => o.llm(t, p);
    var scorer := (p: Prompt) => o.scorer(t, p);
    match stage
    case ExpandQuery => Ok(Generate.ExpandQuery(s, llm))
    case RetrieveContext => Ok(Retrieve.RetrieveContext(s, (q: string) => o.retriever(t, q)))
    case CraftResponse => Ok(Generate.CraftResponse(s, llm))
    case ScoreGroundedness => Groundedness.ScoreGroundedness(s, scorer)
    case RefineResponse => Ok(Generate.RefineResponse(s, llm))
    case CheckPrecision => Precision.CheckPrecision(s, scorer)
    case RefineQuery => Ok(Generate.RefineQuery(s, llm))
    case MaxIterationsReached => Ok(Generate.MaxIterationsReached(s))
  }

  /** The node that follows `stage`, chosen on the state the node returned:
      fixed for plain edges, looked up in the routing table for the two
      gated nodes. */
  function Route(stage: Stage, s: AgentState): (next: Stage)
    requires stage != End
    ensures (stage, next) in Edges
  {
    var next := match stage
      case ExpandQuery => RetrieveContext
      case RetrieveContext => CraftResponse
      case CraftResponse => ScoreGroundedness
      case ScoreGroundedness => GroundednessRoutes[Groundedness.ShouldContinueGroundedness(s)]
      case RefineResponse => CraftResponse
      case CheckPrecision => PrecisionRoutes[Precision.ShouldContinuePrecision(s)]
      case RefineQuery => ExpandQuery
      case MaxIterationsReached => End;
    assert (stage, next) in Edges;
    next
  }

  /** A point of a run: the node about to execute and the state it gets. */
  datatype Config = Config(stage: Stage, state: AgentState)

  /** How many more times a counter may pass its gate's retry test. */
  function Budget(ceiling: int, count: int): nat {
    if count <= ceiling then ceiling + 1 - count else 0
  }

  function Offset(stage: Stage): nat {
    match stage
    case End => 0
    case MaxIterationsReached => 1
    case CheckPrecision => 2
    case ScoreGroundedness => 3
    case CraftResponse => 4
    case RetrieveContext => 5
    case RefineResponse => 5
    case ExpandQuery => 6
    case RefineQuery => 7
  }

  /** The ranking function for termination: a precision retry spends one
      unit of the precision budget, a groundedness retry one unit of the
      groundedness budget, and every other edge lowers the stage offset. */
  function Rank(c: Config): nat {
    var n := c.state.loopMaxIter;
    6 * Budget(n, c.state.precisionLoopCount) + 3 * Budget(n, c.state.groundednessLoopCount) + Offset(c.stage)
  }

  /** `query` and the ceiling are never written and the counters never go
      down. */
  predicate Preserves(a: AgentState, b: AgentState) {
    && a.query == b.query
    && a.loopMaxIter == b.loopMaxIter
    && a.groundednessLoopCount <= b.groundednessLoopCount
    && a.precisionLoopCount <= b.precisionLoopCount
  }

  /** One transition of the controller: run the node, then follow its
      edge. Every transition follows an edge of the graph, writes only the
      node's fields and never lowers a counter; `NextLowersRank` shows that
      it also lowers the rank. */
  function Next(c: Config, o: Oracles, t: nat): (r: Result<Config>)
    requires c.stage != End
    ensures r.Ok? ==> (c.stage, r.value.stage) in Edges
    ensures r.Ok? ==> OnlyChanged(c.state, r.value.state, Writes(c.stage))
    ensures r.Ok? ==> Preserves(c.state, r.value.state)
    ensures r.Err? ==> c.stage == ScoreGroundedness || c.stage == CheckPrecision
    ensures ScoresParse(o) ==> r.Ok?
  {
    match Apply(c.stage, c.state, o, t)
    case Err(e) => Err(e)
    case Ok(s) =>
      Ok(Config(Route(c.stage, s), s))
  }

  /** Every transition lowers the rank: a precision retry spends a unit of
      the precision budget, a groundedness retry a unit of the groundedness
      budget, and every other edge goes to a lower stage offset without
      raising either budget. */
  lemma NextLowersRank(c: Config, o: Oracles, t: nat)
    requires c.stage != End
    requires Next(c, o, t).Ok?
    ensures Rank(Next(c, o, t).value) < Rank(c)
  {
    var c' := Next(c, o, t).value;
    if c.stage == ScoreGroundedness && c'.stage == RefineResponse {
      assert c'.state.groundednessLoopCount <= c'.state.loopMaxIter;
    }
    if c.stage == CheckPrecision && c'.stage == RefineQuery {
      assert c'.state.precisionLoopCount <= c'.state.loopMaxIter;
    }
  }

  /** The nodes a run executed, in order, and how it ended. */
  datatype Execution = Execution(visited: seq<Stage>, outcome: Result<AgentState>)

  function Last(xs: seq<Stage>): Stage
    requires |xs| > 0
  {
    xs[|xs| - 1]
  }

  /** The compiled graph's `invoke`: execute nodes from `c` until END or a
      score parse error. It is total because `Rank` drops on every step,
      and the number of nodes executed is bounded by the starting rank. */
  function Run(c: Config, o: Oracles, t: nat): (r: Execution)
    ensures |r.visited| <= Rank(c)
    ensures c.stage == End <==> |r.visited| == 0
    ensures c.stage == End ==> r.outcome == Ok(c.state)
    ensures |r.visited| > 0 ==> r.visited[0] == c.stage
    decreases Rank(c)
  {
    if c.stage == End then Execution([], Ok(c.state))
    else
      match Next(c, o, t)
      case Err(e) => Execution([c.stage], Err(e))
      case Ok(c') =>
        NextLowersRank(c, o, t);
        var rest := Run(c', o, t + 1);
        Execution([c.stage] + rest.visited, rest.outcome)
  }

  function Occurrences(xs: seq<Stage>, x: Stage): nat
    ensures Occurrences(xs, x) <= |xs|
  {
    if |xs| == 0 then 0 else (if xs[0] == x then 1 else 0) + Occurrences(xs[1..], x)
  }
}
