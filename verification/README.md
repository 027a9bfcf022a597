# Iterative refinement controller of the nutrition RAG agent

This project models the core of the nutrition-disorder question-answering
agent in Dafny. That core is the LangGraph workflow that `agentic_rag` runs
for each user query, and it works like this:

- The query is expanded and documents are retrieved for it.
- A response is crafted from those documents.
- The response is scored twice by a language-model judge:
  - **groundedness**, meaning the response is supported by the retrieved
    context;
  - **precision**, meaning the response answers the query.
- A score below 4.0 sends the run round a retry loop:
  - low groundedness goes to `refine_response` and then back to
    `craft_response`. The new response is crafted from the same query,
    context and `query_feedback` as before: `refine_response` writes its
    critique to `feedback`, and no node reads that field, although the
    comment at `src/agent/workflow.py:64` says the new response adopts it;
  - low precision goes to `refine_query` and then back to `expand_query`.
- Each loop has a counter that is compared with `loop_max_iter`. Once a
  counter has passed that ceiling, the next score of that kind below 4.0
  ends the run with the fixed fallback answer. A score of 4.0 or more
  moves on whatever the counter says, and the groundedness counter is
  never reset, so it can be past the ceiling while the run goes on.

The model is made of pure functions over an immutable `AgentState` record:

- **`AgentStates`** (`state.dfy`):
  - the record itself;
  - Python floats, including `inf` and `nan`, which `float()` accepts;
  - context entries;
  - the `"\n".join` that hands the context to the model.
- **`Capabilities`** (`capabilities.dfy`): the outside world, given as
  parameters. This covers:
  - the language model, the scorer and the retriever, all total functions
    of the step number and of the exact template variables a node passes;
  - a scorer reply that either parses as a float or is rejected.
- **`Retrieve`**, **`Generate`**, **`Groundedness`** and **`Precision`**:
  one function per node and per routing gate. Each function states:
  - the field it writes;
  - what that field then holds;
  - that every other field is left as it was.
- **`Workflow`**:
  - the compiled graph: its nodes, its edges and its two routing tables;
  - one transition, `Next`;
  - the whole run, `Run`. `Run` is a total function, and a ranking function
    proves that it terminates.
- **`Refinement`**: theorems about edges, retry cycles, budgets and whole
  runs.
- **`Tool`**: the initial record built by `agentic_rag`, and the theorems
  about a complete invocation.
- **`LongRun`** (`longrun.dfy`): one scorer schedule under which an
  invocation executes 33 nodes, with the step relation used to count them.

In the source, transport failures and rejected scores can end a run; in
the model only the second can:

- The model calls, the scorer calls and the retriever calls never fail in
  this model.
- The only error is a scorer reply that Python's `float()` rejects. The run
  stops there with `Err(ScoreParseError(prompt))`. This is what the
  uncaught `ValueError` does in the source.

The main results:

- **Termination.** Every run executes at most 42 nodes from the initial
  record. If every score parses, the run reaches END, and the last node is
  either `check_precision` with a passing precision score or
  `max_iterations_reached` with the fallback message as the answer.
- **Retry bounds.** Neither `refine_query` nor `refine_response` runs more
  than `loop_max_iter` = 3 times in one invocation.
- **Low groundedness.** If every groundedness score is low, then:
  - `score_groundedness` runs exactly `loop_max_iter + 1` times;
  - precision is never checked;
  - the fallback message is the answer.
- **Path shape.** Every run is a path of the graph.
- **Invariants.** `query` and the ceiling never change, and the counters
  never go down. In particular, the groundedness counter is not reset when
  `refine_query` restarts the pipeline.
- **Stale scores.** The initial scores of 0.0 are never read.
- **Long runs.** Some invocations execute 33 nodes. One such schedule has
  groundedness low for its first three scorings and high afterwards, and
  precision always low. The path is 2 + 3×3 + 2 + 3×6 + 2 = 33 nodes:
  `expand_query` and `retrieve_context`; three rounds of `craft_response`,
  `score_groundedness` and `refine_response`; `craft_response` and
  `score_groundedness`, which now passes; three precision rounds of
  `check_precision`, `refine_query`, `expand_query`, `retrieve_context`,
  `craft_response` and `score_groundedness`; then `check_precision` and
  `max_iterations_reached`. `agentic_rag` calls
  `invoke` with no config (`src/agent/tool.py:32`), so LangGraph's default
  recursion limit of 25 steps applies. The program therefore raises
  `GraphRecursionError` on such an invocation, where the model completes it
  with the fallback answer.

Three points where the model takes the code at its word:

- **Score range.** The judge prompts ask for a score from 1 to 5
  (`src/agents/prompts.py:57`, `:68`, `:86`, `:97`). The code performs no
  range check: any text `float()` accepts is stored, including `"7"`,
  `"-1"`, `"nan"` and `"inf"`. The model accepts every float, and
  `ThresholdBoundary` shows how `inf` and `nan` route.
- **Groundedness scorings.** The retry test at
  `src/evaluation/groundedness.py:51` is strict (`count > loop_max_iter`).
  With every groundedness score low, `score_groundedness` therefore runs
  exactly `loop_max_iter + 1` times, as
  `Refinement.GroundednessRetriesExhaust` proves.
- **Routing labels.** The gates return strings in the source, and LangGraph
  looks each string up in the routing dictionary. Here each gate returns a
  small enumeration with one constructor per string, and the routing tables
  are maps keyed on those constructors.

## Model

| member | source | states |
|---|---|---|
| AgentStates.JoinedContext | src/evaluation/groundedness.py:28 | an empty context joins to the empty text and a single passage joins to itself |
| AgentStates.SplitJoin | src/agent/generate.py:32 | the newline join loses no passage boundary: splitting the joined text on newlines gives back the passages, provided there is at least one passage and none contains a newline |
| AgentStates.JoinLength | src/agent/generate.py:32 | the joined context is as long as all the passages together plus one newline between each neighbouring pair |
| Retrieve.ToContext | src/utils/retrieve.py:44-50 | one context entry per retrieved document, in the retriever's order, copying that document's page content and metadata |
| Retrieve.RetrieveContext | src/utils/retrieve.py:22-55 | retrieval is keyed on `expanded_query`; the new context has one entry per document, in order, with its content and metadata; an empty result gives an empty context whose joined text is ""; no other field is written |
| Retrieve.RetrievalIgnoresQuery | src/utils/retrieve.py:34 | the original `query` plays no part in retrieval: states differing only in `query` retrieve the same context |
| Generate.Annotated | src/agent/generate.py:88 | the annotated feedback text consists of the heading, then the previous value verbatim, then "\nSuggestions: ", then the suggestion, with exactly those lengths |
| Generate.CraftResponse | src/agent/generate.py:11-39 | the generator is given the query, the newline-joined context and `query_feedback`, and its reply becomes `response`; nothing else is written |
| Generate.ExpandQuery | src/agent/generate.py:42-65 | the expansion is computed from `query` and `query_feedback` and written to `expanded_query` only |
| Generate.RefineQuery | src/agent/generate.py:68-93 | `query_feedback` becomes "Previous Expanded Query: " + the old expanded query + "\nSuggestions: " + the suggestion, each piece pinned at its position; `expanded_query` itself is kept and nothing else is written |
| Generate.RefineResponse | src/agent/generate.py:96-121 | `feedback` becomes "Previous Response: " + the old response + "\nSuggestions: " + the suggestion, each piece pinned at its position; `response` itself is kept and nothing else is written |
| Generate.MaxIterationsReached | src/agent/generate.py:124-133 | `response` is replaced by the fixed fallback message whatever it held, and no other field changes |
| Generate.CraftIgnoresFeedback | src/agent/generate.py:30-34 | the response critique in `feedback` never reaches the generator: states that differ only in `feedback` craft the same response |
| Generate.ExpansionReadsQueryAndQueryFeedback | src/agent/generate.py:60 | two states with the same `query` and `query_feedback` expand to the same text |
| Generate.CraftIdempotent | src/agent/generate.py:30-36 | with a deterministic generator, crafting again on the crafted state changes nothing |
| Groundedness.ScoreGroundedness | src/evaluation/groundedness.py:8-38 | the scorer sees the joined context and the response; the node succeeds exactly when the reply parses as a float; the parsed value is stored unclamped; the counter rises by exactly one; nothing else is written; a rejected reply aborts with that prompt |
| Groundedness.ShouldContinueGroundedness | src/evaluation/groundedness.py:41-55 | "check_precision" exactly when score >= 4.0, whatever the counter says; "max_iterations_reached" exactly when the score is below 4.0 and the counter is strictly above `loop_max_iter`; otherwise "refine_response" |
| Groundedness.GateReadsOnlyItsInputs | src/evaluation/groundedness.py:47-51 | the gate depends only on the groundedness score, the groundedness counter and the ceiling |
| Groundedness.ThresholdBoundary | src/evaluation/groundedness.py:47 | the threshold is inclusive: 4.0 passes, +inf passes, and NaN never passes because every comparison with NaN is False |
| Precision.CheckPrecision | src/evaluation/precision.py:8-38 | the scorer sees the query and the response; the node succeeds exactly when the reply parses; the parsed value is stored; the precision counter rises by one; nothing else is written; a rejected reply aborts with that prompt |
| Precision.ShouldContinuePrecision | src/evaluation/precision.py:41-55 | "pass" exactly when score >= 4.0; "max_iterations_reached" exactly when the score is below 4.0 and the counter is strictly above `loop_max_iter`; otherwise "refine_query" |
| Precision.GateReadsOnlyItsInputs | src/evaluation/precision.py:47-51 | the gate depends only on the precision score, the precision counter and the ceiling |
| Precision.ScoreIgnoresContext | src/evaluation/precision.py:27-30 | the precision judge is not shown the context: states that differ only in `context` get the same precision outcome |
| Workflow.Apply | src/agent/workflow.py:37-45 | each node writes only its own fields; only the two scoring nodes move a counter, each by one; only the scoring nodes can fail; when every score parses no node fails |
| Workflow.Route | src/agent/workflow.py:47-81 | the next node, chosen on the state the node returned, is always joined to it by an edge of the compiled graph |
| Workflow.Next | src/agent/workflow.py:47-81 | one transition follows a graph edge, writes only the executed node's fields, keeps `query` and the ceiling, and never lowers a counter; only the scoring nodes fail, and none fails when scores parse |
| Workflow.NextLowersRank | src/agent/workflow.py:54-79 | every transition lowers the ranking function: each retry edge spends one unit of its gate's budget, and every other edge moves closer to END |
| Workflow.Run | src/agent/workflow.py:86 | `invoke` executes at most rank-of-start nodes; it executes none exactly when started at END, in which case the state is returned unchanged; otherwise the first node executed is the one started at |
| Refinement.SuccessorTable | src/agent/workflow.py:47-81 | the successor set of every node in the compiled graph, which is exactly the targets of the plain edges and routing tables |
| Refinement.EndOnlyFromPassOrFallback | src/agent/workflow.py:72-81 | END is entered only from `check_precision` on "pass" or from `max_iterations_reached`, and `max_iterations_reached` always goes to END |
| Refinement.GroundednessRouting | src/agent/workflow.py:54-62 | after scoring groundedness the run goes to `check_precision`, `refine_response` or `max_iterations_reached` under exactly the gate's three conditions |
| Refinement.PrecisionRouting | src/agent/workflow.py:68-76 | after checking precision the run ends, refines the query or falls back under exactly the gate's three conditions |
| Refinement.GroundednessRetryKeepsRetrieval | src/agent/workflow.py:64-65 | a groundedness retry goes `refine_response` → `craft_response` → `score_groundedness` without expanding or retrieving again; the new response is generated from the same query, context and `query_feedback`, so the critique in `feedback` plays no part; the re-scored response sees the same context and expanded query |
| Refinement.PrecisionRetryRestartsPipeline | src/agent/workflow.py:78-79 | a precision retry goes `refine_query` → `expand_query` → `retrieve_context` → `craft_response` → `score_groundedness` |
| Refinement.PlainStep | src/agent/workflow.py:48-51 | a node with one outgoing edge and no scorer always moves on along it, keeps the counters and the ceiling, and the run continues from there |
| Refinement.RunFollowsEdges | src/agent/workflow.py:47-81 | every run is a path of the compiled graph that never executes END; a completed run's last node has an edge to END; a failed run stopped at a scoring node |
| Refinement.RunEndsOnPass | src/agent/workflow.py:68-81 | a completed run that ends at `check_precision` ends with a precision score of at least 4.0 (the "pass" edge), and one that ends at `max_iterations_reached` answers with the fallback message |
| Refinement.RunCompletes | src/agent/workflow.py:54-81 | if every scorer reply parses, the run reaches END |
| Refinement.CountersOnlyMovedByScorers | src/evaluation/groundedness.py:32-33 | only `score_groundedness` changes the groundedness counter and score, and only `check_precision` changes the precision counter and score; each raises its counter by exactly one |
| Refinement.RunPreserves | src/agent/workflow.py:78-79 | over a whole run `query` and `loop_max_iter` never change and neither counter is lowered; restarting through `refine_query` does not reset the groundedness counter |
| Refinement.RefineQueryVisits | src/evaluation/precision.py:51-55 | from any configuration, `refine_query` runs at most `loop_max_iter` − precision counter times (none once the counter is past the ceiling), plus one when the run starts at `refine_query` itself |
| Refinement.RefineResponseVisits | src/evaluation/groundedness.py:51-55 | from any configuration, `refine_response` runs at most `loop_max_iter` − groundedness counter times (none once the counter is past the ceiling), plus one when the run starts at `refine_response` itself, across precision restarts |
| Refinement.GroundednessRetriesExhaust | src/evaluation/groundedness.py:47-55 | with groundedness always low, a run from `craft_response` with groundedness counter g ≤ `loop_max_iter` scores groundedness exactly `loop_max_iter` + 1 − g times, precision is never checked, and the run ends with the fallback response |
| Refinement.FallbackEndsRun | src/agent/workflow.py:81 | `max_iterations_reached` is the last node executed, and the run completes with the fallback message as the response |
| Refinement.ScoreLow | src/evaluation/groundedness.py:51-55 | a parsed low groundedness score raises the counter and routes to the fallback once the counter exceeds the ceiling, and to `refine_response` before that |
| Refinement.PrecisionBoundaryPasses | src/evaluation/precision.py:47-49 | a precision reply of exactly 4.0 passes: the run ends right after `check_precision` with the response unchanged |
| Refinement.StaleScoresNeverRead | src/agent/tool.py:23-24 | runs from states that differ only in their scores visit the same nodes, fail or succeed alike, and end in states that differ at most in scores |
| Refinement.NextIgnoresScores | src/agent/workflow.py:54-76 | one transition from two states that differ only in their scores goes to the same node and keeps them differing only in scores |
| Tool.InitialState | src/agent/tool.py:18-30 | the initial record holds the query, empty texts, no context, 0.0 scores, zero counters and a ceiling of 3, and its rank is 42 |
| Tool.AgenticRag | src/agent/tool.py:6-34 | an invocation executes between 1 and 42 nodes and starts at `expand_query`; a completed invocation answers the same query under the same ceiling |
| Tool.AgenticRagTerminates | src/agent/tool.py:32 | when every score parses, the invocation completes; its last node is either `check_precision`, and then the final precision score is at least 4.0, or `max_iterations_reached`, and then the answer is the fallback message |
| Tool.RetriesAtMostLoopMaxIter | src/agent/tool.py:29 | neither `refine_query` nor `refine_response` runs more than `loop_max_iter` = 3 times in one invocation |
| Tool.LowGroundednessScoresFourTimes | src/evaluation/groundedness.py:51 | with groundedness always below 4.0, `score_groundedness` runs exactly 4 times because the counter test is strict, precision is never checked, and the answer is the fallback message |
| Tool.InitialScoresUnread | src/agent/tool.py:23-24 | the initial 0.0 scores are never read: any other initial scores give the same path and the same outcome apart from scores |
| LongRun.WitnessPlays | src/agent/workflow.py:48-79 | under the witness schedule, each plain node follows its single edge, groundedness passes from step 12 on and retries before it while the counter is below the ceiling, and precision always fails, raising its counter and retrying until the counter passes the ceiling |
| LongRun.GroundednessPhase | src/evaluation/groundedness.py:47-55 | under that schedule, from `craft_response` with ceiling 3, groundedness counter g ≤ 3 and precision counter 0, at step 2 + 3g, the run reaches `max_iterations_reached` in 21 + 3(3 − g) steps |
| LongRun.PrecisionPhase | src/evaluation/precision.py:47-55 | under that schedule, from `check_precision` at step 12 or later with precision counter p ≤ `loop_max_iter`, the run reaches `max_iterations_reached` in 1 + 6(`loop_max_iter` − p) steps |
| LongRun.ChainToFallback | src/agent/workflow.py:81 | a run that reaches `max_iterations_reached` k steps in executes k + 1 nodes and ends as the fallback does |
| LongRun.ThirtyThreeNodeRun | src/agent/tool.py:32 | for every query, the witness invocation executes exactly 33 nodes and completes with the fallback message as its answer |

## Left out

- Transport failures of the language model and of the vector store
  (GenerationError, RetrievalError) are not modelled. The oracles are total
  functions, so only the score parse error can stop a run.
- The text of the prompts (`agents/prompts.py`, `utils/prompts.py`) and
  LangChain's template filling are not modelled. A prompt is represented by
  the template variables the node passes.
- Finite Python floats are modelled as exact reals. The rounding that
  `float()` applies to its text is not modelled. Its effect is limited to
  replies such as `"3.99999999999999999"`, which round to 4.0 in Python but
  stay below 4.0 here.
- `Groundedness.ScoreGroundedness`: a reply is taken to be either a parsed
  float or rejected. The exact set of strings that `float()` accepts
  (whitespace, underscores, `"Infinity"`) is left to the oracle.
- The LangGraph runtime is not modelled:
  - how it merges returned dicts into the channel state (every node here
    returns the whole record);
  - its recursion limit;
  - streaming and checkpointing.

  `Run` bounds an invocation from the initial record at 42 node executions.
  Runs of 33 nodes are reachable (`LongRun.ThirtyThreeNodeRun`). That
  is more than the 25 steps LangGraph allows by default, and `agentic_rag`
  passes no config (`src/agent/tool.py:32`). On such runs the program
  raises `GraphRecursionError`, where the model reaches END with the
  fallback answer.
- The retriever's `k = 5` (`src/utils/retrieve.py:18`) is left to the
  retriever oracle. The model copies whatever documents the oracle returns.
- `groundedness_check`: the state declares this field, but `agentic_rag`
  never sets it and no node reads it. It has no counterpart here.
- Metadata values are kept as text. The retriever's metadata can hold other
  JSON-like values, but the model only copies metadata and never inspects
  it.
- `craft_response` stores the chat model's raw reply in `response`, with no
  string parser in its chain. This model treats that reply as a string.
- The `print` tracing in every node, the Chroma vector store setup, the
  embedding model, `config.py`, the guardrails, the chat front end
  (`app.py`, `agents/nutrition_bot.py`) and `hf_deploy.py` are outside the
  refinement core.
- `Tool.AgenticRag`: the model returns the run, meaning the visited nodes
  and the final state or the error. It does not return LangGraph's output
  dict. A failed run yields `Err` where the source raises `ValueError`.
