/** The five language-model nodes of the workflow. Each is a transform of
    the shared record that writes a single field; the model's reply is an
    oracle applied to the exact template variables the node passes.
 */
module Generate {
  import opened AgentStates
  import opened Capabilities

  const PreviousExpandedQueryLabel: string := "Previous Expanded Query: "
  const PreviousResponseLabel: string := "Previous Response: "
  const SuggestionsLabel: string := "\nSuggestions: "

  /** The fixed answer given when a loop runs out of iterations. */
  const FallbackMessage: string :=
    "I'm unable to refine the response further. Please provide more context or clarify your question."

  /** `f"{heading}{previous}\nSuggestions: {suggestion}"`: the text starts with
      the heading, carries the previous value verbatim, then the suggestion
      separator, and ends with the suggestion itself. */
  function Annotated(heading: string, previous: string, suggestion: string): (r: string)
    ensures |r| == |heading| + |previous| + |SuggestionsLabel| + |suggestion|
    ensures r[..|heading|] == heading
    ensures r[|heading|..|heading| + |previous|] == previous
    ensures r[|heading| + |previous|..|heading| + |previous| + |SuggestionsLabel|] == SuggestionsLabel
    ensures r[|r| - |suggestion|..] == suggestion
  {
    var r := heading + previous + SuggestionsLabel + suggestion;
    assert r[..|heading|] == heading;
    assert r[|heading|..|heading| + |previous|] == previous;
    assert r[|heading| + |previous|..|heading| + |previous| + |SuggestionsLabel|] == SuggestionsLabel;
    assert r[|r| - |suggestion|..] == suggestion;
    r
  }

  /** `craft_response`: the generator sees the query, the joined context and
      `query_feedback`; its reply becomes `response` and nothing else is
      written. */
  function CraftResponse(s: AgentState, llm: Prompt -> string): (r: AgentState)
    ensures r.response == llm(Generation(s.query, JoinedContext(s.context), s.queryFeedback))
    ensures OnlyChanged(s, r, {ResponseField})
  {
    s.(response := llm(Generation(s.query, JoinedContext(s.context), s.queryFeedback)))
  }

  /** `expand_query`: the expansion is computed from `query` and
      `query_feedback` and written to `expanded_query` only. */
  function ExpandQuery(s: AgentState, llm: Prompt -> string): (r: AgentState)
    ensures r.expandedQuery == llm(Expansion(s.query, s.queryFeedback))
    ensures OnlyChanged(s, r, {ExpandedQueryField})
  {
    s.(expandedQuery := llm(Expansion(s.query, s.queryFeedback)))
  }

  /** `refine_query`: `query_feedback` becomes the previous expanded query
      followed by the model's suggestions; `expanded_query` itself is kept. */
  function RefineQuery(s: AgentState, llm: Prompt -> string): (r: AgentState)
    ensures
      var suggestion := llm(QueryRefinement(s.query, s.expandedQuery));
      && |r.queryFeedback| == |PreviousExpandedQueryLabel| + |s.expandedQuery| + |SuggestionsLabel| + |suggestion|
      && r.queryFeedback[..|PreviousExpandedQueryLabel|] == PreviousExpandedQueryLabel
      && r.queryFeedback[|PreviousExpandedQueryLabel|..|PreviousExpandedQueryLabel| + |s.expandedQuery|] == s.expandedQuery
      && r.queryFeedback[|PreviousExpandedQueryLabel| + |s.expandedQuery|..|PreviousExpandedQueryLabel| + |s.expandedQuery| + |SuggestionsLabel|]
         == SuggestionsLabel
      && r.queryFeedback[|r.queryFeedback| - |suggestion|..] == suggestion
    ensures r.expandedQuery == s.expandedQuery
    ensures OnlyChanged(s, r, {QueryFeedbackField})
  {
    var suggestion := llm(QueryRefinement(s.query, s.expandedQuery));
    s.(queryFeedback := Annotated(PreviousExpandedQueryLabel, s.expandedQuery, suggestion))
  }

  /** `refine_response`: `feedback` becomes the previous response followed
      by the model's suggestions; `response` itself is kept. */
  function RefineResponse(s: AgentState, llm: Prompt -> string): (r: AgentState)
    ensures
      var suggestion := llm(ResponseRefinement(s.query, s.response));
      && |r.feedback| == |PreviousResponseLabel| + |s.response| + |SuggestionsLabel| + |suggestion|
      && r.feedback[..|PreviousResponseLabel|] == PreviousResponseLabel
      && r.feedback[|PreviousResponseLabel|..|PreviousResponseLabel| + |s.response|] == s.response
      && r.feedback[|PreviousResponseLabel| + |s.response|..|PreviousResponseLabel| + |s.response| + |SuggestionsLabel|]
         == SuggestionsLabel
      && r.feedback[|r.feedback| - |suggestion|..] == suggestion
    ensures r.response == s.response
    ensures OnlyChanged(s, r, {FeedbackField})
  {
    var suggestion := llm(ResponseRefinement(s.query, s.response));
    s.(feedback := Annotated(PreviousResponseLabel, s.response, suggestion))
  }

  /** `max_iterations_reached`: no model call; `response` is replaced by the
      fallback message whatever it held. */
  function MaxIterationsReached(s: AgentState): (r: AgentState)
    ensures r.response == FallbackMessage
    ensures OnlyChanged(s, r, {ResponseField})
  {
    s.(response := FallbackMessage)
  }

  /** The `feedback` written by `refine_response` never reaches the
      generator: states that differ only there craft the same response. */
  lemma CraftIgnoresFeedback(a: AgentState, b: AgentState, llm: Prompt -> string)
    requires OnlyChanged(a, b, {FeedbackField})
    ensures CraftResponse(a, llm).response == CraftResponse(b, llm).response
  {
  }

  /** The expansion depends on `query` and `query_feedback` only; in
      particular the response critique in `feedback` never reaches it. */
  lemma ExpansionReadsQueryAndQueryFeedback(a: AgentState, b: AgentState, llm: Prompt -> string)
    requires a.query == b.query && a.queryFeedback == b.queryFeedback
    ensures ExpandQuery(a, llm).expandedQuery == ExpandQuery(b, llm).expandedQuery
  {
  }

  /** Crafting twice from the same inputs is safe to repeat: with a
      deterministic generator the second call changes nothing. */
  lemma CraftIdempotent(s: AgentState, llm: Prompt -> string)
    ensures CraftResponse(CraftResponse(s, llm), llm) == CraftResponse(s, llm)
  {
  }
}
