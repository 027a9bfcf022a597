/** The external collaborators the nodes call: the chat model (through six
    prompt templates), the scorer chains whose output is passed to
    `float(...)`, and the vector-store retriever. The model never computes
    their answers; it receives them as oracle functions and records exactly
    which values each call is given.
 */
module Capabilities {
  import opened AgentStates

  /** The template variables each chain is invoked with, one variant per
      prompt template. */
  datatype Prompt =
    | Expansion(query: string, queryFeedback: string)
    | Generation(query: string, context: string, feedback: string)
    | QueryRefinement(query: string, expandedQuery: string)
    | ResponseRefinement(query: string, response: string)
    | GroundednessRubric(context: string, response: string)
    | PrecisionRubric(query: string, response: string)

  /** The result of `float(chain.invoke(...))` on the scorer's text. */
  datatype ScorerReply = Parsed(score: Float) | ParseError

  /** A document returned by the retriever. */
  datatype Document = Document(pageContent: string, metadata: Metadata)

  /** The only error the nodes themselves raise: a scorer reply that
      `float` rejects (`ValueError`), which aborts the whole run. */
  datatype Error = ScoreParseError(prompt: Prompt)

  datatype Result<T> = Ok(value: T) | Err(error: Error)

  /** The oracles a whole run consults. Each is indexed by the step number
      so that the same prompt may get different answers at different steps,
      as a sampled language model may. */
  datatype Oracles = Oracles(
    llm: (nat, Prompt) -> string,
    scorer: (nat, Prompt) -> ScorerReply,
    retriever: (nat, string) -> seq<Document>
  )

  /** Every scorer reply in the run parses as a float. */
  ghost predicate ScoresParse(o: Oracles) {
    forall t: nat, p: Prompt :: o.scorer(t, p).Parsed?
  }
}
