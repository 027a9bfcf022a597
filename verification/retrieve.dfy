/** The `retrieve_context` node: query the vector store with the expanded
    query and keep every returned document's content and metadata.
 */
module Retrieve {
  import opened AgentStates
  import opened Capabilities

  /** One context entry per document, in the retriever's order, each copying
      the document's page content and metadata unchanged. */
  function ToContext(docs: seq<Document>): (r: seq<ContextEntry>)
    ensures |r| == |docs|
    ensures forall i :: 0 <= i < |docs| ==>
      r[i].content == docs[i].pageContent && r[i].metadata == docs[i].metadata
  {
    seq(|docs|, i requires 0 <= i < |docs| => ContextEntry(docs[i].pageContent, docs[i].metadata))
  }

  /** `retrieve_context`: the retriever is keyed on `expanded_query`, the
      documents become the new `context`, and nothing else is written. An
      empty result is a valid, empty context. */
  function RetrieveContext(s: AgentState, retriever: string -> seq<Document>): (r: AgentState)
    ensures |r.context| == |retriever(s.expandedQuery)|
    ensures forall i :: 0 <= i < |r.context| ==>
      r.context[i].content == retriever(s.expandedQuery)[i].pageContent &&
      r.context[i].metadata == retriever(s.expandedQuery)[i].metadata
    ensures |retriever(s.expandedQuery)| == 0 ==> r.context == [] && JoinedContext(r.context) == ""
    ensures OnlyChanged(s, r, {ContextField})
  {
    s.(context := ToContext(retriever(s.expandedQuery)))
  }

  /** The original `query` plays no part in retrieval: two states that differ
      only in `query` retrieve the same context. */
  lemma RetrievalIgnoresQuery(a: AgentState, b: AgentState, retriever: string -> seq<Document>)
    requires OnlyChanged(a, b, {QueryField})
    ensures RetrieveContext(a, retriever).context == RetrieveContext(b, retriever).context
  {
  }
}
