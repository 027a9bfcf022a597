/** The shared record that every node of the refinement graph reads and
    returns (`AgentState` in the workflow), together with the small value
    types it is built from: Python floats, retrieved context entries and the
    "\n".join used to hand the context to the language model.
 */
module AgentStates {

  /** A Python float as `float(text)` can produce it. Finite values are kept
      exactly; the three special values matter because `float` accepts
      "nan" and "inf" and they compare differently with the threshold. */
  datatype Float = Finite(value: real) | PosInf | NegInf | NaN

  /** Python's `x >= y` on floats: every comparison with NaN is False. */
  predicate AtLeast(x: Float, y: real) {
    match x
    case Finite(v) => v >= y
    case PosInf => true
    case NegInf => false
    case NaN => false
  }

  /** Document metadata (source, page, ...), with values kept as text. */
  type Metadata = map<string, string>

  /** One retrieved passage: `{"content": ..., "metadata": ...}`. */
  datatype ContextEntry = ContextEntry(content: string, metadata: Metadata)

  datatype AgentState = AgentState(
    query: string,
    expandedQuery: string,
    context: seq<ContextEntry>,
    response: string,
    precisionScore: Float,
    groundednessScore: Float,
    groundednessLoopCount: int,
    precisionLoopCount: int,
    feedback: string,
    queryFeedback: string,
    loopMaxIter: int
  )

  /** The fields of `AgentState`, used to state which ones a node writes. */
  datatype Field =
    | QueryField
    | ExpandedQueryField
    | ContextField
    | ResponseField
    | PrecisionScoreField
    | GroundednessScoreField
    | GroundednessLoopCountField
    | PrecisionLoopCountField
    | FeedbackField
    | QueryFeedbackField
    | LoopMaxIterField

  /** `a` and `b` hold the same value in field `f`. */
  predicate Agree(a: AgentState, b: AgentState, f: Field) {
    match f
    case QueryField => a.query == b.query
    case ExpandedQueryField => a.expandedQuery == b.expandedQuery
    case ContextField => a.context == b.context
    case ResponseField => a.response == b.response
    case PrecisionScoreField => a.precisionScore == b.precisionScore
    case GroundednessScoreField => a.groundednessScore == b.groundednessScore
    case GroundednessLoopCountField => a.groundednessLoopCount == b.groundednessLoopCount
    case PrecisionLoopCountField => a.precisionLoopCount == b.precisionLoopCount
    case FeedbackField => a.feedback == b.feedback
    case QueryFeedbackField => a.queryFeedback == b.queryFeedback
    case LoopMaxIterField => a.loopMaxIter == b.loopMaxIter
  }

  /** Going from `a` to `b` changed no field outside `written`. */
  predicate OnlyChanged(a: AgentState, b: AgentState, written: set<Field>) {
    && (QueryField in written || a.query == b.query)
    && (ExpandedQueryField in written || a.expandedQuery == b.expandedQuery)
    && (ContextField in written || a.context == b.context)
    && (ResponseField in written || a.response == b.response)
    && (PrecisionScoreField in written || a.precisionScore == b.precisionScore)
    && (GroundednessScoreField in written || a.groundednessScore == b.groundednessScore)
    && (GroundednessLoopCountField in written || a.groundednessLoopCount == b.groundednessLoopCount)
    && (PrecisionLoopCountField in written || a.precisionLoopCount == b.precisionLoopCount)
    && (FeedbackField in written || a.feedback == b.feedback)
    && (QueryFeedbackField in written || a.queryFeedback == b.queryFeedback)
    && (LoopMaxIterField in written || a.loopMaxIter == b.loopMaxIter)
  }

  /** `OnlyChanged` is exactly "every field outside `written` agrees". */
  lemma OnlyChangedMeansAgree(a: AgentState, b: AgentState, written: set<Field>)
    ensures OnlyChanged(a, b, written) <==> forall f: Field :: f !in written ==> Agree(a, b, f)
  {
  }

  /** Python's `sep.join(parts)` for a one-character separator. */
  function Join(parts: seq<string>, sep: char): string
    decreases |parts|
  {
    if |parts| == 0 then ""
    else if |parts| == 1 then parts[0]
    else parts[0] + [sep] + Join(parts[1..], sep)
  }

  /** Python's `text.split(sep)` for a one-character separator. */
  function Split(text: string, sep: char): (r: seq<string>)
    ensures |r| >= 1
    decreases |text|
  {
    if |text| == 0 then [""]
    else if text[0] == sep then [""] + Split(text[1..], sep)
    else
      var rest := Split(text[1..], sep);
      [[text[0]] + rest[0]] + rest[1..]
  }

  /** `[doc["content"] for doc in context]`. */
  function Contents(context: seq<ContextEntry>): (r: seq<string>)
    ensures |r| == |context|
    ensures forall i :: 0 <= i < |context| ==> r[i] == context[i].content
  {
    seq(|context|, i requires 0 <= i < |context| => context[i].content)
  }

  /** The text the language model sees as `{context}`:
      `"\n".join([doc["content"] for doc in state['context']])`. */
  function JoinedContext(context: seq<ContextEntry>): (r: string)
    ensures |context| == 0 ==> r == ""
    ensures |context| == 1 ==> r == context[0].content
  {
    Join(Contents(context), '\n')
  }

  /** Splitting a text with no separator in it gives back the text alone. */
  lemma {:induction false} SplitNoSeparator(text: string, sep: char)
    requires sep !in text
    ensures Split(text, sep) == [text]
    decreases |text|
  {
    if |text| > 0 {
      assert sep !in text[1..] by {
        forall k | 0 <= k < |text[1..]| ensures text[1..][k] != sep {
          assert text[1..][k] == text[k + 1];
        }
      }
      SplitNoSeparator(text[1..], sep);
      assert [text[0]] + text[1..] == text;
    }
  }

  /** A separator-free head splits off as one piece. */
  lemma {:induction false} SplitAfterPiece(piece: string, sep: char, rest: string)
    requires sep !in piece
    ensures Split(piece + [sep] + rest, sep) == [piece] + Split(rest, sep)
    decreases |piece|
  {
    var text := piece + [sep] + rest;
    if |piece| == 0 {
      assert text == [sep] + rest;
      assert text[1..] == rest;
    } else {
      assert sep !in piece[1..] by {
        forall k | 0 <= k < |piece[1..]| ensures piece[1..][k] != sep {
          assert piece[1..][k] == piece[k + 1];
        }
      }
      assert text[0] == piece[0];
      assert text[1..] == piece[1..] + [sep] + rest;
      SplitAfterPiece(piece[1..], sep, rest);
      assert [piece[0]] + piece[1..] == piece;
    }
  }

  /** Joining is undone by splitting, provided no part contains the
      separator and there is at least one part (`"".split("\n")` is `[""]`,
      not `[]`), so the joined context loses no passage boundary. */
  lemma {:induction false} SplitJoin(parts: seq<string>, sep: char)
    requires |parts| >= 1
    requires forall i :: 0 <= i < |parts| ==> sep !in parts[i]
    ensures Split(Join(parts, sep), sep) == parts
    decreases |parts|
  {
    if |parts| == 1 {
      SplitNoSeparator(parts[0], sep);
    } else {
      SplitAfterPiece(parts[0], sep, Join(parts[1..], sep));
      SplitJoin(parts[1..], sep);
      assert [parts[0]] + parts[1..] == parts;
    }
  }

  /** The joined context has the passages' lengths plus one newline between
      each two of them. */
  lemma {:induction false} JoinLength(parts: seq<string>, sep: char)
    requires |parts| >= 1
    ensures |Join(parts, sep)| == TotalLength(parts) + |parts| - 1
    decreases |parts|
  {
    if |parts| > 1 {
      JoinLength(parts[1..], sep);
    }
  }

  function TotalLength(parts: seq<string>): nat
    decreases |parts|
  {
    if |parts| == 0 then 0 else |parts[0]| + TotalLength(parts[1..])
  }
}
