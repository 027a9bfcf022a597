/** A concrete invocation that executes 33 nodes. The groundedness judge
    answers low for its first three scorings and high afterwards, and the
    precision judge always answers low. The run goes through the
    groundedness loop three times, then the precision loop three times,
    and then falls back. Such runs execute more nodes than a step limit
    of 25 allows.

    The walk is stated in two layers. `PlaysAt` says, one configuration at
    a time, which successor the witness oracles produce; `WitnessPlays`
    proves it of `Next` once. The phases of the walk are then proved for
    any successor function with that behaviour, and only the final count
    goes back to `Run`.
 */
module LongRun {
  import opened AgentStates
  import opened Capabilities
  import Generate
  import opened Workflow
  import Refinement
  import Tool

  const Low: ScorerReply := Parsed(Finite(1.0))
  const High: ScorerReply := Parsed(Finite(5.0))

  /** The step at which the fourth groundedness scoring of the witness run
      happens: `expand_query` and `retrieve_context` take steps 0 and 1, and
      each of the three groundedness retries takes three steps. */
  const FirstHighStep: nat := 12

  /** Groundedness replies are low before `FirstHighStep` and high from
      then on; precision replies are always low. */
  const Witness: Oracles := Oracles(
    (t: nat, p: Prompt) => "",
    (t: nat, p: Prompt) => if p.GroundednessRubric? && t >= FirstHighStep then High else Low,
    (t: nat, q: string) => []
  )

  /** The target of the single edge leaving a node that calls no scorer. */
  function PlainTarget(stage: Stage): Stage {
    match stage
    case ExpandQuery => RetrieveContext
    case RetrieveContext => CraftResponse
    case CraftResponse => ScoreGroundedness
    case RefineResponse => CraftResponse
    case RefineQuery => ExpandQuery
    case MaxIterationsReached => End
    case _ => stage
  }

  datatype Option<T> = None | Some(value: T)

  /** The configuration after `c` at step `t`, if `c` is not `End` and its
      node completes. */
  function Successor(o: Oracles): (Config, nat) -> Option<Config> {
    (c: Config, t: nat) => if c.stage != End && Next(c, o, t).Ok? then Some(Next(c, o, t).value) else None
  }

  /** `next` leads from `x` at step `t` to `y` in exactly `k` steps. */
  ghost predicate Chain<T>(next: (T, nat) -> Option<T>, x: T, t: nat, k: nat, y: T)
    decreases k
  {
    if k == 0 then y == x
    else next(x, t).Some? && Chain(next, next(x, t).value, t + 1, k - 1, y)
  }

  /** A successful step followed by a chain is a chain one longer. */
  lemma ChainCons<T>(next: (T, nat) -> Option<T>, x: T, t: nat, k: nat, z: T)
    requires next(x, t).Some?
    requires Chain(next, next(x, t).value, t + 1, k, z)
    ensures Chain(next, x, t, k + 1, z)
  {
  }

  /** Chains concatenate: `a` steps from step `t` end at step `u`, where
      `b` more begin, `k` in all. */
  lemma {:induction false} ChainCompose<T>(next: (T, nat) -> Option<T>, x: T, t: nat, a: nat, y: T, u: nat, b: nat, z: T, k: nat)
    requires Chain(next, x, t, a, y)
    requires u == t + a
    requires Chain(next, y, u, b, z)
    requires k == a + b
    ensures Chain(next, x, t, k, z)
    decreases a
  {
    if a > 0 {
      ChainCompose(next, next(x, t).value, t + 1, a - 1, y, u, b, z, k - 1);
    }
  }

  /** A measure that drops by one on every step drops by `k` along a
      chain of `k` steps. */
  lemma {:induction false} ChainMeasure<T>(next: (T, nat) -> Option<T>, m: (T, nat) -> int, x: T, t: nat, k: nat, y: T, u: nat)
    requires Chain(next, x, t, k, y)
    requires u == t + k
    requires forall z: T, s: nat :: next(z, s).Some? ==> m(z, s) == 1 + m(next(z, s).value, s + 1)
    ensures m(x, t) == k + m(y, u)
    decreases k
  {
    if k > 0 {
      ChainMeasure(next, m, next(x, t).value, t + 1, k - 1, y, u);
    }
  }

  /** A quantity that no step changes is the same at both ends of a
      chain. */
  lemma {:induction false} ChainInvariant<T, V>(next: (T, nat) -> Option<T>, f: (T, nat) -> V, x: T, t: nat, k: nat, y: T, u: nat)
    requires Chain(next, x, t, k, y)
    requires u == t + k
    requires forall z: T, s: nat :: next(z, s).Some? ==> f(z, s) == f(next(z, s).value, s + 1)
    ensures f(x, t) == f(y, u)
    decreases k
  {
    if k > 0 {
      ChainInvariant(next, f, next(x, t).value, t + 1, k - 1, y, u);
    }
  }

  /** The number of nodes the run from `c` at step `t` visits. */
  function Length(o: Oracles): (Config, nat) -> int {
    (c: Config, t: nat) => |Run(c, o, t).visited|
  }

  /** How the run from `c` at step `t` ends. */
  function Outcome(o: Oracles): (Config, nat) -> Result<AgentState> {
    (c: Config, t: nat) => Run(c, o, t).outcome
  }

  /** Every successful step adds one node to the run and leaves its
      outcome as it is. */
  lemma RunSteps(o: Oracles)
    ensures forall c: Config, t: nat :: Successor(o)(c, t).Some? ==>
      Length(o)(c, t) == 1 + Length(o)(Successor(o)(c, t).value, t + 1)
    ensures forall c: Config, t: nat :: Successor(o)(c, t).Some? ==>
      Outcome(o)(c, t) == Outcome(o)(Successor(o)(c, t).value, t + 1)
  {
    forall c: Config, t: nat | Successor(o)(c, t).Some?
      ensures Length(o)(c, t) == 1 + Length(o)(Successor(o)(c, t).value, t + 1)
      ensures Outcome(o)(c, t) == Outcome(o)(Successor(o)(c, t).value, t + 1)
    {
      Refinement.RunStep(c, o, t);
    }
  }

  /** The counters of a configuration. */
  function Counters(c: Config): (int, int, int) {
    (c.state.groundednessLoopCount, c.state.precisionLoopCount, c.state.loopMaxIter)
  }

  /** What the witness oracles make of `c` at step `t`: a plain node
      follows its edge; a groundedness scoring passes from
      `FirstHighStep` on and is sent to `refine_response` before it while
      the counter is below the ceiling; a precision check always fails. */
  ghost predicate PlaysAt(next: (Config, nat) -> Option<Config>, c: Config, t: nat) {
    var (g, p, n) := Counters(c);
    && (c.stage in {ExpandQuery, RetrieveContext, CraftResponse, RefineResponse, RefineQuery} ==>
          && next(c, t).Some?
          && next(c, t).value.stage == PlainTarget(c.stage)
          && Counters(next(c, t).value) == (g, p, n))
    && (c.stage == ScoreGroundedness && t >= FirstHighStep ==>
          && next(c, t).Some?
          && next(c, t).value.stage == CheckPrecision
          && Counters(next(c, t).value).1 == p
          && Counters(next(c, t).value).2 == n)
    && (c.stage == ScoreGroundedness && t < FirstHighStep && g < n ==>
          && next(c, t).Some?
          && next(c, t).value.stage == RefineResponse
          && Counters(next(c, t).value) == (g + 1, p, n))
    && (c.stage == CheckPrecision ==>
          && next(c, t).Some?
          && next(c, t).value.stage == (if p + 1 > n then MaxIterationsReached else RefineQuery)
          && Counters(next(c, t).value).1 == p + 1
          && Counters(next(c, t).value).2 == n)
  }

  ghost predicate Plays(next: (Config, nat) -> Option<Config>) {
    forall c: Config, t: nat :: PlaysAt(next, c, t)
  }

  lemma WitnessPlain(c: Config, t: nat)
    requires c.stage in {ExpandQuery, RetrieveContext, CraftResponse, RefineResponse, RefineQuery}
    ensures PlaysAt(Successor(Witness), c, t)
  {
    var c' := Refinement.PlainStep(c, Witness, t);
  }

  lemma WitnessGroundedness(c: Config, t: nat)
    requires c.stage == ScoreGroundedness
    ensures PlaysAt(Successor(Witness), c, t)
  {
    Refinement.GroundednessRouting(Next(c, Witness, t).value.state);
  }

  lemma WitnessPrecision(c: Config, t: nat)
    requires c.stage == CheckPrecision
    ensures PlaysAt(Successor(Witness), c, t)
  {
    Refinement.PrecisionRouting(Next(c, Witness, t).value.state);
  }

  /** The witness oracles behave as `PlaysAt` says at every configuration
      and step. */
  lemma WitnessPlays()
    ensures Plays(Successor(Witness))
  {
    forall c: Config, t: nat
      ensures PlaysAt(Successor(Witness), c, t)
    {
      if c.stage == ScoreGroundedness {
        WitnessGroundedness(c, t);
      } else if c.stage == CheckPrecision {
        WitnessPrecision(c, t);
      } else if c.stage in {ExpandQuery, RetrieveContext, CraftResponse, RefineResponse, RefineQuery} {
        WitnessPlain(c, t);
      }
    }
  }

  /** `refine_query`, `expand_query` and `retrieve_context` lead to
      `craft_response` without touching a counter. */
  lemma Restart(next: (Config, nat) -> Option<Config>, c: Config, t: nat) returns (c': Config)
    requires Plays(next)
    requires c.stage == RefineQuery
    ensures c'.stage == CraftResponse
    ensures Counters(c') == Counters(c)
    ensures Chain(next, c, t, 3, c')
  {
    assert PlaysAt(next, c, t);
    var c1 := next(c, t).value;
    assert PlaysAt(next, c1, t + 1);
    var c2 := next(c1, t + 1).value;
    assert PlaysAt(next, c2, t + 2);
    c' := next(c2, t + 2).value;
    ChainCons(next, c2, t + 2, 0, c');
    ChainCons(next, c1, t + 1, 1, c');
    ChainCons(next, c, t, 2, c');
  }

  /** Crafting and a passing groundedness scoring: two nodes to
      `check_precision`. */
  lemma Recraft(next: (Config, nat) -> Option<Config>, c: Config, t: nat) returns (c': Config)
    requires Plays(next)
    requires c.stage == CraftResponse
    requires t + 1 >= FirstHighStep
    ensures c'.stage == CheckPrecision
    ensures Counters(c').1 == Counters(c).1
    ensures Counters(c').2 == Counters(c).2
    ensures Chain(next, c, t, 2, c')
  {
    assert PlaysAt(next, c, t);
    var c1 := next(c, t).value;
    assert PlaysAt(next, c1, t + 1);
    c' := next(c1, t + 1).value;
    ChainCons(next, c1, t + 1, 0, c');
    ChainCons(next, c, t, 1, c');
  }

  /** A low precision check with the counter below the ceiling, followed
      by a retry once the groundedness judge is high: six nodes back to
      `check_precision`, one more on the precision counter. */
  lemma PrecisionRound(next: (Config, nat) -> Option<Config>, c: Config, t: nat) returns (c': Config)
    requires Plays(next)
    requires c.stage == CheckPrecision
    requires c.state.precisionLoopCount < c.state.loopMaxIter
    requires t + 5 >= FirstHighStep
    ensures c'.stage == CheckPrecision
    ensures Counters(c').1 == Counters(c).1 + 1
    ensures Counters(c').2 == Counters(c).2
    ensures Chain(next, c, t, 6, c')
  {
    assert PlaysAt(next, c, t);
    var c1 := next(c, t).value;
    var c4 := Restart(next, c1, t + 1);
    c' := Recraft(next, c4, t + 4);
    ChainCompose(next, c1, t + 1, 3, c4, t + 4, 2, c', 5);
    ChainCons(next, c, t, 5, c');
  }

  /** From `check_precision` with precision counter `p <= loop_max_iter`,
      after the groundedness judge has turned high: each precision retry
      takes six nodes, and the last precision check leads to
      `max_iterations_reached`. */
  lemma {:induction false} PrecisionPhase(next: (Config, nat) -> Option<Config>, c: Config, t: nat) returns (e: Config)
    requires Plays(next)
    requires c.stage == CheckPrecision
    requires 0 <= c.state.precisionLoopCount <= c.state.loopMaxIter
    requires t >= FirstHighStep
    ensures e.stage == MaxIterationsReached
    ensures Chain(next, c, t, 1 + 6 * (c.state.loopMaxIter - c.state.precisionLoopCount), e)
    decreases c.state.loopMaxIter - c.state.precisionLoopCount
  {
    if c.state.precisionLoopCount == c.state.loopMaxIter {
      assert PlaysAt(next, c, t);
      e := next(c, t).value;
      ChainCons(next, c, t, 0, e);
    } else {
      var c' := PrecisionRound(next, c, t);
      e := PrecisionPhase(next, c', t + 6);
      ChainCompose(next, c, t, 6, c', t + 6, 1 + 6 * (c'.state.loopMaxIter - c'.state.precisionLoopCount), e,
                   1 + 6 * (c.state.loopMaxIter - c.state.precisionLoopCount));
    }
  }

  /** A groundedness retry before `FirstHighStep`: crafting, a low
      scoring and `refine_response` lead back to `craft_response` with one
      more on the groundedness counter. */
  lemma GroundednessRetry(next: (Config, nat) -> Option<Config>, c: Config, t: nat) returns (c': Config)
    requires Plays(next)
    requires c.stage == CraftResponse
    requires t + 1 < FirstHighStep
    requires c.state.groundednessLoopCount < c.state.loopMaxIter
    ensures c'.stage == CraftResponse
    ensures Counters(c') == (Counters(c).0 + 1, Counters(c).1, Counters(c).2)
    ensures Chain(next, c, t, 3, c')
  {
    assert PlaysAt(next, c, t);
    var c1 := next(c, t).value;
    assert PlaysAt(next, c1, t + 1);
    var c2 := next(c1, t + 1).value;
    assert PlaysAt(next, c2, t + 2);
    c' := next(c2, t + 2).value;
    ChainCons(next, c2, t + 2, 0, c');
    ChainCons(next, c1, t + 1, 1, c');
    ChainCons(next, c, t, 2, c');
  }

  /** From `craft_response` with groundedness counter `g <= 3` at step
      `2 + 3 * g` and precision counter 0: each remaining groundedness
      retry takes three nodes, then `craft_response` and the fourth
      scoring, and then the precision phase's nineteen steps to
      `max_iterations_reached`. */
  lemma {:induction false} GroundednessPhase(next: (Config, nat) -> Option<Config>, c: Config, t: nat) returns (e: Config)
    requires Plays(next)
    requires c.stage == CraftResponse
    requires c.state.loopMaxIter == Tool.LoopMaxIter
    requires 0 <= c.state.groundednessLoopCount <= c.state.loopMaxIter
    requires c.state.precisionLoopCount == 0
    requires t == 2 + 3 * c.state.groundednessLoopCount
    ensures e.stage == MaxIterationsReached
    ensures Chain(next, c, t, 21 + 3 * (c.state.loopMaxIter - c.state.groundednessLoopCount), e)
    decreases c.state.loopMaxIter - c.state.groundednessLoopCount
  {
    if c.state.groundednessLoopCount == c.state.loopMaxIter {
      var c2 := Recraft(next, c, t);
      e := PrecisionPhase(next, c2, t + 2);
      ChainCompose(next, c, t, 2, c2, t + 2, 19, e, 21);
    } else {
      var c3 := GroundednessRetry(next, c, t);
      e := GroundednessPhase(next, c3, t + 3);
      ChainCompose(next, c, t, 3, c3, t + 3, 21 + 3 * (c3.state.loopMaxIter - c3.state.groundednessLoopCount), e,
                   21 + 3 * (c.state.loopMaxIter - c.state.groundednessLoopCount));
    }
  }

  /** From the initial record, two plain steps reach `craft_response`,
      and the groundedness phase then reaches `max_iterations_reached`:
      32 steps in all. */
  lemma WalkFromStart(next: (Config, nat) -> Option<Config>, s: AgentState) returns (e: Config)
    requires Plays(next)
    requires s.groundednessLoopCount == 0 && s.precisionLoopCount == 0
    requires s.loopMaxIter == Tool.LoopMaxIter
    ensures e.stage == MaxIterationsReached
    ensures Chain(next, Config(Start, s), 0, 32, e)
  {
    var c0 := Config(Start, s);
    assert PlaysAt(next, c0, 0);
    var c1 := next(c0, 0).value;
    assert PlaysAt(next, c1, 1);
    var c2 := next(c1, 1).value;
    assert Counters(c2) == (0, 0, 3);
    e := GroundednessPhase(next, c2, 2);
    ChainCons(next, c1, 1, 30, e);
    ChainCons(next, c0, 0, 31, e);
  }

  /** A run that reaches the fallback node `k` steps in has `k + 1` nodes
      and ends as the fallback does. */
  lemma ChainToFallback(c: Config, o: Oracles, k: nat, e: Config)
    requires Chain(Successor(o), c, 0, k, e)
    requires e.stage == MaxIterationsReached
    ensures |Run(c, o, 0).visited| == k + 1
    ensures Run(c, o, 0).outcome == Run(e, o, k).outcome
  {
    RunSteps(o);
    ChainMeasure(Successor(o), Length(o), c, 0, k, e, k);
    ChainInvariant(Successor(o), Outcome(o), c, 0, k, e, k);
    Refinement.FallbackEndsRun(e, o, k);
  }

  /** The witness invocation executes 33 nodes: two to reach generation,
      three groundedness retries of three nodes, one final crafting and
      scoring, three precision retries of six nodes, and the last precision
      check followed by the fallback, whose answer it returns. */
  lemma ThirtyThreeNodeRun(query: string)
    ensures |Tool.AgenticRag(query, Witness).visited| == 33
    ensures Tool.AgenticRag(query, Witness).outcome.Ok?
    ensures Tool.AgenticRag(query, Witness).outcome.value.response == Generate.FallbackMessage
  {
    var s := Tool.InitialState(query);
    WitnessPlays();
    var e := WalkFromStart(Successor(Witness), s);
    ChainToFallback(Config(Start, s), Witness, 32, e);
    Refinement.FallbackEndsRun(e, Witness, 32);
  }
}
