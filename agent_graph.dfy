/**
 * The agent graph: plan, then tool execution, then evaluation, then either another round or
 * synthesis. The iteration limit comes from the environment variable KB_AGENT_MAX_ITERATIONS,
 * read with Python's `int()` and clamped to 1..5; the environment is a parameter.
 */
module AgentGraph {
  import opened Wrappers
  import opened Json
  import opened Text
  import opened AgentText
  import opened AgentState
  import opened Nodes

  // ------------------------------------------------------------------ int()

  /** Digits with single underscores between them, as `int()` accepts them. */
  predicate UnderscoredDigits(t: string)
  {
    && |t| > 0 && IsDigit(t[0]) && IsDigit(t[|t| - 1])
    && (forall i :: 0 <= i < |t| ==> IsDigit(t[i]) || t[i] == '_')
    && !Contains(t, "__")
  }

  function RemoveUnderscores(t: string): (r: string)
    ensures (forall i :: 0 <= i < |t| ==> IsDigit(t[i]) || t[i] == '_') ==> AllDigits(r)
    ensures AllDigits(t) ==> r == t
  {
    if |t| == 0 then [] else RemoveUnderscores(t[..|t| - 1]) + (if t[|t| - 1] == '_' then [] else [t[|t| - 1]])
  }

  /** The message of the ValueError `int()` raises: the text as `repr` writes it. */
  function IntError(s: string): string
  {
    "invalid literal for int() with base 10: " + Repr(s)
  }

  /**
   * `int(s)` in base 10: surrounding whitespace ignored, an optional sign, then digits with
   * single underscores between them; anything else raises ValueError.
   */
  function ParseInt(s: string): Result<int>
  {
    match ParseStripped(Strip(s))
    case Some(v) => Success(v)
    case None => Failure(IntError(s))
  }

  /** The integer the stripped text `t` spells, or None where `int()` refuses it. */
  function ParseStripped(t: string): Option<int>
  {
    var signed := |t| > 0 && (t[0] == '-' || t[0] == '+');
    var body := if signed then t[1..] else t;
    if !UnderscoredDigits(body) then None
    else
      var v: int := DigitsValue(RemoveUnderscores(body));
      Some(if signed && t[0] == '-' then -v else v)
  }

  /** A digit string is already in the form `int()` reads, with nothing to strip. */
  lemma DigitStringShape(d: string)
    requires IsDigitString(d)
    ensures UnderscoredDigits(d) && RemoveUnderscores(d) == d
  {
    assert !Contains(d, "__") by {
      forall j | 0 <= j <= |d| - 2
        ensures !OccursAt(d, "__", j)
      {
        assert d[j..j + 2][0] == d[j];
      }
    }
  }

  lemma DigitStringStrips(d: string)
    requires IsDigitString(d)
    ensures Strip(d) == d && Strip("-" + d) == "-" + d
  {
    assert !IsSpace(d[0]) && !IsSpace(d[|d| - 1]);
    StripOfStripped(d);
    var m := "-" + d;
    assert m[0] == '-' && m[|m| - 1] == d[|d| - 1];
    StripOfStripped(m);
  }

  lemma UnsignedDigitsParse(d: string)
    requires IsDigitString(d)
    ensures ParseStripped(d) == Some(DigitsValue(d) as int)
  {
    DigitStringShape(d);
    assert IsDigit(d[0]);
  }

  lemma SignedDigitsParse(d: string)
    requires IsDigitString(d)
    ensures ParseStripped("-" + d) == Some(-(DigitsValue(d) as int))
  {
    DigitStringShape(d);
    assert ("-" + d)[1..] == d;
  }

  /** A digit string, with or without a minus sign, reads as its value. */
  lemma DigitStringParses(d: string)
    requires IsDigitString(d)
    ensures ParseInt(d) == Success(DigitsValue(d))
    ensures ParseInt("-" + d) == Success(-(DigitsValue(d) as int))
  {
    DigitStringStrips(d);
    UnsignedDigitsParse(d);
    SignedDigitsParse(d);
  }

  /** `int(str(i)) == i`: the text Python prints for an integer reads back as that integer. */
  lemma ParseIntRoundTrip(i: int)
    ensures ParseInt(IntToString(i)) == Success(i)
  {
    var n: nat := if i < 0 then -i else i;
    DigitStringParses(NatToString(n));
    DigitsOfNat(n);
  }

  /**
   * Text holding a character that is none of a digit, `_`, a sign or whitespace is refused, with
   * the message naming the whole text.
   */
  lemma ParseIntRefusesStrayCharacter(s: string, i: nat)
    requires i < |s| && !IsDigit(s[i]) && s[i] != '_' && s[i] != '-' && s[i] != '+' && !IsSpace(s[i])
    ensures ParseInt(s) == Failure(IntError(s))
  {
    StripKeepsNonSpace(s, i);
    var t := Strip(s);
    var j :| 0 <= j < |t| && t[j] == s[i];
    var signed := |t| > 0 && (t[0] == '-' || t[0] == '+');
    var body := if signed then t[1..] else t;
    assert !UnderscoredDigits(body);
  }

  /** Empty or blank text is refused, with the message naming it. */
  lemma ParseIntRefusesBlank(s: string)
    requires forall i :: 0 <= i < |s| ==> IsSpace(s[i])
    ensures ParseInt(s) == Failure(IntError(s))
  {
    StripOfBlank(s);
  }

  /** The refused text is quoted as `repr` quotes it: in double quotes when it holds a single quote. */
  lemma ParseIntQuotesLikeRepr()
    ensures ParseInt("it's") == Failure("invalid literal for int() with base 10: \"it's\"")
  {
    assert !IsSpace('i') && !IsSpace('s');
    StripOfStripped("it's");
    assert !UnderscoredDigits("it's") by {
      assert !IsDigit("it's"[0]);
    }
    assert "it's"[2] == '\'';
    ReprOfPlain("it's");
  }

  // ------------------------------------------------------------------ routing

  const MaxIterVar: string := "KB_AGENT_MAX_ITERATIONS"
  const DefaultMaxIter: string := "1"
  const PlanLabel: string := "plan"
  const ToolLabel: string := "tool_exec"
  const EvaluateLabel: string := "evaluate"
  const SynthesizeLabel: string := "synthesize"

  /** The iteration limit: the variable (default "1") read as an integer and clamped to 1..5. */
  function MaxIter(env: Option<string>): (r: Result<int>)
    ensures r.Success? ==> 1 <= r.value <= 5
    ensures r.Failure? <==> ParseInt(env.GetOr(DefaultMaxIter)).Failure?
    ensures r.Failure? ==> r.error == IntError(env.GetOr(DefaultMaxIter))
    ensures r.Success? && 1 <= ParseInt(env.GetOr(DefaultMaxIter)).value <= 5 ==> r.value == ParseInt(env.GetOr(DefaultMaxIter)).value
  {
    var n := ParseInt(env.GetOr(DefaultMaxIter));
    if n.Failure? then Failure(n.error)
    else Success(if n.value < 1 then 1 else if n.value > 5 then 5 else n.value)
  }

  /** Without the variable the graph makes a single round. */
  lemma MaxIterDefault()
    ensures MaxIter(None) == Success(1)
  {
    ParseIntRoundTrip(1);
    assert IntToString(1) == DefaultMaxIter;
  }

  /** The setting is clamped: any integer text gives a limit in 1..5, the integer itself when it lies there. */
  lemma MaxIterClamps(i: int)
    ensures MaxIter(Some(IntToString(i))) == Success(if i < 1 then 1 else if i > 5 then 5 else i)
  {
    ParseIntRoundTrip(i);
  }

  /**
   * `_route_after_evaluate`: the limit is read first (its ValueError propagates); a truthy
   * verdict or an iteration at the limit goes to synthesis, anything else to another round.
   */
  function Route(s: State, env: Option<string>): (r: Result<string>)
    ensures r.Success? ==> r.value == SynthesizeLabel || r.value == PlanLabel
    ensures r.Failure? <==> MaxIter(env).Failure?
    ensures r.Success? ==> (r.value == PlanLabel <==> !Truthy(s.isSufficient) && s.iteration < MaxIter(env).value)
  {
    RouteWith(s, MaxIter(env))
  }

  /** The routing decision once the limit has been read. */
  function RouteWith(s: State, limit: Result<int>): Result<string>
  {
    if limit.Failure? then Failure(limit.error)
    else if Truthy(s.isSufficient) then Success(SynthesizeLabel)
    else if s.iteration >= limit.value then Success(SynthesizeLabel)
    else Success(PlanLabel)
  }

  // ------------------------------------------------------------------ the compiled graph

  /** The collaborators a run calls: the model, the JSON parser and the tools. */
  datatype Oracles = Oracles(llm: Llm, loads: Loads, invoke: Invoke)

  /** The end of a run: the final state and the node names in the order they ran. */
  datatype Run = Run(final: State, trace: seq<string>)

  /** `k` rounds of plan, tool execution and evaluation. */
  function Rounds(k: nat): (r: seq<string>)
    ensures |r| == 3 * k
  {
    if k == 0 then [] else [PlanLabel, ToolLabel, EvaluateLabel] + Rounds(k - 1)
  }

  /** One round: plan, execute, evaluate, each update applied in turn; the first exception ends it. */
  function Round(s: State, o: Oracles): Result<State>
  {
    var plan := PlanSpec(s, o.llm, o.loads);
    if plan.Failure? then Failure(plan.error)
    else
      var s1 := Apply(s, plan.value);
      var tools := ToolNodeSpec(s1, o.invoke);
      if tools.Failure? then Failure(tools.error)
      else
        var s2 := Apply(s1, tools.value);
        var eval := EvaluateNode(s2, o.llm, o.loads);
        if eval.Failure? then Failure(eval.error)
        else Success(Apply(s2, eval.value))
  }

  /** A round advances the iteration by one, clears the plan, and keeps the question and history. */
  lemma RoundAdvances(s: State, o: Oracles)
    ensures Round(s, o).Success? ==>
      Round(s, o).value.iteration == s.iteration + 1 && Round(s, o).value.pending == []
    ensures Round(s, o).Success? ==> Round(s, o).value.query == s.query && Round(s, o).value.messages == s.messages
  {
    var plan := PlanSpec(s, o.llm, o.loads);
    if plan.Success? {
      PlanNeverEmpty(s, o.llm, o.loads);
      var s1 := Apply(s, plan.value);
      ToolNodeAppends(s1, o.invoke);
    }
  }

  /** A round function that always advances the iteration by one. */
  ghost predicate Advances(round: State -> Result<State>)
  {
    forall st :: round(st).Success? ==> round(st).value.iteration == st.iteration + 1
  }

  /** A final node that sets only the answer. */
  ghost predicate AnswersOnly(synth: State -> Result<Update>)
  {
    forall st :: synth(st).Success? ==> synth(st).value == NoUpdate.(finalAnswer := synth(st).value.finalAnswer)
  }

  /** The graph driven by one round function and one final node, from `plan` until `synthesize`. */
  function RunWith(s: State, limit: Result<int>, round: State -> Result<State>, synth: State -> Result<Update>): Result<Run>
    requires Advances(round)
    decreases if limit.Success? && s.iteration < limit.value then limit.value - s.iteration else 0
  {
    var after := round(s);
    if after.Failure? then Failure(after.error)
    else
      var route := RouteWith(after.value, limit);
      if route.Failure? then Failure(route.error)
      else if route.value == SynthesizeLabel then
        var answer := synth(after.value);
        if answer.Failure? then Failure(answer.error)
        else Success(Run(Apply(after.value, answer.value), Rounds(1) + [SynthesizeLabel]))
      else
        var rest := RunWith(after.value, limit, round, synth);
        if rest.Failure? then rest
        else Success(Run(rest.value.final, Rounds(1) + rest.value.trace))
  }

  /**
   * A run that ends ends through `synthesize` after one or more rounds: never more rounds than
   * the limit allows past the starting iteration (at least one is always made); the iteration
   * counts the rounds; and the last verdict was truthy or the limit was reached.
   */
  lemma {:induction false} RunWithShape(s: State, limit: Result<int>, round: State -> Result<State>, synth: State -> Result<Update>)
    requires Advances(round) && AnswersOnly(synth) && RunWith(s, limit, round, synth).Success?
    ensures limit.Success?
    ensures var run := RunWith(s, limit, round, synth).value;
      && |run.trace| % 3 == 1 && 1 <= |run.trace| / 3
      && run.trace == Rounds(|run.trace| / 3) + [SynthesizeLabel]
      && run.final.iteration == s.iteration + |run.trace| / 3
      && (|run.trace| / 3 == 1 || s.iteration + |run.trace| / 3 <= limit.value)
      && (Truthy(run.final.isSufficient) || run.final.iteration >= limit.value)
    decreases if limit.Success? && s.iteration < limit.value then limit.value - s.iteration else 0
  {
    var after := round(s).value;
    var route := RouteWith(after, limit);
    if route.value != SynthesizeLabel {
      RunWithShape(after, limit, round, synth);
      var rest := RunWith(after, limit, round, synth).value;
      var k := |rest.trace| / 3;
      assert Rounds(1) + (Rounds(k) + [SynthesizeLabel]) == Rounds(k + 1) + [SynthesizeLabel];
    } else {
      assert Rounds(1) + [SynthesizeLabel] == [PlanLabel, ToolLabel, EvaluateLabel, SynthesizeLabel];
    }
  }

  /**
   * The compiled graph: rounds of the three nodes, then `synthesize_node`. The router reads the
   * same environment after every round, so the limit it finds is the same each time.
   */
  function RunFrom(s: State, env: Option<string>, o: Oracles): Result<Run>
  {
    var round := st => Round(st, o);
    var synth := st => SynthesizeNode(st, o.llm);
    assert Advances(round) by {
      forall st ensures round(st).Success? ==> round(st).value.iteration == st.iteration + 1 {
        RoundAdvances(st, o);
      }
    }
    RunWith(s, MaxIter(env), round, synth)
  }

  /**
   * A run of the compiled graph that ends has passed through plan, tool execution and
   * evaluation at least once and then synthesis once; each round advanced the iteration by one,
   * no round was started at or past the limit except the first, and the run stopped only on a
   * truthy verdict or at the limit.
   */
  lemma RunShape(s: State, env: Option<string>, o: Oracles)
    requires RunFrom(s, env, o).Success?
    ensures MaxIter(env).Success?
    ensures var run := RunFrom(s, env, o).value;
      && |run.trace| % 3 == 1 && 1 <= |run.trace| / 3
      && run.trace == Rounds(|run.trace| / 3) + [SynthesizeLabel]
      && run.final.iteration == s.iteration + |run.trace| / 3
      && (|run.trace| / 3 == 1 || s.iteration + |run.trace| / 3 <= MaxIter(env).value)
      && (Truthy(run.final.isSufficient) || run.final.iteration >= MaxIter(env).value)
  {
    var round := st => Round(st, o);
    var synth := st => SynthesizeNode(st, o.llm);
    assert Advances(round) by {
      forall st ensures round(st).Success? ==> round(st).value.iteration == st.iteration + 1 {
        RoundAdvances(st, o);
      }
    }
    assert RunFrom(s, env, o) == RunWith(s, MaxIter(env), round, synth);
    RunWithShape(s, MaxIter(env), round, synth);
  }

  /** From a fresh state the graph makes between one and the limit's rounds, and at most five. */
  lemma RunFromStartIsBounded(s: State, env: Option<string>, o: Oracles)
    requires s.iteration == 0 && RunFrom(s, env, o).Success?
    ensures 1 <= |RunFrom(s, env, o).value.trace| / 3 <= MaxIter(env).value <= 5
  {
    RunShape(s, env, o);
  }
}
