/** The evaluation-suite generator (api/internal/services/eval_generator.go):
    the criteria chosen for the requested evaluation types and their equal
    weights, the line-based fallback that turns an unparsable model reply
    into test cases, and the assembly of the suite. The model call and the
    JSON decoding of its reply are inputs. */
module EvalGenerator {
  import opened Wrappers
  import opened Text

  datatype EvalGenerateRequest = EvalGenerateRequest(
    prompt: string, evalTypes: seq<string>, sampleSize: int, model: string, difficulty: string)

  datatype TestCase = TestCase(input: string, category: string, difficulty: string, expected: string)

  datatype EvalCriterion = EvalCriterion(name: string, description: string, weight: int)

  /** The suite's metadata; the generation time is left out. */
  datatype EvalMetadata = EvalMetadata(model: string, sampleSize: int, evalTypes: seq<string>, difficulty: string)

  datatype EvalData = EvalData(
    testCases: seq<TestCase>, criteria: seq<EvalCriterion>, basePrompt: string, metadata: EvalMetadata)

  // ---------------------------------------------------------------------
  // Criteria

  const RobustnessCriterion := EvalCriterion("Robustness", "How well the prompt handles variations, typos, and edge cases", 25)
  const CreativityCriterion := EvalCriterion("Creativity", "Ability to generate novel, original, and creative responses", 25)
  const SafetyCriterion := EvalCriterion("Safety & Alignment", "Resistance to harmful, biased, or inappropriate outputs", 25)
  const AccuracyCriterion := EvalCriterion("Factual Accuracy", "Correctness and reliability of factual information", 25)

  /** The fixed criterion for each of the four known evaluation types. */
  function KnownCriterion(evalType: string): Option<EvalCriterion> {
    if evalType == "robustness" then Some(RobustnessCriterion)
    else if evalType == "creativity" then Some(CreativityCriterion)
    else if evalType == "safety" then Some(SafetyCriterion)
    else if evalType == "accuracy" then Some(AccuracyCriterion)
    else None
  }

  predicate Known(evalType: string) {
    KnownCriterion(evalType).Some?
  }

  /** The criteria of the known types among `types`, in order, each with
      the given weight. */
  function Criteria(types: seq<string>, weight: int): (cs: seq<EvalCriterion>)
    ensures |cs| <= |types|
    ensures forall i :: 0 <= i < |cs| ==> cs[i].weight == weight
  {
    if types == [] then []
    else
      var init := Criteria(types[..|types| - 1], weight);
      match KnownCriterion(types[|types| - 1])
      case Some(c) => init + [c.(weight := weight)]
      case None => init
  }

  /** The number of known types in `types`. */
  function KnownCount(types: seq<string>): nat {
    if types == [] then 0
    else KnownCount(types[..|types| - 1]) + (if Known(types[|types| - 1]) then 1 else 0)
  }

  lemma {:induction false} CriteriaCount(types: seq<string>, weight: int)
    ensures |Criteria(types, weight)| == KnownCount(types) <= |types|
  {
    if types != [] {
      CriteriaCount(types[..|types| - 1], weight);
    }
  }

  /** Each criterion is the known criterion of one requested type, in
      request order. */
  lemma {:induction false} CriteriaFromTypes(types: seq<string>, weight: int, k: nat)
    requires k < |Criteria(types, weight)|
    ensures exists i :: (0 <= i < |types| && KnownCriterion(types[i]).Some?
      && Criteria(types, weight)[k] == KnownCriterion(types[i]).value.(weight := weight))
  {
    var init := types[..|types| - 1];
    var last := types[|types| - 1];
    if k < |Criteria(init, weight)| {
      CriteriaFromTypes(init, weight, k);
      var i :| 0 <= i < |init| && KnownCriterion(init[i]).Some?
        && Criteria(init, weight)[k] == KnownCriterion(init[i]).value.(weight := weight);
      assert init[i] == types[i];
    } else {
      assert Criteria(types, weight)[k] == KnownCriterion(last).value.(weight := weight);
    }
  }

  /** `generateEvaluationCriteria`: the loop over the requested types. The
      weight is `100 / len(evalTypes)`, a division by zero for an empty
      list, which the handler rules out. */
  method GenerateEvaluationCriteria(evalTypes: seq<string>) returns (criteria: seq<EvalCriterion>)
    requires |evalTypes| > 0
    ensures criteria == Criteria(evalTypes, 100 / |evalTypes|)
  {
    var weightPerType := 100 / |evalTypes|;
    criteria := [];
    for i := 0 to |evalTypes|
      invariant criteria == Criteria(evalTypes[..i], weightPerType)
    {
      assert evalTypes[..i + 1][..i] == evalTypes[..i];
      match KnownCriterion(evalTypes[i])
      case Some(c) =>
        criteria := criteria + [c.(weight := weightPerType)];
      case None =>
    }
    assert evalTypes[..|evalTypes|] == evalTypes;
  }

  /** Every criterion carries `100 / n` and together they never exceed 100. */
  lemma CriteriaWeights(evalTypes: seq<string>)
    requires |evalTypes| > 0
    ensures var cs := Criteria(evalTypes, 100 / |evalTypes|);
      (forall i :: 0 <= i < |cs| ==> cs[i].weight == 100 / |evalTypes|)
      && |cs| * (100 / |evalTypes|) <= 100
  {
    var n := |evalTypes|;
    var w := 100 / n;
    CriteriaCount(evalTypes, w);
    ScaleMonotone(|Criteria(evalTypes, w)|, n, w);
    ShareBound(n);
  }

  lemma ScaleMonotone(a: nat, b: nat, w: nat)
    requires a <= b
    ensures a * w <= b * w
  {
    assert b * w == a * w + (b - a) * w;
  }

  /** `n` shares of `100 / n` never exceed 100. */
  lemma ShareBound(n: nat)
    requires n > 0
    ensures n * (100 / n) <= 100
  {
    assert n * (100 / n) + 100 % n == 100;
  }

  lemma CriteriaSnoc(types: seq<string>, t: string, weight: int)
    ensures Criteria(types + [t], weight)
      == Criteria(types, weight) + (if Known(t) then [KnownCriterion(t).value.(weight := weight)] else [])
  {
    assert (types + [t])[..|types|] == types;
  }

  /** An unknown type is skipped but still counts towards the divisor:
      four requested types, three known, give three criteria of 25. */
  lemma CriteriaSkipUnknown()
    ensures Criteria(["robustness", "safety", "nonsense", "accuracy"], 100 / 4)
      == [RobustnessCriterion.(weight := 25), SafetyCriterion.(weight := 25), AccuracyCriterion.(weight := 25)]
  {
    var t0: seq<string> := [];
    var t1 := t0 + ["robustness"];
    var t2 := t1 + ["safety"];
    var t3 := t2 + ["nonsense"];
    var t4 := t3 + ["accuracy"];
    CriteriaSnoc(t0, "robustness", 25);
    CriteriaSnoc(t1, "safety", 25);
    CriteriaSnoc(t2, "nonsense", 25);
    CriteriaSnoc(t3, "accuracy", 25);
    assert t4 == ["robustness", "safety", "nonsense", "accuracy"];
  }

  // ---------------------------------------------------------------------
  // Line-based fallback parsing

  const MaxFallbackCases: nat := 10

  /** The difficulty a fallback case gets from its line index. */
  function DifficultyOf(i: nat): (d: string)
    ensures d == "easy" <==> i % 3 == 0
    ensures d == "hard" <==> i % 3 == 2
    ensures d == "medium" <==> i % 3 == 1
  {
    if i % 3 == 0 then "easy" else if i % 3 == 2 then "hard" else "medium"
  }

  /** The category a fallback case gets: the types taken round-robin by
      line index, "robustness" when there are none. */
  function CategoryOf(evalTypes: seq<string>, i: nat): (c: string)
    ensures evalTypes == [] ==> c == "robustness"
    ensures evalTypes != [] ==> c == evalTypes[i % |evalTypes|] && c in evalTypes
  {
    if evalTypes == [] then "robustness" else evalTypes[i % |evalTypes|]
  }

  /** Line `i` yields a case when it is not blank and lies among the first ten. */
  predicate Yields(line: string, i: nat) {
    !AllSpace(line) && i < MaxFallbackCases
  }

  function CaseFor(line: string, i: nat, evalTypes: seq<string>): TestCase {
    TestCase(Trim(line), CategoryOf(evalTypes, i), DifficultyOf(i), "")
  }

  /** The cases of the first `n` lines. */
  function CasesOf(lines: seq<string>, evalTypes: seq<string>, n: nat): (cs: seq<TestCase>)
    requires n <= |lines|
  {
    if n == 0 then []
    else
      var here := if Yields(lines[n - 1], n - 1) then [CaseFor(lines[n - 1], n - 1, evalTypes)] else [];
      CasesOf(lines, evalTypes, n - 1) + here
  }

  /** At most one case per line and never more than ten. */
  lemma {:induction false} CasesBound(lines: seq<string>, evalTypes: seq<string>, n: nat)
    requires n <= |lines|
    ensures |CasesOf(lines, evalTypes, n)| <= n
    ensures |CasesOf(lines, evalTypes, n)| <= MaxFallbackCases
  {
    if n > 0 {
      CasesBound(lines, evalTypes, n - 1);
      if n > MaxFallbackCases {
        CasesBeyondTen(lines, evalTypes, n);
      }
    }
  }

  /** Lines from the eleventh on add nothing. */
  lemma {:induction false} CasesBeyondTen(lines: seq<string>, evalTypes: seq<string>, n: nat)
    requires MaxFallbackCases <= n <= |lines|
    ensures CasesOf(lines, evalTypes, n) == CasesOf(lines, evalTypes, MaxFallbackCases)
  {
    if n > MaxFallbackCases {
      CasesBeyondTen(lines, evalTypes, n - 1);
    }
  }

  /** Every case comes from a non-blank line among the first ten: its input
      is that line trimmed (never empty) and its category and difficulty
      follow the line's index. */
  lemma {:induction false} CasesSound(lines: seq<string>, evalTypes: seq<string>, n: nat, k: nat)
    requires n <= |lines| && k < |CasesOf(lines, evalTypes, n)|
    ensures exists i :: (0 <= i < n && Yields(lines[i], i)
      && CasesOf(lines, evalTypes, n)[k] == CaseFor(lines[i], i, evalTypes))
    ensures CasesOf(lines, evalTypes, n)[k].input != []
  {
    var prev := CasesOf(lines, evalTypes, n - 1);
    if k < |prev| {
      CasesSound(lines, evalTypes, n - 1, k);
    } else {
      assert CasesOf(lines, evalTypes, n)[k] == CaseFor(lines[n - 1], n - 1, evalTypes);
    }
  }

  /** Every non-blank line among the first ten yields a case. */
  lemma {:induction false} CasesComplete(lines: seq<string>, evalTypes: seq<string>, n: nat, i: nat)
    requires i < n <= |lines| && Yields(lines[i], i)
    ensures CaseFor(lines[i], i, evalTypes) in CasesOf(lines, evalTypes, n)
  {
    var c := CaseFor(lines[i], i, evalTypes);
    var prev := CasesOf(lines, evalTypes, n - 1);
    if i < n - 1 {
      CasesComplete(lines, evalTypes, n - 1, i);
      var k :| 0 <= k < |prev| && prev[k] == c;
      assert CasesOf(lines, evalTypes, n)[k] == c;
    } else {
      assert CasesOf(lines, evalTypes, n) == prev + [c];
      assert CasesOf(lines, evalTypes, n)[|prev|] == c;
    }
  }

  /** `parseTestCasesFromText`: split the reply on newlines and keep a case
      for each qualifying line. */
  method ParseTestCasesFromText(response: string, evalTypes: seq<string>) returns (testCases: seq<TestCase>)
    ensures testCases == CasesOf(Split(response, '\n'), evalTypes, |Split(response, '\n')|)
  {
    var lines := Split(response, '\n');
    testCases := [];
    for i := 0 to |lines|
      invariant testCases == CasesOf(lines, evalTypes, i)
    {
      if !AllSpace(lines[i]) && i < 10 {
        var category := "robustness";
        if |evalTypes| > 0 {
          category := evalTypes[i % |evalTypes|];
        }
        var difficulty := "medium";
        if i % 3 == 0 {
          difficulty := "easy";
        } else if i % 3 == 2 {
          difficulty := "hard";
        }
        testCases := testCases + [TestCase(Trim(lines[i]), category, difficulty, "")];
      }
    }
  }

  /** A reply of twelve non-blank lines gives exactly ten cases. */
  lemma TwelveLines(evalTypes: seq<string>)
    ensures var lines := seq(12, i => "x");
      |CasesOf(lines, evalTypes, 12)| == 10
  {
    var lines := seq(12, i => "x");
    assert forall i :: 0 <= i < 12 ==> !AllSpace(lines[i]) by {
      forall i | 0 <= i < 12 ensures !AllSpace(lines[i]) { assert lines[i][0] == 'x'; }
    }
    CasesBeyondTen(lines, evalTypes, 12);
    TenCases(lines, evalTypes, 10);
  }

  lemma {:induction false} TenCases(lines: seq<string>, evalTypes: seq<string>, n: nat)
    requires n <= 10 && n <= |lines|
    requires forall i :: 0 <= i < n ==> !AllSpace(lines[i])
    ensures |CasesOf(lines, evalTypes, n)| == n
  {
    if n > 0 {
      TenCases(lines, evalTypes, n - 1);
      assert Yields(lines[n - 1], n - 1);
      assert CasesOf(lines, evalTypes, n)
          == CasesOf(lines, evalTypes, n - 1) + [CaseFor(lines[n - 1], n - 1, evalTypes)];
    }
  }

  // ---------------------------------------------------------------------
  // Suite assembly

  /** What the test-case generation call produced: a model error, a reply
      that decodes as a JSON array of cases, or a reply that does not. */
  datatype CaseReply =
    | CallFailed(error: string)
    | DecodedCases(cases: seq<TestCase>)
    | Undecodable(text: string)

  /** The settings of the generation call: temperature 0.7, 2000 tokens
      and the request's model, or "gpt-4.1" when it names none. */
  datatype GenerationCall = GenerationCall(temperature: real, maxTokens: int, model: string)

  function GenerationCallFor(req: EvalGenerateRequest): (c: GenerationCall)
    ensures c.temperature == 0.7 && c.maxTokens == 2000
    ensures c.model != "" && (req.model != "" ==> c.model == req.model)
    ensures req.model == "" ==> c.model == "gpt-4.1"
  {
    GenerationCall(0.7, 2000, if req.model == "" then "gpt-4.1" else req.model)
  }

  /** `generateTestCases`: the decoded cases, or the fallback parse of an
      undecodable reply; a failed call is an error. */
  function TestCasesFrom(reply: CaseReply, evalTypes: seq<string>): (r: Result<seq<TestCase>, string>)
    ensures reply.CallFailed? <==> r.Failure?
    ensures reply.DecodedCases? ==> r == Success(reply.cases)
    ensures reply.Undecodable? ==> r.Success? && |r.value| <= MaxFallbackCases
  {
    match reply
    case CallFailed(e) => Failure(e)
    case DecodedCases(cases) => Success(cases)
    case Undecodable(text) =>
      var lines := Split(text, '\n');
      CasesBound(lines, evalTypes, |lines|);
      Success(CasesOf(lines, evalTypes, |lines|))
  }

  /** `GenerateEvaluationSuite`. The criteria step divides by the number of
      types, so a request without types must fail before it, which only a
      failed generation call does. */
  function GenerateEvaluationSuite(req: EvalGenerateRequest, reply: CaseReply): (r: Result<EvalData, string>)
    requires req.evalTypes != [] || reply.CallFailed?
    ensures reply.CallFailed? <==> r.Failure?
    ensures reply.CallFailed? ==> r == Failure("failed to generate test cases: " + reply.error)
    ensures r.Success? ==> (
      && r.value.basePrompt == req.prompt
      && r.value.metadata == EvalMetadata(req.model, req.sampleSize, req.evalTypes, req.difficulty)
      && r.value.criteria == Criteria(req.evalTypes, 100 / |req.evalTypes|)
      && Success(r.value.testCases) == TestCasesFrom(reply, req.evalTypes))
  {
    match TestCasesFrom(reply, req.evalTypes)
    case Failure(e) => Failure("failed to generate test cases: " + e)
    case Success(cases) =>
      Success(EvalData(cases, Criteria(req.evalTypes, 100 / |req.evalTypes|), req.prompt,
        EvalMetadata(req.model, req.sampleSize, req.evalTypes, req.difficulty)))
  }
}
