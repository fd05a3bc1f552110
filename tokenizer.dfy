/** Token estimation, observer notification and context-limit warnings of
    the browser's token counter (frontend/tokenizer.js). */
module Tokenizer {
  import opened Text

  /** `text.trim().split(/\s+/).length`: the whitespace-separated pieces of
      the trimmed text, where text that trims to nothing still splits into
      one (empty) piece. */
  function PieceCount(text: string): (r: nat)
    ensures r == if WordCount(text) == 0 then 1 else WordCount(text)
  {
    var t := Trim(text);
    WordCountTrim(text);
    WordCountZero(text);
    WordCountZero(t);
    if t == [] then 1 else WordCount(t)
  }

  /** `Math.ceil(n / 4)` for a natural `n`. */
  function CeilQuarter(n: nat): nat {
    (n + 3) / 4
  }

  /** The fallback estimate `max(ceil(0.75 w), ceil(len / 4))`, 0 for the
      empty text, where `len` is JavaScript's length in UTF-16 code units.
      The result is the least count that covers both three quarters of a
      token per piece and a token per four code units. */
  function EstimateTokens(text: string): (r: nat)
    ensures text == [] ==> r == 0
    ensures text != [] ==> r >= 1
    ensures text != [] ==> 4 * r >= 3 * PieceCount(text) && 4 * r >= Utf16Length(text)
    ensures text != [] ==> 4 * (r - 1) < 3 * PieceCount(text) || 4 * (r - 1) < Utf16Length(text)
  {
    if text == [] then 0
    else
      var a := CeilQuarter(3 * PieceCount(text));
      var b := CeilQuarter(Utf16Length(text));
      if a >= b then a else b
  }

  /** Typing more never lowers the estimate: neither the piece count nor the
      length of the text can shrink when characters are appended. */
  lemma EstimateMonotone(s: string, t: string)
    ensures EstimateTokens(s) <= EstimateTokens(s + t)
  {
    if s != [] {
      WordCountPrefix(s, t);
      assert PieceCount(s) <= PieceCount(s + t);
      Utf16LengthAppend(s, t);
    }
  }

  /** Five characters outside the Basic Multilingual Plane are ten code
      units, so a single piece of them is estimated at three tokens. */
  lemma EstimateSurrogateExample(e: char)
    requires e as int >= 0x1_0000
    ensures EstimateTokens([e, e, e, e, e]) == 3
  {
    var text := [e, e, e, e, e];
    Utf16LengthAstral(text);
    assert !IsSpace(e);
    WordCountNoSpace(text);
  }

  /** The snapshot handed to observers: `{ tokens }`. */
  datatype Stats = Stats(tokens: nat)

  /** A registered observer, known by the order in which it registered. */
  type Callback = nat

  /** One invocation of an observer with a snapshot; `threw` records whether
      the observer raised (the counter logs it and goes on). */
  datatype Delivery = Delivery(callback: Callback, stats: Stats, threw: bool)

  /** What the exact encoder did with the text, when one is loaded. */
  datatype EncodeOutcome = Encoded(count: nat) | EncodeThrew

  /** Whether `window.tiktoken` was present and its encoder could be built. */
  datatype EncoderLoad = Unavailable | Loaded | LoadThrew

  /** The token count `updateCount` stores: the encoder's count when an
      encoder is loaded and succeeds, the estimate otherwise. */
  function CountFor(hasEncoding: bool, text: string, encode: EncodeOutcome): (n: nat)
    ensures !hasEncoding || encode.EncodeThrew? ==> n == EstimateTokens(text)
    ensures hasEncoding && encode.Encoded? ==> n == encode.count
  {
    if hasEncoding && encode.Encoded? then encode.count else EstimateTokens(text)
  }

  /** The invocations that one round of notification makes: every observer,
      in registration order, with the same snapshot. */
  function Notify(callbacks: seq<Callback>, stats: Stats, throws: Callback -> bool): seq<Delivery>
  {
    if callbacks == [] then []
    else
      var last := callbacks[|callbacks| - 1];
      Notify(callbacks[..|callbacks| - 1], stats, throws) + [Delivery(last, stats, throws(last))]
  }

  /** Notification reaches each registered observer exactly once, in order,
      with the same snapshot, whether or not an earlier observer threw. */
  lemma {:induction false} NotifyReachesEach(callbacks: seq<Callback>, stats: Stats, throws: Callback -> bool, k: nat)
    requires k < |callbacks|
    ensures |Notify(callbacks, stats, throws)| == |callbacks|
    ensures Notify(callbacks, stats, throws)[k] == Delivery(callbacks[k], stats, throws(callbacks[k]))
  {
    var init := callbacks[..|callbacks| - 1];
    if k < |init| {
      NotifyReachesEach(init, stats, throws, k);
    } else if init != [] {
      NotifyReachesEach(init, stats, throws, 0);
    }
  }

  class TokenCounter {
    var hasEncoding: bool
    var callbacks: seq<Callback>
    var currentStats: Stats
    /** Every observer invocation made so far, in order. */
    var deliveries: seq<Delivery>

    /** A new counter with no observers, which sets up its encoder at once
        (`initializeTiktoken` never awaits): the editor text, when there is
        some and loading did not throw, is counted, and with nobody
        registered no observer is called. */
    constructor (load: EncoderLoad, editorText: string, encode: EncodeOutcome)
      ensures hasEncoding == load.Loaded? && callbacks == [] && deliveries == []
      ensures load.LoadThrew? || editorText == [] ==> currentStats == Stats(0)
      ensures !load.LoadThrew? && editorText != [] ==>
        currentStats == Stats(CountFor(load.Loaded?, editorText, encode))
    {
      hasEncoding := false;
      callbacks := [];
      currentStats := Stats(0);
      deliveries := [];
      new;
      InitializeTiktoken(load, editorText, encode, _ => false);
    }

    /** The encoder set-up: remember whether an encoder loaded and, unless
        loading threw, count the text already in the editor. */
    method InitializeTiktoken(load: EncoderLoad, editorText: string, encode: EncodeOutcome, throws: Callback -> bool)
      modifies this
      ensures hasEncoding == load.Loaded?
      ensures callbacks == old(callbacks)
      ensures load.LoadThrew? || editorText == [] ==>
        currentStats == old(currentStats) && deliveries == old(deliveries)
      ensures !load.LoadThrew? && editorText != [] ==>
        currentStats == Stats(CountFor(hasEncoding, editorText, encode)) &&
        deliveries == old(deliveries) + Notify(callbacks, currentStats, throws)
    {
      hasEncoding := load.Loaded?;
      if !load.LoadThrew? && editorText != [] {
        UpdateCount(editorText, encode, throws);
      }
    }

    /** Register an observer; registration only ever appends. */
    method OnUpdate(callback: Callback)
      modifies this
      ensures callbacks == old(callbacks) + [callback]
      ensures hasEncoding == old(hasEncoding) && currentStats == old(currentStats)
      ensures deliveries == old(deliveries)
    {
      callbacks := callbacks + [callback];
    }

    /** Recount `text`, store the snapshot and notify every observer in
        registration order, isolating observers that throw. */
    method UpdateCount(text: string, encode: EncodeOutcome, throws: Callback -> bool)
      modifies this
      ensures currentStats == Stats(CountFor(hasEncoding, text, encode))
      ensures !hasEncoding ==> GetCurrentCount() == EstimateTokens(text)
      ensures deliveries == old(deliveries) + Notify(callbacks, currentStats, throws)
      ensures hasEncoding == old(hasEncoding) && callbacks == old(callbacks)
    {
      var tokenCount: nat;
      if hasEncoding {
        match encode {
          case Encoded(n) => tokenCount := n;
          case EncodeThrew => tokenCount := EstimateTokens(text);
        }
      } else {
        tokenCount := EstimateTokens(text);
      }
      currentStats := Stats(tokenCount);
      var i := 0;
      while i < |callbacks|
        invariant 0 <= i <= |callbacks|
        invariant deliveries == old(deliveries) + Notify(callbacks[..i], currentStats, throws)
        invariant currentStats == Stats(tokenCount)
        invariant hasEncoding == old(hasEncoding) && callbacks == old(callbacks)
      {
        var cb := callbacks[i];
        deliveries := deliveries + [Delivery(cb, currentStats, throws(cb))];
        assert callbacks[..i + 1][..i] == callbacks[..i];
        i := i + 1;
      }
      assert callbacks[..i] == callbacks;
    }

    function GetCurrentCount(): nat
      reads this
    {
      currentStats.tokens
    }
  }

  /** An entry of the model table shown beside the counter. */
  datatype ModelInfo = ModelInfo(name: string, limit: nat, formattedLimit: string)

  const DefaultModel := "gpt-4.1"

  const ModelTable: map<string, ModelInfo> := map[
    "gpt-4" := ModelInfo("GPT-4", 8192, "8K"),
    "gpt-4-turbo" := ModelInfo("GPT-4 Turbo", 128000, "128K"),
    "gpt-3.5-turbo" := ModelInfo("GPT-3.5 Turbo", 16384, "16K"),
    "gpt-4.1" := ModelInfo("GPT-4.1", 200000, "200K"),
    "o3" := ModelInfo("O3", 1000000, "1M"),
    "claude-3-5-sonnet-20241022" := ModelInfo("Claude 3.5 Sonnet", 200000, "200K"),
    "claude-3-haiku-20240307" := ModelInfo("Claude 3 Haiku", 200000, "200K"),
    "claude-3-opus-20240229" := ModelInfo("Claude 3 Opus", 200000, "200K")
  ]

  /** The context information of the selected model; an id the table does
      not know falls back to GPT-4.1. */
  function GetModelContextInfo(currentModel: string): (info: ModelInfo)
    ensures info.limit > 0
    ensures currentModel in ModelTable ==> info == ModelTable[currentModel]
    ensures currentModel !in ModelTable ==> info == ModelInfo("GPT-4.1", 200000, "200K")
  {
    if currentModel in ModelTable then ModelTable[currentModel] else ModelTable[DefaultModel]
  }

  datatype Status = Warning | Danger

  /** One budget warning; `tokens` and `limit` are the two numbers the
      source renders as `count/limit`. */
  datatype TokenWarning = TokenWarning(status: Status, message: string, tokens: nat, limit: nat)

  /** Classify a token count against the selected model's limit: danger
      above 95%, warning above 80%, at most one of them. The thresholds
      `limit * 0.95` and `limit * 0.8` are compared in integers. */
  function GetTokenWarning(tokenCount: nat, currentModel: string): (ws: seq<TokenWarning>)
    ensures |ws| <= 1
    ensures var limit := GetModelContextInfo(currentModel).limit;
      && (ws != [] && ws[0].status == Danger <==> 20 * tokenCount > 19 * limit)
      && (ws != [] && ws[0].status == Warning <==> 5 * tokenCount > 4 * limit && 20 * tokenCount <= 19 * limit)
      && (ws == [] <==> 5 * tokenCount <= 4 * limit)
    ensures forall w :: w in ws ==> w.tokens == tokenCount && w.limit == GetModelContextInfo(currentModel).limit
  {
    var info := GetModelContextInfo(currentModel);
    if 20 * tokenCount > 19 * info.limit then
      [TokenWarning(Danger, "⚠️ Very close to " + info.formattedLimit + " limit", tokenCount, info.limit)]
    else if 5 * tokenCount > 4 * info.limit then
      [TokenWarning(Warning, "⚡ Approaching " + info.formattedLimit + " limit", tokenCount, info.limit)]
    else
      []
  }

  /** The three reference points for a 200000-token model. */
  lemma WarningExamples()
    ensures GetTokenWarning(170001, "gpt-4.1")[0].status == Warning
    ensures GetTokenWarning(190001, "gpt-4.1")[0].status == Danger
    ensures GetTokenWarning(100000, "gpt-4.1") == []
    ensures GetTokenWarning(190001, "no-such-model")[0].status == Danger
  {
  }
}
