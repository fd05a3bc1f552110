/** Provider routing and request building (api/internal/services/ai_service.go):
    which provider a call goes to, the key check each provider makes first,
    the model and token defaults, the Azure `o3` special case, the Anthropic
    temperature rescaling and the split of system messages out of an
    Anthropic conversation. The HTTP exchange itself is an input: the model
    says what request is sent and passes the exchange's outcome through. */
module AiService {
  import opened Wrappers
  import Config

  /** `config.AIProvider`, a string. */
  type Provider = string

  const ProviderOpenAI: Provider := "openai"
  const ProviderAzureOpenAI: Provider := "azure-openai"
  const ProviderAnthropic: Provider := "anthropic"

  datatype Message = Message(role: string, content: string)

  const SystemRole: string := "system"

  /** A message whose role is "system". */
  predicate IsSystem(m: Message) {
    m.role == SystemRole
  }

  /** The API keys configured for the three providers. */
  datatype Keys = Keys(openAI: string, azureOpenAI: string, anthropic: string)

  /** The request body each provider is sent; a token field of 0 is left
      out of the JSON (`omitempty`), so 0 means "not set". */
  datatype ProviderRequest =
    | OpenAIRequest(model: string, messages: seq<Message>, temperature: real, maxTokens: int)
    | AzureRequest(endpoint: string, messages: seq<Message>, temperature: real,
                   maxTokens: int, maxCompletionTokens: int)
    | AnthropicRequest(model: string, maxTokens: int, temperature: real,
                       messages: seq<Message>, system: string)

  // ---------------------------------------------------------------------
  // OpenAI

  function BuildOpenAI(keys: Keys, messages: seq<Message>, temperature: real, maxTokens: int, model: string)
    : (r: Result<ProviderRequest, string>)
    ensures keys.openAI == "" <==> r == Failure("OpenAI API key not configured")
    ensures r.Success? ==> (
      && r.value.OpenAIRequest?
      && r.value.model == (if model == "" then "gpt-4" else model)
      && r.value.messages == messages && r.value.temperature == temperature
      && (maxTokens > 0 ==> r.value.maxTokens == maxTokens)
      && (maxTokens <= 0 ==> r.value.maxTokens == 0))
  {
    if keys.openAI == "" then Failure("OpenAI API key not configured")
    else
      var m := if model == "" then "gpt-4" else model;
      Success(OpenAIRequest(m, messages, temperature, if maxTokens > 0 then maxTokens else 0))
  }

  // ---------------------------------------------------------------------
  // Azure OpenAI

  function BuildAzure(keys: Keys, messages: seq<Message>, temperature: real, maxTokens: int, model: string)
    : (r: Result<ProviderRequest, string>)
    ensures keys.azureOpenAI == "" <==> r == Failure("Azure OpenAI API key not configured")
    ensures r.Success? ==> (
      && r.value.AzureRequest?
      && r.value.endpoint == Config.GetEndpointURL(model)
      && r.value.messages == messages
      && r.value.temperature == (if model == "o3" then 1.0 else temperature)
      // exactly one token field carries a positive limit, and only when one was asked for
      && (maxTokens <= 0 ==> r.value.maxTokens == 0 && r.value.maxCompletionTokens == 0)
      && (maxTokens > 0 && model == "o3" ==> r.value.maxTokens == 0 && r.value.maxCompletionTokens == maxTokens)
      && (maxTokens > 0 && model != "o3" ==> r.value.maxTokens == maxTokens && r.value.maxCompletionTokens == 0))
  {
    if keys.azureOpenAI == "" then Failure("Azure OpenAI API key not configured")
    else
      var endpoint := Config.GetEndpointURL(model);
      var t := if model == "o3" then 1.0 else temperature;
      var limit := if maxTokens > 0 then maxTokens else 0;
      if model == "o3" then Success(AzureRequest(endpoint, messages, t, 0, limit))
      else Success(AzureRequest(endpoint, messages, t, limit, 0))
  }

  // ---------------------------------------------------------------------
  // Anthropic

  /** The OpenAI temperature (0 to 2) mapped onto Anthropic's 0 to 1: halved
      when above 1, then clamped. */
  function AnthropicTemperature(t: real): (r: real)
    ensures 0.0 <= r <= 1.0
    ensures 0.0 <= t <= 1.0 ==> r == t
    ensures 1.0 < t <= 2.0 ==> r == t / 2.0
    ensures t > 2.0 ==> r == 1.0
    ensures t < 0.0 ==> r == 0.0
  {
    var halved := if t > 1.0 then t / 2.0 else t;
    if halved < 0.0 then 0.0 else if halved > 1.0 then 1.0 else halved
  }

  /** The rescaling on the values the provider tests list. */
  lemma AnthropicTemperatureExamples()
    ensures AnthropicTemperature(0.0) == 0.0 && AnthropicTemperature(1.0) == 1.0
    ensures AnthropicTemperature(2.0) == 1.0 && AnthropicTemperature(1.5) == 0.75
    ensures AnthropicTemperature(-0.5) == 0.0 && AnthropicTemperature(0.5) == 0.5
  {
  }

  /** The non-system messages, in order. */
  function NonSystem(messages: seq<Message>): (r: seq<Message>)
    ensures |r| <= |messages|
    ensures forall i :: 0 <= i < |r| ==> !IsSystem(r[i]) && r[i] in messages
    ensures forall m :: m in messages && !IsSystem(m) ==> m in r
  {
    if messages == [] then []
    else
      var init := NonSystem(messages[..|messages| - 1]);
      var last := messages[|messages| - 1];
      assert forall m :: m in messages[..|messages| - 1] ==> m in messages;
      assert messages == messages[..|messages| - 1] + [last];
      if IsSystem(last) then init else init + [last]
  }

  /** The content of the last system message, or "" when there is none. */
  function LastSystem(messages: seq<Message>): string
  {
    if messages == [] then ""
    else if IsSystem(messages[|messages| - 1]) then messages[|messages| - 1].content
    else LastSystem(messages[..|messages| - 1])
  }

  /** The system prompt Anthropic is sent is the content of the last
      system message; earlier ones are lost. */
  lemma {:induction false} LastSystemIsLast(messages: seq<Message>, i: nat)
    requires i < |messages| && IsSystem(messages[i])
    requires forall k :: i < k < |messages| ==> !IsSystem(messages[k])
    ensures LastSystem(messages) == messages[i].content
    decreases |messages|
  {
    if i < |messages| - 1 {
      LastSystemIsLast(messages[..|messages| - 1], i);
    }
  }

  lemma {:induction false} NoSystemMessage(messages: seq<Message>)
    requires forall k :: 0 <= k < |messages| ==> !IsSystem(messages[k])
    ensures LastSystem(messages) == ""
    ensures NonSystem(messages) == messages
  {
    if messages != [] {
      var init := messages[..|messages| - 1];
      NoSystemMessage(init);
      assert messages == init + [messages[|messages| - 1]];
    }
  }

  /** Dropping the system messages keeps every other message, in order:
      appending a message either leaves the result alone (a system
      message) or appends it. */
  lemma NonSystemAppend(messages: seq<Message>, m: Message)
    ensures NonSystem(messages + [m]) == if IsSystem(m) then NonSystem(messages) else NonSystem(messages) + [m]
    ensures LastSystem(messages + [m]) == if IsSystem(m) then m.content else LastSystem(messages)
  {
    assert (messages + [m])[..|messages|] == messages;
  }

  /** A system message in front of a conversation is dropped from it. */
  lemma {:induction false} NonSystemDropsLeading(sys: Message, rest: seq<Message>)
    requires IsSystem(sys)
    ensures NonSystem([sys] + rest) == NonSystem(rest)
    decreases |rest|
  {
    if rest == [] {
      NonSystemAppend([], sys);
    } else {
      var init := rest[..|rest| - 1];
      var last := rest[|rest| - 1];
      NonSystemDropsLeading(sys, init);
      assert [sys] + rest == ([sys] + init) + [last];
      assert rest == init + [last];
      NonSystemAppend([sys] + init, last);
      NonSystemAppend(init, last);
    }
  }

  /** A conversation that opens with its only system message: that
      message becomes the system prompt and the rest stays as it is. */
  lemma LeadingSystem(sys: Message, rest: seq<Message>)
    requires IsSystem(sys)
    requires forall k :: 0 <= k < |rest| ==> !IsSystem(rest[k])
    ensures NonSystem([sys] + rest) == rest
    ensures LastSystem([sys] + rest) == sys.content
  {
    var ms := [sys] + rest;
    assert forall k :: 0 < k < |ms| ==> ms[k] == rest[k - 1];
    LastSystemIsLast(ms, 0);
    NonSystemDropsLeading(sys, rest);
    NoSystemMessage(rest);
  }

  /** The conversion on the conversation shape of the provider tests (a
      system message, then user, assistant, user), whatever the contents:
      the system message becomes the system prompt and the other three
      stay in order. */
  lemma AnthropicConversionExample(system: string, hello: string, reply: string, question: string)
    ensures var ms := [Message("system", system), Message("user", hello),
                       Message("assistant", reply), Message("user", question)];
      NonSystem(ms) == ms[1..] && LastSystem(ms) == system
  {
    var sys := Message("system", system);
    var rest := [Message("user", hello), Message("assistant", reply), Message("user", question)];
    assert rest[0].role[0] != 's' && rest[1].role[0] != 's' && rest[2].role[0] != 's';
    LeadingSystem(sys, rest);
    assert [sys] + rest == [Message("system", system), Message("user", hello),
                            Message("assistant", reply), Message("user", question)];
  }

  /** The conversion loop: system messages overwrite the system prompt, all
      others are appended in order. */
  method ConvertMessages(messages: seq<Message>) returns (converted: seq<Message>, system: string)
    ensures converted == NonSystem(messages)
    ensures system == LastSystem(messages)
  {
    converted, system := [], "";
    for i := 0 to |messages|
      invariant converted == NonSystem(messages[..i])
      invariant system == LastSystem(messages[..i])
    {
      NonSystemAppend(messages[..i], messages[i]);
      assert messages[..i + 1] == messages[..i] + [messages[i]];
      if IsSystem(messages[i]) {
        system := messages[i].content;
      } else {
        converted := converted + [messages[i]];
      }
    }
    assert messages[..|messages|] == messages;
  }

  function BuildAnthropic(keys: Keys, messages: seq<Message>, temperature: real, maxTokens: int, model: string)
    : (r: Result<ProviderRequest, string>)
    ensures keys.anthropic == "" <==> r == Failure("Anthropic API key not configured")
    ensures r.Success? ==> (
      && r.value.AnthropicRequest?
      && r.value.model == (if model == "" then "claude-3-5-sonnet-20241022" else model)
      && r.value.temperature == AnthropicTemperature(temperature)
      && r.value.messages == NonSystem(messages)
      && r.value.system == LastSystem(messages)
      && r.value.maxTokens == (if maxTokens == 0 then 1000 else maxTokens))
  {
    if keys.anthropic == "" then Failure("Anthropic API key not configured")
    else
      var m := if model == "" then "claude-3-5-sonnet-20241022" else model;
      Success(AnthropicRequest(m, if maxTokens == 0 then 1000 else maxTokens,
        AnthropicTemperature(temperature), NonSystem(messages), LastSystem(messages)))
  }

  // ---------------------------------------------------------------------
  // Routing

  predicate Supported(provider: Provider) {
    provider == ProviderOpenAI || provider == ProviderAzureOpenAI || provider == ProviderAnthropic
  }

  /** The request the chosen provider builds, or the error it stops at. */
  function BuildRequest(provider: Provider, keys: Keys, messages: seq<Message>, temperature: real,
                        maxTokens: int, model: string): (r: Result<ProviderRequest, string>)
    ensures !Supported(provider) ==> r == Failure("unsupported AI provider: " + provider)
    ensures provider == ProviderOpenAI ==> r == BuildOpenAI(keys, messages, temperature, maxTokens, model)
    ensures provider == ProviderAzureOpenAI ==> r == BuildAzure(keys, messages, temperature, maxTokens, model)
    ensures provider == ProviderAnthropic ==> r == BuildAnthropic(keys, messages, temperature, maxTokens, model)
  {
    if provider == ProviderOpenAI then BuildOpenAI(keys, messages, temperature, maxTokens, model)
    else if provider == ProviderAzureOpenAI then BuildAzure(keys, messages, temperature, maxTokens, model)
    else if provider == ProviderAnthropic then BuildAnthropic(keys, messages, temperature, maxTokens, model)
    else Failure("unsupported AI provider: " + provider)
  }

  /** `CallAI`: the provider's reply when a request could be built, the
      building error otherwise. `exchange` stands for the HTTP round trip
      and decoding of the reply, which the model does not look into. */
  function CallAI(provider: Provider, keys: Keys, messages: seq<Message>, temperature: real,
                  maxTokens: int, model: string, exchange: ProviderRequest -> Result<string, string>)
    : (r: Result<string, string>)
    ensures !Supported(provider) ==> r == Failure("unsupported AI provider: " + provider)
    ensures provider == ProviderOpenAI && keys.openAI == "" ==> r == Failure("OpenAI API key not configured")
    ensures provider == ProviderAzureOpenAI && keys.azureOpenAI == "" ==> r == Failure("Azure OpenAI API key not configured")
    ensures provider == ProviderAnthropic && keys.anthropic == "" ==> r == Failure("Anthropic API key not configured")
    ensures (match BuildRequest(provider, keys, messages, temperature, maxTokens, model)
             case Success(req) => r == exchange(req)
             case Failure(_) => r.Failure?)
  {
    match BuildRequest(provider, keys, messages, temperature, maxTokens, model)
    case Success(req) => exchange(req)
    case Failure(e) => Failure(e)
  }

  /** A configured provider always gets as far as sending a request: the
      only errors before the exchange are the routing and key checks. */
  lemma ConfiguredProviderSends(provider: Provider, keys: Keys, messages: seq<Message>, temperature: real,
                                maxTokens: int, model: string)
    requires Supported(provider)
    requires keys.openAI != "" && keys.azureOpenAI != "" && keys.anthropic != ""
    ensures BuildRequest(provider, keys, messages, temperature, maxTokens, model).Success?
  {
  }
}
