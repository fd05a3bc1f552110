/** The HTTP handlers of the API server (api/internal/handlers/handlers.go):
    the validation order, the defaults filled in before a model call, the
    shape of the multi-model result list, the not-found rule for lookups and
    the usage-count update of `UsePrompt`. A handler's answer is a status
    with either data or an error text. Request bodies arrive decoded; the
    path id's `%d` scan is an input. */
module Handlers {
  import opened Wrappers
  import AiService
  import Database
  import EvalGenerator

  const DefaultGPTModel: string := "gpt-4.1"
  const DefaultO3Model: string := "o3"
  const DefaultTemperature: real := 0.7

  datatype Reply<T> = Ok(status: nat, data: T) | Err(status: nat, error: string)

  /** The environment of `CallWithDefaultProvider`: the configured default
      provider, the API keys and the HTTP exchange. */
  datatype AiEnv = AiEnv(provider: string, keys: AiService.Keys,
                         exchange: AiService.ProviderRequest -> Result<string, string>)

  /** The arguments of one model call. */
  datatype AiCall = AiCall(messages: seq<AiService.Message>, temperature: real, maxTokens: int, model: string)

  function Call(c: AiCall, env: AiEnv): Result<string, string> {
    AiService.CallAI(env.provider, env.keys, c.messages, c.temperature, c.maxTokens, c.model, env.exchange)
  }

  /** A zero temperature means "not given". */
  function TemperatureOrDefault(t: real): (r: real)
    ensures r != 0.0
    ensures t != 0.0 ==> r == t
    ensures t == 0.0 ==> r == DefaultTemperature
  {
    if t == 0.0 then DefaultTemperature else t
  }

  function ModelOr(model: string, default: string): (r: string)
    requires default != ""
    ensures r != ""
    ensures model != "" ==> r == model
    ensures model == "" ==> r == default
  {
    if model == "" then default else model
  }

  // ---------------------------------------------------------------------
  // ExecutePrompt

  datatype ExecuteRequest = ExecuteRequest(prompt: string, model: string, temperature: real, maxTokens: int)

  /** The call `ExecutePrompt` makes: the prompt as the single user message,
      the temperature and model defaulted, the token limit passed on as is. */
  function ExecuteCall(req: ExecuteRequest): (c: AiCall)
    ensures c.messages == [AiService.Message("user", req.prompt)]
    ensures c.temperature != 0.0 && (req.temperature != 0.0 ==> c.temperature == req.temperature)
    ensures c.model != "" && (req.model != "" ==> c.model == req.model)
    ensures req.temperature == 0.0 ==> c.temperature == DefaultTemperature
    ensures req.model == "" ==> c.model == DefaultGPTModel
    ensures c.maxTokens == req.maxTokens
  {
    AiCall([AiService.Message("user", req.prompt)], TemperatureOrDefault(req.temperature),
      req.maxTokens, ModelOr(req.model, DefaultGPTModel))
  }

  function ExecutePrompt(req: ExecuteRequest, env: AiEnv): (r: Reply<string>)
    ensures Call(ExecuteCall(req), env).Success? <==> r.Ok?
    ensures r.Ok? ==> r == Ok(200, Call(ExecuteCall(req), env).value)
    ensures r.Err? ==> r == Err(500, "Failed to execute prompt: " + Call(ExecuteCall(req), env).error)
  {
    match Call(ExecuteCall(req), env)
    case Success(text) => Ok(200, text)
    case Failure(e) => Err(500, "Failed to execute prompt: " + e)
  }

  // ---------------------------------------------------------------------
  // MultiModelExecute

  datatype MultiModelRequest = MultiModelRequest(prompt: string, models: seq<string>, temperature: real, maxTokens: int)

  /** One entry of the result list; the measured execution time is left out. */
  datatype ModelResult = ModelResult(model: string, success: bool, response: string, error: string)

  /** The call made for `model`: the shared message, temperature and token
      limit, each defaulted once. */
  function MultiCall(req: MultiModelRequest, model: string): (c: AiCall)
    ensures c.messages == [AiService.Message("user", req.prompt)] && c.model == model
    ensures c.temperature != 0.0 && (req.temperature != 0.0 ==> c.temperature == req.temperature)
    ensures c.maxTokens != 0 && (req.maxTokens != 0 ==> c.maxTokens == req.maxTokens)
    ensures req.temperature == 0.0 ==> c.temperature == DefaultTemperature
    ensures req.maxTokens == 0 ==> c.maxTokens == 1000
  {
    AiCall([AiService.Message("user", req.prompt)], TemperatureOrDefault(req.temperature),
      if req.maxTokens == 0 then 1000 else req.maxTokens, model)
  }

  /** The entry for one model: success with the reply, or failure with the
      error text, never both. */
  function ResultFor(model: string, outcome: Result<string, string>): (r: ModelResult)
    ensures r.model == model && r.success == outcome.Success?
    ensures r.success ==> r.response == outcome.value && r.error == ""
    ensures !r.success ==> r.error == outcome.error && r.response == ""
  {
    match outcome
    case Success(text) => ModelResult(model, true, text, "")
    case Failure(e) => ModelResult(model, false, "", e)
  }

  method MultiModelExecute(req: MultiModelRequest, env: AiEnv) returns (r: Reply<seq<ModelResult>>)
    ensures req.models == [] ==> r == Err(400, "At least one model must be specified")
    ensures req.models != [] ==> r.Ok? && r.status == 200
    ensures r.Ok? ==> (
      && |r.data| == |req.models|
      && forall i :: 0 <= i < |req.models| ==>
           r.data[i] == ResultFor(req.models[i], Call(MultiCall(req, req.models[i]), env)))
  {
    if |req.models| == 0 {
      return Err(400, "At least one model must be specified");
    }
    var results: seq<ModelResult> := [];
    for i := 0 to |req.models|
      invariant |results| == i
      invariant forall k :: 0 <= k < i ==>
        results[k] == ResultFor(req.models[k], Call(MultiCall(req, req.models[k]), env))
    {
      var model := req.models[i];
      var outcome := Call(MultiCall(req, model), env);
      results := results + [ResultFor(model, outcome)];
    }
    r := Ok(200, results);
  }

  // ---------------------------------------------------------------------
  // PromptEngineer

  datatype PromptEngineerRequest = PromptEngineerRequest(messages: seq<AiService.Message>, model: string, temperature: real)

  /** The call `PromptEngineer` makes: the conversation as sent, model "o3"
      unless one is named, the temperature defaulted and always 2000 tokens. */
  function EngineerCall(req: PromptEngineerRequest): (c: AiCall)
    ensures c.messages == req.messages && c.maxTokens == 2000
    ensures c.model == ModelOr(req.model, DefaultO3Model)
    ensures c.temperature == TemperatureOrDefault(req.temperature)
  {
    AiCall(req.messages, TemperatureOrDefault(req.temperature), 2000, ModelOr(req.model, DefaultO3Model))
  }

  function PromptEngineer(req: PromptEngineerRequest, env: AiEnv): (r: Reply<string>)
    ensures Call(EngineerCall(req), env).Success? <==> r.Ok?
    ensures r.Ok? ==> r == Ok(200, Call(EngineerCall(req), env).value)
    ensures r.Err? ==> r == Err(500, "Failed to get prompt engineering response: " + Call(EngineerCall(req), env).error)
  {
    match Call(EngineerCall(req), env)
    case Success(text) => Ok(200, text)
    case Failure(e) => Err(500, "Failed to get prompt engineering response: " + e)
  }

  /** With the Azure provider and no model named, a prompt-engineering call
      goes to the `o3` deployment at temperature 1 and asks for its 2000
      tokens as completion tokens. */
  lemma EngineerOnAzure(req: PromptEngineerRequest, env: AiEnv)
    requires req.model == "" && env.provider == AiService.ProviderAzureOpenAI && env.keys.azureOpenAI != ""
    ensures var c := EngineerCall(req);
      var b := AiService.BuildRequest(env.provider, env.keys, c.messages, c.temperature, c.maxTokens, c.model);
      b.Success? && b.value.AzureRequest? && b.value.temperature == 1.0
      && b.value.maxCompletionTokens == 2000 && b.value.maxTokens == 0
  {
  }

  // ---------------------------------------------------------------------
  // Lookups: nil means not found, an error is a server error

  function GetConversation(idParam: string, lookup: Result<Option<Database.Conversation>, string>)
    : (r: Reply<Database.Conversation>)
    ensures idParam == "" ==> r == Err(400, "Conversation ID is required")
    ensures idParam != "" && lookup.Failure? ==> r == Err(500, "Failed to retrieve conversation: " + lookup.error)
    ensures idParam != "" && lookup == Success(None) ==> r == Err(404, "Conversation not found")
    ensures r.Ok? <==> idParam != "" && lookup.Success? && lookup.value.Some?
    ensures r.Ok? ==> r == Ok(200, lookup.value.value)
  {
    if idParam == "" then Err(400, "Conversation ID is required")
    else match lookup
      case Failure(e) => Err(500, "Failed to retrieve conversation: " + e)
      case Success(None) => Err(404, "Conversation not found")
      case Success(Some(c)) => Ok(200, c)
  }

  /** Against the tables: an unknown or deleted conversation is a 404, never
      an error. */
  lemma UnknownConversationNotFound(t: Database.Tables, id: string)
    requires id != "" && id !in t.conversations
    ensures GetConversation(id, Success(Database.View(t, id))) == Err(404, "Conversation not found")
    ensures GetConversation(id, Success(Database.View(Database.DeleteConvAsWritten(t, id), id))) == Err(404, "Conversation not found")
  {
    Database.DeleteUnknownConv(t, id);
  }

  /** Once the store has deleted a conversation, fetching it is a 404,
      whatever the conversation held and whatever rows stay behind. */
  lemma DeletedConversationNotFound(t: Database.Tables, id: string)
    requires id != ""
    ensures GetConversation(id, Success(Database.View(Database.DeleteConvAsWritten(t, id), id))) == Err(404, "Conversation not found")
  {
    Database.DeleteConvView(t, id);
  }

  /** The outcome of `fmt.Sscanf(promptID, "%d", &id)`: the number, or None
      when the text does not start with one. */
  type IdScan = Option<int>

  function GetSavedPrompt(idParam: string, scan: IdScan, lookup: Result<Option<Database.SavedPrompt>, string>)
    : (r: Reply<Database.SavedPrompt>)
    ensures idParam == "" ==> r == Err(400, "Prompt ID is required")
    ensures idParam != "" && scan.None? ==> r == Err(400, "Invalid prompt ID format")
    ensures idParam != "" && scan.Some? && lookup.Failure? ==> r == Err(500, "Failed to retrieve prompt: " + lookup.error)
    ensures idParam != "" && scan.Some? && lookup == Success(None) ==> r == Err(404, "Prompt not found")
    ensures r.Ok? <==> idParam != "" && scan.Some? && lookup.Success? && lookup.value.Some?
    ensures r.Ok? ==> r == Ok(200, lookup.value.value)
  {
    if idParam == "" then Err(400, "Prompt ID is required")
    else if scan.None? then Err(400, "Invalid prompt ID format")
    else match lookup
      case Failure(e) => Err(500, "Failed to retrieve prompt: " + e)
      case Success(None) => Err(404, "Prompt not found")
      case Success(Some(p)) => Ok(200, p)
  }

  // ---------------------------------------------------------------------
  // Prompt library writes

  /** The field check shared by `SavePrompt` and `UpdatePrompt`: the title
      is checked before the content. */
  function PromptFieldsError(title: string, content: string): (e: Option<string>)
    ensures e.None? <==> title != "" && content != ""
    ensures title == "" ==> e == Some("Title is required")
    ensures title != "" && content == "" ==> e == Some("Content is required")
  {
    if title == "" then Some("Title is required")
    else if content == "" then Some("Content is required")
    else None
  }

  method SavePrompt(db: Database.Store, req: Database.SavePromptRequest) returns (r: Reply<Database.SavedPrompt>)
    requires db.Valid()
    modifies db
    ensures db.Valid()
    ensures PromptFieldsError(req.title, req.content).Some? ==>
      r == Err(400, PromptFieldsError(req.title, req.content).value) && db.prompts == old(db.prompts)
    ensures PromptFieldsError(req.title, req.content).None? ==> (
      && r == Ok(201, Database.SavedPrompt(old(db.nextPromptId), req.title, req.content, req.description,
                                           req.category, Database.TagsJson(req.tags), 0))
      && db.prompts == old(db.prompts)[old(db.nextPromptId) := r.data])
  {
    var invalid := PromptFieldsError(req.title, req.content);
    if invalid.Some? {
      return Err(400, invalid.value);
    }
    var saved := db.SavePrompt(req);
    r := Ok(201, saved.value);
  }

  /** The update request handed to the store: the body's fields with the
      id taken from the path, whatever id the body carried. */
  function WithPathId(id: int, body: Database.UpdatePromptRequest): (req: Database.UpdatePromptRequest)
    ensures req.id == id
    ensures req.(id := body.id) == body
  {
    body.(id := id)
  }

  method UpdatePrompt(db: Database.Store, idParam: string, scan: IdScan, body: Database.UpdatePromptRequest)
    returns (r: Reply<Option<Database.SavedPrompt>>)
    requires db.Valid()
    modifies db
    ensures db.Valid()
    ensures idParam == "" ==> r == Err(400, "Prompt ID is required") && db.prompts == old(db.prompts)
    ensures idParam != "" && scan.None? ==> r == Err(400, "Invalid prompt ID format") && db.prompts == old(db.prompts)
    ensures idParam != "" && scan.Some? && PromptFieldsError(body.title, body.content).Some? ==>
      r == Err(400, PromptFieldsError(body.title, body.content).value) && db.prompts == old(db.prompts)
    ensures idParam != "" && scan.Some? && PromptFieldsError(body.title, body.content).None? ==> (
      var id := scan.value;
      && r.Ok? && r.status == 200
      && (id in old(db.prompts) ==>
            r.data == Some(Database.SavedPrompt(id, body.title, body.content, body.description, body.category,
                                                Database.TagsJson(body.tags), old(db.prompts)[id].usageCount))
            && db.prompts == old(db.prompts)[id := r.data.value])
      && (id !in old(db.prompts) ==> r.data == None && db.prompts == old(db.prompts)))
  {
    if idParam == "" {
      return Err(400, "Prompt ID is required");
    }
    if scan.None? {
      return Err(400, "Invalid prompt ID format");
    }
    var req := WithPathId(scan.value, body);
    var invalid := PromptFieldsError(req.title, req.content);
    if invalid.Some? {
      return Err(400, invalid.value);
    }
    var updated := db.UpdatePrompt(req);
    r := Ok(200, updated);
  }

  /** `UsePrompt`: the usage count is raised before the prompt is read
      back, so a found prompt is returned with the raised count. */
  method UsePrompt(db: Database.Store, idParam: string, scan: IdScan) returns (r: Reply<Database.SavedPrompt>)
    requires db.Valid()
    modifies db
    ensures db.Valid()
    ensures idParam == "" ==> r == Err(400, "Prompt ID is required") && db.prompts == old(db.prompts)
    ensures idParam != "" && scan.None? ==> r == Err(400, "Invalid prompt ID format") && db.prompts == old(db.prompts)
    ensures idParam != "" && scan.Some? && scan.value !in old(db.prompts) ==>
      r == Err(404, "Prompt not found") && db.prompts == old(db.prompts)
    ensures idParam != "" && scan.Some? && scan.value in old(db.prompts) ==>
      var before := old(db.prompts)[scan.value];
      r == Ok(200, before.(usageCount := before.usageCount + 1)) && db.prompts == old(db.prompts)[scan.value := r.data]
  {
    if idParam == "" {
      return Err(400, "Prompt ID is required");
    }
    if scan.None? {
      return Err(400, "Invalid prompt ID format");
    }
    var id := scan.value;
    db.IncrementPromptUsage(id);
    var found := db.GetSavedPrompt(id);
    if found.None? {
      return Err(404, "Prompt not found");
    }
    r := Ok(200, found.value);
  }

  // ---------------------------------------------------------------------
  // GenerateEval

  /** The checks and defaults `GenerateEval` applies before generating:
      the prompt, then the type list, must be non-empty; a non-positive
      sample size becomes 10, an empty model "gpt-4.1" and an empty
      difficulty "mixed". */
  function PrepareEval(req: EvalGenerator.EvalGenerateRequest): (r: Result<EvalGenerator.EvalGenerateRequest, string>)
    ensures req.prompt == "" ==> r == Failure("Prompt is required")
    ensures req.prompt != "" && req.evalTypes == [] ==> r == Failure("At least one evaluation type is required")
    ensures r.Success? <==> req.prompt != "" && req.evalTypes != []
    ensures r.Success? ==> (
      && r.value.prompt == req.prompt && r.value.evalTypes == req.evalTypes
      && r.value.sampleSize > 0 && (req.sampleSize > 0 ==> r.value.sampleSize == req.sampleSize)
      && r.value.model == ModelOr(req.model, DefaultGPTModel)
      && r.value.difficulty == (if req.difficulty == "" then "mixed" else req.difficulty))
  {
    if req.prompt == "" then Failure("Prompt is required")
    else if req.evalTypes == [] then Failure("At least one evaluation type is required")
    else
      Success(req.(sampleSize := if req.sampleSize <= 0 then 10 else req.sampleSize,
                   model := ModelOr(req.model, DefaultGPTModel),
                   difficulty := if req.difficulty == "" then "mixed" else req.difficulty))
  }

  /** `GenerateEval`: a request that passes the checks always has a type,
      so the criteria weight `100 / len(types)` is defined. */
  function GenerateEval(req: EvalGenerator.EvalGenerateRequest, reply: EvalGenerator.CaseReply)
    : (r: Reply<EvalGenerator.EvalData>)
    ensures PrepareEval(req).Failure? ==> r == Err(400, PrepareEval(req).error)
    ensures PrepareEval(req).Success? && reply.CallFailed? ==>
      r == Err(500, "Failed to generate evaluation suite: " + ("failed to generate test cases: " + reply.error))
    ensures PrepareEval(req).Success? && !reply.CallFailed? ==>
      r == Ok(200, EvalGenerator.GenerateEvaluationSuite(PrepareEval(req).value, reply).value)
    ensures r.Ok? ==> (
      && r.status == 200
      && r.data.basePrompt == req.prompt
      && r.data.metadata.sampleSize > 0
      && |r.data.criteria| <= |req.evalTypes|
      && forall i :: 0 <= i < |r.data.criteria| ==> r.data.criteria[i].weight == 100 / |req.evalTypes|)
  {
    match PrepareEval(req)
    case Failure(e) => Err(400, e)
    case Success(prepared) =>
      match EvalGenerator.GenerateEvaluationSuite(prepared, reply)
      case Failure(e) => Err(500, "Failed to generate evaluation suite: " + e)
      case Success(data) => Ok(200, data)
  }
}
