# Prompt Forge core, modelled in Dafny

Prompt Forge is a prompt-engineering workbench with two halves:

- A browser client: a prompt editor with `{{variable}}` placeholders, a token counter, a prompt-engineering chat, a prompt library and an evaluation-suite view.
- A Go API server: HTTP handlers over a SQLite store and over three AI providers (OpenAI, Azure OpenAI and Anthropic).

This project models the deterministic core of both halves. Each source file of the core has its own module:

| module | file | what it holds |
|---|---|---|
| `Session` | `session.dfy` | The chat session of the client (`frontend/prompt-generator.js`). The class `PromptGeneratorState` holds the current conversation, its active flag and id, the stored id of the last conversation and the log of requests sent. |
| `Tokenizer` | `tokenizer.dfy` | The token counter (`frontend/tokenizer.js`): the integer estimate, the observer list and the context-limit warnings. |
| `ApiOperations` | `api_operations.dfy` | Variable extraction, substitution and validation; the history record; the history fallbacks (`frontend/api-operations.js`). |
| `Database` | `database.dfy` | The store (`api/internal/database/database.go`). The tables are maps and sequences in the class `Store`. Conversation saves and deletes are also stated as functions on a `Tables` value. |
| `Handlers` | `handlers.dfy` | The validation and defaulting rules of the HTTP handlers (`api/internal/handlers/handlers.go`). |
| `AiService` | `ai_service.dfy` | Provider routing and request building (`api/internal/services/ai_service.go`). |
| `Config` | `config.dfy` | Azure endpoint selection (`api/internal/config/config.go`). |
| `EvalGenerator` | `eval_generator.dfy` | Criteria weighting, the line-based fallback parser and suite assembly (`api/internal/services/eval_generator.go`). |
| `PromptAnalyzer` | `prompt_analyzer.dfy` | The basic prompt metrics (`api/internal/services/prompt_analyzer.go`). |
| `App` | `app.dfy` | The client's main script (`frontend/app.js`): provider model lists and the selection rule, average difficulty, library grouping, tags, and the library cache with its save, update and delete flows. |
| `Wrappers`, `Seqs`, `Text` | | Shared definitions: `Option`/`Result`; duplicate-free sequences and first-occurrence de-duplication; ASCII whitespace, trimming, word counting, splitting and joining; JavaScript string length and `substring` in UTF-16 code units. |

Everything outside the process becomes an explicit input or a recorded output:

- Every network request, AI call, `confirm()` dialog and `Sscanf` result is an input value. This includes success, `{success:false}` and a thrown exception, where the source distinguishes them.
- Requests the client sends are appended to a log field, so contracts can say exactly what was sent.
- Clocks and id generators are parameters (`stamp`, `now`, `freshId`).

## Model

| member | source | states |
|---|---|---|
| Session.FindFirstUserFinds | frontend/prompt-generator.js:31 | the search returns the earliest user message |
| Session.FindFirstUserNone | frontend/prompt-generator.js:31 | the search is empty exactly when no message has role user |
| Session.ConversationTitle | frontend/prompt-generator.js:31-34 | a title is never longer than 53 characters |
| Session.TitleFromFirstUser | frontend/prompt-generator.js:31-34 | the title is the earliest user message cut to its longest prefix of at most 50 UTF-16 code units, with "..." exactly when the message is longer than 50 units; for text of the Basic Multilingual Plane that is its first 50 characters |
| Session.TitleOfLongBmp | frontend/prompt-generator.js:31-34 | a single user message of more than 50 Basic Multilingual Plane characters gives its first 50 characters and "..." |
| Session.TitleWithoutUser | frontend/prompt-generator.js:32-34 | without a user message the title is "New Conversation" |
| Session.TitleExample | frontend/prompt-generator.js:31-34 | the 60-character message "Explain quantum computing in simple terms for a ten year old" gives "Explain quantum computing in simple terms for a te..." |
| Session.TitleSurrogateExample | frontend/prompt-generator.js:33-34 | 30 characters outside the Basic Multilingual Plane are 60 code units, so the title keeps 25 of them and gets "..." |
| Session.SavePayload | frontend/prompt-generator.js:24-48 | nothing is sent without an id or with an empty conversation; otherwise exactly one save, carrying the current id, the derived title and every message in order |
| Session.OutboundMessages | frontend/prompt-generator.js:179-185 | the outbound list is the system prompt, then every message (role and content) in order, so its length is one more |
| Session.ErrorText | frontend/prompt-generator.js:352-360 | the error message is the warning prefix, the error, then the retry hint |
| Session.PromptGeneratorState.constructor | frontend/prompt-generator.js:2-16 | a new session is inactive, empty and has no id; the stored id is as found |
| Session.PromptGeneratorState.StartNewConversation | frontend/prompt-generator.js:100-126 | one assistant greeting, active under the fresh id, stored id set to that id, one save sent |
| Session.PromptGeneratorState.ClearConversation | frontend/prompt-generator.js:129-147 | no messages, inactive, no id, stored id removed, nothing sent |
| Session.PromptGeneratorState.SaveConversation | frontend/prompt-generator.js:24-58 | the requests grow by exactly `SavePayload` of the current state, and nothing else changes |
| Session.PromptGeneratorState.RenderConversation | frontend/prompt-generator.js:230-241 | rendering an empty conversation clears the session; otherwise nothing changes |
| Session.PromptGeneratorState.LoadConversation | frontend/prompt-generator.js:61-81 | true exactly on success; on success the loaded list (empty when absent) under that id; on failure state unchanged |
| Session.PromptGeneratorState.LoadLastConversation | frontend/prompt-generator.js:84-95 | without a stored id, or when loading fails or is empty, the session is cleared; otherwise the stored conversation is resumed |
| Session.PromptGeneratorState.SendMessage | frontend/prompt-generator.js:150-176 | blank input changes nothing; otherwise exactly one user message with the trimmed text is appended and saved; an active session is not checked |
| Session.PromptGeneratorState.PostUserMessage | frontend/prompt-generator.js:158-175 | appends the user message and sends the save of the new state |
| Session.PromptGeneratorState.ReceiveReply | frontend/prompt-generator.js:200-220 | exactly one assistant message is appended: the reply, or the error text; only a reply is saved |
| Session.PromptGeneratorState.ShowErrorMessage | frontend/prompt-generator.js:352-361 | appends one assistant error message and sends nothing |
| Session.PromptGeneratorState.LoadHistoryConversation | frontend/prompt-generator.js:505-524 | the stored id is written only after a successful load, which is followed by one reload of the conversation list; a loaded empty conversation leaves the session cleared; a failure appends an error message and requests nothing more |
| Session.PromptGeneratorState.DeleteHistoryConversation | frontend/prompt-generator.js:526-553 | nothing happens unless confirmed; a successful delete clears the session only when it is the current one and is followed by one reload of the conversation list |
| Tokenizer.PieceCount | frontend/tokenizer.js:70 | the pieces of the trimmed text: the word count, or 1 for blank text |
| Tokenizer.EstimateTokens | frontend/tokenizer.js:66-75 | 0 for empty text, otherwise the least count covering both 3/4 token per piece and 1 token per 4 UTF-16 code units, hence at least 1 |
| Tokenizer.EstimateSurrogateExample | frontend/tokenizer.js:70-74 | five characters outside the Basic Multilingual Plane are ten code units, so one piece is estimated at 3 tokens |
| Tokenizer.EstimateMonotone | frontend/tokenizer.js:70-74 | appending text never lowers the estimate |
| Tokenizer.CountFor | frontend/tokenizer.js:38-53 | the encoder's count when an encoder is loaded and succeeds, the estimate otherwise |
| Tokenizer.NotifyReachesEach | frontend/tokenizer.js:55-62 | every observer is invoked exactly once, in registration order, with the same snapshot, whether or not earlier ones threw |
| Tokenizer.TokenCounter.constructor | frontend/tokenizer.js:3-8 | a new counter has no observers and runs the encoder set-up: 0 tokens when loading threw or the editor is empty, otherwise the count of the editor text |
| Tokenizer.TokenCounter.InitializeTiktoken | frontend/tokenizer.js:10-30 | records whether an encoder loaded; unless loading threw, the text already in the editor is counted |
| Tokenizer.TokenCounter.OnUpdate | frontend/tokenizer.js:33-35 | registration appends the observer and changes nothing else |
| Tokenizer.TokenCounter.UpdateCount | frontend/tokenizer.js:38-63 | stores the count (without an encoder, `GetCurrentCount` is the estimate) and appends one notification round |
| Tokenizer.GetModelContextInfo | frontend/tokenizer.js:84-105 | the table entry of the model, GPT-4.1 with 200000 tokens for an unknown id |
| Tokenizer.GetTokenWarning | frontend/tokenizer.js:108-130 | at most one warning: danger iff tokens > 95% of the limit, warning iff above 80% and not above 95%, none otherwise |
| Tokenizer.WarningExamples | frontend/tokenizer.js:108-130 | 170001, 190001 and 100000 tokens against 200000 give warning, danger and nothing |
| ApiOperations.Scan | frontend/api-operations.js:115-128 | every raw match is non-empty and free of `}` |
| ApiOperations.Variables | frontend/api-operations.js:115-128 | the names are duplicate-free, each is a trimmed match, and every trimmed match is among them |
| ApiOperations.ScanFindsPlaceholder | frontend/api-operations.js:116 | a placeholder `{{name}}` is found with its name, and scanning then continues after it |
| ApiOperations.ExtractVariables | frontend/api-operations.js:115-128 | the loop computes `Variables`: trimmed matches, first occurrences only, in order |
| ApiOperations.SkipSpace | frontend/api-operations.js:137 | stops at the first non-whitespace character, skipping only whitespace |
| ApiOperations.PlaceholderEnd | frontend/api-operations.js:137 | a recognised placeholder spans at least its four braces |
| ApiOperations.PlaceholderRecognised | frontend/api-operations.js:137 | `{{`, any whitespace, the name, any whitespace and `}}` is recognised as a placeholder for that name |
| ApiOperations.ReplaceNothing | frontend/api-operations.js:137-141 | text in which no placeholder for the name starts is unchanged |
| ApiOperations.ReplacePlainPrefix | frontend/api-operations.js:137-141 | text that opens no brace is kept as it is in front of the replaced remainder |
| ApiOperations.ReplaceFirstPlaceholder | frontend/api-operations.js:137-141 | a placeholder for the name after text that opens no brace becomes the value, the text before it is kept and the rest is replaced on its own |
| ApiOperations.SubstituteBlank | frontend/api-operations.js:130-145 | blank values leave the prompt as it is |
| ApiOperations.SubstituteVariables | frontend/api-operations.js:130-145 | the loop replaces, input by input, every placeholder of a non-blank input with its trimmed value |
| ApiOperations.SubstituteFirstPlaceholder | frontend/api-operations.js:130-145 | with one non-blank input, its first placeholder becomes the trimmed value and the rest of the prompt is substituted on its own |
| ApiOperations.SubstituteExample | frontend/api-operations.js:137-141 | `{{ name }}!` with value World gives `World!` |
| ApiOperations.EmptyNames | frontend/api-operations.js:147-161 | the list is empty exactly when no value is blank |
| ApiOperations.EmptyNamesLists | frontend/api-operations.js:147-161 | every input with a blank value is listed |
| ApiOperations.ValidateVariables | frontend/api-operations.js:147-161 | valid iff no input is blank; the names listed are exactly the blank ones, in input order |
| ApiOperations.HistoryRecord | frontend/api-operations.js:211-220 | "[Variables] " prefixed exactly when there were variables; response only on success, error only on failure |
| ApiOperations.MaxTokensOrDefault | frontend/api-operations.js:186 | 1000 when the field parses to 0 or not at all, the parsed number otherwise |
| ApiOperations.PrepareTest | frontend/api-operations.js:165-182 | a blank prompt is refused; a prompt with variables is refused while any value is blank; otherwise the trimmed prompt and its variables |
| ApiOperations.LocalItem | frontend/api-operations.js:284-292 | the prompt is cut to its longest prefix of at most 100 UTF-16 code units plus "..." when longer than 100 units (its first 100 characters for Basic Multilingual Plane text); the response field is the reply or the error |
| ApiOperations.LoadHistoryFromDB | frontend/api-operations.js:298-313 | the data on success, nothing on refusal or exception |
| ApiOperations.AppState.SaveToHistory | frontend/api-operations.js:273-295 | the record is always posted; only when posting throws is exactly one local item prepended |
| Database.HistoryRow | api/internal/database/database.go:152-164 | the inserted record holds exactly the request's fields |
| Database.Newest | api/internal/database/database.go:117-150 | at most the limit, newest first |
| Database.ContentsOfRows | api/internal/database/database.go:220-248 | the rows written for a message list read back as that list |
| Database.SaveConv | api/internal/database/database.go:253-305 | the conversation exists afterwards; no other conversation appears or disappears |
| Database.DeleteConvAsWritten | api/internal/database/database.go:307-316 | the delete as written: the conversation row goes and the message rows stay |
| Database.DeleteConv | api/internal/database/database.go:85 | the delete with the declared cascade: the conversation and only it goes |
| Database.View | api/internal/database/database.go:208-251 | nothing exactly for an unknown id |
| Database.SaveConvNoOrphans | api/internal/database/database.go:253-305 | saving keeps every message attached to an existing conversation |
| Database.DeleteConvNoOrphans | api/internal/database/database.go:85 | the cascading delete keeps every message attached to an existing conversation |
| Database.SaveConvRows | api/internal/database/database.go:276-302 | after a save, the conversation's rows are exactly the new rows: an existing conversation's rows are replaced in any store state, orphaned rows included; a new id needs no rows left behind under it |
| Database.SaveConvSnapshot | api/internal/database/database.go:253-305 | reading back after a save gives the saved messages, for an existing id in any store state and for a new id with no rows left behind; a new conversation gets the title or "New Conversation"; an existing one gets the title as sent |
| Database.NoOrphansUnknownEmpty | api/internal/database/database.go:85 | where every message has its conversation, an unknown id has no rows, so the snapshot holds for every save |
| Database.DeleteConvView | api/internal/database/database.go:307-316 | a deleted conversation reads back as absent, under either delete |
| Database.DeleteUnknownConv | api/internal/database/database.go:307-316 | the delete as written changes nothing for an unknown id, in any store |
| Database.DeleteUnknownConvCascade | api/internal/database/database.go:85 | the cascading delete changes nothing for an unknown id when every message has its conversation |
| Database.OrphansResurface | api/internal/database/database.go:307-316 | with the delete as written, re-saving a deleted id reads back its old messages followed by the new ones, in any store |
| Database.OrphansBreakSnapshot | api/internal/database/database.go:307-316 | so the snapshot property fails whenever the deleted conversation had messages |
| Database.CascadeForgets | api/internal/database/database.go:85 | with the cascade, a re-saved conversation reads back exactly the new messages, in any store |
| Database.TagsJson | api/internal/database/database.go:377-385 | "[]" exactly for no tags; otherwise a bracketed JSON array |
| Database.NonEmptyElements | api/internal/database/database.go:379-385 | a non-empty tag list encodes to a non-empty element list starting with a quote |
| Database.TagsExample | api/internal/database/database.go:379-385 | a tag with a quote is escaped inside a one-element array |
| Database.Store.constructor | api/internal/database/database.go:17-36 | an empty store |
| Database.Store.GetHistory | api/internal/database/database.go:117-150 | the newest 50 records, newest first |
| Database.Store.SaveHistory | api/internal/database/database.go:152-164 | one record with the request's fields is appended; nothing else changes |
| Database.Store.ClearHistory | api/internal/database/database.go:166-175 | the log is empty; nothing else changes |
| Database.Store.GetConversations | api/internal/database/database.go:178-206 | every conversation exactly once with its title |
| Database.Store.GetConversation | api/internal/database/database.go:208-251 | the result is `View` of the tables: nothing for an unknown id, else the title and the messages in order |
| Database.Store.SaveConversation | api/internal/database/database.go:253-305 | the tables become `SaveConv` of the old tables; history and prompts are untouched |
| Database.Store.AppendRows | api/internal/database/database.go:293-302 | one message row per message, in order, under consecutive fresh ids; nothing else changes |
| Database.Store.DeleteConversation | api/internal/database/database.go:307-316 | the tables become `DeleteConvAsWritten` of the old tables: the conversation row goes and its message rows stay; history and prompts are untouched |
| Database.Store.GetSavedPrompts | api/internal/database/database.go:319-351 | every saved prompt exactly once |
| Database.Store.GetSavedPrompt | api/internal/database/database.go:353-374 | the prompt, or nothing for an unknown id |
| Database.Store.SavePrompt | api/internal/database/database.go:376-404 | a fresh id, usage 0, the category exactly as sent, the tags as JSON; nothing else changes |
| Database.Store.UpdatePrompt | api/internal/database/database.go:406-430 | rewrites title, content, description, category and tags, keeps the usage count; an unknown id changes nothing |
| Database.Store.DeletePrompt | api/internal/database/database.go:432-441 | the prompt is removed; an unknown id changes nothing |
| Database.Store.IncrementPromptUsage | api/internal/database/database.go:443-452 | the usage count of that prompt goes up by exactly one; an unknown id changes nothing |
| Handlers.TemperatureOrDefault | api/internal/handlers/handlers.go:103-105 | a zero temperature becomes 0.7, any other is kept |
| Handlers.ModelOr | api/internal/handlers/handlers.go:107-110 | an empty model becomes the default, any other is kept |
| Handlers.ExecuteCall | api/internal/handlers/handlers.go:89-124 | the prompt is the single user message; an empty model becomes gpt-4.1 and a zero temperature 0.7, others are kept; the token limit is passed on |
| Handlers.ExecutePrompt | api/internal/handlers/handlers.go:89-124 | 200 with the reply exactly when the call succeeds, else 500 with the prefixed error |
| Handlers.MultiCall | api/internal/handlers/handlers.go:142-162 | each call shares the prompt, the temperature (0.7 for zero) and the token limit (1000 for zero), with its own model |
| Handlers.ResultFor | api/internal/handlers/handlers.go:166-181 | success carries the reply, failure the error, never both |
| Handlers.MultiModelExecute | api/internal/handlers/handlers.go:126-188 | an empty model list is refused with 400; otherwise exactly one result per model, in request order |
| Handlers.EngineerCall | api/internal/handlers/handlers.go:241-272 | the conversation as sent, model defaulting to o3, 2000 tokens, defaulted temperature |
| Handlers.PromptEngineer | api/internal/handlers/handlers.go:241-272 | 200 with the reply exactly when the call succeeds, else 500 with the prefixed error |
| Handlers.EngineerOnAzure | api/internal/handlers/handlers.go:250-260 | with Azure and no model, the call goes to o3 with temperature 1 and its limit in the completion-token field |
| Handlers.GetConversation | api/internal/handlers/handlers.go:319-347 | an empty id is 400, a store error 500, an absent conversation 404, otherwise 200 with it |
| Handlers.UnknownConversationNotFound | api/internal/handlers/handlers.go:328-341 | an unknown id is answered 404, never 500, before and after the store's delete |
| Handlers.DeletedConversationNotFound | api/internal/handlers/handlers.go:328-341 | once the store's delete has removed a conversation, fetching it is a 404 whatever rows stay behind |
| Handlers.GetSavedPrompt | api/internal/handlers/handlers.go:409-446 | an empty id and an unparsable id are 400, a store error 500, an absent prompt 404, otherwise 200 with it |
| Handlers.PromptFieldsError | api/internal/handlers/handlers.go:458-470 | the title is checked before the content; no error iff both are non-empty |
| Handlers.SavePrompt | api/internal/handlers/handlers.go:448-484 | invalid fields are 400 and store nothing; otherwise 201 with the record stored under a fresh id |
| Handlers.WithPathId | api/internal/handlers/handlers.go:513 | the body with its id replaced by the path id, every other field kept |
| Handlers.UpdatePrompt | api/internal/handlers/handlers.go:486-542 | id checks, then field checks, then the update under the path id; a missing prompt is not found and changes nothing |
| Handlers.UsePrompt | api/internal/handlers/handlers.go:575-621 | the usage count is raised before the read, so a found prompt comes back with the new count; an unknown id is 404 |
| Handlers.PrepareEval | api/internal/handlers/handlers.go:633-657 | an empty prompt, then an empty type list, are refused; otherwise sample size 10, model gpt-4.1 and difficulty mixed by default |
| Handlers.GenerateEval | api/internal/handlers/handlers.go:623-672 | refusals are 400, a failed generation 500 with both prefixes, otherwise 200 with exactly the suite generated for the defaulted request |
| AiService.BuildOpenAI | api/internal/services/ai_service.go:50-70 | fails iff the key is empty; model gpt-4 by default; a token limit only when positive |
| AiService.BuildAzure | api/internal/services/ai_service.go:111-135 | fails iff the key is empty; for o3 temperature 1 and the limit in the completion-token field, else in the token field; a limit only when positive |
| AiService.AnthropicTemperature | api/internal/services/ai_service.go:187-197 | halved above 1, then clamped into [0, 1] |
| AiService.AnthropicTemperatureExamples | api/internal/services/ai_service.go:187-197 | 0, 1, 2, 1.5, -0.5 and 0.5 map to 0, 1, 1, 0.75, 0 and 0.5 |
| AiService.NonSystem | api/internal/services/ai_service.go:203-210 | the kept messages are exactly the non-system messages of the input: each kept one is one, and each one is kept |
| AiService.LastSystemIsLast | api/internal/services/ai_service.go:203-206 | the system prompt is the content of the last system message |
| AiService.NoSystemMessage | api/internal/services/ai_service.go:203-223 | without system messages, the system prompt is empty and every message is kept |
| AiService.AnthropicConversionExample | api/internal/services/ai_service.go:203-223 | for any system, user, assistant, user conversation, the system text is extracted and the other three messages are kept in order |
| AiService.LeadingSystem | api/internal/services/ai_service.go:203-212 | a leading system message with no other system message is extracted, and the rest is passed on unchanged |
| AiService.ConvertMessages | api/internal/services/ai_service.go:201-210 | the loop produces the non-system messages in order and the last system content |
| AiService.BuildAnthropic | api/internal/services/ai_service.go:177-227 | fails iff the key is empty; default model; rescaled temperature; system extracted; a zero token limit becomes 1000 |
| AiService.BuildRequest | api/internal/services/ai_service.go:32-43 | routing by provider; any other provider is the "unsupported AI provider" error |
| AiService.CallAI | api/internal/services/ai_service.go:32-43 | the unsupported and missing-key errors come before any exchange; otherwise the exchange's answer to the built request |
| AiService.ConfiguredProviderSends | api/internal/services/ai_service.go:32-43 | a supported provider with its key always builds a request |
| Config.Deployment | api/internal/config/config.go:19-23 | gpt-4.1 and o3 map to themselves, every other model to gpt-4.1 |
| Config.EndpointFor | api/internal/config/config.go:24 | the URL is the base, "/", the deployment, "/chat/completions?api-version=" and the version, and the deployment can be read back right after the base |
| Config.EndpointNamesKnownDeployment | api/internal/config/config.go:19-25 | the URL names one of the two known deployments right after the base |
| Config.EndpointSelection | api/internal/config/config.go:13-25 | known models get their own deployment, others share the gpt-4.1 URL, and the two URLs differ |
| EvalGenerator.Criteria | api/internal/services/eval_generator.go:149-187 | at most one criterion per type, each with the given weight |
| EvalGenerator.CriteriaCount | api/internal/services/eval_generator.go:179-184 | one criterion per known type |
| EvalGenerator.CriteriaFromTypes | api/internal/services/eval_generator.go:153-184 | each criterion is the fixed criterion of a requested known type |
| EvalGenerator.GenerateEvaluationCriteria | api/internal/services/eval_generator.go:149-187 | the loop emits the known types' criteria in order, each weighted `100 / n` |
| EvalGenerator.CriteriaWeights | api/internal/services/eval_generator.go:177-184 | every weight is `100 / n` and the weights sum to at most 100 |
| EvalGenerator.CriteriaSkipUnknown | api/internal/services/eval_generator.go:177-184 | an unknown type is skipped but still counts in the divisor |
| EvalGenerator.DifficultyOf | api/internal/services/eval_generator.go:131-136 | easy iff the index is 0 mod 3, medium iff 1, hard iff 2 |
| EvalGenerator.CategoryOf | api/internal/services/eval_generator.go:126-129 | the types taken round-robin by line index, robustness without types |
| EvalGenerator.CasesBound | api/internal/services/eval_generator.go:121-143 | at most one case per line and never more than ten |
| EvalGenerator.CasesBeyondTen | api/internal/services/eval_generator.go:125 | lines from the eleventh on add nothing |
| EvalGenerator.CasesSound | api/internal/services/eval_generator.go:121-143 | every case comes from a non-blank line among the first ten, with that line trimmed as input |
| EvalGenerator.CasesComplete | api/internal/services/eval_generator.go:121-143 | every non-blank line among the first ten yields its case |
| EvalGenerator.ParseTestCasesFromText | api/internal/services/eval_generator.go:119-147 | the loop computes the cases of the newline split |
| EvalGenerator.TwelveLines | api/internal/services/eval_generator.go:121-143 | twelve non-blank lines give exactly ten cases |
| EvalGenerator.TenCases | api/internal/services/eval_generator.go:121-143 | up to ten non-blank lines give one case each |
| EvalGenerator.GenerationCallFor | api/internal/services/eval_generator.go:52-66 | temperature 0.7, 2000 tokens, model gpt-4.1 when none is given |
| EvalGenerator.TestCasesFrom | api/internal/services/eval_generator.go:52-78 | a failed call fails; decoded cases pass through; an undecodable reply falls back to at most ten parsed cases |
| EvalGenerator.GenerateEvaluationSuite | api/internal/services/eval_generator.go:22-50 | fails exactly when case generation fails, with the prefix; otherwise prompt and metadata copied unchanged and the weighted criteria |
| PromptAnalyzer.Utf8Length | api/internal/services/prompt_analyzer.go:199 | 1 to 4 bytes per code point, 1 exactly for ASCII |
| PromptAnalyzer.ByteLength | api/internal/services/prompt_analyzer.go:199 | between one and four bytes per character |
| PromptAnalyzer.ByteLengthAscii | api/internal/services/prompt_analyzer.go:199 | the byte count equals the character count iff every character is ASCII |
| PromptAnalyzer.CalculateBasicMetrics | api/internal/services/prompt_analyzer.go:195-232 | bytes, words, newline count + 1, and each special character exactly once (no whitespace), or exactly "None detected" |
| PromptAnalyzer.CollectSpecial | api/internal/services/prompt_analyzer.go:209-220 | the set holds exactly the punctuation and symbol characters of the prompt other than space, newline and tab |
| PromptAnalyzer.ListSpecial | api/internal/services/prompt_analyzer.go:222-225 | every collected character becomes exactly one one-character entry, with nothing else listed |
| PromptAnalyzer.MetricsOfBlank | api/internal/services/prompt_analyzer.go:202-207 | zero words iff the prompt is blank; an empty prompt has one line and no bytes |
| App.ProviderDisplayName | frontend/app.js:137-144 | the mapped name, or the id unchanged |
| App.DropdownModels | frontend/app.js:147-149 | the current provider's models, the azure-openai list when unset or unknown; never empty |
| App.PopulateModels | frontend/app.js:1465-1506 | the current provider's models, the anthropic list otherwise; never empty |
| App.UpdateModelDropdown | frontend/app.js:242-277 | an empty list leaves an empty select; otherwise the current value is kept when offered, else the first model is selected |
| App.SelectionAlwaysOffered | frontend/app.js:147-158 | whatever the provider and previous value, the selection is one of the models shown |
| App.SwitchProviderExample | frontend/app.js:147-149 | switching to anthropic drops o3 for the first Anthropic model; an unknown provider shows the Azure list and keeps o3 |
| App.Score | frontend/app.js:1440-1441 | every score lies between 1 and 4 |
| App.TotalScore | frontend/app.js:1441 | the total lies between n and 4n |
| App.AverageDifficulty | frontend/app.js:1437-1448 | N/A exactly for no cases; Easy, Medium, Hard and Expert exactly for the mean's ranges (≤ 1.5, ≤ 2.5, ≤ 3.5, above) |
| App.TotalOfUniform | frontend/app.js:1441 | cases of one difficulty total that difficulty's score times their number |
| App.UniformSuite | frontend/app.js:1437-1448 | a suite of one difficulty is labelled by it: easy Easy, hard Hard, adversarial Expert, anything else Medium |
| App.CategoryKey | frontend/app.js:1208 | the category, or General when it is empty; never empty |
| App.GroupNames | frontend/app.js:1207-1212 | the groups are the prompts' categories, each once, in order of first appearance |
| App.GroupSizes | frontend/app.js:1207-1212 | the group sizes add up to the number of prompts |
| App.GroupContents | frontend/app.js:1207-1212 | each group holds exactly its category's prompts, in library order |
| App.PlacePrompts | frontend/app.js:1207-1212 | with distinct categories, the prompt is appended to its own category's group and every other group keeps its prompts |
| App.ContentsStep | frontend/app.js:1207-1212 | adding one prompt to the reduce keeps every group holding exactly its category's prompts in library order |
| App.GroupingPartitions | frontend/app.js:1207-1212 | the three facts together: every prompt is in exactly one group |
| App.AddTag | frontend/app.js:943-964 | a blank tag, or one equal as given to a present tag, changes nothing; any other is appended trimmed, as its element's text is read back |
| App.AddTagKeepsTagsDistinct | frontend/app.js:924-964 | tags stay non-blank; a tag trimmed before the call, as typed tags are, keeps them distinct and is present afterwards |
| App.AddTagUntrimmedDuplicates | frontend/app.js:943-951 | a tag given with surrounding whitespace whose trimmed form is present is added a second time |
| App.ListedPrompts | frontend/app.js:798-820 | the data (empty when absent) on success, empty on refusal or exception |
| App.SaveBody | frontend/app.js:973-1004 | trimmed fields, the tags as collected, General for an empty category |
| App.FormError | frontend/app.js:979-987 | the title is checked before the content; no error iff both are non-blank |
| App.AcceptedFormPassesServer | frontend/app.js:979-1004 | a form the client accepts passes the server's field check and is stored with a non-empty category |
| App.PromptLibrary.constructor | frontend/app.js:793-821 | an empty, not-loaded library with no requests |
| App.PromptLibrary.LoadPromptLibrary | frontend/app.js:793-821 | always ends loaded, with the listed prompts or an empty list |
| App.PromptLibrary.Invalidate | frontend/app.js:1007-1008 | the cache is marked stale and a reload is requested |
| App.PromptLibrary.SavePrompt | frontend/app.js:972-1018 | an invalid form sends nothing; otherwise one POST of `SaveBody`; on success the cache is invalidated and reloaded |
| App.PromptLibrary.UpdatePrompt | frontend/app.js:1036-1082 | as for saving, with one PUT to the prompt's path whose body carries no id |
| App.PromptLibrary.DeletePrompt | frontend/app.js:1084-1107 | nothing unless confirmed; one DELETE; on success the cache is invalidated and reloaded |
| App.PromptLibrary.SendWrite | frontend/app.js:1006-1017 | on success a success toast, one extra reload request and the cache invalidated; on refusal the error toast carries the server's error; on a throw the fixed error toast; the saved prompts are untouched |
| Seqs.DedupKeepsFirstOrder | frontend/api-operations.js:121-124 | de-duplication keeps first occurrences in order |
| Text.WordCountZero | api/internal/services/prompt_analyzer.go:202-203 | zero words iff the text is blank |
| Text.WordCountTrim | frontend/tokenizer.js:70 | trimming does not change the word count |
| Text.Utf16LengthBmp | frontend/tokenizer.js:71 | a text's JavaScript length equals its character count exactly when every character is in the Basic Multilingual Plane |
| Text.Utf16LengthAstral | frontend/tokenizer.js:71 | characters outside the Basic Multilingual Plane count two code units each |
| Text.TakeUnits | frontend/prompt-generator.js:33 | a prefix of at most n code units to which the next character would not fit, and the whole text when it fits |
| Text.TakeUnitsBmp | frontend/prompt-generator.js:33 | on Basic Multilingual Plane text the cut is the first n characters |
| Text.Ellipsize | frontend/prompt-generator.js:33-34 | the text itself when it fits in n code units, otherwise its cut followed by "..." |
| Text.SplitJoin | api/internal/services/eval_generator.go:121 | joining the split with the separator gives the text back |

## Left out

- Network, DOM, `localStorage` and toast rendering are not modelled. Every fetch outcome, AI provider answer and `confirm()` answer is an input; requests are recorded; toasts are returned values.
- HTTP body binding errors ("Invalid request format") and store errors other than the ones a handler distinguishes are not modelled. Those handlers take the store's answer as an input.
- The handlers that only forward to the store or to the analyzer are not modelled separately: `HealthCheck`, `GetProviders`, `CritiquePrompt`, `DualCritiquePrompt`, `GetHistory`, `SaveHistory`, `ClearHistory`, `GetConversations`, `SaveConversation`, `DeleteConversation`, `GetSavedPrompts`, `DeletePrompt`. The store methods they call are modelled.
- `AnalyzePrompt`, `DualAnalyzePrompt` and `generateQuickAnalysis` are not modelled. Their point is concurrency and prompt text.
- The wording of the test-case generation instruction (api/internal/services/eval_generator.go:80-117) is not modelled; the call's settings are.
- `markdownToHtml` and `parseAIMessage` are regex formatters with no contract to state.
- JSON decoding of provider replies and of generated test cases is not modelled. `CaseReply` says whether decoding succeeded.
- Random ids (`generateConversationId`) and clocks are parameters. The metadata's `GeneratedAt` and the execution time of `MultiModelExecute` results are left out.
- Whitespace is the ASCII set (tab, newline, vertical tab, form feed, carriage return, space). JavaScript's `\s` and `trim` and Go's `unicode.IsSpace` also accept other Unicode spaces.
- `unicode.IsPunct || unicode.IsSymbol` is the parameter `special` of `CalculateBasicMetrics`.
- `PromptAnalyzer.CalculateBasicMetrics`: the order of the special characters is left open. The source lists them in map iteration order, which is unspecified.
- `ApiOperations.SubstituteVariables`: a variable name is matched literally. The source builds a regular expression from it, so names with regex metacharacters, and `$` patterns in values, behave differently there.
- `parseInt`, `parseFloat` and `Sscanf` are not modelled; their results are inputs (`Option<int>`, `real`).
- Temperatures are exact `real` numbers. The source's float comparisons of averages and thresholds are stated exactly in integers (`2 * total <= 3 * n`, `20 * tokens > 19 * limit`).
- Object lookups in the client (`names[p]`, `ProviderModels[p]`, `difficultyMap[d]`) are map lookups. Inherited property names such as `constructor` are not modelled.
- `App.GroupByCategory`: groups are listed in order of first appearance. `Object.entries` lists category names that are array indices (such as "2024") first, in numeric order.
- `Database.Store.GetConversations` and `Database.Store.GetSavedPrompts`: the order by `updated_at` is left open; both promise every row exactly once.
- The order of a conversation's messages is insertion order. The source orders by timestamp, which agrees when stamps do not decrease.
- `Database.Store.GetHistory`: newest first means most recently inserted first. The source orders by timestamp.
- `Database.Store.SavePrompt` and `Database.Store.UpdatePrompt`: store failures (for example, tags that cannot be encoded) are not modelled.
- The Azure base URL, key and API version are the empty constants of the configuration file. Provider keys are parameters, because the configuration shown does not define the provider settings the service reads.
- The client's `extractVariables` (frontend/app.js:691-704) is the same code as the one in frontend/api-operations.js. One model, `ApiOperations.ExtractVariables`, covers both.
- `Text.TakeUnits`: when the 50- or 100-unit cut falls inside a surrogate pair, JavaScript's `substring` keeps the lone high surrogate; a Dafny `char` is a whole code point, so the model drops that character. The same holds for `Session.ConversationTitle` and `ApiOperations.LocalItem`.
- `Database.EscapeChar`: backspace and form feed get the short escapes `\b` and `\f` of Go 1.22 and later; earlier Go releases write `\u0008` and `\u000c`.
- `App.AddTag`: the remove button's `×` is taken out of an element's text with a single `replace`; a tag that itself contains `×` is not modelled.

## Findings

| source | as written | input that shows it | evidently intended | confidence | as-written member | corrected member |
|---|---|---|---|---|---|---|
| api/internal/database/database.go:307-316 | `DeleteConversation` deletes only the conversation row. Its messages go only through `ON DELETE CASCADE` (line 85), which SQLite applies only with foreign keys switched on, and the store never switches them on. `Database.Store.DeleteConversation` runs this delete; `Database.DeleteConv` is the intended delete. | Save conversation "c" with message m1, delete "c", then save "c" again with m2: `GetConversation("c")` returns [m1, m2] | Deleting a conversation removes its messages, so a re-saved id reads back only its new messages | not executed | Database.OrphansResurface | Database.CascadeForgets |
