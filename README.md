# F5AI request normaliser and synthetic streaming, in Dafny

This project models the part of the F5AI provider adapter that holds logic.
The adapter sits between a generic chat/completion caller and an
OpenAI-compatible HTTP backend. The modelled part rewrites chat request bodies
to suit particular model families, and it reshapes one complete response as if
it had been streamed. The source exists in two revisions, and each has its own
module:

- `CoreLlm` (core/llm/llms/F5AI.ts) covers several pieces:
  - the model-family tests (`o1`, `o3`, `gpt`) and `supportsPrediction`;
  - the stop-word ceiling `getMaxStopWords` and the `slice` that enforces it;
  - `formatMessageForO1`;
  - the two normalisers `_convertArgs` and `modifyChatBody`;
  - the routing test of `_streamChat`, which picks legacy completions or chat;
  - the text filter of `_legacystreamComplete`;
  - the accumulation loop of `_complete`.
- `OpenAIAdapter` (packages/openai-adapters/src/apis/F5AI.ts) covers:
  - the constructor's default `apiBase`;
  - `modifyChatBody`, which only rewrites when the base URL is the official one;
  - the chunk builders of `chatCompletionStream` and `fimStream`;
  - the one-item `completionStream`.
- `ChatTypes` holds the request body both revisions rewrite, in two forms:
  - `Body` is the body as a value;
  - `ChatBody` is the body as an object whose fields are updated in place.
  
  It also holds the system-role rename that both revisions use.
- `Text` holds JavaScript's `startsWith` and `includes`.
- `Wrappers` holds `Option`, which stands for an `undefined` field.

The source updates the request body field by field. The model does the same:
each such method is a method on a `ChatBody` object with a `modifies` clause.
Each source block (the o1/o3 block, the gpt block, the prediction block) is a
small in-place method. Each method is proved equal to a function on `Body`
values, and the promised properties are proved about those functions:

- `CoreLlm.ConvertedArgs` for `_convertArgs`;
- `CoreLlm.ModifiedChatBody` for the core `modifyChatBody`;
- `OpenAIAdapter.ModifiedChatBody` for the adapter's `modifyChatBody`.

The chunk builders are pure `map` expressions in the source, and here they are
functions.

Some behaviours of the source are worth noting:

- `fimStream` copies `finish_reason` as it is and supplies no default.
- The core revision gives special treatment only to `o1` and `o3` models, not
  to `o4` or a bare `o`. It prepends the formatting preamble to every user
  message, including former system messages.
- The legacy completion filter compares the event's own top-level
  `finish_reason` with "eos". It does not look at `choices[0].finish_reason`.
- `max_tokens` and `max_completion_tokens` are never both set only for o1/o3
  and gpt models. For other models the two fields are left as `toChatBody`
  set them, except that a kept prediction clears `max_completion_tokens`.
- For o1/o3 models `_complete` puts the preamble in front of the prompt. On
  the chat path (when `UsesLegacyCompletions` is false), `_convertArgs` then
  puts it in front of every user message again, so the prompt reaches the
  server with the preamble twice; `CoreLlm.CompletePreambleTwice` states
  this. On the legacy route `_convertArgs` gets no messages, and the
  preamble is sent once.
- Neither `modifyChatBody` is idempotent. A second pass over an o-series body
  copies the already-cleared `max_tokens` into `max_completion_tokens`.
  `CoreLlm.ModifyChatBodyTwice` and `OpenAIAdapter.ModifiedChatBodyTwice`
  state exactly what a second pass changes.

Network calls are parameters of the model:

- The SDK call becomes a function parameter `server`.
- The parsed JSON response of `fim/completions` is an input.
- The events of the legacy completion stream are an input.
- The contents streamed back to `_complete` are an input.
- `Date.now()` becomes the parameter `now`.

## Model

| member | source | states |
|---|---|---|
| `Text.IncludesIffOccurs` | core/llm/llms/F5AI.ts:97 | the left-to-right scan used for `includes` holds exactly when the needle occurs at some position |
| `Text.IncludesPrefixOfNeedle` | core/llm/llms/F5AI.ts:96-97 | a string that contains a needle also contains every prefix of that needle |
| `ChatTypes.RenameSystemRole` | packages/openai-adapters/src/apis/F5AI.ts:46-51 | the message list keeps its length and order; each system message takes the new role and keeps its other fields; every other message is unchanged; if the new role is not system, no system message remains |
| `ChatTypes.RenameSystemRoleTwice` | core/llm/llms/F5AI.ts:42-53 | renaming system roles a second time changes nothing |
| `ChatTypes.ChatBody.constructor` | packages/openai-adapters/src/apis/F5AI.ts:80-83 | a new body object holds exactly the given field values |
| `CoreLlm.FamiliesDisjoint` | core/llm/llms/F5AI.ts:83-93 | no model id is both an o1/o3 model and a gpt model |
| `CoreLlm.SupportsPrediction` | core/llm/llms/F5AI.ts:95-98 | prediction is supported exactly when the model id contains "gpt-4o", which also covers "gpt-4o-mini" |
| `CoreLlm.MaxStopWords` | core/llm/llms/F5AI.ts:112-130 | an explicit `maxStopWords` wins; otherwise host api.deepseek.com gives 16; otherwise port 1337, the hosts dev.api.f5ai.ru, api.openai.com and api.groq.com, or apiType "azure" give 4; otherwise there is no limit (both directions) |
| `CoreLlm.SliceStop` | core/llm/llms/F5AI.ts:138 | the result is a prefix of the stop list; its length is min(length, limit) for a non-negative limit, and the whole list when unlimited; a negative limit drops that many entries from the end, as `slice` does |
| `CoreLlm.SliceStopTwice` | core/llm/llms/F5AI.ts:250 | cutting again to the same non-negative limit changes nothing |
| `CoreLlm.SliceOptionalStop` | core/llm/llms/F5AI.ts:250 | an absent stop list stays absent; a present one becomes a prefix of length min(length, limit) for a non-negative limit, of length max(length + limit, 0) for a negative one, and stays whole when there is no limit |
| `CoreLlm.FormatMessageForO1` | core/llm/llms/F5AI.ts:42-53 | same length and order; no system message remains; only roles change, and only system becomes user |
| `CoreLlm.PrependPreamble` | core/llm/llms/F5AI.ts:148-154 | every user message gets the fixed preamble in front of its content; every other message is unchanged; the order is kept |
| `CoreLlm.ConvertedArgs` | core/llm/llms/F5AI.ts:132-185 | the stop list is the caller's list cut to the ceiling; o1/o3: `max_tokens` is unset, `max_completion_tokens` is the caller's budget (unless a prediction is kept), no system message remains, and each former system or user message becomes a user message with the preamble in front; gpt: `max_tokens` is the caller's budget, `max_completion_tokens` is unset, and system becomes user; other models: budgets and messages are untouched; for either family the two budgets are never both set; `prediction` is kept exactly when it was given and the model contains "gpt-4o", and then non-zero penalties and `max_completion_tokens` are unset while zero penalties are kept; no other field changes |
| `CoreLlm.ModifiedChatBody` | core/llm/llms/F5AI.ts:247-283 | `stream` is false; `parallel_tool_calls` is false when tools are non-empty and is untouched otherwise; the stop list is the caller's list cut to the ceiling as `SliceOptionalStop` states; o1/o3: the old `max_tokens` moves to `max_completion_tokens`, `max_tokens` is unset, and system becomes user with length and order kept; a supported prediction unsets `max_completion_tokens` and the non-zero penalties and keeps zero penalties; `prediction`, `model` and `tools` are untouched |
| `CoreLlm.ModifyChatBodyTwice` | core/llm/llms/F5AI.ts:253-256 | for a non-negative stop-word ceiling, a second pass over the result equals the result, except that for o1/o3 models it clears `max_completion_tokens` (a negative ceiling cuts the stop list again on every pass) |
| `CoreLlm.UsesLegacyCompletions` | core/llm/llms/F5AI.ts:316-322 | chat-only models never use legacy completions, and neither does a provider without completions support; for any other model on a provider with completions support, legacy completions are used exactly when the model is completions-only, the configuration sets `useLegacyCompletionsEndpoint`, or the call sets `raw` |
| `CoreLlm.LegacyTexts` | core/llm/llms/F5AI.ts:304-308 | at most one text per event, and every text yielded is non-empty |
| `CoreLlm.LegacyTextsAppend` | core/llm/llms/F5AI.ts:304-308 | the texts for two runs of events, one after the other, are the two runs' texts concatenated in order |
| `CoreLlm.LegacyTextsExactly` | core/llm/llms/F5AI.ts:304-308 | a text is yielded exactly when some event has it as a non-empty `choices[0].text` and its `finish_reason` is not "eos" |
| `CoreLlm.ConcatAppend` | core/llm/llms/F5AI.ts:204-210 | accumulating two runs of chunks gives the two accumulations concatenated |
| `CoreLlm.CompletePreambleTwice` | core/llm/llms/F5AI.ts:201-205 | for an o1/o3 model on the chat path (when `UsesLegacyCompletions` is false), the single user message `_complete` hands to `_streamChat` is posted with the preamble twice, because `_convertArgs` (lines 148-152) prepends it to every user message again; on the legacy route `_convertArgs` gets no messages and the preamble is sent once |
| `CoreLlm.ConvertForO1InPlace` | core/llm/llms/F5AI.ts:141-156 | the o1/o3 block, done in place, leaves the body as the o1/o3 step function describes |
| `CoreLlm.ConvertForGptInPlace` | core/llm/llms/F5AI.ts:159-166 | the gpt block, done in place, leaves the body as the gpt step function describes |
| `CoreLlm.ConvertPredictionInPlace` | core/llm/llms/F5AI.ts:168-182 | the prediction block, done in place, leaves the body as the prediction step function describes |
| `CoreLlm.MoveBudgetForO1InPlace` | core/llm/llms/F5AI.ts:253-260 | the o1/o3 block of `modifyChatBody`, done in place, leaves the body as its step function describes |
| `CoreLlm.ClearForPredictionInPlace` | core/llm/llms/F5AI.ts:265-273 | the prediction block of `modifyChatBody`, done in place, leaves the body as its step function describes |
| `CoreLlm.F5AI.constructor` | core/llm/llms/F5AI.ts:58-68 | `apiVersion` defaults to "2023-07-01-preview" and `apiBase` defaults to dev.api.f5ai.ru; with no explicit setting, the default base gives a stop-word ceiling of 4 |
| `CoreLlm.F5AI.ConvertArgs` | core/llm/llms/F5AI.ts:132-185 | after the field-by-field rewrite, the body equals `ConvertedArgs` of the old body with this configuration's ceiling |
| `CoreLlm.F5AI.ModifyChatBody` | core/llm/llms/F5AI.ts:247-283 | after the in-place rewrite, the body equals `ModifiedChatBody` of the old body |
| `CoreLlm.F5AI.StreamChatBody` | core/llm/llms/F5AI.ts:336-337 | the chat-path body is the converted body with `stream` false |
| `CoreLlm.F5AI.LegacyStreamComplete` | core/llm/llms/F5AI.ts:304-308 | the loop over the events yields exactly `LegacyTexts` of them, in order |
| `CoreLlm.F5AI.Complete` | core/llm/llms/F5AI.ts:195-213 | the prompt handed to `_streamChat` has the preamble in front for o1/o3 models and is unchanged for other models; the completion is the in-order concatenation of the streamed contents |
| `OpenAIAdapter.ModifiedChatBody` | packages/openai-adapters/src/apis/F5AI.ts:36-60 | `stream` is false for every base and every model; with a custom base nothing else changes; on the official base, for a model starting with "o", `max_completion_tokens` takes the old `max_tokens`, `max_tokens` is unset, and system becomes developer with length and order kept; `parallel_tool_calls` is false exactly when the base is official, tools are non-empty and the model starts with none of o1/o3/o4, and is untouched otherwise; no other field changes |
| `OpenAIAdapter.ModifiedChatBodyTwice` | packages/openai-adapters/src/apis/F5AI.ts:40-43 | a second pass equals the first, except that on the official base it clears `max_completion_tokens` for o-series models |
| `OpenAIAdapter.UseDeveloperRoleInPlace` | packages/openai-adapters/src/apis/F5AI.ts:40-52 | the o-series block, done in place, leaves the body as its step function describes |
| `OpenAIAdapter.ChunkChoices` | packages/openai-adapters/src/apis/F5AI.ts:93-102 | one chunk choice per response choice, in order; `index`, `logprobs` and `finish_reason` are copied; `delta` carries the message's role, content and tool calls, or nothing when there is no message |
| `OpenAIAdapter.ChunkOf` | packages/openai-adapters/src/apis/F5AI.ts:88-104 | the chunk copies `id`, `created`, `model` and `usage`, is tagged "chat.completion.chunk", and has one choice per response choice, each built as `ChunkChoices` states (`delta` holds the message's role, content and tool calls) |
| `OpenAIAdapter.ChunkChoicesRoundTrip` | packages/openai-adapters/src/apis/F5AI.ts:93-102 | reading each `delta` back as a `message` recovers the response's choices exactly |
| `OpenAIAdapter.ChunkRoundTrip` | packages/openai-adapters/src/apis/F5AI.ts:88-104 | the response can be read back from its chunk, so the reshaping loses none of the modelled response fields |
| `OpenAIAdapter.FimChunkChoices` | packages/openai-adapters/src/apis/F5AI.ts:170-176 | choice i gets `index` i; `delta.content` is `text` when that is non-empty and otherwise `message.content`; `finish_reason` is copied with no default; there is no role, tool call or logprobs |
| `OpenAIAdapter.FimStream` | packages/openai-adapters/src/apis/F5AI.ts:161-179 | no chunk when `choices` is absent or empty, and exactly one otherwise; `id` defaults to ""; a missing or empty `model` falls back to the request's model; a missing or zero `created` falls back to the clock |
| `OpenAIAdapter.NonStreamingBody` | packages/openai-adapters/src/apis/F5AI.ts:109-116 | `completionNonStream` (modelled as `CompletionNonStream`) sends the body with `stream` false and every other field as given, and returns the server's response unchanged |
| `OpenAIAdapter.CompletionStream` | packages/openai-adapters/src/apis/F5AI.ts:118-130 | exactly one item, equal to the non-streaming response for the same body |
| `OpenAIAdapter.F5AIApi.constructor` | packages/openai-adapters/src/apis/F5AI.ts:25-28 | `apiBase` is the configured base, or the official base when none is configured, so the rewrites are on by default |
| `OpenAIAdapter.F5AIApi.ModifyChatBody` | packages/openai-adapters/src/apis/F5AI.ts:36-60 | after the in-place rewrite, the body equals the adapter's `ModifiedChatBody` of the old body |
| `OpenAIAdapter.F5AIApi.ChatCompletionNonStream` | packages/openai-adapters/src/apis/F5AI.ts:62-73 | the caller's body is rewritten in place, and the response is the server's answer to the rewritten body |
| `OpenAIAdapter.F5AIApi.ChatCompletionStream` | packages/openai-adapters/src/apis/F5AI.ts:75-107 | exactly one chunk, built from the server's answer to the rewritten non-streaming copy of the body; the caller's body is left alone |

## Left out

- Network I/O (`fetch`, `customFetch`, the OpenAI SDK, `response.json()`, `AbortSignal`) is not modelled. Each such call is a `server` function parameter, and `server` is taken to be deterministic. Parsed responses and streamed events are inputs.
- `streamSse` is not modelled. The legacy stream's events are given already parsed.
- URL parsing is not modelled. `getMaxStopWords` sees `apiBase` as a parsed host and port. The source throws when `apiBase` is missing or is not a URL, and that error path is not modelled.
- `BaseLLM` is not part of this model. The core class is assumed to get `maxStopWords`, `apiType` and the default `apiBase` from its options the way `BaseLLM` sets them.
- `toChatBody`, `renderChatMessage` and `supportsCompletions` are defined outside the core. `_convertArgs` takes the body `toChatBody` built as its input object, and `supportsCompletions` is a boolean input.
- `CoreLlm.PrependPreamble` builds new message values. The source assigns `msg.content` on the message objects themselves, and those objects may be shared with the body `toChatBody` returned. That aliasing is not modelled.
- Message content is text only. Multi-part content arrays and null content are not modelled; the source's `+` would turn them into strings.
- `CoreLlm.SliceStop` covers list-valued stop fields only. A stop field that is a single string, which `slice` would cut by characters, is not modelled.
- `CoreLlm.MaxStopWords` takes whole numbers only. Fractional and NaN settings of `maxStopWords` are not modelled, and neither are NaN penalties.
- `_legacystreamComplete`'s request assembly is not modelled: the spread of `_convertArgs` output, `prompt`, cleared `messages`, `stream: false`.
- The parts of `_streamChat` that do I/O are not modelled: wrapping legacy texts as assistant messages, and taking `choices[0].message` from the chat response. Only its routing test and the body it posts are modelled.
- `_streamComplete` is not modelled. It only renders the chunks of `_streamChat`.
- The core `_streamFim` is not modelled. It is I/O, and its `max_tokens` field passes the `toString` function rather than a value.
- Endpoint URL assembly, headers and the Azure deployment path are not modelled (`_getEndpoint`, `_getEmbedEndpoint`, `_getHeaders`). They are string plumbing over URL resolution. `apiVersion` is stored but used only there.
- Embeddings, rerank, `list` and `listModels` are not modelled. They pass HTTP results through unchanged.
- `convertTool` and `_convertModelName` are not modelled. The first is not called on any modelled path; the second is the identity.
- The request body `fimStream` sends is not modelled. It is a field-by-field copy of the caller's parameters with `stream: false`.
- `OpenAIAdapter.FimStream` takes the time as the parameter `now` instead of calling `Date.now()`.
- `OpenAIAdapter.ChunkRoundTrip` holds for the response fields the model carries: `id`, `created`, `model`, `usage`, and per choice `index`, `logprobs`, `finish_reason` and the message's role, content and tool calls. The chunk built at packages/openai-adapters/src/apis/F5AI.ts:88-104 drops every other field of the response, for example `system_fingerprint`, `service_tier` and `message.refusal`, and those are not modelled.
- Token budgets are opaque optional integers. The type overrides say they travel as strings.
- The model table in packages/llm-info/src/providers/f5ai.ts is static data and is not modelled.
