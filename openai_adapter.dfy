/**
 * The second-generation adapter class (packages/openai-adapters/src/apis/F5AI.ts):
 * its `modifyChatBody`, gated on the official base URL, and the synthetic
 * streaming that wraps one complete response as a stream of at most one chunk.
 */
module OpenAIAdapter {
  import opened Wrappers
  import opened Text
  import opened ChatTypes

  /** The default `apiBase`; the rewrites of `modifyChatBody` apply only to it. */
  const OfficialApiBase: string := "https://api.f5ai.ru/v1/"

  /** The `object` tag of every chunk the adapter makes. */
  const ChunkObject: string := "chat.completion.chunk"

  /** Any model id starting with "o" counts as an o-series model here. */
  predicate IsOModel(model: string) { StartsWith(model, "o") }

  /** The o1/o3/o4 models keep parallel tool calls even when tools are present. */
  predicate IsParallelExempt(model: string) {
    StartsWith(model, "o1") || StartsWith(model, "o3") || StartsWith(model, "o4")
  }

  // ---------------------------------------------------------------------------
  // modifyChatBody

  /** What `modifyChatBody` makes of the body `b` for an adapter whose base URL is `apiBase`. */
  function ModifiedChatBody(b: Body, apiBase: string): (r: Body)
    ensures r.stream == Some(false)
    // a custom base URL: only streaming is switched off
    ensures apiBase != OfficialApiBase ==> r == b.(stream := Some(false))
    // official base, o-series: budget to max_completion_tokens, system messages become developer messages
    ensures apiBase == OfficialApiBase && IsOModel(b.model) ==>
      && r.maxCompletionTokens == b.maxTokens
      && r.maxTokens.None?
      && |r.messages| == |b.messages|
      && NoSystemMessage(r.messages)
      && forall i :: 0 <= i < |b.messages| ==>
           r.messages[i] == if b.messages[i].role == System then b.messages[i].(role := Developer) else b.messages[i]
    ensures !IsOModel(b.model) ==>
      r.maxTokens == b.maxTokens && r.maxCompletionTokens == b.maxCompletionTokens && r.messages == b.messages
    // parallel tool calls are switched off exactly for tools on a non-exempt model at the official base
    ensures r.parallelToolCalls ==
      if apiBase == OfficialApiBase && HasTools(b.tools) && !IsParallelExempt(b.model) then Some(false)
      else b.parallelToolCalls
    // nothing else changes
    ensures r.(stream := b.stream, maxTokens := b.maxTokens, maxCompletionTokens := b.maxCompletionTokens,
               messages := b.messages, parallelToolCalls := b.parallelToolCalls) == b
  {
    var rewritten :=
      if apiBase == OfficialApiBase then DisableParallelToolCalls(UseDeveloperRole(b)) else b;
    rewritten.(stream := Some(false))
  }

  /** The o-series block: the budget moves and `system` becomes `developer`. */
  function UseDeveloperRole(b: Body): Body {
    if IsOModel(b.model) then
      b.(maxCompletionTokens := b.maxTokens,
         maxTokens := None,
         messages := RenameSystemRole(b.messages, Developer))
    else b
  }

  /** The tools block: no parallel tool calls, except for o1/o3/o4 models. */
  function DisableParallelToolCalls(b: Body): Body {
    if HasTools(b.tools) && !IsParallelExempt(b.model) then b.(parallelToolCalls := Some(false)) else b
  }

  /**
   * `modifyChatBody` is not idempotent either: on the official base a second
   * pass over an o-series body copies the cleared max_tokens into
   * max_completion_tokens. Every other field is stable.
   */
  lemma ModifiedChatBodyTwice(b: Body, apiBase: string)
    ensures var once := ModifiedChatBody(b, apiBase);
      ModifiedChatBody(once, apiBase) ==
        if apiBase == OfficialApiBase && IsOModel(b.model) then once.(maxCompletionTokens := None) else once
  {
    if apiBase == OfficialApiBase && IsOModel(b.model) {
      RenameSystemRoleTwice(b.messages, Developer);
    }
  }

  method UseDeveloperRoleInPlace(body: ChatBody)
    modifies body
    ensures body.Value() == UseDeveloperRole(old(body.Value()))
  {
    if StartsWith(body.model, "o") {
      body.maxCompletionTokens := body.maxTokens;
      body.maxTokens := None;
      body.messages := RenameSystemRole(body.messages, Developer);
    }
  }

  // ---------------------------------------------------------------------------
  // Responses and chunks

  datatype Usage = Usage(promptTokens: int, completionTokens: int, totalTokens: int)

  /** Token log-probabilities, carried along untouched. */
  datatype Logprobs = Logprobs(content: seq<string>)

  datatype ResponseMessage = ResponseMessage(role: Role, content: Option<string>, toolCalls: Option<seq<ToolCall>>)

  datatype Choice = Choice(index: int, message: Option<ResponseMessage>, logprobs: Option<Logprobs>, finishReason: Option<string>)

  /** A complete (non-streamed) chat response. */
  datatype ChatCompletion = ChatCompletion(id: string, created: int, model: string, choices: seq<Choice>, usage: Option<Usage>)

  datatype Delta = Delta(role: Option<Role>, content: Option<string>, toolCalls: Option<seq<ToolCall>>)

  datatype ChunkChoice = ChunkChoice(index: int, delta: Delta, logprobs: Option<Logprobs>, finishReason: Option<string>)

  /** One element of a chat stream. */
  datatype ChatCompletionChunk = ChatCompletionChunk(
    id: string, objectTag: string, created: int, model: string, choices: seq<ChunkChoice>, usage: Option<Usage>)

  /** `{ role: m?.role, content: m?.content, tool_calls: m?.tool_calls }`. */
  function DeltaOf(m: Option<ResponseMessage>): Delta {
    match m
    case Some(msg) => Delta(Some(msg.role), msg.content, msg.toolCalls)
    case None => Delta(None, None, None)
  }

  /** The choices of the chunk `chatCompletionStream` builds, one per response choice. */
  function ChunkChoices(cs: seq<Choice>): (r: seq<ChunkChoice>)
    ensures |r| == |cs|
    ensures forall i :: 0 <= i < |cs| ==>
      && r[i].index == cs[i].index
      && r[i].logprobs == cs[i].logprobs
      && r[i].finishReason == cs[i].finishReason
      && (cs[i].message.Some? ==>
            && r[i].delta.role == Some(cs[i].message.value.role)
            && r[i].delta.content == cs[i].message.value.content
            && r[i].delta.toolCalls == cs[i].message.value.toolCalls)
      && (cs[i].message.None? ==> r[i].delta == Delta(None, None, None))
  {
    if cs == [] then []
    else
      var c := cs[0];
      [ChunkChoice(c.index, DeltaOf(c.message), c.logprobs, c.finishReason)] + ChunkChoices(cs[1..])
  }

  /** The one chunk `chatCompletionStream` yields for `response`. */
  function ChunkOf(response: ChatCompletion): (c: ChatCompletionChunk)
    ensures c.id == response.id && c.created == response.created && c.model == response.model
    ensures c.usage == response.usage && c.objectTag == ChunkObject
    ensures |c.choices| == |response.choices|
    ensures c.choices == ChunkChoices(response.choices)
  {
    ChatCompletionChunk(response.id, ChunkObject, response.created, response.model,
                        ChunkChoices(response.choices), response.usage)
  }

  /** Reading a response choice back from a chunk choice (`delta` as `message`). */
  function ChoiceOf(c: ChunkChoice): Choice {
    var message :=
      if c.delta.role.Some? then Some(ResponseMessage(c.delta.role.value, c.delta.content, c.delta.toolCalls))
      else None;
    Choice(c.index, message, c.logprobs, c.finishReason)
  }

  function ChoicesOf(cs: seq<ChunkChoice>): seq<Choice> {
    if cs == [] then [] else [ChoiceOf(cs[0])] + ChoicesOf(cs[1..])
  }

  /** Reading a whole response back from a chunk. */
  function ResponseOf(c: ChatCompletionChunk): ChatCompletion {
    ChatCompletion(c.id, c.created, c.model, ChoicesOf(c.choices), c.usage)
  }

  lemma {:induction false} ChunkChoicesRoundTrip(cs: seq<Choice>)
    ensures ChoicesOf(ChunkChoices(cs)) == cs
  {
    if cs != [] {
      ChunkChoicesRoundTrip(cs[1..]);
    }
  }

  /** Reshaping a response into a chunk loses nothing: the response can be read back. */
  lemma ChunkRoundTrip(response: ChatCompletion)
    ensures ResponseOf(ChunkOf(response)) == response
  {
    ChunkChoicesRoundTrip(response.choices);
  }

  // ---------------------------------------------------------------------------
  // Fill-in-the-middle

  datatype FimMessage = FimMessage(content: Option<string>)

  datatype FimChoice = FimChoice(text: Option<string>, message: Option<FimMessage>, finishReason: Option<string>)

  /** The parsed JSON body of a `fim/completions` response; every field may be missing. */
  datatype FimResponse = FimResponse(
    id: Option<string>, created: Option<int>, model: Option<string>, choices: Option<seq<FimChoice>>)

  /** `choice.text || choice.message?.content`. */
  function FimContent(c: FimChoice): Option<string> {
    if c.text.Some? && c.text.value != "" then c.text
    else if c.message.Some? then c.message.value.content
    else None
  }

  /** The choices of the FIM chunk: choice i gets index i and only a content delta. */
  function FimChunkChoices(cs: seq<FimChoice>): (r: seq<ChunkChoice>)
    ensures |r| == |cs|
    ensures forall i :: 0 <= i < |cs| ==>
      && r[i].index == i
      && r[i].delta.role.None? && r[i].delta.toolCalls.None?
      && (cs[i].text.Some? && cs[i].text.value != "" ==> r[i].delta.content == cs[i].text)
      && (cs[i].text.None? || cs[i].text.value == "" ==>
            r[i].delta.content == if cs[i].message.Some? then cs[i].message.value.content else None)
      && r[i].logprobs.None?
      && r[i].finishReason == cs[i].finishReason
  {
    if cs == [] then []
    else
      var n := |cs| - 1;
      FimChunkChoices(cs[..n]) + [ChunkChoice(n, Delta(None, FimContent(cs[n]), None), None, cs[n].finishReason)]
  }

  /**
   * `fimStream` over the response `data` to a request for `requestModel`,
   * with `now` standing for `Date.now()`: no chunk when there are no
   * choices, otherwise exactly one.
   */
  function FimStream(data: FimResponse, requestModel: string, now: int): (chunks: seq<ChatCompletionChunk>)
    ensures |chunks| == if data.choices.Some? && |data.choices.value| > 0 then 1 else 0
    ensures |chunks| == 1 ==>
      && chunks[0].id == data.id.GetOr("")
      && chunks[0].model == (if data.model.Some? && data.model.value != "" then data.model.value else requestModel)
      && chunks[0].created == (if data.created.Some? && data.created.value != 0 then data.created.value else now)
      && chunks[0].choices == FimChunkChoices(data.choices.value)
      && chunks[0].objectTag == ChunkObject
      && chunks[0].usage.None?
  {
    if data.choices.Some? && |data.choices.value| > 0 then
      var id := if data.id.Some? && data.id.value != "" then data.id.value else "";
      var created := if data.created.Some? && data.created.value != 0 then data.created.value else now;
      var model := if data.model.Some? && data.model.value != "" then data.model.value else requestModel;
      [ChatCompletionChunk(id, ChunkObject, created, model, FimChunkChoices(data.choices.value), None)]
    else []
  }

  // ---------------------------------------------------------------------------
  // Legacy completions

  /** A legacy completions request body. */
  datatype CompletionBody = CompletionBody(
    model: string, prompt: string, maxTokens: Option<int>, stop: Option<seq<string>>, stream: Option<bool>)

  /** A legacy completions response, passed through untouched. */
  datatype Completion = Completion(id: string, created: int, model: string, texts: seq<string>)

  /** `{ ...body, stream: false }`: streaming off, every other field as it was. */
  function NonStreamingBody(body: CompletionBody): (sent: CompletionBody)
    ensures sent.stream == Some(false)
    ensures sent.(stream := body.stream) == body
  {
    body.(stream := Some(false))
  }

  /** `completionNonStream`, with `server` standing for the SDK call. */
  function CompletionNonStream(body: CompletionBody, server: CompletionBody -> Completion): Completion {
    server(NonStreamingBody(body))
  }

  /**
   * `completionStream`: one item, the response the non-streaming call gets
   * for the same body (the body is made non-streaming twice, to the same effect).
   */
  function CompletionStream(body: CompletionBody, server: CompletionBody -> Completion): (items: seq<Completion>)
    ensures items == [CompletionNonStream(body, server)]
  {
    [CompletionNonStream(NonStreamingBody(body), server)]
  }

  // ---------------------------------------------------------------------------
  // The adapter object

  class F5AIApi {
    const apiBase: string

    /** `config.apiBase ?? "https://api.f5ai.ru/v1/"`. */
    constructor (configApiBase: Option<string>)
      ensures apiBase == configApiBase.GetOr(OfficialApiBase)
      ensures configApiBase.None? ==> apiBase == OfficialApiBase
    {
      apiBase := configApiBase.GetOr(OfficialApiBase);
    }

    /** `modifyChatBody`, rewriting `body` in place. */
    method ModifyChatBody(body: ChatBody)
      modifies body
      ensures body.Value() == ModifiedChatBody(old(body.Value()), apiBase)
    {
      var isOfficialOpenAIAPI := apiBase == OfficialApiBase;
      if isOfficialOpenAIAPI {
        UseDeveloperRoleInPlace(body);
        if HasTools(body.tools) && !StartsWith(body.model, "o1") && !StartsWith(body.model, "o3")
          && !StartsWith(body.model, "o4")
        {
          body.parallelToolCalls := Some(false);
        }
      }
      body.stream := Some(false);
    }

    /**
     * `chatCompletionNonStream`: the caller's body is rewritten in place and
     * sent; `server` stands for the SDK call.
     */
    method ChatCompletionNonStream(body: ChatBody, server: Body -> ChatCompletion) returns (response: ChatCompletion)
      modifies body
      ensures body.Value() == ModifiedChatBody(old(body.Value()), apiBase)
      ensures response == server(body.Value())
    {
      ModifyChatBody(body);
      response := server(body.Value());
    }

    /**
     * `chatCompletionStream`: a non-streaming copy of the caller's body is
     * rewritten and sent, and the one response comes back as exactly one
     * chunk. The caller's body object is left as it was.
     */
    method ChatCompletionStream(body: ChatBody, server: Body -> ChatCompletion) returns (chunks: seq<ChatCompletionChunk>)
      ensures |chunks| == 1
      ensures chunks[0] == ChunkOf(server(ModifiedChatBody(body.Value().(stream := Some(false)), apiBase)))
    {
      var nonStreamBody := new ChatBody(body.Value().(stream := Some(false)));
      var response := ChatCompletionNonStream(nonStreamBody, server);
      chunks := [ChunkOf(response)];
    }
  }
}
