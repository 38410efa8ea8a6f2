/**
 * The chat provider class of the core library (core/llm/llms/F5AI.ts):
 * model-family tests, the stop-word ceiling, the two request normalisers
 * (`_convertArgs` and `modifyChatBody`), the legacy-completions routing rule,
 * the filter over the legacy completion stream and the `_complete` loop.
 */
module CoreLlm {
  import opened Wrappers
  import opened Text
  import opened ChatTypes

  /** The formatting instruction put in front of every user message for o1/o3 models. */
  const Preamble: string :=
    "Always use markdown formatting. \nInclude descriptions/explanations for your code.\nOnly send the complete code if requested, otherwise, only send the modified/new sections of code.\n"

  /** Models that only exist on the legacy completions endpoint. */
  const NonChatModels: seq<string> := [
    "text-davinci-002", "text-davinci-003", "code-davinci-002", "text-ada-001",
    "text-babbage-001", "text-curie-001", "davinci", "curie", "babbage", "ada"]

  /** Models that only exist on the chat endpoint. */
  const ChatOnlyModels: seq<string> := ["gpt-4o", "gpt-4o-mini", "o1", "o1-mini", "o3-mini"]

  /** Model names whose presence in the model id enables `prediction`. */
  const PredictionModels: seq<string> := ["gpt-4o-mini", "gpt-4o"]

  const DefaultApiVersion: string := "2023-07-01-preview"

  /** The host and port of a parsed `apiBase` URL (`url.host`, `url.port`). */
  datatype Url = Url(host: string, port: string)

  /** The components of the class's default `apiBase`, https://dev.api.f5ai.ru/v1/. */
  const DefaultApiBase: Url := Url("dev.api.f5ai.ru", "")

  /** The options the class reads from its configuration. */
  datatype LlmOptions = LlmOptions(
    apiBase: Option<Url>,
    apiType: Option<string>,
    apiVersion: Option<string>,
    maxStopWords: Option<int>,
    useLegacyCompletionsEndpoint: Option<bool>)

  /** The caller's generic completion options, as far as `_convertArgs` reads them. */
  datatype CompletionOptions = CompletionOptions(
    model: string,
    maxTokens: Option<int>,
    stop: Option<seq<string>>,
    prediction: Option<Prediction>,
    raw: Option<bool>)

  // ---------------------------------------------------------------------------
  // Model families

  predicate IsO1Model(model: string) { StartsWith(model, "o1") }

  predicate IsO3Model(model: string) { StartsWith(model, "o3") }

  predicate IsGptModel(model: string) { StartsWith(model, "gpt") }

  /** The models that take `max_completion_tokens` and no system role. */
  predicate IsO1OrO3Model(model: string) { IsO1Model(model) || IsO3Model(model) }

  /** No model id is both an o1/o3 model and a gpt model. */
  lemma FamiliesDisjoint(model: string)
    ensures !(IsO1OrO3Model(model) && IsGptModel(model))
  {
    if IsGptModel(model) {
      assert model[0] == "gpt"[0] == 'g';
    }
  }

  /**
   * `supportsPrediction`: some entry of PredictionModels occurs in the id.
   * Since "gpt-4o" is a prefix of "gpt-4o-mini", this is the same as the id
   * containing "gpt-4o".
   */
  function SupportsPrediction(model: string): (r: bool)
    ensures r <==> Includes(model, "gpt-4o")
  {
    if Includes(model, PredictionModels[0]) then
      IncludesPrefixOfNeedle(model, PredictionModels[0], PredictionModels[1]);
      true
    else
      Includes(model, PredictionModels[1])
  }

  /** `options.prediction && this.supportsPrediction(model)`. */
  predicate KeepsPrediction(prediction: Option<Prediction>, model: string) {
    prediction.Some? && SupportsPrediction(model)
  }

  // ---------------------------------------------------------------------------
  // The stop-word ceiling

  /** What `getMaxStopWords` returns: a number, or `Infinity`. */
  datatype StopLimit = AtMost(n: int) | Unlimited

  /** Hosts whose ceiling is 4 (besides port 1337 and Azure deployments). */
  predicate IsFourStopHost(host: string) {
    host == "dev.api.f5ai.ru" || host == "api.openai.com" || host == "api.groq.com"
  }

  /**
   * `getMaxStopWords`: an explicit setting wins; otherwise DeepSeek's host
   * allows 16, a handful of known backends allow 4, and anything else is
   * unbounded.
   */
  function MaxStopWords(maxStopWords: Option<int>, apiBase: Url, apiType: Option<string>): (r: StopLimit)
    ensures maxStopWords.Some? ==> r == AtMost(maxStopWords.value)
    ensures maxStopWords.None? && apiBase.host == "api.deepseek.com" ==> r == AtMost(16)
    ensures maxStopWords.None? && r.AtMost? ==> r.n == 16 || r.n == 4
    ensures r == AtMost(4) && maxStopWords.None? <==>
      && maxStopWords.None?
      && apiBase.host != "api.deepseek.com"
      && (apiBase.port == "1337" || IsFourStopHost(apiBase.host) || apiType == Some("azure"))
    ensures r.Unlimited? <==>
      && maxStopWords.None?
      && apiBase.host != "api.deepseek.com"
      && apiBase.port != "1337" && !IsFourStopHost(apiBase.host) && apiType != Some("azure")
  {
    if maxStopWords.Some? then AtMost(maxStopWords.value)
    else if apiBase.host == "api.deepseek.com" then AtMost(16)
    else if apiBase.port == "1337" || IsFourStopHost(apiBase.host) || apiType == Some("azure") then AtMost(4)
    else Unlimited
  }

  function Min(a: int, b: int): int { if a <= b then a else b }

  function Max(a: int, b: int): int { if a <= b then b else a }

  /** The end index `Array.prototype.slice(0, end)` stops at, for a list of length `len`. */
  function SliceEnd(len: nat, limit: StopLimit): nat {
    match limit
    case Unlimited => len
    case AtMost(n) => if n < 0 then Max(len + n, 0) else Min(n, len)
  }

  /**
   * `stop.slice(0, limit)`: the first `limit` stop words, all of them when
   * the limit is unbounded; a negative limit counts from the end.
   */
  function SliceStop(stop: seq<string>, limit: StopLimit): (r: seq<string>)
    ensures r <= stop
    ensures limit.Unlimited? ==> r == stop
    ensures limit.AtMost? && limit.n >= 0 ==> |r| == Min(|stop|, limit.n)
    ensures limit.AtMost? && limit.n < 0 ==> |r| == Max(|stop| + limit.n, 0)
  {
    stop[..SliceEnd(|stop|, limit)]
  }

  predicate NonNegative(limit: StopLimit) {
    limit.Unlimited? || limit.n >= 0
  }

  /** Cutting the stop list a second time to a non-negative ceiling changes nothing. */
  lemma SliceStopTwice(stop: seq<string>, limit: StopLimit)
    requires NonNegative(limit)
    ensures SliceStop(SliceStop(stop, limit), limit) == SliceStop(stop, limit)
  {
  }

  /** `stop?.slice(0, limit)`: an absent list stays absent. */
  function SliceOptionalStop(stop: Option<seq<string>>, limit: StopLimit): (r: Option<seq<string>>)
    ensures r.Some? <==> stop.Some?
    ensures stop.Some? ==> r.value <= stop.value
    ensures stop.Some? && limit.AtMost? && limit.n >= 0 ==> |r.value| == Min(|stop.value|, limit.n)
    ensures stop.Some? && limit.AtMost? && limit.n < 0 ==> |r.value| == Max(|stop.value| + limit.n, 0)
    ensures stop.Some? && limit.Unlimited? ==> r.value == stop.value
  {
    if stop.Some? then Some(SliceStop(stop.value, limit)) else None
  }

  // ---------------------------------------------------------------------------
  // Messages

  /**
   * `formatMessageForO1`: the list keeps its length and order, no system
   * message remains, and only the role of a message can change, and only
   * that of a former system message (it becomes a user message).
   */
  function FormatMessageForO1(ms: seq<Message>): (r: seq<Message>)
    ensures |r| == |ms|
    ensures NoSystemMessage(r)
    ensures forall i :: 0 <= i < |ms| ==> r[i].(role := ms[i].role) == ms[i]
    ensures forall i :: 0 <= i < |ms| ==> r[i].role == if ms[i].role == System then User else ms[i].role
  {
    RenameSystemRole(ms, User)
  }

  /** The `map` in `_convertArgs` that puts Preamble in front of each user message. */
  function PrependPreamble(ms: seq<Message>): (r: seq<Message>)
    ensures |r| == |ms|
    ensures forall i :: 0 <= i < |ms| ==>
      r[i] == if ms[i].role == User then ms[i].(content := Preamble + ms[i].content) else ms[i]
  {
    if ms == [] then []
    else
      var head := if ms[0].role == User then ms[0].(content := Preamble + ms[0].content) else ms[0];
      [head] + PrependPreamble(ms[1..])
  }

  // ---------------------------------------------------------------------------
  // The two normalisers, as functions of the body they receive

  /**
   * What `_convertArgs` leaves in the body `b` that `toChatBody` built from
   * the caller's messages and `options`, with `limit` the stop-word ceiling.
   */
  function ConvertedArgs(b: Body, options: CompletionOptions, limit: StopLimit): (r: Body)
    // the stop list is the caller's list cut to the ceiling
    ensures r.stop == SliceOptionalStop(options.stop, limit)
    // o1/o3: budget under max_completion_tokens, no system message,
    // every user message (former system messages included) opens with Preamble
    ensures IsO1OrO3Model(options.model) ==>
      && r.maxTokens.None?
      && r.maxCompletionTokens == (if KeepsPrediction(options.prediction, options.model) then None else options.maxTokens)
      && |r.messages| == |b.messages|
      && NoSystemMessage(r.messages)
      && forall i :: 0 <= i < |b.messages| ==>
           r.messages[i] == if b.messages[i].role in {System, User}
                            then b.messages[i].(role := User, content := Preamble + b.messages[i].content)
                            else b.messages[i]
    // gpt: budget under max_tokens, system messages become user messages
    ensures IsGptModel(options.model) ==>
      && r.maxTokens == options.maxTokens
      && r.maxCompletionTokens.None?
      && r.messages == FormatMessageForO1(b.messages)
    // any other model: budgets and messages as toChatBody left them
    ensures !IsO1OrO3Model(options.model) && !IsGptModel(options.model) ==>
      && r.maxTokens == b.maxTokens
      && r.messages == b.messages
      && r.maxCompletionTokens == (if KeepsPrediction(options.prediction, options.model) then None else b.maxCompletionTokens)
    ensures IsO1OrO3Model(options.model) || IsGptModel(options.model) ==>
      !(r.maxTokens.Some? && r.maxCompletionTokens.Some?)
    // prediction is kept exactly for the gpt-4o models, and then non-zero penalties are dropped
    ensures r.prediction.Some? <==> options.prediction.Some? && Includes(options.model, "gpt-4o")
    ensures r.prediction.Some? ==> r.prediction == options.prediction && r.maxCompletionTokens.None?
    ensures r.prediction.Some? && IsNonZero(b.presencePenalty) ==> r.presencePenalty.None?
    ensures r.prediction.Some? && IsNonZero(b.frequencyPenalty) ==> r.frequencyPenalty.None?
    ensures r.prediction.None? || !IsNonZero(b.presencePenalty) ==> r.presencePenalty == b.presencePenalty
    ensures r.prediction.None? || !IsNonZero(b.frequencyPenalty) ==> r.frequencyPenalty == b.frequencyPenalty
    // nothing else changes
    ensures r.(stop := b.stop, maxTokens := b.maxTokens, maxCompletionTokens := b.maxCompletionTokens,
               messages := b.messages, prediction := b.prediction,
               presencePenalty := b.presencePenalty, frequencyPenalty := b.frequencyPenalty) == b
  {
    FamiliesDisjoint(options.model);
    var cut := b.(stop := SliceOptionalStop(options.stop, limit));
    ConvertPrediction(ConvertForGpt(ConvertForO1(cut, options), options), options)
  }

  /** The o1/o3 block of `_convertArgs`. */
  function ConvertForO1(b: Body, options: CompletionOptions): Body {
    if IsO1OrO3Model(options.model) then
      b.(maxCompletionTokens := options.maxTokens,
         maxTokens := None,
         messages := PrependPreamble(FormatMessageForO1(b.messages)))
    else b
  }

  /** The gpt block of `_convertArgs`. */
  function ConvertForGpt(b: Body, options: CompletionOptions): Body {
    if IsGptModel(options.model) then
      b.(maxCompletionTokens := None,
         maxTokens := options.maxTokens,
         messages := FormatMessageForO1(b.messages))
    else b
  }

  /** The prediction block of `_convertArgs`. */
  function ConvertPrediction(b: Body, options: CompletionOptions): Body {
    if KeepsPrediction(options.prediction, options.model) then
      b.(presencePenalty := if IsNonZero(b.presencePenalty) then None else b.presencePenalty,
         frequencyPenalty := if IsNonZero(b.frequencyPenalty) then None else b.frequencyPenalty,
         maxCompletionTokens := None,
         prediction := options.prediction)
    else b.(prediction := None)
  }

  /** What `modifyChatBody` makes of the body `b`, with `limit` the stop-word ceiling. */
  function ModifiedChatBody(b: Body, limit: StopLimit): (r: Body)
    ensures r.stream == Some(false)
    ensures r.parallelToolCalls == if HasTools(b.tools) then Some(false) else b.parallelToolCalls
    ensures r.stop == SliceOptionalStop(b.stop, limit)
    ensures r.stop.Some? <==> b.stop.Some?
    ensures b.stop.Some? ==> r.stop.value <= b.stop.value
    ensures b.stop.Some? && limit.AtMost? && limit.n >= 0 ==> |r.stop.value| == Min(|b.stop.value|, limit.n)
    ensures b.stop.Some? && limit.AtMost? && limit.n < 0 ==> |r.stop.value| == Max(|b.stop.value| + limit.n, 0)
    ensures b.stop.Some? && limit.Unlimited? ==> r.stop.value == b.stop.value
    // o1/o3: the budget moves to max_completion_tokens and system messages become user messages
    ensures IsO1OrO3Model(b.model) ==>
      && r.maxTokens.None?
      && r.maxCompletionTokens == (if KeepsPrediction(b.prediction, b.model) then None else b.maxTokens)
      && |r.messages| == |b.messages|
      && NoSystemMessage(r.messages)
      && forall i :: 0 <= i < |b.messages| ==>
           r.messages[i] == if b.messages[i].role == System then b.messages[i].(role := User) else b.messages[i]
    ensures !IsO1OrO3Model(b.model) ==>
      && r.maxTokens == b.maxTokens
      && r.messages == b.messages
      && r.maxCompletionTokens == (if KeepsPrediction(b.prediction, b.model) then None else b.maxCompletionTokens)
    ensures IsO1OrO3Model(b.model) ==> !(r.maxTokens.Some? && r.maxCompletionTokens.Some?)
    // a prediction the model supports clears the budget and the non-zero penalties
    ensures KeepsPrediction(b.prediction, b.model) ==> r.maxCompletionTokens.None?
    ensures KeepsPrediction(b.prediction, b.model) && IsNonZero(b.presencePenalty) ==> r.presencePenalty.None?
    ensures KeepsPrediction(b.prediction, b.model) && IsNonZero(b.frequencyPenalty) ==> r.frequencyPenalty.None?
    ensures !KeepsPrediction(b.prediction, b.model) || !IsNonZero(b.presencePenalty) ==>
      r.presencePenalty == b.presencePenalty
    ensures !KeepsPrediction(b.prediction, b.model) || !IsNonZero(b.frequencyPenalty) ==>
      r.frequencyPenalty == b.frequencyPenalty
    // model, tools and the prediction itself are left alone
    ensures r.model == b.model && r.tools == b.tools && r.prediction == b.prediction
  {
    var cut := b.(stop := SliceOptionalStop(b.stop, limit));
    DisableParallelToolCalls(ClearForPrediction(MoveBudgetForO1(cut).(stream := Some(false))))
  }

  /** The o1/o3 block of `modifyChatBody`. */
  function MoveBudgetForO1(b: Body): Body {
    if IsO1OrO3Model(b.model) then
      b.(maxCompletionTokens := b.maxTokens, maxTokens := None, messages := FormatMessageForO1(b.messages))
    else b
  }

  /** The prediction block of `modifyChatBody`. */
  function ClearForPrediction(b: Body): Body {
    if KeepsPrediction(b.prediction, b.model) then
      b.(presencePenalty := if IsNonZero(b.presencePenalty) then None else b.presencePenalty,
         frequencyPenalty := if IsNonZero(b.frequencyPenalty) then None else b.frequencyPenalty,
         maxCompletionTokens := None)
    else b
  }

  /** The tools block of `modifyChatBody`. */
  function DisableParallelToolCalls(b: Body): Body {
    if HasTools(b.tools) then b.(parallelToolCalls := Some(false)) else b
  }

  /**
   * `modifyChatBody` is not idempotent: a second pass over an o1/o3 body
   * copies the already cleared max_tokens into max_completion_tokens. Every
   * other field is stable under a second pass.
   */
  lemma ModifyChatBodyTwice(b: Body, limit: StopLimit)
    requires NonNegative(limit)
    ensures var once := ModifiedChatBody(b, limit);
      ModifiedChatBody(once, limit) ==
        if IsO1OrO3Model(b.model) then once.(maxCompletionTokens := None) else once
  {
    var once := ModifiedChatBody(b, limit);
    if b.stop.Some? {
      SliceStopTwice(b.stop.value, limit);
    }
    if IsO1OrO3Model(b.model) {
      RenameSystemRoleTwice(b.messages, User);
    }
  }

  // ---------------------------------------------------------------------------
  // Routing and the legacy completion stream

  /**
   * The test at the top of `_streamChat`: legacy completions are used only
   * for a model that is not chat-only, on a provider that supports them,
   * and only when the model is a completions-only model or the
   * configuration or the call asks for it.
   */
  function UsesLegacyCompletions(
    model: string, supportsCompletions: bool,
    useLegacyCompletionsEndpoint: Option<bool>, raw: Option<bool>): (r: bool)
    ensures model in ChatOnlyModels ==> !r
    ensures !supportsCompletions ==> !r
    ensures model in NonChatModels && supportsCompletions ==> r
    ensures r ==> model in NonChatModels || useLegacyCompletionsEndpoint == Some(true) || raw == Some(true)
    ensures (model !in ChatOnlyModels && supportsCompletions &&
             (useLegacyCompletionsEndpoint == Some(true) || raw == Some(true))) ==> r
  {
    && model !in ChatOnlyModels
    && supportsCompletions
    && (model in NonChatModels || useLegacyCompletionsEndpoint == Some(true) || raw == Some(true))
  }

  /** The part of a legacy completion event the stream reads. */
  datatype LegacyChoice = LegacyChoice(text: Option<string>)

  /** One server-sent event of the legacy completions endpoint. */
  datatype SseEvent = SseEvent(choices: Option<seq<LegacyChoice>>, finishReason: Option<string>)

  /**
   * The event yields its first choice's text: that text is present and
   * non-empty, and the event's own `finish_reason` is not "eos".
   */
  predicate YieldsText(e: SseEvent) {
    && e.choices.Some? && |e.choices.value| > 0
    && e.choices.value[0].text.Some? && e.choices.value[0].text.value != ""
    && e.finishReason != Some("eos")
  }

  function FirstText(e: SseEvent): string
    requires YieldsText(e)
  {
    e.choices.value[0].text.value
  }

  /** The texts the legacy stream yields for `events`, in order. */
  function LegacyTexts(events: seq<SseEvent>): (r: seq<string>)
    ensures |r| <= |events|
    ensures forall i :: 0 <= i < |r| ==> r[i] != ""
  {
    if events == [] then []
    else
      var last := events[|events| - 1];
      LegacyTexts(events[..|events| - 1]) + if YieldsText(last) then [FirstText(last)] else []
  }

  /** The stream of texts for a concatenation of events is the concatenation of the streams. */
  lemma {:induction false} LegacyTextsAppend(a: seq<SseEvent>, b: seq<SseEvent>)
    ensures LegacyTexts(a + b) == LegacyTexts(a) + LegacyTexts(b)
    decreases |b|
  {
    if b == [] {
      assert a + b == a;
    } else {
      assert (a + b)[..|a + b| - 1] == a + b[..|b| - 1];
      LegacyTextsAppend(a, b[..|b| - 1]);
    }
  }

  /** A text is yielded exactly when some event yields it. */
  lemma {:induction false} LegacyTextsExactly(events: seq<SseEvent>, t: string)
    ensures t in LegacyTexts(events) <==>
      exists i :: 0 <= i < |events| && YieldsText(events[i]) && FirstText(events[i]) == t
    decreases |events|
  {
    if events != [] {
      var n := |events| - 1;
      var init := events[..n];
      LegacyTextsExactly(init, t);
      if exists i :: 0 <= i < |init| && YieldsText(init[i]) && FirstText(init[i]) == t {
        var i :| 0 <= i < |init| && YieldsText(init[i]) && FirstText(init[i]) == t;
        assert events[i] == init[i];
      }
      if exists i :: 0 <= i < |events| && YieldsText(events[i]) && FirstText(events[i]) == t {
        var i :| 0 <= i < |events| && YieldsText(events[i]) && FirstText(events[i]) == t;
        if i < n {
          assert init[i] == events[i];
        }
      }
    }
  }

  /** The text `_complete` accumulates from the contents streamed back. */
  function Concat(parts: seq<string>): string {
    if parts == [] then "" else Concat(parts[..|parts| - 1]) + parts[|parts| - 1]
  }

  /** Accumulating two runs of chunks one after the other. */
  lemma {:induction false} ConcatAppend(a: seq<string>, b: seq<string>)
    ensures Concat(a + b) == Concat(a) + Concat(b)
    decreases |b|
  {
    if b == [] {
      assert a + b == a;
    } else {
      assert (a + b)[..|a + b| - 1] == a + b[..|b| - 1];
      ConcatAppend(a, b[..|b| - 1]);
    }
  }

  /**
   * On the chat path the o1/o3 preamble reaches the server twice: `_complete`
   * puts it in front of the prompt, and `_convertArgs` puts it in front of
   * every user message again, so the single user message `_complete` hands
   * to `_streamChat` is posted as Preamble + Preamble + prompt.
   */
  lemma CompletePreambleTwice(prompt: string, options: CompletionOptions, b: Body, limit: StopLimit)
    requires IsO1OrO3Model(options.model)
    requires b.messages == [Message(User, Preamble + prompt, None, None)]
    ensures ConvertedArgs(b, options, limit).messages == [Message(User, Preamble + Preamble + prompt, None, None)]
  {
    var r := ConvertedArgs(b, options, limit);
    assert |r.messages| == 1;
    assert r.messages[0] == b.messages[0].(role := User, content := Preamble + b.messages[0].content);
    assert Preamble + (Preamble + prompt) == Preamble + Preamble + prompt;
    assert r.messages == [r.messages[0]];
  }

  // ---------------------------------------------------------------------------
  // The blocks of the two normalisers, each updating the body in place

  method ConvertForO1InPlace(options: CompletionOptions, finalOptions: ChatBody)
    modifies finalOptions
    ensures finalOptions.Value() == ConvertForO1(old(finalOptions.Value()), options)
  {
    if IsO1Model(options.model) || IsO3Model(options.model) {
      finalOptions.maxCompletionTokens := options.maxTokens;
      finalOptions.maxTokens := None;
      var newMessages := FormatMessageForO1(finalOptions.messages);
      newMessages := PrependPreamble(newMessages);
      finalOptions.messages := newMessages;
    }
  }

  method ConvertForGptInPlace(options: CompletionOptions, finalOptions: ChatBody)
    modifies finalOptions
    ensures finalOptions.Value() == ConvertForGpt(old(finalOptions.Value()), options)
  {
    if IsGptModel(options.model) {
      finalOptions.maxCompletionTokens := None;
      finalOptions.maxTokens := options.maxTokens;
      finalOptions.messages := FormatMessageForO1(finalOptions.messages);
    }
  }

  method ConvertPredictionInPlace(options: CompletionOptions, finalOptions: ChatBody)
    modifies finalOptions
    ensures finalOptions.Value() == ConvertPrediction(old(finalOptions.Value()), options)
  {
    if options.prediction.Some? && SupportsPrediction(options.model) {
      if IsNonZero(finalOptions.presencePenalty) {
        finalOptions.presencePenalty := None;
      }
      if IsNonZero(finalOptions.frequencyPenalty) {
        finalOptions.frequencyPenalty := None;
      }
      finalOptions.maxCompletionTokens := None;
      finalOptions.prediction := options.prediction;
    } else {
      finalOptions.prediction := None;
    }
  }

  method MoveBudgetForO1InPlace(body: ChatBody)
    modifies body
    ensures body.Value() == MoveBudgetForO1(old(body.Value()))
  {
    if IsO1Model(body.model) || IsO3Model(body.model) {
      body.maxCompletionTokens := body.maxTokens;
      body.maxTokens := None;
      body.messages := FormatMessageForO1(body.messages);
    }
  }

  method ClearForPredictionInPlace(body: ChatBody)
    modifies body
    ensures body.Value() == ClearForPrediction(old(body.Value()))
  {
    if body.prediction.Some? && SupportsPrediction(body.model) {
      if IsNonZero(body.presencePenalty) {
        body.presencePenalty := None;
      }
      if IsNonZero(body.frequencyPenalty) {
        body.frequencyPenalty := None;
      }
      body.maxCompletionTokens := None;
    }
  }

  // ---------------------------------------------------------------------------
  // The provider object

  class F5AI {
    const apiBase: Url
    const apiType: Option<string>
    const apiVersion: string
    const maxStopWords: Option<int>
    const useLegacyCompletionsEndpoint: Option<bool>

    /** The configured options, with the class defaults for `apiBase` and `apiVersion`. */
    constructor (options: LlmOptions)
      ensures apiBase == options.apiBase.GetOr(DefaultApiBase)
      ensures apiType == options.apiType && maxStopWords == options.maxStopWords
      ensures apiVersion == options.apiVersion.GetOr(DefaultApiVersion)
      ensures useLegacyCompletionsEndpoint == options.useLegacyCompletionsEndpoint
      ensures options.apiBase.None? && options.maxStopWords.None? ==> StopWordLimit() == AtMost(4)
    {
      apiBase := options.apiBase.GetOr(DefaultApiBase);
      apiType := options.apiType;
      apiVersion := options.apiVersion.GetOr(DefaultApiVersion);
      maxStopWords := options.maxStopWords;
      useLegacyCompletionsEndpoint := options.useLegacyCompletionsEndpoint;
    }

    /** `getMaxStopWords` for this configuration. */
    function StopWordLimit(): StopLimit {
      MaxStopWords(maxStopWords, apiBase, apiType)
    }

    /**
     * `_convertArgs`, given the body `toChatBody` built (`finalOptions`),
     * rewriting it field by field.
     */
    method ConvertArgs(options: CompletionOptions, finalOptions: ChatBody)
      modifies finalOptions
      ensures finalOptions.Value() == ConvertedArgs(old(finalOptions.Value()), options, StopWordLimit())
    {
      finalOptions.stop := SliceOptionalStop(options.stop, StopWordLimit());
      ConvertForO1InPlace(options, finalOptions);
      ConvertForGptInPlace(options, finalOptions);
      ConvertPredictionInPlace(options, finalOptions);
    }

    /** `modifyChatBody`, rewriting `body` in place. */
    method ModifyChatBody(body: ChatBody)
      modifies body
      ensures body.Value() == ModifiedChatBody(old(body.Value()), StopWordLimit())
    {
      body.stop := SliceOptionalStop(body.stop, StopWordLimit());
      MoveBudgetForO1InPlace(body);
      body.stream := Some(false);
      ClearForPredictionInPlace(body);
      if HasTools(body.tools) {
        body.parallelToolCalls := Some(false);
      }
    }

    /** The body `_streamChat` posts on its chat path: `_convertArgs`, then streaming off. */
    method StreamChatBody(options: CompletionOptions, body: ChatBody)
      modifies body
      ensures body.Value() == ConvertedArgs(old(body.Value()), options, StopWordLimit()).(stream := Some(false))
    {
      ConvertArgs(options, body);
      body.stream := Some(false);
    }

    /**
     * `_legacystreamComplete` over the events the endpoint sends: the texts
     * it yields, in order.
     */
    method LegacyStreamComplete(events: seq<SseEvent>) returns (texts: seq<string>)
      ensures texts == LegacyTexts(events)
    {
      texts := [];
      for i := 0 to |events|
        invariant texts == LegacyTexts(events[..i])
      {
        assert events[..i + 1][..i] == events[..i];
        if YieldsText(events[i]) {
          texts := texts + [FirstText(events[i])];
        }
      }
      assert events[..|events|] == events;
    }

    /**
     * `_complete`: the prompt it hands to `_streamChat` as a single user
     * message, and the text it accumulates from the contents `replies` of
     * the messages streamed back.
     */
    method Complete(prompt: string, model: string, replies: seq<string>) returns (sent: string, completion: string)
      ensures IsO1OrO3Model(model) ==> sent == Preamble + prompt
      ensures !IsO1OrO3Model(model) ==> sent == prompt
      ensures completion == Concat(replies)
    {
      sent := prompt;
      if IsO1Model(model) || IsO3Model(model) {
        sent := Preamble + sent;
      }
      completion := "";
      for i := 0 to |replies|
        invariant completion == Concat(replies[..i])
      {
        assert replies[..i + 1][..i] == replies[..i];
        completion := completion + replies[i];
      }
      assert replies[..|replies|] == replies;
    }
  }
}
