/**
 * The chat request body both normalisers rewrite (the OpenAI
 * `ChatCompletionCreateParams`, cut down to the fields they read or write),
 * as a value and as the mutable object the source updates field by field.
 */
module ChatTypes {
  import opened Wrappers

  datatype Role = System | Developer | User | Assistant | Tool | Function

  datatype ToolCall = ToolCall(id: string, name: string, arguments: string)

  /** One entry of `messages`; `content` is kept as text. */
  datatype Message = Message(
    role: Role,
    content: string,
    name: Option<string>,
    toolCalls: Option<seq<ToolCall>>)

  /** A tool definition offered to the model. */
  datatype ToolSpec = ToolSpec(name: string, description: string, parameters: string)

  /** The speculative-decoding hint (`prediction`). */
  datatype Prediction = Prediction(content: string)

  /** A request body as a value. Token budgets are opaque optional numbers. */
  datatype Body = Body(
    model: string,
    messages: seq<Message>,
    stop: Option<seq<string>>,
    maxTokens: Option<int>,
    maxCompletionTokens: Option<int>,
    stream: Option<bool>,
    tools: Option<seq<ToolSpec>>,
    parallelToolCalls: Option<bool>,
    prediction: Option<Prediction>,
    presencePenalty: Option<real>,
    frequencyPenalty: Option<real>)

  /** `body.tools?.length` is truthy. */
  predicate HasTools(tools: Option<seq<ToolSpec>>) {
    tools.Some? && |tools.value| > 0
  }

  /** An optional penalty is truthy in JavaScript: present and not zero. */
  predicate IsNonZero(penalty: Option<real>) {
    penalty.Some? && penalty.value != 0.0
  }

  predicate NoSystemMessage(ms: seq<Message>) {
    forall i :: 0 <= i < |ms| ==> ms[i].role != System
  }

  /**
   * `messages.map(m => m.role === "system" ? { ...m, role: to } : m)`:
   * every system message takes the role `to`, keeping its other fields;
   * every other message is kept as it is, in the same position.
   */
  function RenameSystemRole(ms: seq<Message>, to: Role): (r: seq<Message>)
    ensures |r| == |ms|
    ensures forall i :: 0 <= i < |ms| ==>
      r[i] == if ms[i].role == System then ms[i].(role := to) else ms[i]
    ensures to != System ==> NoSystemMessage(r)
  {
    if ms == [] then []
    else
      var head := if ms[0].role == System then ms[0].(role := to) else ms[0];
      [head] + RenameSystemRole(ms[1..], to)
  }

  /** Renaming to a non-system role a second time changes nothing. */
  lemma RenameSystemRoleTwice(ms: seq<Message>, to: Role)
    requires to != System
    ensures RenameSystemRole(RenameSystemRole(ms, to), to) == RenameSystemRole(ms, to)
  {
    var once := RenameSystemRole(ms, to);
    var twice := RenameSystemRole(once, to);
    assert forall i :: 0 <= i < |twice| ==> twice[i] == once[i];
  }

  /** A request body object, updated in place by the normalisers. */
  class ChatBody {
    var model: string
    var messages: seq<Message>
    var stop: Option<seq<string>>
    var maxTokens: Option<int>
    var maxCompletionTokens: Option<int>
    var stream: Option<bool>
    var tools: Option<seq<ToolSpec>>
    var parallelToolCalls: Option<bool>
    var prediction: Option<Prediction>
    var presencePenalty: Option<real>
    var frequencyPenalty: Option<real>

    /** An object literal (or a `{ ...b }` spread) holding the fields of `b`. */
    constructor (b: Body)
      ensures Value() == b
    {
      model, messages, stop := b.model, b.messages, b.stop;
      maxTokens, maxCompletionTokens, stream := b.maxTokens, b.maxCompletionTokens, b.stream;
      tools, parallelToolCalls, prediction := b.tools, b.parallelToolCalls, b.prediction;
      presencePenalty, frequencyPenalty := b.presencePenalty, b.frequencyPenalty;
    }

    /** The fields of this object, as a value. */
    function Value(): Body
      reads this
    {
      Body(model, messages, stop, maxTokens, maxCompletionTokens, stream,
           tools, parallelToolCalls, prediction, presencePenalty, frequencyPenalty)
    }
  }
}
