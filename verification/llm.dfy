/**
  The conversation facade of src/agents/llm/llm.py: one chat history plus a
  model name, and `generate`, which picks the request payload, calls the
  completion endpoint once, and records the turn in the history.

  The completion endpoint is not modelled; it is the parameter `complete`,
  which maps a payload and a model name to the response text, or to `None`
  when the call raises. A raised call ends `generate` at once, so whatever
  the history had become before the call stays.
*/
module Llm {
  import opened Optional
  import opened Completions

  /** The facade's state; the API client itself is not part of the model. */
  datatype LLM = LLM(model: string, chatHistory: ChatHistory)

  /**
    What one `generate` call produces: the new facade, the payload sent, and
    the response (`None` when the completion call raised instead).
  */
  datatype Generation = Generation(llm: LLM, payload: seq<Message>, response: Option<string>)

  /** `__init__`: the history starts empty with the default, unbounded capacity. */
  function NewLLM(model: string): (l: LLM)
    ensures l.model == model
    ensures l.chatHistory.messages == [] && l.chatHistory.maxLength <= 0
  {
    LLM(model, EmptyChatHistory())
  }

  /** Python's `if custom_messages:` — neither `None` nor the empty list. */
  predicate UsesCustom(customMessages: Option<seq<Message>>) {
    customMessages.Some? && |customMessages.value| > 0
  }

  /**
    `generate`: custom messages take priority as the payload; otherwise the
    query is either added to the history and the whole history is sent, or
    sent alone. Whenever `useHistory` holds and the call returns, the response
    is then added to the history as an assistant message, in the
    custom-messages mode too.
  */
  function Generate(l: LLM, query: string, useHistory: bool, customMessages: Option<seq<Message>>,
                    complete: (seq<Message>, string) -> Option<string>): (g: Generation)
    ensures g.response == complete(g.payload, l.model)
    ensures g.llm.model == l.model
    ensures g.llm.chatHistory.maxLength == l.chatHistory.maxLength
    ensures UsesCustom(customMessages) ==> g.payload == customMessages.value
    ensures !UsesCustom(customMessages) && !useHistory ==> g.payload == [Message(UserRole, query)]
    ensures !useHistory ==> g.llm == l
    ensures useHistory && g.response.Some? ==>
      (|g.llm.chatHistory.messages| > 0 &&
       g.llm.chatHistory.messages[|g.llm.chatHistory.messages| - 1] == Message(AssistantRole, g.response.value))
  {
    var (history, payload) :=
      if UsesCustom(customMessages) then
        (l.chatHistory, customMessages.value)
      else if useHistory then
        var withQuery := AddUserMessage(l.chatHistory, query);
        (withQuery, withQuery.messages)
      else
        (l.chatHistory, [BuildMessage(query, UserRole)]);
    var response := complete(payload, l.model);
    var history' :=
      if useHistory && response.Some? then AddAssistantMessage(history, response.value) else history;
    Generation(LLM(l.model, history'), payload, response)
  }

  /** `add_system_message`: delegates to the history. */
  function AddSystemMessageTo(l: LLM, content: string): (r: LLM)
    ensures r.model == l.model
    ensures r.chatHistory == AddSystemMessage(l.chatHistory, content)
  {
    LLM(l.model, AddSystemMessage(l.chatHistory, content))
  }

  /** `clear_history`: delegates to the history. */
  function ClearHistory(l: LLM): (r: LLM)
    ensures r.model == l.model
    ensures r.chatHistory.messages == [] && r.chatHistory.maxLength == l.chatHistory.maxLength
  {
    LLM(l.model, Clear(l.chatHistory))
  }

  /** `get_history`: the current messages, as a value the caller cannot alias. */
  function GetHistory(l: LLM): (r: seq<Message>)
    ensures |r| == |l.chatHistory.messages|
    ensures forall i :: 0 <= i < |r| ==> r[i] == l.chatHistory.messages[i]
  {
    l.chatHistory.messages
  }
}
