/**
  Properties of `generate` that relate it to the history operations: what
  the history looks like after each of the three payload modes, what a
  raised completion call leaves behind, and that the history keeps its
  shape over any sequence of facade calls.
*/
module LlmProperties {
  import opened Optional
  import opened Completions
  import opened HistoryProperties
  import opened Llm

  /**
    Custom messages are sent verbatim and the query never reaches the
    history, yet with `useHistory` a returned response is still recorded.
  */
  lemma GenerateWithCustomMessages(l: LLM, query: string, useHistory: bool, customMessages: Option<seq<Message>>,
                                   complete: (seq<Message>, string) -> Option<string>)
    requires UsesCustom(customMessages)
    ensures var g := Generate(l, query, useHistory, customMessages, complete);
      && g.payload == customMessages.value
      && g.response == complete(customMessages.value, l.model)
      && (useHistory && g.response.Some? ==>
            g.llm.chatHistory == AddAssistantMessage(l.chatHistory, g.response.value))
      && (useHistory && g.response.Some? && l.chatHistory.maxLength <= 0 ==>
            g.llm.chatHistory.messages == l.chatHistory.messages + [Message(AssistantRole, g.response.value)])
      && (!useHistory || g.response.None? ==> g.llm == l)
  {
  }

  /**
    History mode: the query is added as a user message, the payload is the
    whole history after that, and a returned response follows it.
  */
  lemma GenerateWithHistory(l: LLM, query: string, customMessages: Option<seq<Message>>,
                            complete: (seq<Message>, string) -> Option<string>)
    requires !UsesCustom(customMessages)
    ensures var g := Generate(l, query, true, customMessages, complete);
      var asked := AddUserMessage(l.chatHistory, query);
      && g.payload == asked.messages
      && g.response == complete(asked.messages, l.model)
      && (g.response.Some? ==> g.llm.chatHistory == AddAssistantMessage(asked, g.response.value))
  {
  }

  /**
    A raised completion call leaves the history as it was just before the
    call: in history mode the query stays recorded with no response after it,
    in every other mode the facade is unchanged.
  */
  lemma GenerateFailure(l: LLM, query: string, useHistory: bool, customMessages: Option<seq<Message>>,
                        complete: (seq<Message>, string) -> Option<string>)
    requires complete(Generate(l, query, useHistory, customMessages, complete).payload, l.model).None?
    ensures var g := Generate(l, query, useHistory, customMessages, complete);
      && g.response.None?
      && (useHistory && !UsesCustom(customMessages) ==>
            g.llm.chatHistory == AddUserMessage(l.chatHistory, query))
      && (!useHistory || UsesCustom(customMessages) ==> g.llm == l)
  {
  }

  /**
    With the facade's default unbounded history, a turn in history mode
    appends exactly the user query and then the response; a failed turn
    appends only the query.
  */
  lemma GenerateUnboundedTurn(l: LLM, query: string, customMessages: Option<seq<Message>>,
                              complete: (seq<Message>, string) -> Option<string>)
    requires !UsesCustom(customMessages) && l.chatHistory.maxLength <= 0
    ensures var g := Generate(l, query, true, customMessages, complete);
      && g.payload == l.chatHistory.messages + [Message(UserRole, query)]
      && (g.response.Some? ==>
            g.llm.chatHistory.messages ==
              l.chatHistory.messages + [Message(UserRole, query), Message(AssistantRole, g.response.value)])
      && (g.response.None? ==>
            g.llm.chatHistory.messages == l.chatHistory.messages + [Message(UserRole, query)])
  {
  }

  /** Without history and custom messages, the query is sent alone and nothing is recorded. */
  lemma GenerateWithoutHistory(l: LLM, query: string, customMessages: Option<seq<Message>>,
                               complete: (seq<Message>, string) -> Option<string>)
    requires !UsesCustom(customMessages)
    ensures var g := Generate(l, query, false, customMessages, complete);
      && g.payload == [Message(UserRole, query)]
      && g.response == complete([Message(UserRole, query)], l.model)
      && GetHistory(g.llm) == GetHistory(l)
  {
  }

  /** A turn in any mode, returned or raised, keeps a pinned system message at index 0. */
  lemma GenerateKeepsSystemFirst(l: LLM, query: string, useHistory: bool, customMessages: Option<seq<Message>>,
                                 complete: (seq<Message>, string) -> Option<string>)
    requires SystemPinned(l.chatHistory.messages) && HasSystemHead(l.chatHistory.messages)
    ensures var g := Generate(l, query, useHistory, customMessages, complete);
      && SystemPinned(g.llm.chatHistory.messages)
      && HasSystemHead(g.llm.chatHistory.messages)
      && g.llm.chatHistory.messages[0] == l.chatHistory.messages[0]
  {
  }

  /** A turn in any mode, returned or raised, preserves the history's well-formedness. */
  lemma GeneratePreservesWellFormed(l: LLM, query: string, useHistory: bool, customMessages: Option<seq<Message>>,
                                    complete: (seq<Message>, string) -> Option<string>)
    requires WellFormed(l.chatHistory)
    ensures WellFormed(Generate(l, query, useHistory, customMessages, complete).llm.chatHistory)
  {
    var g := Generate(l, query, useHistory, customMessages, complete);
    if useHistory {
      if UsesCustom(customMessages) {
        if g.response.Some? {
          AddPreservesWellFormed(l.chatHistory, g.response.value, AssistantRole);
        }
      } else {
        var asked := AddUserMessage(l.chatHistory, query);
        AddPreservesWellFormed(l.chatHistory, query, UserRole);
        if g.response.Some? {
          AddPreservesWellFormed(asked, g.response.value, AssistantRole);
        }
      }
    }
  }

  /**
    The public methods of the facade, as one step each. A `generate` call
    carries the endpoint's answer for that call (`None` when it raised), so
    the same payload may be answered differently, or fail and then succeed,
    from one call to the next.
  */
  datatype Call =
    | Ask(query: string, useHistory: bool, customMessages: Option<seq<Message>>, answer: Option<string>)
    | SetSystem(content: string)
    | ClearChat

  function Step(l: LLM, call: Call): LLM {
    match call
    case Ask(q, u, c, a) => Generate(l, q, u, c, (payload, name) => a).llm
    case SetSystem(c) => AddSystemMessageTo(l, c)
    case ClearChat => ClearHistory(l)
  }

  function Run(l: LLM, calls: seq<Call>): LLM
    decreases |calls|
  {
    if |calls| == 0 then l else Run(Step(l, calls[0]), calls[1..])
  }

  /**
    Any sequence of facade calls, with any answer or failure at each
    `generate`, keeps the model, the capacity, and the history's
    well-formedness.
  */
  lemma {:induction false} RunKeepsFacadeShape(l: LLM, calls: seq<Call>)
    requires WellFormed(l.chatHistory)
    ensures var r := Run(l, calls);
      && r.model == l.model
      && r.chatHistory.maxLength == l.chatHistory.maxLength
      && WellFormed(r.chatHistory)
    decreases |calls|
  {
    if |calls| > 0 {
      match calls[0] {
        case Ask(q, u, c, a) => GeneratePreservesWellFormed(l, q, u, c, (payload, name) => a);
        case SetSystem(c) => ApplyPreservesWellFormed(l.chatHistory, AddSystem(c));
        case ClearChat =>
      }
      RunKeepsFacadeShape(Step(l, calls[0]), calls[1..]);
    }
  }

  /** Every facade reachable from `NewLLM` has a pinned history that never evicts. */
  lemma NewLLMStaysPinned(model: string, calls: seq<Call>)
    ensures var r := Run(NewLLM(model), calls);
      && r.model == model
      && r.chatHistory.maxLength <= 0
      && SystemPinned(r.chatHistory.messages)
  {
    RunKeepsFacadeShape(NewLLM(model), calls);
  }

  /** The same custom payload, answered "a" and then "b", records both answers in turn. */
  lemma VaryingAnswersScenario(model: string)
    ensures var custom := Some([Message(UserRole, "x")]);
      GetHistory(Run(NewLLM(model), [Ask("q", true, custom, Some("a")), Ask("q", true, custom, Some("b"))]))
        == [Message(AssistantRole, "a"), Message(AssistantRole, "b")]
  {
    var custom := Some([Message(UserRole, "x")]);
    var calls := [Ask("q", true, custom, Some("a")), Ask("q", true, custom, Some("b"))];
    var l1 := Step(NewLLM(model), calls[0]);
    assert l1.chatHistory.messages == [Message(AssistantRole, "a")];
    var l2 := Step(l1, calls[1]);
    assert l2.chatHistory.messages == [Message(AssistantRole, "a"), Message(AssistantRole, "b")];
    assert Run(l1, calls[1..]) == Run(l2, calls[1..][1..]);
    assert calls[1..][1..] == [];
  }

  /** A fresh facade asked "hi" with history, answered "hello". */
  lemma HelloScenario(model: string)
    ensures var g := Generate(NewLLM(model), "hi", true, None, (payload, name) => Some("hello"));
      && g.payload == [Message(UserRole, "hi")]
      && g.response == Some("hello")
      && GetHistory(g.llm) == [Message(UserRole, "hi"), Message(AssistantRole, "hello")]
  {
  }
}
