# Chat history and conversation facade of JEET-Agent, in Dafny

This project models the conversational core of JEET-Agent: the chat-history
buffer of `src/agents/utils/completions.py` and the `LLM` conversation facade
of `src/agents/llm/llm.py`.

- **Messages** are `{role, content}` records (`Completions.Message`). Roles are
  strings, as in the source; only the role `"system"` is treated specially.
- **`ChatHistory`** is an ordered list of messages with a `max_length`
  (`Completions.ChatHistory`). A non-positive `max_length` means unbounded.
  When the buffer is at or over a positive capacity, `add_message` drops the
  first non-system message, if there is one, and then appends.
  `add_system_message` removes every system message and puts a fresh one at
  index 0, with no eviction. `clear` empties the list.
- **`LLM.generate`** (`Llm.Generate`) picks the payload in priority order:
  non-empty custom messages, then the history after adding the query, then
  the query alone. It calls the completion endpoint once. When `use_history`
  is set and the call returns, it records the response as an assistant
  message. When the call raises, `generate` stops there, and in history mode
  the query stays recorded without a response.

Every operation is a pure function from the old state to the new one. The
completion endpoint is the parameter `complete`, a function from payload and
model name to response text, or to `None` when the call raises.
`HistoryProperties` and `LlmProperties` hold the lemmas that relate the
operations:

- filtering keeps order;
- the system message stays pinned at index 0;
- replacing the system message is idempotent;
- the capacity bound holds over any sequence of calls;
- each `generate` mode changes the history in a stated way.

With non-empty custom messages and `use_history`, the query is not recorded
but the response is (`llm.py:37-39` with `llm.py:52-53`).
`LlmProperties.GenerateWithCustomMessages` states this.

## Model

| member | source | states |
|---|---|---|
| Completions.BuildMessage | src/agents/utils/completions.py:19-30 | the message has exactly the given role and content; it is a system message iff the role is `"system"` |
| Completions.NewChatHistory | src/agents/utils/completions.py:38-47 | the constructor keeps the given messages (none when absent) and the given capacity |
| Completions.EmptyChatHistory | src/agents/utils/completions.py:38 | with the defaults, the history starts empty and unbounded |
| Completions.FirstNonSystem | src/agents/utils/completions.py:61-64 | the scan stops at an index whose message is non-system and all earlier ones are system; it finds nothing only when every message is system |
| Completions.RemoveAt | src/agents/utils/completions.py:63 | `pop(i)` shortens the list by one, keeps the elements before `i` and shifts the later ones down by one |
| Completions.AddMessage | src/agents/utils/completions.py:49-66 | the capacity is unchanged and the new message is last; below capacity or unbounded, this is a plain append; at capacity, exactly the lowest-index non-system message is removed and the rest keep their order; with no non-system candidate, nothing is removed and the length passes the capacity |
| Completions.AddMessageByScan | src/agents/utils/completions.py:57-66 | the front-to-back loop that pops the first non-system message and breaks computes the same history as `AddMessage` |
| Completions.AddUserMessage | src/agents/utils/completions.py:68-70 | the last message is `{user, content}`; the length grows by at most one; the capacity is unchanged |
| Completions.AddAssistantMessage | src/agents/utils/completions.py:72-74 | the last message is `{assistant, content}`; the length grows by at most one; the capacity is unchanged |
| Completions.NonSystem | src/agents/utils/completions.py:81 | the filtered list has no system message and contains a message iff the input contains it as a non-system message; multiplicity is `HistoryProperties.NonSystemCounts`, order `HistoryProperties.NonSystemAppend` |
| Completions.AddSystemMessage | src/agents/utils/completions.py:76-84 | index 0 is `{system, content}`, no other system message remains, the old non-system messages follow, and the capacity is unchanged |
| Completions.Clear | src/agents/utils/completions.py:86-88 | the history is empty, including the system message, and the capacity is unchanged |
| HistoryProperties.NonSystemCounts | src/agents/utils/completions.py:81 | each non-system message occurs in the filtered list exactly as often as in the input, and no system message occurs |
| HistoryProperties.NonSystemAppend | src/agents/utils/completions.py:81 | filtering distributes over concatenation, so the survivors keep their relative order |
| HistoryProperties.NonSystemOfNoSystem | src/agents/utils/completions.py:81 | a list without system messages passes the filter unchanged |
| HistoryProperties.NonSystemOfPinned | src/agents/utils/completions.py:80-84 | on a list with the system message only at index 0, the filter drops exactly that head |
| HistoryProperties.AddMessageUnbounded | src/agents/utils/completions.py:59-66 | with `max_length <= 0` nothing is removed: new history = old history + the new message |
| HistoryProperties.AddMessageKeepsPinned | src/agents/utils/completions.py:59-66 | adding a non-system message keeps the system message at index 0 and no system message anywhere else |
| HistoryProperties.AddMessageBounded | src/agents/utils/completions.py:59-74 | on a system-free history within a positive capacity, one addition stays within the capacity and system-free |
| HistoryProperties.AddSystemMessageIdempotent | src/agents/utils/completions.py:76-84 | calling `add_system_message` twice with the same content equals calling it once |
| HistoryProperties.AddSystemMessageReplaces | src/agents/utils/completions.py:76-84 | an existing system message is replaced in place and otherwise one is prepended; the length grows by one only in the latter case, regardless of capacity |
| HistoryProperties.PinnedWithTwoHasCandidate | src/agents/utils/completions.py:61-64 | in a pinned history of two or more messages the eviction scan always finds a non-system candidate |
| HistoryProperties.AddPreservesWellFormed | src/agents/utils/completions.py:59-66 | a user or assistant addition preserves "system only at index 0, at most `max_length` other messages" |
| HistoryProperties.ApplyPreservesWellFormed | src/agents/utils/completions.py:68-88 | each of the four wrapper operations (`add_user_message`, `add_assistant_message`, `add_system_message`, `clear`) preserves that invariant |
| HistoryProperties.ApplyAllPreservesWellFormed | src/agents/utils/completions.py:68-88 | any sequence of the four wrapper operations preserves that invariant |
| HistoryProperties.ApplyAllKeepsMaxLength | src/agents/utils/completions.py:47 | no public operation changes the capacity |
| HistoryProperties.ReachableHistoryIsBounded | src/agents/utils/completions.py:38-88 | a history built from empty by the four wrapper operations has its system message only at index 0 and at most `max_length` non-system messages |
| HistoryProperties.SystemFreeHistoryBounded | src/agents/utils/completions.py:59-74 | without system messages, any sequence of additions keeps the length within a positive capacity |
| HistoryProperties.SystemMessageStaysFirst | src/agents/utils/completions.py:59-84 | once a system message heads the history, later user and assistant additions never move or evict it |
| HistoryProperties.DirectSystemAddBreaksPinning | src/agents/utils/completions.py:49-66 | the general `add_message` with role `"system"` appends the system message after a user message, so pinning fails for histories built with it |
| HistoryProperties.EvictionScenario | src/agents/utils/completions.py:59-74 | capacity 2: user a, assistant b, user c leaves [assistant b, user c] |
| HistoryProperties.SystemOverflowScenario | src/agents/utils/completions.py:59-84 | capacity 1: system sys, then user a, leaves [system sys, user a], past the capacity |
| Llm.NewLLM | src/agents/llm/llm.py:19-23 | a new facade keeps the model name and starts with an empty, unbounded history |
| Llm.Generate | src/agents/llm/llm.py:25-55 | the result is the completion of the payload actually sent (`None` when the call raised); custom messages are the payload when non-empty; without history the payload is the lone user query and the facade is unchanged; with history and a returned response the last message is that response as an assistant message; the capacity is unchanged |
| Llm.AddSystemMessageTo | src/agents/llm/llm.py:57-59 | the facade's history becomes the buffer's `add_system_message` result; the model is kept |
| Llm.ClearHistory | src/agents/llm/llm.py:61-63 | the facade's history is empty with the same capacity; the model is kept |
| Llm.GetHistory | src/agents/llm/llm.py:65-67 | the returned list equals the current history element by element |
| LlmProperties.GenerateWithCustomMessages | src/agents/llm/llm.py:37-55 | custom messages are sent verbatim and the query never enters the history; with `use_history` a returned response is still appended as an assistant message |
| LlmProperties.GenerateWithHistory | src/agents/llm/llm.py:40-53 | the query is added as a user message, the payload is the whole history after that, and a returned response is then added as an assistant message |
| LlmProperties.GenerateUnboundedTurn | src/agents/llm/llm.py:40-53 | on an unbounded history a turn appends exactly `{user, query}` then `{assistant, response}` (only `{user, query}` when the call raised), and the payload is the old history plus the query |
| LlmProperties.GenerateFailure | src/agents/llm/llm.py:37-55 | when the completion call raises, history mode leaves the history with the query added and no response; every other mode leaves the facade unchanged |
| LlmProperties.GenerateWithoutHistory | src/agents/llm/llm.py:44-52 | the payload is the single message `{user, query}` and the history is unchanged |
| LlmProperties.GenerateKeepsSystemFirst | src/agents/llm/llm.py:37-53 | in every mode, returned or raised, a turn keeps a pinned system message at index 0 |
| LlmProperties.GeneratePreservesWellFormed | src/agents/llm/llm.py:37-53 | in every mode, returned or raised, a turn keeps the history's system message only at index 0 and within the capacity bound |
| LlmProperties.RunKeepsFacadeShape | src/agents/llm/llm.py:25-67 | any sequence of `generate`, `add_system_message` and `clear_history` calls, with any answer or failure at each `generate`, keeps the model, the capacity and the history's well-formedness |
| LlmProperties.NewLLMStaysPinned | src/agents/llm/llm.py:19-67 | a facade built by the constructor keeps an unbounded capacity and its system message only at index 0, whatever calls follow and whatever each call's answer or failure is |
| LlmProperties.VaryingAnswersScenario | src/agents/llm/llm.py:37-55 | the same custom payload sent twice with history, answered "a" then "b", leaves [assistant a, assistant b] |
| LlmProperties.HelloScenario | src/agents/llm/llm.py:19-55 | a fresh facade asked "hi" with history sends [user hi] and, answered "hello", holds [user hi, assistant hello] |

## Left out

- `completions_create` (`completions.py:3-16`) calls the OpenAI SDK. It is the `complete` parameter of `Llm.Generate`. A raised call is modelled only as `None`: the kind of error is not modelled.
- Environment and client setup (`load_dotenv`, `os.getenv`, `OpenAI(...)`, `llm.py:8,21-22`) is outside the model. The model name is an ordinary field.
- `game.py` (the flight-physics toy) is not part of this model. It is rendering, input polling and floating-point physics.
- `ChatHistory` inherits the mutators of Python's `list` (`append`, `pop`, item assignment). They bypass the capacity policy and are not modelled. Only the defined operations are.
- Python aliasing is not modelled. In history mode the source passes the live history object as the payload (`llm.py:43`). The model sends the history's value at call time, which is what the endpoint sees before the response is appended.
- Custom messages are modelled as well-formed `Message` values. The source does not validate them.
- `add_message` is public and accepts any role. Called directly with the role `"system"`, it appends a system message at the end and breaks pinning (`HistoryProperties.DirectSystemAddBreaksPinning`). The pinning and bound properties are therefore stated for histories built by the four wrapper operations only.
- The constructor accepts arbitrary initial messages, which may break system pinning. The pinning and bound properties are stated for histories built from empty by the defined operations, or under an explicit hypothesis.
