/**
  The chat-history buffer of src/agents/utils/completions.py: chat messages,
  `build_message`, and the `ChatHistory` list with its capacity policy
  (evict the oldest non-system message when full) and system-message pinning
  (one system message, always at index 0).

  The buffer is modelled as an immutable value; every mutating operation of
  the source becomes a function from the old history to the new one.
*/
module Completions {
  import opened Optional

  const SystemRole: string := "system"
  const UserRole: string := "user"
  const AssistantRole: string := "assistant"

  /** A chat message; the source's `{"role": role, "content": content}` dictionary. */
  datatype Message = Message(role: string, content: string)

  predicate IsSystem(m: Message) {
    m.role == SystemRole
  }

  /** Builds the message with exactly the given role and content. */
  function BuildMessage(content: string, role: string): (m: Message)
    ensures m.role == role && m.content == content
    ensures IsSystem(m) <==> role == SystemRole
  {
    Message(role, content)
  }

  /** An ordered list of messages and a capacity; a non-positive `maxLength` means unbounded. */
  datatype ChatHistory = ChatHistory(messages: seq<Message>, maxLength: int)

  /** The source's constructor: `messages or []` with the given capacity. */
  function NewChatHistory(messages: Option<seq<Message>>, maxLength: int): (h: ChatHistory)
    ensures h.maxLength == maxLength
    ensures messages.None? ==> h.messages == []
    ensures messages.Some? ==> h.messages == messages.value
  {
    ChatHistory(if messages.Some? then messages.value else [], maxLength)
  }

  /** The constructor with its defaults: no messages, `max_length = -1`. */
  function EmptyChatHistory(): (h: ChatHistory)
    ensures h.messages == [] && h.maxLength <= 0
  {
    NewChatHistory(None, -1)
  }

  /** No message of `s` has the system role. */
  predicate NoSystem(s: seq<Message>) {
    forall j :: 0 <= j < |s| ==> !IsSystem(s[j])
  }

  /** Every message of `s` has the system role, so eviction finds no candidate. */
  predicate AllSystem(s: seq<Message>) {
    forall j :: 0 <= j < |s| ==> IsSystem(s[j])
  }

  /** `i` is the index of the first non-system message of `s`. */
  predicate IsFirstNonSystem(s: seq<Message>, i: int) {
    0 <= i < |s| && !IsSystem(s[i]) && forall j :: 0 <= j < i ==> IsSystem(s[j])
  }

  /** A system message, if present, sits at index 0 and is the only one. */
  predicate SystemPinned(s: seq<Message>) {
    forall j :: 0 < j < |s| ==> !IsSystem(s[j])
  }

  predicate HasSystemHead(s: seq<Message>) {
    |s| > 0 && IsSystem(s[0])
  }

  /** The condition under which `add_message` looks for a message to evict. */
  predicate AtCapacity(h: ChatHistory) {
    h.maxLength > 0 && |h.messages| >= h.maxLength
  }

  /** The index the front-to-back scan of `add_message` stops at, if any. */
  function FirstNonSystem(s: seq<Message>): (r: Option<nat>)
    ensures r.Some? ==> IsFirstNonSystem(s, r.value)
    ensures r.None? ==> AllSystem(s)
    decreases |s|
  {
    if |s| == 0 then None
    else if !IsSystem(s[0]) then Some(0)
    else match FirstNonSystem(s[1..])
      case None => None
      case Some(k) => Some(k + 1)
  }

  /** `s` without its element at index `i`; the source's `list.pop(i)`. */
  function RemoveAt(s: seq<Message>, i: nat): (r: seq<Message>)
    requires i < |s|
    ensures |r| == |s| - 1
    ensures forall j :: 0 <= j < i ==> r[j] == s[j]
    ensures forall j :: i <= j < |r| ==> r[j] == s[j + 1]
  {
    s[..i] + s[i + 1..]
  }

  /** Removes the first non-system message; leaves `s` alone when there is none. */
  function EvictOldest(s: seq<Message>): seq<Message> {
    match FirstNonSystem(s)
    case None => s
    case Some(i) => RemoveAt(s, i)
  }

  /**
    `add_message`: when the buffer is at or over a positive capacity, drop the
    first non-system message (if there is one), then append the new message.
  */
  function AddMessage(h: ChatHistory, content: string, role: string): (r: ChatHistory)
    ensures r.maxLength == h.maxLength
    ensures |r.messages| > 0 && r.messages[|r.messages| - 1] == BuildMessage(content, role)
    ensures |r.messages| == |h.messages| || |r.messages| == |h.messages| + 1
    // below capacity, or unbounded: a plain append
    ensures !AtCapacity(h) ==> r.messages == h.messages + [BuildMessage(content, role)]
    // at capacity: exactly the lowest-index non-system message goes, the rest keep their order
    ensures forall i :: AtCapacity(h) && IsFirstNonSystem(h.messages, i) ==>
      r.messages == h.messages[..i] + h.messages[i + 1..] + [BuildMessage(content, role)]
    // at capacity with no candidate: nothing goes and the buffer grows past its capacity
    ensures AtCapacity(h) && AllSystem(h.messages) ==>
      r.messages == h.messages + [BuildMessage(content, role)]
  {
    var message := BuildMessage(content, role);
    if AtCapacity(h) then
      ChatHistory(EvictOldest(h.messages) + [message], h.maxLength)
    else
      ChatHistory(h.messages + [message], h.maxLength)
  }

  /**
    The source's loop, statement by statement: scan from the front, pop the
    first non-system message and stop, then append. It computes `AddMessage`.
  */
  method AddMessageByScan(h: ChatHistory, content: string, role: string) returns (r: ChatHistory)
    ensures r == AddMessage(h, content, role)
  {
    var message := BuildMessage(content, role);
    var kept := h.messages;
    if h.maxLength > 0 && |h.messages| >= h.maxLength {
      var i := 0;
      while i < |h.messages|
        invariant 0 <= i <= |h.messages|
        invariant kept == h.messages
        invariant forall j :: 0 <= j < i ==> IsSystem(h.messages[j])
      {
        if !IsSystem(h.messages[i]) {
          kept := RemoveAt(h.messages, i);
          assert IsFirstNonSystem(h.messages, i);
          break;
        }
        i := i + 1;
      }
    }
    r := ChatHistory(kept + [message], h.maxLength);
  }

  /** `add_user_message`: `add_message` with the `user` role. */
  function AddUserMessage(h: ChatHistory, content: string): (r: ChatHistory)
    ensures r.maxLength == h.maxLength
    ensures |h.messages| <= |r.messages| <= |h.messages| + 1 && |r.messages| > 0
    ensures r.messages[|r.messages| - 1] == Message(UserRole, content)
  {
    AddMessage(h, content, UserRole)
  }

  /** `add_assistant_message`: `add_message` with the `assistant` role. */
  function AddAssistantMessage(h: ChatHistory, content: string): (r: ChatHistory)
    ensures r.maxLength == h.maxLength
    ensures |h.messages| <= |r.messages| <= |h.messages| + 1 && |r.messages| > 0
    ensures r.messages[|r.messages| - 1] == Message(AssistantRole, content)
  {
    AddMessage(h, content, AssistantRole)
  }

  /** The non-system messages of `s`, in their original order. */
  function NonSystem(s: seq<Message>): (r: seq<Message>)
    ensures NoSystem(r)
    ensures |r| <= |s|
    ensures forall m :: m in r <==> m in s && !IsSystem(m)
  {
    if |s| == 0 then []
    else if IsSystem(s[0]) then NonSystem(s[1..])
    else [s[0]] + NonSystem(s[1..])
  }

  /**
    `add_system_message`: drop every system message, then put a fresh one at
    index 0. The capacity is not consulted.
  */
  function AddSystemMessage(h: ChatHistory, content: string): (r: ChatHistory)
    ensures r.maxLength == h.maxLength
    ensures |r.messages| > 0 && r.messages[0] == Message(SystemRole, content)
    ensures SystemPinned(r.messages) && HasSystemHead(r.messages)
    ensures r.messages[1..] == NonSystem(h.messages)
  {
    ChatHistory([BuildMessage(content, SystemRole)] + NonSystem(h.messages), h.maxLength)
  }

  /** `clear`: every message goes, the system message included; the capacity stays. */
  function Clear(h: ChatHistory): (r: ChatHistory)
    ensures r.messages == [] && r.maxLength == h.maxLength
  {
    ChatHistory([], h.maxLength)
  }
}
