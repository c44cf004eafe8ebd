/**
  Properties of the chat-history buffer that relate several operations or
  hold over whole sequences of calls: order-preserving filtering, system
  pinning, idempotent system replacement, and the capacity bound.
*/
module HistoryProperties {
  import opened Completions

  /**
    The four wrapper operations of `ChatHistory`: `add_user_message`,
    `add_assistant_message`, `add_system_message` and `clear`. The general
    `add_message` is not among them: with the role `"system"` it breaks
    pinning (see `DirectSystemAddBreaksPinning`).
  */
  datatype Op = AddUser(content: string) | AddAssistant(content: string) | AddSystem(content: string) | ClearAll

  function Apply(h: ChatHistory, op: Op): ChatHistory {
    match op
    case AddUser(c) => AddUserMessage(h, c)
    case AddAssistant(c) => AddAssistantMessage(h, c)
    case AddSystem(c) => AddSystemMessage(h, c)
    case ClearAll => Clear(h)
  }

  function ApplyAll(h: ChatHistory, ops: seq<Op>): ChatHistory
    decreases |ops|
  {
    if |ops| == 0 then h else ApplyAll(Apply(h, ops[0]), ops[1..])
  }

  /** Only user and assistant messages are added. */
  predicate ConversationOnly(ops: seq<Op>) {
    forall k :: 0 <= k < |ops| ==> ops[k].AddUser? || ops[k].AddAssistant?
  }

  /** No system message is ever added. */
  predicate NoSystemOps(ops: seq<Op>) {
    forall k :: 0 <= k < |ops| ==> !ops[k].AddSystem?
  }

  /**
    The shape every history built by the four wrapper operations has: at most one
    system message, at index 0, and at most `maxLength` other messages.
  */
  predicate WellFormed(h: ChatHistory) {
    && SystemPinned(h.messages)
    && (h.maxLength > 0 ==>
          |h.messages| <= h.maxLength + (if HasSystemHead(h.messages) then 1 else 0))
  }

  // ---------------------------------------------------------------------------
  // Filtering out system messages

  /** Filtering distributes over concatenation, so it keeps relative order. */
  lemma {:induction false} NonSystemAppend(a: seq<Message>, b: seq<Message>)
    ensures NonSystem(a + b) == NonSystem(a) + NonSystem(b)
    decreases |a|
  {
    if |a| == 0 {
      assert a + b == b;
    } else {
      assert (a + b)[0] == a[0];
      assert (a + b)[1..] == a[1..] + b;
      NonSystemAppend(a[1..], b);
    }
  }

  /** Each non-system message survives the filter as often as it occurs; system messages never do. */
  lemma {:induction false} NonSystemCounts(s: seq<Message>)
    ensures forall m :: multiset(NonSystem(s))[m] == (if IsSystem(m) then 0 else multiset(s)[m])
    decreases |s|
  {
    if |s| > 0 {
      NonSystemCounts(s[1..]);
      assert s == [s[0]] + s[1..];
      assert multiset(s) == multiset{s[0]} + multiset(s[1..]);
    }
  }

  /** A sequence without system messages passes the filter unchanged. */
  lemma {:induction false} NonSystemOfNoSystem(s: seq<Message>)
    requires NoSystem(s)
    ensures NonSystem(s) == s
    decreases |s|
  {
    if |s| > 0 {
      NonSystemOfNoSystem(s[1..]);
    }
  }

  /** On a pinned history the filter drops exactly the head system message, if any. */
  lemma NonSystemOfPinned(s: seq<Message>)
    requires SystemPinned(s)
    ensures HasSystemHead(s) ==> NonSystem(s) == s[1..]
    ensures !HasSystemHead(s) ==> NonSystem(s) == s
  {
  }

  // ---------------------------------------------------------------------------
  // add_message

  /** With a non-positive capacity nothing is ever evicted. */
  lemma AddMessageUnbounded(h: ChatHistory, content: string, role: string)
    requires h.maxLength <= 0
    ensures AddMessage(h, content, role).messages == h.messages + [Message(role, content)]
  {
  }

  /**
    Adding a non-system message keeps the system message (if any) at index 0
    and keeps every later message non-system.
  */
  lemma AddMessageKeepsPinned(h: ChatHistory, content: string, role: string)
    requires SystemPinned(h.messages)
    requires role != SystemRole
    ensures var r := AddMessage(h, content, role);
      && SystemPinned(r.messages)
      && (HasSystemHead(r.messages) <==> HasSystemHead(h.messages))
      && (HasSystemHead(h.messages) ==> r.messages[0] == h.messages[0])
  {
  }

  /** One call keeps a system-free history within its positive capacity. */
  lemma AddMessageBounded(h: ChatHistory, content: string, role: string)
    requires h.maxLength > 0 && |h.messages| <= h.maxLength
    requires NoSystem(h.messages) && role != SystemRole
    ensures var r := AddMessage(h, content, role);
      |r.messages| <= h.maxLength && NoSystem(r.messages)
  {
  }

  // ---------------------------------------------------------------------------
  // add_system_message

  /** Replacing the system message twice with the same content is replacing it once. */
  lemma AddSystemMessageIdempotent(h: ChatHistory, content: string)
    ensures AddSystemMessage(AddSystemMessage(h, content), content) == AddSystemMessage(h, content)
  {
    var once := AddSystemMessage(h, content);
    NonSystemOfNoSystem(NonSystem(h.messages));
    assert once.messages == [Message(SystemRole, content)] + NonSystem(h.messages);
    NonSystemAppend([Message(SystemRole, content)], NonSystem(h.messages));
  }

  /**
    On a pinned history, `add_system_message` replaces an existing system
    message in place and otherwise prepends one; nothing is evicted, so the
    length may exceed the capacity.
  */
  lemma AddSystemMessageReplaces(h: ChatHistory, content: string)
    requires SystemPinned(h.messages)
    ensures var r := AddSystemMessage(h, content);
      && (HasSystemHead(h.messages) ==>
            r.messages == [Message(SystemRole, content)] + h.messages[1..])
      && (!HasSystemHead(h.messages) ==>
            r.messages == [Message(SystemRole, content)] + h.messages)
      && |r.messages| == |h.messages| + (if HasSystemHead(h.messages) then 0 else 1)
  {
    NonSystemOfPinned(h.messages);
  }

  // ---------------------------------------------------------------------------
  // Sequences of operations

  /** Each of the four wrapper operations preserves the well-formedness invariant. */
  lemma ApplyPreservesWellFormed(h: ChatHistory, op: Op)
    requires WellFormed(h)
    ensures WellFormed(Apply(h, op))
  {
    match op
    case AddUser(c) => AddPreservesWellFormed(h, c, UserRole);
    case AddAssistant(c) => AddPreservesWellFormed(h, c, AssistantRole);
    case AddSystem(c) => AddSystemMessageReplaces(h, c);
    case ClearAll =>
  }

  /** Beyond index 0 a pinned history holds only non-system messages, so eviction has a candidate. */
  lemma PinnedWithTwoHasCandidate(s: seq<Message>)
    requires SystemPinned(s) && |s| > 1
    ensures !AllSystem(s)
  {
    assert !IsSystem(s[1]);
  }

  lemma AddPreservesWellFormed(h: ChatHistory, content: string, role: string)
    requires WellFormed(h) && role != SystemRole
    ensures WellFormed(AddMessage(h, content, role))
  {
    AddMessageKeepsPinned(h, content, role);
    if |h.messages| > 1 {
      PinnedWithTwoHasCandidate(h.messages);
    }
  }

  lemma {:induction false} ApplyAllPreservesWellFormed(h: ChatHistory, ops: seq<Op>)
    requires WellFormed(h)
    ensures WellFormed(ApplyAll(h, ops))
    decreases |ops|
  {
    if |ops| > 0 {
      ApplyPreservesWellFormed(h, ops[0]);
      ApplyAllPreservesWellFormed(Apply(h, ops[0]), ops[1..]);
    }
  }

  /**
    Any history built from an empty one by the four wrapper operations has its
    system message (if any) at index 0 only, and never holds more than
    `maxLength` non-system messages when the capacity is positive.
  */
  lemma ReachableHistoryIsBounded(maxLength: int, ops: seq<Op>)
    ensures var r := ApplyAll(ChatHistory([], maxLength), ops);
      && SystemPinned(r.messages)
      && (maxLength > 0 ==> |NonSystem(r.messages)| <= maxLength)
  {
    ApplyAllPreservesWellFormed(ChatHistory([], maxLength), ops);
    var r := ApplyAll(ChatHistory([], maxLength), ops);
    NonSystemOfPinned(r.messages);
    assert r.maxLength == maxLength by {
      ApplyAllKeepsMaxLength(ChatHistory([], maxLength), ops);
    }
  }

  lemma {:induction false} ApplyAllKeepsMaxLength(h: ChatHistory, ops: seq<Op>)
    ensures ApplyAll(h, ops).maxLength == h.maxLength
    decreases |ops|
  {
    if |ops| > 0 {
      ApplyAllKeepsMaxLength(Apply(h, ops[0]), ops[1..]);
    }
  }

  /**
    Without system messages, user and assistant additions never take the
    buffer past a positive capacity.
  */
  lemma {:induction false} SystemFreeHistoryBounded(h: ChatHistory, ops: seq<Op>)
    requires h.maxLength > 0 && |h.messages| <= h.maxLength
    requires NoSystem(h.messages) && NoSystemOps(ops)
    ensures var r := ApplyAll(h, ops);
      |r.messages| <= h.maxLength && NoSystem(r.messages)
    decreases |ops|
  {
    if |ops| > 0 {
      var next := Apply(h, ops[0]);
      match ops[0] {
        case AddUser(c) => AddMessageBounded(h, c, UserRole);
        case AddAssistant(c) => AddMessageBounded(h, c, AssistantRole);
        case ClearAll =>
      }
      assert NoSystemOps(ops[1..]) by {
        forall k | 0 <= k < |ops| - 1
          ensures !ops[1..][k].AddSystem?
        {
          assert ops[1..][k] == ops[k + 1];
        }
      }
      SystemFreeHistoryBounded(next, ops[1..]);
    }
  }

  /**
    Once a system message is in place, later user and assistant additions
    never move or evict it.
  */
  lemma {:induction false} SystemMessageStaysFirst(h: ChatHistory, ops: seq<Op>)
    requires SystemPinned(h.messages) && HasSystemHead(h.messages)
    requires ConversationOnly(ops)
    ensures var r := ApplyAll(h, ops);
      HasSystemHead(r.messages) && r.messages[0] == h.messages[0]
    decreases |ops|
  {
    if |ops| > 0 {
      var next := Apply(h, ops[0]);
      match ops[0] {
        case AddUser(c) => AddMessageKeepsPinned(h, c, UserRole);
        case AddAssistant(c) => AddMessageKeepsPinned(h, c, AssistantRole);
      }
      assert ConversationOnly(ops[1..]) by {
        forall k | 0 <= k < |ops| - 1
          ensures ops[1..][k].AddUser? || ops[1..][k].AddAssistant?
        {
          assert ops[1..][k] == ops[k + 1];
        }
      }
      SystemMessageStaysFirst(next, ops[1..]);
    }
  }

  // ---------------------------------------------------------------------------
  // Worked scenarios

  /**
    The general `add_message` with the role `"system"` appends the system
    message at the end, so a well-formed history stops being pinned.
  */
  lemma DirectSystemAddBreaksPinning()
    ensures var h := ApplyAll(ChatHistory([], -1), [AddUser("a")]);
      && WellFormed(h)
      && AddMessage(h, "x", SystemRole).messages == [Message(UserRole, "a"), Message(SystemRole, "x")]
      && !SystemPinned(AddMessage(h, "x", SystemRole).messages)
  {
  }

  /** Capacity 2: user a, assistant b, user c evicts user a. */
  lemma EvictionScenario()
    ensures ApplyAll(ChatHistory([], 2), [AddUser("a"), AddAssistant("b"), AddUser("c")]).messages
         == [Message(AssistantRole, "b"), Message(UserRole, "c")]
  {
  }

  /** Capacity 1 holding only a system message: the next addition grows the buffer to 2. */
  lemma SystemOverflowScenario()
    ensures ApplyAll(ChatHistory([], 1), [AddSystem("sys"), AddUser("a")]).messages
         == [Message(SystemRole, "sys"), Message(UserRole, "a")]
  {
  }
}
