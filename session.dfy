/** Copilot chat sessions (hindsight-copilot, session.rs). Times are
    seconds since the epoch. */
module ChatSessions {
  import opened Wrappers

  datatype MessageRole = User | Assistant | System
  {
    /** The label shown for a role; the assistant is shown as "Copilot". */
    function DisplayName(): (r: string)
      ensures this == User <==> r == "User"
      ensures this == Assistant <==> r == "Copilot"
      ensures this == System <==> r == "System"
    {
      match this
      case User => "User"
      case Assistant => "Copilot"
      case System => "System"
    }
  }

  datatype ChatMessage = ChatMessage(role: MessageRole, content: string, timestamp: int, agent: Option<string>)
  {
    /** Attach an agent; nothing else changes. */
    function WithAgent(name: string): (r: ChatMessage)
      ensures r.HasAgent() && r.agent == Some(name)
      ensures r.role == role && r.content == content && r.timestamp == timestamp
    {
      this.(agent := Some(name))
    }

    predicate HasAgent() { agent.Some? }

    /** `content.len()`: the length of the content in UTF-8 bytes. */
    function ContentLen(): (n: nat)
      ensures |content| <= n <= 4 * |content|
    {
      Utf8Length(content)
    }
  }

  /** A user message at `timestamp`, without an agent. */
  function UserMessage(content: string, timestamp: int): (m: ChatMessage)
    ensures m.role == User && !m.HasAgent()
    ensures m.content == content && m.timestamp == timestamp
  {
    ChatMessage(User, content, timestamp, None)
  }

  /** An assistant message at `timestamp`, without an agent. */
  function AssistantMessage(content: string, timestamp: int): (m: ChatMessage)
    ensures m.role == Assistant && !m.HasAgent()
    ensures m.content == content && m.timestamp == timestamp
  {
    ChatMessage(Assistant, content, timestamp, None)
  }

  /** Bytes needed to encode `c` in UTF-8. */
  function Utf8Width(c: char): (n: nat)
    ensures 1 <= n <= 4
  {
    if c as int < 0x80 then 1 else if c as int < 0x800 then 2 else if c as int < 0x10000 then 3 else 4
  }

  function Utf8Length(s: string): (n: nat)
    ensures |s| <= n <= 4 * |s|
  {
    if s == [] then 0 else Utf8Length(s[..|s| - 1]) + Utf8Width(s[|s| - 1])
  }

  /** The messages with role `role`, in their order. */
  function WithRole(ms: seq<ChatMessage>, role: MessageRole): (r: seq<ChatMessage>)
    ensures |r| <= |ms|
    ensures forall m :: m in r <==> m in ms && m.role == role
  {
    if ms == [] then []
    else WithRole(ms[..|ms| - 1], role) + (if ms[|ms| - 1].role == role then [ms[|ms| - 1]] else [])
  }

  /** The user and the assistant messages together are no more than all
      messages. */
  lemma {:induction false} RoleFiltersBounded(ms: seq<ChatMessage>)
    ensures |WithRole(ms, User)| + |WithRole(ms, Assistant)| <= |ms|
  {
    if ms != [] {
      RoleFiltersBounded(ms[..|ms| - 1]);
    }
  }

  /** Appending keeps the earlier filter results as a prefix. */
  lemma WithRoleAppend(ms: seq<ChatMessage>, m: ChatMessage, role: MessageRole)
    ensures WithRole(ms + [m], role) == WithRole(ms, role) + (if m.role == role then [m] else [])
  {
    assert (ms + [m])[..|ms|] == ms;
  }

  class ChatSession {
    var id: string
    var workspaceId: string
    var createdAt: int
    var updatedAt: int
    var messages: seq<ChatMessage>

    /** `ChatSession::new`: no messages, created and updated at `timestamp`. */
    constructor (id: string, workspaceId: string, timestamp: int)
      ensures this.id == id && this.workspaceId == workspaceId
      ensures createdAt == timestamp && updatedAt == timestamp && messages == []
      ensures IsEmpty()
    {
      this.id := id;
      this.workspaceId := workspaceId;
      createdAt := timestamp;
      updatedAt := timestamp;
      messages := [];
    }

    /** `add_message`: append, and move `updated_at` to the message's time. */
    method AddMessage(message: ChatMessage)
      modifies this
      ensures messages == old(messages) + [message]
      ensures MessageCount() == old(MessageCount()) + 1
      ensures updatedAt == message.timestamp
      ensures id == old(id) && workspaceId == old(workspaceId) && createdAt == old(createdAt)
    {
      updatedAt := message.timestamp;
      messages := messages + [message];
    }

    function MessageCount(): nat
      reads this
    {
      |messages|
    }

    /** The user messages, in order. */
    function UserMessages(): (r: seq<ChatMessage>)
      reads this
      ensures forall m :: m in r <==> m in messages && m.role == User
      ensures |r| + |AssistantMessages()| <= MessageCount()
    {
      RoleFiltersBounded(messages);
      WithRole(messages, User)
    }

    /** The assistant messages, in order. */
    function AssistantMessages(): (r: seq<ChatMessage>)
      reads this
      ensures forall m :: m in r <==> m in messages && m.role == Assistant
    {
      WithRole(messages, Assistant)
    }

    /** A session is empty exactly when it has no messages. */
    predicate IsEmpty()
      reads this
    {
      |messages| == 0
    }
  }
}
