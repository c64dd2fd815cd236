/** core/base_agent.py: the agent's bounded conversation memory, the
    memory switch of `BaseAgent`, and the numbered rendering of retrieved
    context. Timestamps are whole seconds passed in by the caller. */
module BaseAgent {

  import opened Common
  import opened PyText

  datatype Message = Message(role: string, content: string, timestamp: int)

  /** The memory's default capacity. */
  const DefaultMaxMessages: int := 10

  /** What `add` keeps: the list with the new message, cut to its last
      `maxMessages` entries (`messages[-max_messages:]`) only when longer.
      Python's slice makes a capacity of 0 keep everything. */
  function Kept(messages: seq<Message>, maxMessages: int): (r: seq<Message>)
    ensures |r| <= |messages| && r == messages[|messages| - |r|..]
    ensures maxMessages >= 1 ==> |r| == if |messages| <= maxMessages then |messages| else maxMessages
    ensures maxMessages == 0 ==> r == messages
  {
    if |messages| > maxMessages then SliceFrom(messages, -maxMessages) else messages
  }

  class AgentMemory {
    var messages: seq<Message>
    const maxMessages: int

    /** `AgentMemory(max_messages)`; the default is `DefaultMaxMessages`. */
    constructor (maxMessages: int)
      ensures messages == [] && this.maxMessages == maxMessages
    {
      messages := [];
      this.maxMessages := maxMessages;
    }

    /** With a positive capacity the memory never holds more than it. */
    predicate Bounded()
      reads this
    {
      maxMessages >= 1 ==> |messages| <= maxMessages
    }

    /** `add`: append, then keep the most recent `maxMessages`, in order. */
    method Add(role: string, content: string, now: int)
      modifies this`messages
      ensures messages == Kept(old(messages) + [Message(role, content, now)], maxMessages)
      ensures maxMessages >= 1 ==> messages[|messages| - 1] == Message(role, content, now)
      ensures Bounded()
    {
      messages := messages + [Message(role, content, now)];
      if |messages| > maxMessages {
        messages := SliceFrom(messages, -maxMessages);
      }
    }

    /** `get_context`: role and content of each message, in order. */
    function GetContext(): (r: seq<(string, string)>)
      reads this
      ensures |r| == |messages|
      ensures forall i :: 0 <= i < |r| ==> r[i] == (messages[i].role, messages[i].content)
    {
      seq(|messages|, i requires 0 <= i < |messages| reads this => (messages[i].role, messages[i].content))
    }

    /** `clear` */
    method Clear()
      modifies this`messages
      ensures messages == []
    {
      messages := [];
    }
  }

  /** A long conversation keeps exactly its last `maxMessages` messages: adding
      to a full memory drops the oldest one. */
  lemma FullMemoryDropsOldest(old_: seq<Message>, m: Message, maxMessages: int)
    requires maxMessages >= 1 && |old_| == maxMessages
    ensures Kept(old_ + [m], maxMessages) == old_[1..] + [m]
  {
    var r := Kept(old_ + [m], maxMessages);
    assert r == (old_ + [m])[1..];
  }

  /** A capacity of 0 does not bound the memory at all: every message stays. */
  lemma ZeroCapacityKeepsAll(old_: seq<Message>, m: Message)
    ensures Kept(old_ + [m], 0) == old_ + [m]
    ensures |Kept(old_ + [m], 0)| == |old_| + 1
  {
  }

  /** The memory part of `BaseAgent`. */
  class Agent {
    const name: string
    const enableMemory: bool
    const memory: AgentMemory?

    /** `memory` is a new default memory exactly when memory is enabled. */
    constructor (name: string, enableMemory: bool)
      ensures this.name == name && this.enableMemory == enableMemory
      ensures (memory == null) <==> !enableMemory
      ensures memory != null ==> fresh(memory) && memory.messages == [] && memory.maxMessages == DefaultMaxMessages
    {
      this.name := name;
      this.enableMemory := enableMemory;
      if enableMemory {
        memory := new AgentMemory(DefaultMaxMessages);
      } else {
        memory := null;
      }
    }

    /** `reset_memory`: clears the memory, and does nothing without one. */
    method ResetMemory()
      modifies memory
      ensures memory != null ==> memory.messages == []
    {
      if memory != null {
        memory.Clear();
      }
    }
  }

  /** An item of the context list: a dict with optional `title` and
      `content` string entries, or any other value. `rendered` is the
      item's `str()`, supplied by the caller. */
  datatype ContextItem = DictItem(title: Option<string>, content: Option<string>, rendered: string)
                       | OtherItem(rendered: string)

  /** `content[:500]` */
  function Clip(s: string): (r: string)
    ensures r <= s && |r| == if |s| <= 500 then |s| else 500
  {
    SliceTo(s, 500)
  }

  /** The title a dict item is shown with: its own, else "مستند i". */
  function ItemTitle(title: Option<string>, i: nat): string {
    title.GetOr("مستند " + NatToString(i))
  }

  /** The `i`-th entry of `_format_context` (numbered from 1). */
  function FormatItem(i: nat, item: ContextItem): (r: string)
    ensures "[" + NatToString(i) + "] " <= r
  {
    match item
    case DictItem(title, content, rendered) =>
      "[" + NatToString(i) + "] " + ItemTitle(title, i) + ":\n" + Clip(content.GetOr(rendered)) + "...\n"
    case OtherItem(rendered) =>
      "[" + NatToString(i) + "] " + Clip(rendered) + "...\n"
  }

  /** The entries of `_format_context`, numbered from 1 in list order. */
  function Entries(context: seq<ContextItem>): (r: seq<string>)
    ensures |r| == |context|
    ensures forall i :: 0 <= i < |context| ==> "[" + NatToString(i + 1) + "] " <= r[i]
  {
    seq(|context|, i requires 0 <= i < |context| => FormatItem(i + 1, context[i]))
  }

  /** `BaseAgent._format_context`: the entries, built one per item, joined
      by newlines. */
  method FormatContext(context: seq<ContextItem>) returns (s: string)
    ensures s == Join(Entries(context), "\n")
  {
    var formatted: seq<string> := [];
    var i := 0;
    while i < |context|
      invariant 0 <= i <= |context|
      invariant formatted == Entries(context)[..i]
    {
      formatted := formatted + [FormatItem(i + 1, context[i])];
      i := i + 1;
    }
    assert formatted == Entries(context);
    s := Join(formatted, "\n");
  }

  /** A dict item's content is shown cut to its first 500 characters, after
      its title or the default one. */
  lemma DictItemShowsClippedContent(i: nat, title: Option<string>, content: string, rendered: string)
    ensures FormatItem(i, DictItem(title, Some(content), rendered))
      == "[" + NatToString(i) + "] " + ItemTitle(title, i) + ":\n" + content[..if |content| <= 500 then |content| else 500] + "...\n"
    ensures title.None? ==> ItemTitle(title, i) == "مستند " + NatToString(i)
  {
  }
}
