/** The state that flows through every node of the reservation graph
    (`ReservState`: a message history and the user information), the messages
    it holds, the partial updates nodes return, and how an update is merged
    into the state (`add_messages` for the history, replacement otherwise). */
module State {
  import opened Base

  /** A tool invocation proposed by the model: the tool's name, its arguments
      and the id its result must carry back. */
  datatype ToolCall = ToolCall(name: string, args: map<string, string>, id: string)

  /** One element of a list-valued model reply: a dict-like content block, or a
      bare string. */
  datatype Block = Dict(fields: map<string, string>) | Plain(text: string)

  /** The content of a model reply: a string, or a list of blocks. */
  datatype Content = Text(text: string) | Blocks(blocks: seq<Block>)

  /** A chat message.  `id` is `None` until the history merge assigns one. */
  datatype Message =
    | HumanMessage(id: Option<string>, text: string)
    | AIMessage(id: Option<string>, content: Content, toolCalls: seq<ToolCall>)
    | ToolMessage(id: Option<string>, text: string, toolCallId: string)

  /** What the assistant's model returns: always an AI message. */
  type AIReply = m: Message | m.AIMessage? witness AIMessage(None, Text(""), [])

  /** The tool calls a message carries; messages other than AI messages have
      none. */
  function ToolCallsOf(m: Message): seq<ToolCall>
  {
    if m.AIMessage? then m.toolCalls else []
  }

  /** The value `fetch_user_info` stores under `user_info`: a list of records. */
  type UserInfo = seq<map<string, string>>

  /** `ReservState`: the message history and the user information (absent
      until the user-info node has run). */
  datatype ReservState = ReservState(messages: seq<Message>, userInfo: Option<UserInfo>)

  /** A partial state update returned by a node: the keys it sets. */
  datatype Update = Update(messages: Option<seq<Message>>, userInfo: Option<UserInfo>)

  /** The run configuration a graph invocation carries; only its
      `configurable` mapping is consulted. */
  datatype RunConfig = RunConfig(configurable: Option<map<string, PyValue>>)

  /** The message with its id cleared, to compare messages up to their ids. */
  function Erase(m: Message): Message
  {
    m.(id := None)
  }

  /** Gives `m` the id `newId` unless it already has one. */
  function WithId(m: Message, newId: string): (r: Message)
    ensures r.id.Some?
    ensures m.id.Some? ==> r == m
    ensures Erase(r) == Erase(m)
  {
    if m.id.Some? then m else m.(id := Some(newId))
  }

  /** The new messages of a merge, in order, each given the id minted for its
      position unless it carries one. */
  function Minted(right: seq<Message>, start: nat, mint: nat -> string): (r: seq<Message>)
    ensures |r| == |right|
    ensures forall i :: 0 <= i < |right| ==> r[i] == WithId(right[i], mint(start + i))
    decreases |right|
  {
    if right == [] then [] else [WithId(right[0], mint(start))] + Minted(right[1..], start + 1, mint)
  }

  /** The `add_messages` merge: the existing history is kept as it is and the
      new messages follow it in order, each given an id (`mint` stands for the
      fresh identifiers the merge generates) unless it carries one. */
  function AddMessages(left: seq<Message>, right: seq<Message>, mint: nat -> string): (merged: seq<Message>)
    ensures |merged| == |left| + |right|
    ensures merged[..|left|] == left
    ensures forall i :: 0 <= i < |right| ==>
      merged[|left| + i].id.Some? && Erase(merged[|left| + i]) == Erase(right[i])
    ensures forall i :: 0 <= i < |right| && right[i].id.Some? ==> merged[|left| + i] == right[i]
  {
    left + Minted(right, |left|, mint)
  }

  /** Merges a node's update into the state: the history only grows, and the
      user information changes exactly when the update sets it. */
  function Apply(st: ReservState, u: Update, mint: nat -> string): (r: ReservState)
    ensures |st.messages| <= |r.messages| && r.messages[..|st.messages|] == st.messages
    ensures u.messages.None? ==> r.messages == st.messages
    ensures u.messages.Some? ==> |r.messages| == |st.messages| + |u.messages.value|
    ensures u.messages.Some? ==> r.messages == AddMessages(st.messages, u.messages.value, mint)
    ensures r.userInfo == (if u.userInfo.Some? then u.userInfo else st.userInfo)
  {
    ReservState(
      if u.messages.Some? then AddMessages(st.messages, u.messages.value, mint) else st.messages,
      if u.userInfo.Some? then u.userInfo else st.userInfo)
  }
}
