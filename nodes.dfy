/** The two nodes written for this graph: `user_info`, which stores what the
    user-info tool returns, and the assistant, which calls the model and calls
    it again, with a corrective user message appended, for as long as the
    reply is empty. */
module Nodes {
  import opened Base
  import opened State
  import UserTool

  /** The `user_info` node: sets the key `user_info` to what `fetch_user_info`
      returns, and no other key; a missing phone number propagates as the
      tool's `ValueError`. */
  function UserInfoNode(config: RunConfig): (r: Result<Update, Exception>)
    ensures r.Success? <==> Truthy(UserTool.PhoneNumber(config))
    ensures r.Success? ==> r.value == Update(None, Some([]))
    ensures r.Failure? ==> r.error == UserTool.NoPhoneNumber
  {
    match UserTool.FetchUserInfo(config)
    case Success(info) => Success(Update(None, Some(info)))
    case Failure(e) => Failure(e)
  }

  /** The message appended before each new attempt. */
  const Corrective: Message := HumanMessage(None, "Respond with a real output.")

  /** A reply the assistant accepts: it proposes tool calls, or its content is
      a non-empty string, or a non-empty list whose first block has a
      non-empty `text`. */
  predicate Usable(reply: AIReply)
  {
    || reply.toolCalls != []
    || (reply.content.Text? && reply.content.text != "")
    || (reply.content.Blocks? && reply.content.blocks != [] && reply.content.blocks[0].Dict?
        && "text" in reply.content.blocks[0].fields && reply.content.blocks[0].fields["text"] != "")
  }

  /** The retry test of the assistant loop.  With no tool calls it reads the
      content; a list whose first element is a bare string makes `.get` raise
      `AttributeError`. */
  function Degenerate(reply: AIReply): (d: Result<bool, Exception>)
    ensures d == Success(false) <==> Usable(reply)
    ensures d.Failure? <==>
      reply.toolCalls == [] && reply.content.Blocks? && reply.content.blocks != []
      && reply.content.blocks[0].Plain?
  {
    if reply.toolCalls != [] then Success(false)
    else
      match reply.content
      case Text(s) => Success(s == "")
      case Blocks(bs) =>
        if bs == [] then Success(true)
        else
          match bs[0]
          case Dict(fields) => Success(!("text" in fields && fields["text"] != ""))
          case Plain(_) => Failure(Exception("AttributeError", "'str' object has no attribute 'get'"))
  }

  /** The state of the next attempt: a new history with the corrective
      message appended; the user information is carried over. */
  function Retry(st: ReservState): ReservState
  {
    st.(messages := st.messages + [Corrective])
  }

  /** The state of attempt `k` (counting from 0): `k` corrective messages
      after the caller's history. */
  function Attempt(st: ReservState, k: nat): ReservState
  {
    st.(messages := st.messages + seq(k, _ => Corrective))
  }

  /** The assistant's reply: the model's answer on the first attempt whose
      answer is not degenerate.  `fuel` bounds the attempts; the source puts
      no bound on them. */
  function Respond(llm: ReservState -> AIReply, st: ReservState, fuel: nat): Result<AIReply, Fault>
    decreases fuel
  {
    if fuel == 0 then Failure(NoFuel)
    else
      match Degenerate(llm(st))
      case Failure(e) => Failure(Raise(e))
      case Success(again) => if again then Respond(llm, Retry(st), fuel - 1) else Success(llm(st))
  }

  /** The update the assistant node returns: the key `messages` bound to the
      accepted reply, and nothing else. */
  function AssistantUpdate(llm: ReservState -> AIReply, st: ReservState, fuel: nat): Result<Update, Fault>
  {
    match Respond(llm, st, fuel)
    case Success(reply) => Success(Update(Some([reply]), None))
    case Failure(f) => Failure(f)
  }

  /** Whatever the assistant returns is usable. */
  lemma {:induction false} RespondIsUsable(llm: ReservState -> AIReply, st: ReservState, fuel: nat)
    requires Respond(llm, st, fuel).Success?
    ensures Usable(Respond(llm, st, fuel).value)
    decreases fuel
  {
    if Degenerate(llm(st)) == Success(true) {
      RespondIsUsable(llm, Retry(st), fuel - 1);
    }
  }

  /** A reply with tool calls is accepted at once, whatever its content. */
  lemma ToolCallsAcceptedAtOnce(llm: ReservState -> AIReply, st: ReservState, fuel: nat)
    requires fuel > 0 && llm(st).toolCalls != []
    ensures Respond(llm, st, fuel) == Success(llm(st))
  {
  }

  lemma AttemptAfterRetry(st: ReservState, k: nat)
    ensures Attempt(Retry(st), k) == Attempt(st, k + 1)
    ensures Attempt(st, 0) == st
  {
    assert seq(k + 1, _ => Corrective) == [Corrective] + seq(k, _ => Corrective);
  }

  /** The assistant returns `r` exactly when `r` is the model's answer to some
      attempt `k` within the budget, that answer is usable, and the answers to
      all earlier attempts were degenerate: each degenerate answer adds one
      corrective message and nothing else. */
  lemma {:induction false} RespondIsFirstUsableAttempt(llm: ReservState -> AIReply, st: ReservState,
                                                       fuel: nat, r: AIReply)
    ensures Respond(llm, st, fuel) == Success(r) <==>
      exists k: nat :: k < fuel && r == llm(Attempt(st, k)) && Usable(r)
        && forall j: nat :: j < k ==> Degenerate(llm(Attempt(st, j))) == Success(true)
    decreases fuel
  {
    AttemptAfterRetry(st, 0);
    if fuel > 0 {
      RespondIsFirstUsableAttempt(llm, Retry(st), fuel - 1, r);
      if Respond(llm, st, fuel) == Success(r) {
        if Degenerate(llm(st)) == Success(true) {
          var k: nat :| k < fuel - 1 && r == llm(Attempt(Retry(st), k)) && Usable(r)
            && forall j: nat :: j < k ==> Degenerate(llm(Attempt(Retry(st), j))) == Success(true);
          AttemptAfterRetry(st, k);
          forall j: nat | j < k + 1 ensures Degenerate(llm(Attempt(st, j))) == Success(true) {
            if j > 0 {
              AttemptAfterRetry(st, j - 1);
            }
          }
          assert r == llm(Attempt(st, k + 1));
        } else {
          assert r == llm(Attempt(st, 0));
        }
      }
      if k: nat :| (k < fuel && r == llm(Attempt(st, k)) && Usable(r)
                   && forall j: nat :: j < k ==> Degenerate(llm(Attempt(st, j))) == Success(true)) {
        if k == 0 {
          assert Degenerate(llm(st)) == Success(false);
        } else {
          assert Degenerate(llm(Attempt(st, 0))) == Success(true);
          AttemptAfterRetry(st, k - 1);
          forall j: nat | j < k - 1 ensures Degenerate(llm(Attempt(Retry(st), j))) == Success(true) {
            AttemptAfterRetry(st, j);
          }
        }
      }
    }
  }

  /** The assistant node: it holds the model it calls. */
  class Assistant {
    const runnable: ReservState -> AIReply

    constructor (runnable: ReservState -> AIReply)
      ensures this.runnable == runnable
    {
      this.runnable := runnable;
    }

    /** Calls the model until its reply is usable, appending the corrective
        message to a fresh copy of the history before each new call, and
        returns the update that binds `messages` to that reply. */
    method Call(state: ReservState, fuel: nat) returns (r: Result<Update, Fault>)
      ensures r == AssistantUpdate(runnable, state, fuel)
      ensures r.Success? ==>
        && r.value.userInfo.None? && r.value.messages.Some? && |r.value.messages.value| == 1
        && r.value.messages.value[0].AIMessage? && Usable(r.value.messages.value[0])
    {
      var st := state;
      var left: nat := fuel;
      while left > 0
        invariant left <= fuel
        invariant Respond(runnable, st, left) == Respond(runnable, state, fuel)
      {
        var result := runnable(st);
        var degenerate := Degenerate(result);
        if degenerate.Failure? {
          return Failure(Raise(degenerate.error));
        }
        if !degenerate.value {
          RespondIsUsable(runnable, state, fuel);
          return Success(Update(Some([result]), None));
        }
        var messages := st.messages + [Corrective];
        st := st.(messages := messages);
        left := left - 1;
      }
      return Failure(NoFuel);
    }
  }
}
