# Reservation assistant: the confirmation graph and its console driver

This project models the control logic of a pet-service reservation chat agent
built on a LangGraph state graph. The language model, the reservation backend
and the console are left abstract; what is modelled is everything that decides
what runs and when.

- **State** (`State`): the `ReservState` record, its messages and tool calls,
  and how a node's partial update is merged into it. The `add_messages`
  reducer keeps the old history and appends the new messages, giving each an
  id.
- **Tool registry** (`Registry`): the three reservation tools, split into one
  safe tool and two sensitive tools. The set of sensitive names is what the
  router consults. The full list is the one bound to the model.
- **`fetch_user_info`** (`UserTool`): checks that the run configuration
  carries a truthy phone number. It returns `[]` or raises `ValueError`.
- **Helpers** (`Utils`):
  - `handle_tool_error`: one error `ToolMessage` per tool call, in order.
  - `_print_event`: prints the last message of each event once per question
    and truncates long renderings. It is a method over the `_printed` set,
    which is a class field.
  - `parse_phone_number`: a left-to-right scan for `01[016789]\d{8}`.
- **Nodes** (`Nodes`):
  - The `user_info` node.
  - The `Assistant` class. Its `Call` method re-invokes the model, appending
    a corrective user message, until the reply is usable.
- **Graph** (`Graph`):
  - `route_tools`.
  - The fixed edges.
  - The pause before `sensitive_tools`.
  - The two tool nodes with their error fallback.
  - How one invocation runs: `stream`/`invoke` with input restarts from
    `START`; `invoke(None)` resumes at the paused node. A run continues until
    it reaches `END`, pauses or raises.
- **Console driver** (`Driver`): the `__main__` block, modelled twice:
  - as a state machine (`Step`/`Steps`) over a sequence of input lines;
  - as the method `Console`, with the outer question loop and the inner
    approval loop.

The main safety theorem is `Driver.SensitiveToolsRunOnlyOnApproval`. A
sensitive tool is invoked only in the step that answers the approval prompt
with approval, and only for a call that the paused message proposed.

## Model

| member | source | states |
|---|---|---|
| State.AddMessages | my_agent/utils/state.py:5-7 | the merged history keeps the old messages as a prefix, appends every new message in order, keeps any id a new message already carries, and gives every new message an id |
| State.Apply | my_agent/utils/state.py:5-7 | merging a node's update only extends the message history, with exactly the `add_messages` merge of the update's messages; `user_info` changes exactly when the update sets it |
| Registry.Names | my_agent/utils/tools/reservation.py:42 | a name is in the set exactly when some tool of the list carries it |
| Registry.SafeToolNamesExactly | my_agent/utils/tools/reservation.py:8-40 | the safe tool names are exactly {GetReservationsByPhone} |
| Registry.SensitiveToolNamesExactly | my_agent/utils/tools/reservation.py:18-42 | `sensitive_tool_names` is exactly {UpdateReservationDate, CancelReservation} |
| Registry.ClassificationIsPartition | my_agent/utils/tools/reservation.py:40-44 | the safe and sensitive names are disjoint and together make up all names; `tools` lists the safe tools first, then the sensitive ones, each once; a tool is sensitive iff its name is a sensitive name |
| UserTool.FetchUserInfo | my_agent/utils/tools/user.py:5-13 | succeeds with `[]` iff `configurable` holds a `phone_number` that is a non-empty string; otherwise raises `ValueError("No phone number configured.")` |
| UserTool.OnlyPhoneNumberConsulted | my_agent/utils/tools/user.py:8-13 | two configurations with the same phone entry give the same result, whatever else they hold |
| UserTool.MissingConfigurableFails | my_agent/utils/tools/user.py:8-11 | a missing or empty `configurable` mapping takes the error path |
| UserTool.AnyNonEmptyPhoneAccepted | my_agent/utils/tools/user.py:10-13 | any non-empty phone number is accepted, with no format check |
| Base.QuoteFor | my_agent/utils/utils.py:14 | the quote `repr` chooses is one of the two quote characters, and it occurs inside the string only when the string holds both kinds, so the chosen quote needs escaping only then |
| Base.UnescapeEscaped | my_agent/utils/utils.py:14 | the escaped body `repr` writes reads back as the string itself, whichever quote encloses it |
| Base.StrReprReadsBack | my_agent/utils/utils.py:14 | `repr(s)` opens and closes with the chosen quote and its body unescapes to `s` |
| Base.ReprOfPlainMessage | my_agent/utils/utils.py:14 | an exception whose message has no backslash, newline, carriage return or tab, and not both kinds of quote, is written `Name('message')`, or `Name("message")` when the message holds a single quote and no double quote |
| Utils.ErrorResults | my_agent/utils/utils.py:12-18 | one error message per call, the i-th answering the i-th call's id with the given content |
| Utils.HandleToolError | my_agent/utils/utils.py:8-19 | succeeds iff the history ends in an AI message; then returns only `messages`, one `ToolMessage` per tool call in order, the i-th with the i-th call's id and the content `Error: ` + Python's `repr` of the exception (quote chosen and escapes written as `Base.StrRepr` does) + the fix-your-mistakes request |
| Utils.ErrorAnswersEveryCall | my_agent/utils/utils.py:10-18 | the ids answered are exactly the ids of the calls, and every error content contains the exception's repr |
| Utils.Truncate | my_agent/utils/utils.py:40-41 | a rendering longer than `max_length` becomes its first `max_length` characters followed by ` ... (truncated)`; a shorter one is unchanged |
| Utils.PrintEvent | my_agent/utils/utils.py:30-43 | prints the last message of the event unless the history is empty or its id was printed; the printed set gains exactly that id |
| Utils.PrintEvents | my_agent/agent.py:99-105 | the loop over a stream's events prints what `Printout` specifies and leaves the printed set at `SeenAfter` |
| Utils.SeenOnlyGrows | my_agent/utils/utils.py:38-43 | `_printed` only grows and ends up holding the id of every event's last message |
| Utils.PrintedIdsAreNew | my_agent/utils/utils.py:38-43 | every printed id was not printed before, and is recorded |
| Utils.PrintedAtMostOnce | my_agent/utils/utils.py:38-43 | within one question's events no message id is printed twice |
| Utils.MatchStarts | my_agent/utils/utils.py:52-53 | every reported position matches the pattern, and any two reported positions are at least a match length apart, in increasing order |
| Utils.MatchStartsCover | my_agent/utils/utils.py:52-53 | every position where the pattern matches lies inside a reported match |
| Utils.ParsePhoneNumber | my_agent/utils/utils.py:45-54 | every string returned is 11 characters: `01`, one of 0/1/6/7/8/9, then eight digits |
| Utils.ParsedAreOrderedSubstrings | my_agent/utils/utils.py:52-54 | the numbers returned are non-overlapping substrings of the text, in the order they occur |
| Utils.EmptyIffNoMatch | my_agent/utils/utils.py:52-54 | the result is empty iff the pattern matches nowhere in the text |
| Utils.LeftmostMatchFirst | my_agent/utils/utils.py:52-54 | the first number returned is the leftmost match |
| Nodes.UserInfoNode | my_agent/utils/nodes.py:7-8 | the node sets only `user_info`, to `[]`, when the phone number is truthy, and otherwise raises the tool's `ValueError` |
| Nodes.Degenerate | my_agent/utils/nodes.py:19-24 | the retry test says "accept" iff the reply is usable (tool calls, or non-empty text, or a first block with non-empty `text`); it raises iff there are no tool calls and the first block of list content is a bare string |
| Nodes.RespondIsUsable | my_agent/utils/nodes.py:16-29 | whatever the assistant returns is usable |
| Nodes.ToolCallsAcceptedAtOnce | my_agent/utils/nodes.py:19 | a reply with tool calls is accepted on the first attempt, whatever its content |
| Nodes.RespondIsFirstUsableAttempt | my_agent/utils/nodes.py:16-28 | the assistant returns `r` iff `r` answers some attempt `k` within the budget, is usable, and every earlier attempt was degenerate; attempt `k` is the caller's history plus exactly `k` corrective messages |
| Nodes.Assistant.Call | my_agent/utils/nodes.py:15-29 | the loop returns the update the specification gives: only `messages`, bound to a single usable AI reply |
| Graph.RouteTools | my_agent/agent.py:30-39 | raises on an empty history; `END` iff the last message has no tool call; `sensitive_tools` iff the first call's name is sensitive; `safe_tools` iff it is not; always one of the three declared destinations |
| Graph.OnlyFirstCallRouted | my_agent/agent.py:36-37 | only the first tool call's name decides the route |
| Graph.RouteFollowsRegistry | my_agent/agent.py:37-39 | a first call naming a registered tool is routed to the node of that tool's classification |
| Graph.Successor | my_agent/agent.py:50-57 | `END` and sensitive_tools are reached only from the assistant, through the router, and no node leads back to `START`; the node follows its fixed edge where `FixedEdges` has one and the router otherwise |
| Graph.TransitionTable | my_agent/agent.py:50-57 | START→fetch_user_info→assistant, both tool nodes→assistant, only the assistant has a conditional edge, and no fixed edge leads to END or to sensitive_tools |
| Graph.Invoked | my_agent/utils/utils.py:22-27 | a call is invoked iff it is a call of the last message naming one of the node's tools, and the invoked calls keep the message's order |
| Graph.AnswerCalls | my_agent/utils/utils.py:22-27 | succeeds iff no call raises; then the i-th answer is a `ToolMessage` with the i-th call's result as content and its id; on failure the error is the one raised by the first call that raised |
| Graph.Fallback | my_agent/utils/utils.py:22-27 | a raise goes to `handle_tool_error` with the exception under `error`; when the fallback itself raises, the tool's original exception propagates |
| Graph.ToolNodeStep | my_agent/agent.py:47-48 | a call is invoked iff it is a call of the last message naming one of the node's own tools, in the message's order; the node fails iff the history is empty or does not end in an AI message |
| Graph.ToolNodeAnswers | my_agent/utils/utils.py:8-27 | on an AI message the update holds only `messages`, one per call with the call's id: each call's result when none raises, otherwise the `handle_tool_error` messages naming the first error raised |
| Graph.ExecNode | my_agent/agent.py:45-48 | only the two tool nodes invoke tools, each with its own tool list |
| Graph.StepFrom | my_agent/agent.py:50-57 | every step that moves on goes to the successor the edges give, and keeps the history it was given as a prefix of the new one |
| Graph.NodeStepsKeepToTheGraph | my_agent/agent.py:45-57 | the graph's nodes follow the edges; only safe_tools invokes safe tools, only sensitive_tools invokes calls the last message proposed; every step only appends to the history |
| Graph.CompiledKeepsToTheGraph | my_agent/agent.py:42-64 | the compiled graph keeps to its edges and tool classification under every configuration |
| Graph.StartRun | my_agent/agent.py:101-103 | an invocation with input emits first the saved state with the input merged |
| Graph.StopsOnlyAtEndOrBeforeSensitive | my_agent/agent.py:60-63 | a run stops only at END, where the router saw no tool call, or before sensitive_tools, where it saw a sensitive first call; it never pauses before any other node |
| Graph.LastEventIsCheckpoint | my_agent/agent.py:104-107 | the state a run saves when it stops is its last event |
| Graph.VisitsFollowEdges | my_agent/agent.py:50-63 | consecutive nodes of a run follow the transition table, and sensitive_tools runs only as the first step of a resumed run |
| Graph.OnlySafeToolsRunUnresumed | my_agent/agent.py:60-63 | outside a resumed pause only safe tools are invoked |
| Graph.ResumedRunInvokesOnlyProposed | my_agent/agent.py:118-121 | a resumed run invokes sensitive tools only for calls of the message it was paused on |
| Graph.ResumedRunsOnlyPausedCalls | my_agent/agent.py:118-121 | `invoke(None)` on a paused thread invokes sensitive tools only for the calls the paused message proposed |
| Graph.RunExtendsHistory | my_agent/utils/state.py:5-7 | a run only appends: the history it starts from is a prefix of every event and of the state it saves |
| Graph.StartRunExtendsHistory | my_agent/agent.py:101-103 | a run with input keeps the saved history as a prefix of its first event, and that event as a prefix of every later one and of the state it pauses with |
| Graph.ResumeExtendsHistory | my_agent/agent.py:118-121 | `invoke(None)` keeps the saved history as a prefix of every event and of the state it pauses with |
| Graph.ResumeRunsPausedCalls | my_agent/agent.py:60-63 | resuming a thread paused before sensitive_tools runs that node first, on the saved state unchanged, and invokes every sensitive call of the paused message |
| Graph.StartRunProperties | my_agent/agent.py:101-107 | a run with input starts at fetch_user_info, saves its last event, pauses only before sensitive_tools on a sensitive first call, never runs sensitive_tools and invokes no sensitive tool |
| Driver.Init | my_agent/agent.py:75-77 | the program starts by asking for the phone number, because the initial empty number is not `None` |
| Driver.Denial | my_agent/agent.py:124-130 | the denial exists iff `event`'s last message has a tool call; it then answers the first call's id with the refusal content |
| Driver.DenialReportsRefusal | my_agent/agent.py:126-128 | the denial answers the first call of the event's last message, and its content contains "API call denied by user" and the user's answer |
| Driver.AfterRun | my_agent/agent.py:107-109 | after a run the thread's checkpoint is the run's and the approval prompt comes next iff it has a next node; a raising run ends the program with the fault and the checkpoint unchanged |
| Driver.Question | my_agent/agent.py:94-107 | a question streams a run on the question from the thread's state; the session then holds that run's checkpoint, and the approval prompt keeps the run's last event |
| Driver.Answer | my_agent/agent.py:117-134 | a stripped `y` resumes with `invoke(None)`, any other answer starts a run on the denial; either way the session takes that run's checkpoint, mode and invoked calls (a raising run crashes with its fault); when the denial cannot be built the program crashes with that exception and nothing else changes; the prompt keeps the same event |
| Driver.Reply | my_agent/agent.py:110-134 | one pass of the approval loop does exactly what `Step` specifies at the approval prompt |
| Driver.AwaitApproval | my_agent/agent.py:109-134 | the approval loop consumes input exactly as `Steps` does and leaves when the thread is no longer paused, the program ended or input ran out |
| Driver.Console | my_agent/agent.py:75-134 | the main block, on any input lines, reaches exactly the session `Steps` specifies from the initial one |
| Driver.StepWithoutRun | my_agent/agent.py:92-98 | the phone answer, `q`, a failed read and the ended states leave the thread, the output and the invoked calls unchanged |
| Driver.AnswerExtendsExecuted | my_agent/agent.py:117-133 | an answer at the approval prompt keeps the calls invoked so far as a prefix of the log |
| Driver.ExecutedOnlyGrows | my_agent/agent.py:94-134 | the log of invoked calls only grows |
| Driver.QuestionRunsNoSensitiveTool | my_agent/agent.py:101-105 | a question invokes no sensitive tool |
| Driver.AnswerRunsOnlyApprovedCalls | my_agent/agent.py:115-133 | at the approval prompt a sensitive tool runs only when the answer approves, and only for a call of the paused message |
| Driver.ResumeRunsOnlyPausedCalls | my_agent/agent.py:117-121 | on `y` the answer invokes sensitive tools only for calls of the paused message |
| Driver.DenialRunsNoSensitiveTool | my_agent/agent.py:122-133 | any other answer invokes no sensitive tool |
| Driver.SensitiveToolsRunOnlyOnApproval | my_agent/agent.py:94-134 | a sensitive tool runs only in a step that approves at the approval prompt, and only for a call the paused message proposed |
| Driver.NoApprovalStep | my_agent/agent.py:122-133 | an input that does not approve adds no sensitive call |
| Driver.NoNewSensitiveCall | my_agent/agent.py:122-133 | a log extended only by non-sensitive calls holds no sensitive call it did not hold before |
| Driver.NoApprovalNoSensitiveCall | my_agent/agent.py:94-134 | a user who never approves never has a sensitive tool run, over any sequence of inputs |
| Driver.QuestionKeepsPromptMatchingThread | my_agent/agent.py:101-109 | after a question the program asks for approval only while the thread is paused before sensitive_tools on a sensitive first call |
| Driver.AnswerKeepsPromptMatchingThread | my_agent/agent.py:117-134 | an answer keeps the approval prompt matching a pause before sensitive_tools |
| Driver.StepKeepsPromptMatchingThread | my_agent/agent.py:94-134 | every step preserves the prompt/thread invariant |
| Driver.PromptAlwaysMatchesThread | my_agent/agent.py:94-134 | every session reached from one with the invariant keeps it |
| Driver.ReachablePromptsMatchThread | my_agent/agent.py:88-134 | every session the program reaches on this graph satisfies the invariant |
| Driver.ApprovalRunsPausedCalls | my_agent/agent.py:117-121 | approving at the approval prompt (a stripped `y`, or a read that raises) runs sensitive_tools on the saved state first and invokes every sensitive call of the paused message, the pending first call among them |
| Driver.StartRunExtendsThread | my_agent/agent.py:101-103 | a run with input pauses with the thread's old history as a prefix |
| Driver.StepExtendsThread | my_agent/agent.py:94-134 | every step keeps the thread's history as a prefix of the new one |
| Driver.StepsExtendThread | my_agent/agent.py:94-134 | over any input, the thread's history is never shortened or rewritten |
| Driver.DenialFollowsHistory | my_agent/agent.py:122-133 | unless its run fails, a denial is appended directly after the thread's history, which keeps the proposed calls |
| Driver.OnlyQQuits | my_agent/agent.py:95-98 | at the question prompt the program quits iff the line is `q` |
| Driver.QuestionPausesOnItsLastEvent | my_agent/agent.py:104-109 | when a question pauses, the event kept for the approval prompt is the paused state itself |
| Driver.ApprovalEventIsFromTheQuestion | my_agent/agent.py:104-134 | `event` is set when a question pauses, and later answers keep it unchanged whatever the thread's state becomes |
| Driver.StaleDenialCounterexample | my_agent/agent.py:127 | after a refusal leads to a second pause on a date-change call, a second refusal answers the already answered cancellation call instead |
| Driver.IntendedDenialAnswersPendingCall | my_agent/agent.py:127 | reading the call from the thread's saved state, every denial answers the pending call, which is sensitive, and never raises |
| Driver.IntendedDenialStep | my_agent/agent.py:122-133 | with the corrected step, a refusal starts a run on a denial of the call the thread is paused on |
| Driver.IntendedAgreesAtFirstPause | my_agent/agent.py:127 | at the first pause after a question, the program as written and the corrected step agree |
| Driver.StepIntendedKeepsPromptMatchingThread | my_agent/agent.py:109-134 | the corrected step preserves the prompt/thread invariant |
| Driver.IntendedPromptsAlwaysMatchThread | my_agent/agent.py:94-134 | over any input, the corrected program keeps the prompt/thread invariant |
| Driver.ReachableIntendedDenialsAnswerPendingCall | my_agent/agent.py:127 | in every session the corrected program reaches on this graph, a denial answers the sensitive call the thread is paused on and never raises |

## Left out

- The language model, the reservation backend (the tools' remote calls) and the id generator of `add_messages` are parameters (`Graph.Env`). The model is any function from state to AI message. A tool either returns content or raises.
- Driver.Console: the thread id (`uuid4`) is a parameter.
- Driver.Console: `load_dotenv`, the environment lookups and `create_client` are left out, because they only set up the unused Supabase client.
- Driver.Console: console I/O is a sequence of input lines, with `None` where `input` raises. Printed lines are collected in the session instead of written.
- Utils.PrintEvent: `message.pretty_repr(html=True)` is a parameter (`prettyRepr`).
- Utils.PrintEvent: the `dialog_state` branch is not modelled, because `ReservState` has no such key and the branch never runs.
- Graph.Run: the step budget `fuel` stands for LangGraph's recursion limit. `graph.stream` and `graph.invoke` are called without a `recursion_limit`, so the default of 25 steps applies and exceeding it raises `GraphRecursionError`, which ends the program; the model's `NoFuel` fault leads to `Crashed` in the same way. The model leaves the budget a parameter rather than fixing it at 25.
- Nodes.Respond: the assistant's retry loop has no bound in the source, but the model charges its retries to the same budget (`Nodes.AssistantUpdate` receives the run's `fuel`, and `Nodes.Assistant.Call` takes one too). A reply that takes more retries than the budget is a `NoFuel` fault in the model, where the source would keep retrying. Nothing is claimed about such runs.
- State.AddMessages: the reducer's replace-by-id behaviour is not modelled. A new message whose id already occurs in the history is appended rather than replacing the old one. No node here sends such a message.
- The `user_info` key of the state is annotated `str`, but the only value ever stored is the list `[]` that `fetch_user_info` returns. The model stores a list of records.
- Registry: the tools' descriptions and the functions they wrap are not modelled; only their names matter to the graph.
- Graph.ToolNodeStep: the tool node's own handling of errors raised inside a tool is simplified. Any raise goes to the `handle_tool_error` fallback. A call to an unknown tool is answered with a fixed error text.
- Graph.ToolNodeStep: the tool calls are answered in order, not in parallel.
- Graph.RouteTools: the error message of the prebuilt tool condition on an empty history omits the state's repr.
- Graph.Run: the graph runner is generic over how nodes step (`Stepper`, `Compiled`). The properties of runs hold for any nodes that keep to the edges and the tool classification. `Graph.CompiledKeepsToTheGraph` shows that this graph's nodes do.
- Graph.Run: checkpoints other than the latest one, time travel and concurrent threads are not modelled.
- Base.Repr: only backslash, `\n`, `\r`, `\t` and the enclosing quote are escaped; other control and non-printable characters, which Python writes as `\x..`/`\u..`, are written as themselves. Exceptions with no argument or several arguments are not modelled.
- Utils.IsDigit: `\d` is restricted to the ASCII digits. Python also matches other Unicode decimal digits.
- Driver.Init: `get_first_user_info` asks for the number only when the configured value is not `None`. The model follows the code as written.
- The graph's `GraphConfig` type and the tool lambdas' arguments are not modelled.
- The modules for Retrieval-Augmented Generation (RAG), prompts, SQLite, Streamlit, Pinecone and Supabase are not part of this model.

## Findings

| source | as written | input that shows it | evidently intended | confidence | as-written member | corrected member |
|---|---|---|---|---|---|---|
| my_agent/agent.py:127 | a denial's `tool_call_id` is read from `event`, the last event of the question's stream, which is never updated inside the approval loop | a phone number, a question to which the model proposes `CancelReservation`, `n`, a new proposal of `UpdateReservationDate`, then `n` again: the second denial answers the cancellation call, which already has an answer, and leaves the date-change call unanswered | the denial answers the first call of the last message of the thread's saved state (`snapshot.values["messages"][-1]`) | not executed | Driver.StaleDenialCounterexample | Driver.StepIntended |
