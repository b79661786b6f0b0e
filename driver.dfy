/** The console program: it asks for a phone number once, then repeatedly asks
    a question, streams the graph's run on it and prints each new message;
    while the thread is paused before the sensitive tool node it asks for
    approval, resuming the paused run on approval and sending a denial tool
    message otherwise.  Console input is a sequence of answers, `None` where
    reading a line raises. */
module Driver {
  import opened Base
  import opened State
  import UserTool
  import Utils
  import Registry
  import Graph
  import Nodes

  /** The longest rendering printed whole. */
  const MaxLength: nat := 1500

  const EOFError: Exception := Exception("EOFError", "EOF when reading a line")

  /** The configuration the program starts with: an empty phone number and a
      fresh thread id. */
  function InitialConfig(threadId: string): RunConfig
  {
    RunConfig(Some(map["phone_number" := PyStr(""), "thread_id" := PyStr(threadId)]))
  }

  /** The checkpoint of a thread nothing has run on. */
  const EmptyThread: Graph.Checkpoint := Graph.Checkpoint(ReservState([], None), None)

  /** Which prompt the program is at, or how it ended.  `AskApproval` keeps the
      last event printed for the question that led to the pause. */
  datatype Mode = AskPhone | AskQuestion | AskApproval(event: ReservState) | Quit | Crashed(fault: Fault)

  /** The program's state between two inputs: the prompt, the configuration
      passed to every run, the thread's checkpoint, every printed line, and
      every tool call the graph invoked. */
  datatype Session = Session(mode: Mode, config: RunConfig, checkpoint: Graph.Checkpoint,
                             output: seq<Utils.Printed>, executed: seq<ToolCall>)

  predicate Ended(s: Session)
  {
    s.mode.Quit? || s.mode.Crashed?
  }

  /** The session before any input: the phone number is asked for only when
      the configured one is not `None`, which the initial empty one is not. */
  function Init(threadId: string): (s: Session)
    ensures s.mode == AskPhone
  {
    var config := InitialConfig(threadId);
    Session(if UserTool.PhoneNumber(config) != PyNone then AskPhone else AskQuestion,
            config, EmptyThread, [], [])
  }

  /** An answer at the approval prompt that resumes the paused run: a read
      that raised, or a line that is `y` once surrounding whitespace is
      stripped. */
  predicate Approves(input: Option<string>)
  {
    input.None? || Strip(input.value) == "y"
  }

  function DenialContent(answer: string): string
  {
    "API call denied by user. Reasoning: '" + answer + "'. Continue assisting, accounting for the user's input."
  }

  /** The denial tool message: it answers the first tool call of the last
      message of `event`; looking that call up raises when there is none. */
  function Denial(event: ReservState, answer: string): (r: Result<Message, Exception>)
    ensures r.Success? <==> event.messages != [] && ToolCallsOf(Utils.Last(event.messages)) != []
    ensures r.Success? ==>
      r.value == ToolMessage(None, DenialContent(answer), ToolCallsOf(Utils.Last(event.messages))[0].id)
  {
    if event.messages == [] then Failure(Exception("IndexError", "list index out of range"))
    else
      var m := Utils.Last(event.messages);
      if !m.AIMessage? then
        Failure(Exception("AttributeError", "'" + Utils.ClassName(m) + "' object has no attribute 'tool_calls'"))
      else if m.toolCalls == [] then Failure(Exception("IndexError", "list index out of range"))
      else Success(ToolMessage(None, DenialContent(answer), m.toolCalls[0].id))
  }

  /** How a run leaves the session: the calls it invoked are logged; a
      failure ends the program with the thread's checkpoint as it was;
      otherwise the thread's checkpoint is the run's, and the approval prompt
      (remembering `event`) comes next exactly when the run is paused. */
  predicate Continued(s: Session, r: Graph.RunResult, event: ReservState, t: Session)
  {
    && t.executed == s.executed + r.executed && t.config == s.config
    && (r.outcome.Failed? ==> t.mode == Crashed(r.outcome.fault) && t.checkpoint == s.checkpoint)
    && (r.outcome.Stopped? ==>
          && t.checkpoint == r.outcome.checkpoint
          && t.mode == (if r.outcome.checkpoint.next.Some? then AskApproval(event) else AskQuestion))
  }

  /** The session after a run, with `output` printed so far. */
  function AfterRun(s: Session, r: Graph.RunResult, event: ReservState, output: seq<Utils.Printed>): (t: Session)
    ensures Continued(s, r, event, t) && t.output == output
  {
    match r.outcome
    case Failed(f) => s.(mode := Crashed(f), output := output, executed := s.executed + r.executed)
    case Stopped(cp) =>
      s.(mode := if cp.next.Some? then AskApproval(event) else AskQuestion, checkpoint := cp,
         output := output, executed := s.executed + r.executed)
  }

  /** A question: its run streams from the start of the graph with the
      question as a user message, and each event's new message is printed,
      de-duplicated within this question only. */
  function Question(app: Graph.Compiled, prettyRepr: Message -> string, fuel: nat, s: Session, question: string): (t: Session)
    ensures var r := Graph.StartRun(app, s.config, s.checkpoint, [HumanMessage(None, question)], fuel);
      Continued(s, r, Utils.Last(r.events), t)
  {
    var r := Graph.StartRun(app, s.config, s.checkpoint, [HumanMessage(None, question)], fuel);
    AfterRun(s, r, Utils.Last(r.events), s.output + Utils.Printout(r.events, {}, MaxLength, prettyRepr))
  }

  /** An answer at the approval prompt: approval resumes the paused run; any
      other answer is sent as a denial, which runs the graph from its start. */
  function Answer(app: Graph.Compiled, fuel: nat, s: Session, event: ReservState, answer: string): (t: Session)
    ensures Strip(answer) == "y" ==> Continued(s, Graph.Resume(app, s.config, s.checkpoint, fuel), event, t)
    ensures Strip(answer) != "y" && Denial(event, answer).Success? ==>
      Continued(s, Graph.StartRun(app, s.config, s.checkpoint, [Denial(event, answer).value], fuel), event, t)
    ensures Strip(answer) != "y" && Denial(event, answer).Failure? ==>
      && t.mode == Crashed(Raise(Denial(event, answer).error))
      && t.checkpoint == s.checkpoint && t.executed == s.executed
    ensures t.config == s.config && t.output == s.output
    ensures t.mode.AskApproval? ==> t.mode == AskApproval(event)
  {
    if Strip(answer) == "y" then
      AfterRun(s, Graph.Resume(app, s.config, s.checkpoint, fuel), event, s.output)
    else
      match Denial(event, answer)
      case Failure(e) => s.(mode := Crashed(Raise(e)))
      case Success(m) => AfterRun(s, Graph.StartRun(app, s.config, s.checkpoint, [m], fuel), event, s.output)
  }

  /** What one line of input does, at whichever prompt the program is. */
  function Step(app: Graph.Compiled, prettyRepr: Message -> string, fuel: nat, s: Session, input: Option<string>): Session
  {
    match s.mode
    case AskPhone =>
      if input.None? then s.(mode := Crashed(Raise(EOFError)))
      else if s.config.configurable.None? then s.(mode := Crashed(Raise(Exception("KeyError", "'configurable'"))))
      else s.(mode := AskQuestion,
              config := RunConfig(Some(s.config.configurable.value["phone_number" := PyStr(input.value)])))
    case AskQuestion =>
      if input.None? then s.(mode := Crashed(Raise(EOFError)))
      else if input.value == "q" then s.(mode := Quit)
      else Question(app, prettyRepr, fuel, s, input.value)
    case AskApproval(event) => Answer(app, fuel, s, event, if input.None? then "y" else input.value)
    case Quit => s
    case Crashed(_) => s
  }

  /** The session after reading `inputs` in order; once the program has ended
      further input is not read. */
  function Steps(app: Graph.Compiled, prettyRepr: Message -> string, fuel: nat, s: Session,
                 inputs: seq<Option<string>>): Session
    decreases |inputs|
  {
    if inputs == [] then s else Steps(app, prettyRepr, fuel, Step(app, prettyRepr, fuel, s, inputs[0]), inputs[1..])
  }

  lemma StepsAt(app: Graph.Compiled, prettyRepr: Message -> string, fuel: nat, s: Session,
                inputs: seq<Option<string>>, i: nat)
    requires i < |inputs|
    ensures Steps(app, prettyRepr, fuel, s, inputs[i..])
         == Steps(app, prettyRepr, fuel, Step(app, prettyRepr, fuel, s, inputs[i]), inputs[i + 1..])
  {
    assert inputs[i..][1..] == inputs[i + 1..];
  }

  lemma {:induction false} StepsEnded(app: Graph.Compiled, prettyRepr: Message -> string, fuel: nat, s: Session,
                                      inputs: seq<Option<string>>)
    requires Ended(s)
    ensures Steps(app, prettyRepr, fuel, s, inputs) == s
    decreases |inputs|
  {
    if inputs != [] {
      StepsEnded(app, prettyRepr, fuel, s, inputs[1..]);
    }
  }

  lemma StepAtQuestion(app: Graph.Compiled, prettyRepr: Message -> string, fuel: nat, s: Session, question: string)
    requires s.mode.AskQuestion? && question != "q"
    ensures Step(app, prettyRepr, fuel, s, Some(question)) == Question(app, prettyRepr, fuel, s, question)
  {
  }

  /** The inputs that start no run leave the thread and the invoked calls as
      they were. */
  lemma StepWithoutRun(app: Graph.Compiled, prettyRepr: Message -> string, fuel: nat, s: Session, input: Option<string>)
    requires !(s.mode.AskQuestion? && input.Some? && input.value != "q") && !s.mode.AskApproval?
    ensures var t := Step(app, prettyRepr, fuel, s, input);
      && t.executed == s.executed && t.checkpoint == s.checkpoint && t.output == s.output
      && (t.mode.AskQuestion? || Ended(t))
      && (t.mode.AskQuestion? ==> s.mode.AskPhone?)
      && (t.mode == Quit ==> s.mode == Quit || (s.mode.AskQuestion? && input == Some("q")))
  {
  }

  lemma StepAtApproval(app: Graph.Compiled, prettyRepr: Message -> string, fuel: nat, s: Session, line: Option<string>)
    requires s.mode.AskApproval?
    ensures Step(app, prettyRepr, fuel, s, line) == Answer(app, fuel, s, s.mode.event, if line.None? then "y" else line.value)
  {
  }

  /** A line other than `y` at the approval prompt sends the denial. */
  lemma DenialStep(app: Graph.Compiled, prettyRepr: Message -> string, fuel: nat, s: Session, answer: string)
    requires s.mode.AskApproval? && Strip(answer) != "y" && Denial(s.mode.event, answer).Success?
    ensures Step(app, prettyRepr, fuel, s, Some(answer))
         == AfterRun(s, Graph.StartRun(app, s.config, s.checkpoint, [Denial(s.mode.event, answer).value], fuel),
                     s.mode.event, s.output)
  {
    StepAtApproval(app, prettyRepr, fuel, s, Some(answer));
  }

  /** One answer at the approval prompt: a line that cannot be read counts as
      `y`; `invoke(None)` on approval, and `invoke` with the denial message
      otherwise; then the thread's state is read back. */
  method Reply(app: Graph.Compiled, prettyRepr: Message -> string, fuel: nat, s: Session, line: Option<string>)
    returns (r: Session)
    requires s.mode.AskApproval?
    ensures r == Step(app, prettyRepr, fuel, s, line)
    ensures r.config == s.config && r.output == s.output
    ensures r.mode == s.mode || r.mode.AskQuestion? || Ended(r)
  {
    StepAtApproval(app, prettyRepr, fuel, s, line);
    var userInput: string;
    if line.None? {
      userInput := "y";
    } else {
      userInput := line.value;
    }
    var event := s.mode.event;
    var result: Graph.RunResult;
    if Strip(userInput) == "y" {
      result := Graph.Resume(app, s.config, s.checkpoint, fuel);
    } else {
      var denial := Denial(event, userInput);
      if denial.Failure? {
        return s.(mode := Crashed(Raise(denial.error)));
      }
      result := Graph.StartRun(app, s.config, s.checkpoint, [denial.value], fuel);
    }
    r := s.(executed := s.executed + result.executed);
    if result.outcome.Failed? {
      return r.(mode := Crashed(result.outcome.fault));
    }
    var snapshot := result.outcome.checkpoint;
    r := r.(checkpoint := snapshot, mode := if snapshot.next.Some? then AskApproval(event) else AskQuestion);
  }

  /** The inner loop of the main block: while the thread is paused, reads an
      answer and replies.  It returns the session at the question prompt once
      the thread is no longer paused, or the session at which the program
      ended or waits, with the position of the next unread line. */
  method AwaitApproval(app: Graph.Compiled, prettyRepr: Message -> string, fuel: nat, start: Session,
                       inputs: seq<Option<string>>, i: nat) returns (s: Session, j: nat)
    requires start.mode.AskApproval? && i <= |inputs|
    ensures i <= j <= |inputs| && s.config == start.config && s.output == start.output
    ensures Steps(app, prettyRepr, fuel, start, inputs[i..]) == Steps(app, prettyRepr, fuel, s, inputs[j..])
    ensures s.mode != AskQuestion ==> Steps(app, prettyRepr, fuel, s, inputs[j..]) == s
  {
    s := start;
    j := i;
    while s.mode.AskApproval?
      invariant i <= j <= |inputs| && s.config == start.config && s.output == start.output
      invariant s.mode.AskApproval? || s.mode.AskQuestion?
      invariant Steps(app, prettyRepr, fuel, start, inputs[i..]) == Steps(app, prettyRepr, fuel, s, inputs[j..])
      decreases |inputs| - j
    {
      if j == |inputs| {
        assert inputs[j..] == [];
        return;
      }
      StepsAt(app, prettyRepr, fuel, s, inputs, j);
      s := Reply(app, prettyRepr, fuel, s, inputs[j]);
      j := j + 1;
      if Ended(s) {
        StepsEnded(app, prettyRepr, fuel, s, inputs[j..]);
        return;
      }
    }
  }

  /** The program's main block, reading the lines in `inputs`: it returns the
      session at which the program ended, or the prompt it waits at once the
      lines run out. */
  method Console(app: Graph.Compiled, prettyRepr: Message -> string, fuel: nat, threadId: string,
                 inputs: seq<Option<string>>) returns (s: Session)
    ensures s == Steps(app, prettyRepr, fuel, Init(threadId), inputs)
  {
    var config := InitialConfig(threadId);
    var checkpoint := EmptyThread;
    var output: seq<Utils.Printed> := [];
    var executed: seq<ToolCall> := [];
    var i := 0;
    // get_first_user_info
    if UserTool.PhoneNumber(config) != PyNone {
      if i == |inputs| {
        return Init(threadId);
      }
      StepsAt(app, prettyRepr, fuel, Init(threadId), inputs, 0);
      if inputs[i].None? {
        s := Session(Crashed(Raise(EOFError)), config, checkpoint, output, executed);
        StepsEnded(app, prettyRepr, fuel, s, inputs[1..]);
        return;
      }
      config := RunConfig(Some(config.configurable.value["phone_number" := PyStr(inputs[i].value)]));
      i := i + 1;
    }
    while i < |inputs|
      invariant 0 <= i <= |inputs|
      invariant Steps(app, prettyRepr, fuel, Init(threadId), inputs)
             == Steps(app, prettyRepr, fuel, Session(AskQuestion, config, checkpoint, output, executed), inputs[i..])
      decreases |inputs| - i
    {
      var question := inputs[i];
      ghost var asked := Session(AskQuestion, config, checkpoint, output, executed);
      StepsAt(app, prettyRepr, fuel, asked, inputs, i);
      i := i + 1;
      if question.None? {
        s := Session(Crashed(Raise(EOFError)), config, checkpoint, output, executed);
        StepsEnded(app, prettyRepr, fuel, s, inputs[i..]);
        return;
      }
      if question.value == "q" {
        s := Session(Quit, config, checkpoint, output, executed);
        StepsEnded(app, prettyRepr, fuel, s, inputs[i..]);
        return;
      }
      var printed := new Utils.PrintedIds();
      var events := Graph.StartRun(app, config, checkpoint, [HumanMessage(None, question.value)], fuel);
      var lines := Utils.PrintEvents(events.events, printed, MaxLength, prettyRepr);
      output := output + lines;
      executed := executed + events.executed;
      assert Step(app, prettyRepr, fuel, asked, question)
          == AfterRun(asked, events, Utils.Last(events.events), output);
      if events.outcome.Failed? {
        s := Session(Crashed(events.outcome.fault), config, checkpoint, output, executed);
        StepsEnded(app, prettyRepr, fuel, s, inputs[i..]);
        return;
      }
      var event := Utils.Last(events.events);
      checkpoint := events.outcome.checkpoint;
      if checkpoint.next.Some? {
        var j;
        s, j := AwaitApproval(app, prettyRepr, fuel, Session(AskApproval(event), config, checkpoint, output, executed),
                              inputs, i);
        if s.mode != AskQuestion {
          return;
        }
        i := j;
        checkpoint := s.checkpoint;
        executed := s.executed;
      }
    }
    s := Session(AskQuestion, config, checkpoint, output, executed);
  }

  // ---------------------------------------------------------------------------
  // Properties of the console program

  /** The denial tells the model it was refused and why: it answers the first
      call of the event's last message, and its content holds the refusal and
      the user's own words. */
  lemma DenialReportsRefusal(event: ReservState, answer: string)
    requires event.messages != [] && ToolCallsOf(Utils.Last(event.messages)) != []
    ensures Denial(event, answer).Success?
    ensures var m := Denial(event, answer).value;
      && m.ToolMessage? && m.id.None?
      && m.toolCallId == ToolCallsOf(Utils.Last(event.messages))[0].id
      && Contains(m.text, "API call denied by user") && Contains(m.text, answer)
  {
    var text := DenialContent(answer);
    assert Occurs(text, "API call denied by user", 0);
    assert Occurs(text, answer, 37);
  }

  /** Each step keeps the calls invoked so far and adds the calls its runs
      invoked. */
  lemma ExecutedOnlyGrows(app: Graph.Compiled, prettyRepr: Message -> string, fuel: nat, s: Session,
                          input: Option<string>)
    ensures var t := Step(app, prettyRepr, fuel, s, input);
      |s.executed| <= |t.executed| && t.executed[..|s.executed|] == s.executed
  {
    if s.mode.AskQuestion? && input.Some? && input.value != "q" {
      StepAtQuestion(app, prettyRepr, fuel, s, input.value);
    } else if s.mode.AskApproval? {
      StepAtApproval(app, prettyRepr, fuel, s, input);
      AnswerExtendsExecuted(app, fuel, s, s.mode.event, if input.None? then "y" else input.value);
    } else {
      StepWithoutRun(app, prettyRepr, fuel, s, input);
    }
  }

  lemma AnswerExtendsExecuted(app: Graph.Compiled, fuel: nat, s: Session, event: ReservState, answer: string)
    ensures var t := Answer(app, fuel, s, event, answer);
      |s.executed| <= |t.executed| && t.executed[..|s.executed|] == s.executed
  {
    var t := Answer(app, fuel, s, event, answer);
    if Strip(answer) == "y" {
      assert t.executed == s.executed + Graph.Resume(app, s.config, s.checkpoint, fuel).executed;
    } else if Denial(event, answer).Success? {
      var m := Denial(event, answer).value;
      assert t.executed == s.executed + Graph.StartRun(app, s.config, s.checkpoint, [m], fuel).executed;
    }
  }

  /** A question invokes no sensitive tool. */
  lemma QuestionRunsNoSensitiveTool(app: Graph.Compiled, prettyRepr: Message -> string, fuel: nat, s: Session,
                                    input: Option<string>)
    requires Graph.KeepsToTheGraph(app) && s.mode.AskQuestion?
    ensures var t := Step(app, prettyRepr, fuel, s, input);
      forall k :: |s.executed| <= k < |t.executed| ==> t.executed[k].name !in Registry.SensitiveToolNames
  {
    if input.Some? && input.value != "q" {
      StepAtQuestion(app, prettyRepr, fuel, s, input.value);
      Graph.StartRunProperties(app, s.config, s.checkpoint, [HumanMessage(None, input.value)], fuel);
    } else {
      StepWithoutRun(app, prettyRepr, fuel, s, input);
    }
  }

  /** At the approval prompt, a sensitive tool runs only on approval, and only
      for a call the paused message proposed. */
  lemma AnswerRunsOnlyApprovedCalls(app: Graph.Compiled, prettyRepr: Message -> string, fuel: nat, s: Session,
                                    input: Option<string>)
    requires Graph.KeepsToTheGraph(app) && s.mode.AskApproval?
    ensures var t := Step(app, prettyRepr, fuel, s, input);
      forall k :: |s.executed| <= k < |t.executed| && t.executed[k].name in Registry.SensitiveToolNames ==>
        && Approves(input)
        && s.checkpoint.values.messages != [] && t.executed[k] in ToolCallsOf(Utils.Last(s.checkpoint.values.messages))
  {
    StepAtApproval(app, prettyRepr, fuel, s, input);
    var answer := if input.None? then "y" else input.value;
    if Strip(answer) == "y" {
      ResumeRunsOnlyPausedCalls(app, fuel, s, s.mode.event, answer);
    } else {
      DenialRunsNoSensitiveTool(app, fuel, s, s.mode.event, answer);
    }
  }

  /** Approval invokes sensitive tools only for calls of the paused message. */
  lemma ResumeRunsOnlyPausedCalls(app: Graph.Compiled, fuel: nat, s: Session, event: ReservState, answer: string)
    requires Graph.KeepsToTheGraph(app) && Strip(answer) == "y"
    ensures var t := Answer(app, fuel, s, event, answer);
      forall k :: |s.executed| <= k < |t.executed| && t.executed[k].name in Registry.SensitiveToolNames ==>
        s.checkpoint.values.messages != [] && t.executed[k] in ToolCallsOf(Utils.Last(s.checkpoint.values.messages))
  {
    var r := Graph.Resume(app, s.config, s.checkpoint, fuel);
    Graph.ResumedRunsOnlyPausedCalls(app, s.config, s.checkpoint, fuel);
    var t := Answer(app, fuel, s, event, answer);
    assert t.executed == s.executed + r.executed;
    forall k | |s.executed| <= k < |t.executed| ensures t.executed[k] in r.executed {
      assert t.executed[k] == r.executed[k - |s.executed|];
    }
  }

  /** A refusal invokes no sensitive tool. */
  lemma DenialRunsNoSensitiveTool(app: Graph.Compiled, fuel: nat, s: Session, event: ReservState, answer: string)
    requires Graph.KeepsToTheGraph(app) && Strip(answer) != "y"
    ensures var t := Answer(app, fuel, s, event, answer);
      forall k :: |s.executed| <= k < |t.executed| ==> t.executed[k].name !in Registry.SensitiveToolNames
  {
    if Denial(event, answer).Success? {
      var m := Denial(event, answer).value;
      var r := Graph.StartRun(app, s.config, s.checkpoint, [m], fuel);
      Graph.StartRunProperties(app, s.config, s.checkpoint, [m], fuel);
      var t := Answer(app, fuel, s, event, answer);
      assert t.executed == s.executed + r.executed;
      forall k | |s.executed| <= k < |t.executed| ensures t.executed[k] in r.executed {
        assert t.executed[k] == r.executed[k - |s.executed|];
      }
    }
  }

  /** A sensitive tool runs only in the step that answers the approval prompt
      with approval, and only for a call the paused message proposed; a
      question, a denial, or any other input runs none. */
  lemma SensitiveToolsRunOnlyOnApproval(app: Graph.Compiled, prettyRepr: Message -> string, fuel: nat, s: Session,
                                        input: Option<string>)
    requires Graph.KeepsToTheGraph(app)
    ensures var t := Step(app, prettyRepr, fuel, s, input);
      forall k :: |s.executed| <= k < |t.executed| && t.executed[k].name in Registry.SensitiveToolNames ==>
        && s.mode.AskApproval? && Approves(input)
        && s.checkpoint.values.messages != [] && t.executed[k] in ToolCallsOf(Utils.Last(s.checkpoint.values.messages))
  {
    if s.mode.AskQuestion? {
      QuestionRunsNoSensitiveTool(app, prettyRepr, fuel, s, input);
    } else if s.mode.AskApproval? {
      AnswerRunsOnlyApprovedCalls(app, prettyRepr, fuel, s, input);
    } else {
      StepWithoutRun(app, prettyRepr, fuel, s, input);
    }
  }

  /** An input that does not approve runs no sensitive tool. */
  lemma NoApprovalStep(app: Graph.Compiled, prettyRepr: Message -> string, fuel: nat, s: Session, input: Option<string>)
    requires Graph.KeepsToTheGraph(app)
    requires !Approves(input)
    ensures forall c :: c in Step(app, prettyRepr, fuel, s, input).executed && c.name in Registry.SensitiveToolNames
                        ==> c in s.executed
  {
    ExecutedOnlyGrows(app, prettyRepr, fuel, s, input);
    SensitiveToolsRunOnlyOnApproval(app, prettyRepr, fuel, s, input);
    NoNewSensitiveCall(s.executed, Step(app, prettyRepr, fuel, s, input).executed);
  }

  /** A log that extends `before` with no sensitive call holds no sensitive
      call `before` does not. */
  lemma NoNewSensitiveCall(before: seq<ToolCall>, after: seq<ToolCall>)
    requires |before| <= |after| && after[..|before|] == before
    requires forall k :: |before| <= k < |after| ==> after[k].name !in Registry.SensitiveToolNames
    ensures forall c :: c in after && c.name in Registry.SensitiveToolNames ==> c in before
  {
    forall c | c in after && c.name in Registry.SensitiveToolNames
      ensures c in before
    {
      var k :| 0 <= k < |after| && after[k] == c;
      assert c == after[..|before|][k];
    }
  }

  /** A user who never approves never has a sensitive tool run, however many
      questions and denials the session goes through. */
  lemma {:induction false} NoApprovalNoSensitiveCall(app: Graph.Compiled, prettyRepr: Message -> string, fuel: nat,
                                                     s: Session, inputs: seq<Option<string>>)
    requires Graph.KeepsToTheGraph(app)
    requires forall k :: 0 <= k < |inputs| ==> !Approves(inputs[k])
    ensures forall c :: c in Steps(app, prettyRepr, fuel, s, inputs).executed && c.name in Registry.SensitiveToolNames
                        ==> c in s.executed
    decreases |inputs|
  {
    if inputs != [] {
      NoApprovalStep(app, prettyRepr, fuel, s, inputs[0]);
      NoApprovalNoSensitiveCall(app, prettyRepr, fuel, Step(app, prettyRepr, fuel, s, inputs[0]), inputs[1..]);
    }
  }

  /** What holds at every prompt: no run is pending at the phone and question
      prompts, and approval is asked only while the thread is paused before
      the sensitive tool node with a sensitive first call pending. */
  predicate PromptMatchesThread(s: Session)
  {
    && (s.mode.AskPhone? || s.mode.AskQuestion? ==> s.checkpoint.next.None?)
    && (s.mode.AskApproval? ==>
          s.checkpoint.next == Some(Graph.SensitiveTools)
          && Graph.RouteTools(s.checkpoint.values) == Success(Graph.SensitiveTools))
  }

  lemma QuestionKeepsPromptMatchingThread(app: Graph.Compiled, prettyRepr: Message -> string, fuel: nat,
                                          s: Session, question: string)
    requires Graph.KeepsToTheGraph(app)
    ensures PromptMatchesThread(Question(app, prettyRepr, fuel, s, question))
  {
    Graph.StartRunProperties(app, s.config, s.checkpoint, [HumanMessage(None, question)], fuel);
  }

  lemma AnswerKeepsPromptMatchingThread(app: Graph.Compiled, fuel: nat, s: Session, event: ReservState,
                                        answer: string)
    requires Graph.KeepsToTheGraph(app)
    requires s.checkpoint.next == Some(Graph.SensitiveTools)
    ensures PromptMatchesThread(Answer(app, fuel, s, event, answer))
  {
    if Strip(answer) == "y" {
      Graph.StopsOnlyAtEndOrBeforeSensitive(app.nodes(s.config), s.checkpoint.values, Graph.SensitiveTools, fuel, true);
    } else if Denial(event, answer).Success? {
      Graph.StartRunProperties(app, s.config, s.checkpoint, [Denial(event, answer).value], fuel);
    }
  }

  lemma StepKeepsPromptMatchingThread(app: Graph.Compiled, prettyRepr: Message -> string, fuel: nat, s: Session,
                                      input: Option<string>)
    requires Graph.KeepsToTheGraph(app)
    requires PromptMatchesThread(s)
    ensures PromptMatchesThread(Step(app, prettyRepr, fuel, s, input))
  {
    if s.mode.AskQuestion? && input.Some? && input.value != "q" {
      StepAtQuestion(app, prettyRepr, fuel, s, input.value);
      QuestionKeepsPromptMatchingThread(app, prettyRepr, fuel, s, input.value);
    } else if s.mode.AskApproval? {
      StepAtApproval(app, prettyRepr, fuel, s, input);
      AnswerKeepsPromptMatchingThread(app, fuel, s, s.mode.event, if input.None? then "y" else input.value);
    } else {
      StepWithoutRun(app, prettyRepr, fuel, s, input);
    }
  }

  /** Every session the program reaches, whatever it reads, has its prompt
      matching its thread. */
  lemma {:induction false} PromptAlwaysMatchesThread(app: Graph.Compiled, prettyRepr: Message -> string, fuel: nat,
                                                     s: Session, inputs: seq<Option<string>>)
    requires Graph.KeepsToTheGraph(app)
    requires PromptMatchesThread(s)
    ensures PromptMatchesThread(Steps(app, prettyRepr, fuel, s, inputs))
    decreases |inputs|
  {
    if inputs != [] {
      StepKeepsPromptMatchingThread(app, prettyRepr, fuel, s, inputs[0]);
      PromptAlwaysMatchesThread(app, prettyRepr, fuel, Step(app, prettyRepr, fuel, s, inputs[0]), inputs[1..]);
    }
  }

  /** Every session the program reaches on this graph has its prompt
      matching its thread. */
  lemma ReachablePromptsMatchThread(env: Graph.Env, prettyRepr: Message -> string, fuel: nat, threadId: string,
                                    inputs: seq<Option<string>>)
    ensures PromptMatchesThread(Steps(Graph.Compile(env), prettyRepr, fuel, Init(threadId), inputs))
  {
    Graph.CompiledKeepsToTheGraph(env);
    PromptAlwaysMatchesThread(Graph.Compile(env), prettyRepr, fuel, Init(threadId), inputs);
  }

  /** `q` at the question prompt, and nothing else, ends the program
      normally. */
  lemma OnlyQQuits(app: Graph.Compiled, prettyRepr: Message -> string, fuel: nat, s: Session, input: Option<string>)
    requires s.mode.AskQuestion?
    ensures Step(app, prettyRepr, fuel, s, input).mode == Quit <==> input == Some("q")
  {
    if input.Some? && input.value != "q" {
      var r := Graph.StartRun(app, s.config, s.checkpoint, [HumanMessage(None, input.value)], fuel);
      assert Step(app, prettyRepr, fuel, s, input).mode != Quit;
    }
  }

  /** A question that pauses the thread asks for approval with the paused
      state itself. */
  lemma QuestionPausesOnItsLastEvent(app: Graph.Compiled, prettyRepr: Message -> string, fuel: nat, s: Session,
                                     question: string)
    requires Graph.KeepsToTheGraph(app)
    ensures var t := Question(app, prettyRepr, fuel, s, question);
      t.mode.AskApproval? ==> t.mode.event == t.checkpoint.values
  {
    Graph.StartRunProperties(app, s.config, s.checkpoint, [HumanMessage(None, question)], fuel);
  }

  /** The approval prompt remembers the last event of the question's stream:
      after the first pause it is the paused state itself, and later answers
      keep it unchanged whatever the thread's state becomes. */
  lemma ApprovalEventIsFromTheQuestion(app: Graph.Compiled, prettyRepr: Message -> string, fuel: nat, s: Session,
                                       input: Option<string>)
    requires Graph.KeepsToTheGraph(app)
    ensures var t := Step(app, prettyRepr, fuel, s, input);
      && (s.mode.AskQuestion? && t.mode.AskApproval? ==> t.mode.event == t.checkpoint.values)
      && (s.mode.AskApproval? && t.mode.AskApproval? ==> t.mode.event == s.mode.event)
  {
    if s.mode.AskQuestion? && input.Some? && input.value != "q" {
      StepAtQuestion(app, prettyRepr, fuel, s, input.value);
      QuestionPausesOnItsLastEvent(app, prettyRepr, fuel, s, input.value);
    } else if s.mode.AskApproval? {
      StepAtApproval(app, prettyRepr, fuel, s, input);
    } else {
      StepWithoutRun(app, prettyRepr, fuel, s, input);
    }
  }

  /** Approval runs the paused calls: the resumed run starts with the
      sensitive tool node on the thread's saved state, and every call of the
      paused message that names a sensitive tool, the pending first one among
      them, is invoked by this step. */
  lemma ApprovalRunsPausedCalls(env: Graph.Env, prettyRepr: Message -> string, fuel: nat, s: Session,
                                input: Option<string>)
    requires PromptMatchesThread(s) && s.mode.AskApproval? && Approves(input) && fuel > 0
    ensures var t := Step(Graph.Compile(env), prettyRepr, fuel, s, input);
      var calls := ToolCallsOf(Utils.Last(s.checkpoint.values.messages));
      && s.checkpoint.values.messages != [] && calls != [] && calls[0].name in Registry.SensitiveToolNames
      && |s.executed| <= |t.executed|
      && Graph.ToolNodeStep(Registry.SensitiveTools, s.checkpoint.values, env.tool).executed
           <= t.executed[|s.executed|..]
      && forall c :: c in calls && c.name in Registry.SensitiveToolNames ==> c in t.executed[|s.executed|..]
  {
    var app := Graph.Compile(env);
    StepAtApproval(app, prettyRepr, fuel, s, input);
    if input.None? {
      assert "y" == ['y'];
      StripSingle('y');
    }
    var r := Graph.Resume(app, s.config, s.checkpoint, fuel);
    Graph.ResumeRunsPausedCalls(env, s.config, s.checkpoint, fuel);
    var t := Step(app, prettyRepr, fuel, s, input);
    assert t.executed[|s.executed|..] == r.executed;
  }

  /** Every step keeps the thread's history as a prefix of the new one: runs
      only append, and a step that runs nothing or crashes leaves the thread
      as it was. */
  lemma StepExtendsThread(app: Graph.Compiled, prettyRepr: Message -> string, fuel: nat, s: Session,
                          input: Option<string>)
    requires Graph.KeepsToTheGraph(app)
    ensures s.checkpoint.values.messages <= Step(app, prettyRepr, fuel, s, input).checkpoint.values.messages
  {
    if s.mode.AskQuestion? && input.Some? && input.value != "q" {
      StepAtQuestion(app, prettyRepr, fuel, s, input.value);
      StartRunExtendsThread(app, s, [HumanMessage(None, input.value)], fuel);
    } else if s.mode.AskApproval? {
      StepAtApproval(app, prettyRepr, fuel, s, input);
      var answer := if input.None? then "y" else input.value;
      if Strip(answer) == "y" {
        Graph.ResumeExtendsHistory(app, s.config, s.checkpoint, fuel);
      } else if Denial(s.mode.event, answer).Success? {
        StartRunExtendsThread(app, s, [Denial(s.mode.event, answer).value], fuel);
      }
    } else {
      StepWithoutRun(app, prettyRepr, fuel, s, input);
    }
  }

  /** A run started with input on the session's thread pauses with the
      thread's history as a prefix. */
  lemma StartRunExtendsThread(app: Graph.Compiled, s: Session, input: seq<Message>, fuel: nat)
    requires Graph.KeepsToTheGraph(app)
    ensures var r := Graph.StartRun(app, s.config, s.checkpoint, input, fuel);
      r.outcome.Stopped? ==> s.checkpoint.values.messages <= r.outcome.checkpoint.values.messages
  {
    var r := Graph.StartRun(app, s.config, s.checkpoint, input, fuel);
    Graph.StartRunExtendsHistory(app, s.config, s.checkpoint, input, fuel);
    if r.outcome.Stopped? {
      Graph.PrefixTransitive(s.checkpoint.values.messages, r.events[0].messages,
                             r.outcome.checkpoint.values.messages);
    }
  }

  /** However many lines the program reads, the thread's history only grows:
      nothing in it is ever removed or rewritten. */
  lemma {:induction false} StepsExtendThread(app: Graph.Compiled, prettyRepr: Message -> string, fuel: nat,
                                             s: Session, inputs: seq<Option<string>>)
    requires Graph.KeepsToTheGraph(app)
    ensures s.checkpoint.values.messages <= Steps(app, prettyRepr, fuel, s, inputs).checkpoint.values.messages
    decreases |inputs|
  {
    if inputs != [] {
      var t := Step(app, prettyRepr, fuel, s, inputs[0]);
      StepExtendsThread(app, prettyRepr, fuel, s, inputs[0]);
      StepsExtendThread(app, prettyRepr, fuel, t, inputs[1..]);
      Graph.PrefixTransitive(s.checkpoint.values.messages, t.checkpoint.values.messages,
                             Steps(app, prettyRepr, fuel, t, inputs[1..]).checkpoint.values.messages);
    }
  }

  /** A denial is appended after the thread's history: unless its run fails,
      the new history keeps the old one, the proposed calls included, and the
      denial follows it directly. */
  lemma DenialFollowsHistory(app: Graph.Compiled, prettyRepr: Message -> string, fuel: nat, s: Session,
                             answer: string)
    requires Graph.KeepsToTheGraph(app)
    requires s.mode.AskApproval? && Strip(answer) != "y" && Denial(s.mode.event, answer).Success?
    ensures var t := Step(app, prettyRepr, fuel, s, Some(answer));
      var before := s.checkpoint.values.messages;
      var after := t.checkpoint.values.messages;
      !t.mode.Crashed? ==>
        && before <= after && |before| < |after|
        && Erase(after[|before|]) == Erase(Denial(s.mode.event, answer).value)
  {
    var m := Denial(s.mode.event, answer).value;
    DenialStep(app, prettyRepr, fuel, s, answer);
    var r := Graph.StartRun(app, s.config, s.checkpoint, [m], fuel);
    Graph.StartRunExtendsHistory(app, s.config, s.checkpoint, [m], fuel);
    if r.outcome.Stopped? {
      var first := r.events[0].messages;
      var after := r.outcome.checkpoint.values.messages;
      Graph.PrefixTransitive(s.checkpoint.values.messages, first, after);
      assert after[|s.checkpoint.values.messages|] == first[|s.checkpoint.values.messages|];
    }
  }

  // ---------------------------------------------------------------------------
  // The denial after a second pause

  /** The step as evidently intended: a denial answers the call the thread is
      paused on, read from the thread's saved state rather than from the
      question's last event. */
  function StepIntended(app: Graph.Compiled, prettyRepr: Message -> string, fuel: nat, s: Session,
                        input: Option<string>): Session
  {
    if s.mode.AskApproval? then
      Answer(app, fuel, s.(mode := AskApproval(s.checkpoint.values)), s.checkpoint.values,
             if input.None? then "y" else input.value)
    else Step(app, prettyRepr, fuel, s, input)
  }

  /** With the intended step, every denial the program can send answers the
      pending call, which is a sensitive one, and never raises. */
  lemma IntendedDenialAnswersPendingCall(s: Session, answer: string)
    requires PromptMatchesThread(s) && s.mode.AskApproval?
    ensures var pending := s.checkpoint.values.messages;
      && pending != [] && ToolCallsOf(Utils.Last(pending)) != []
      && ToolCallsOf(Utils.Last(pending))[0].name in Registry.SensitiveToolNames
      && Denial(s.checkpoint.values, answer).Success?
      && Denial(s.checkpoint.values, answer).value.toolCallId == ToolCallsOf(Utils.Last(pending))[0].id
  {
  }

  /** With the intended step, a refusal at the approval prompt starts the run
      on a denial of the call the thread is paused on. */
  lemma IntendedDenialStep(app: Graph.Compiled, prettyRepr: Message -> string, fuel: nat, s: Session, answer: string)
    requires PromptMatchesThread(s) && s.mode.AskApproval? && Strip(answer) != "y"
    ensures var pending := ToolCallsOf(Utils.Last(s.checkpoint.values.messages))[0];
      StepIntended(app, prettyRepr, fuel, s, Some(answer)).executed
        == s.executed + Graph.StartRun(app, s.config, s.checkpoint,
                                       [ToolMessage(None, DenialContent(answer), pending.id)], fuel).executed
  {
    IntendedDenialAnswersPendingCall(s, answer);
  }

  /** At the first pause after a question the program as written and the
      intended step agree. */
  lemma IntendedAgreesAtFirstPause(app: Graph.Compiled, prettyRepr: Message -> string, fuel: nat, s: Session,
                                   input: Option<string>)
    requires s.mode == AskApproval(s.checkpoint.values)
    ensures Step(app, prettyRepr, fuel, s, input) == StepIntended(app, prettyRepr, fuel, s, input)
  {
  }

  /** The session after reading `inputs` with the intended step. */
  function StepsIntended(app: Graph.Compiled, prettyRepr: Message -> string, fuel: nat, s: Session,
                         inputs: seq<Option<string>>): Session
    decreases |inputs|
  {
    if inputs == [] then s
    else StepsIntended(app, prettyRepr, fuel, StepIntended(app, prettyRepr, fuel, s, inputs[0]), inputs[1..])
  }

  lemma StepIntendedKeepsPromptMatchingThread(app: Graph.Compiled, prettyRepr: Message -> string, fuel: nat,
                                              s: Session, input: Option<string>)
    requires Graph.KeepsToTheGraph(app)
    requires PromptMatchesThread(s)
    ensures PromptMatchesThread(StepIntended(app, prettyRepr, fuel, s, input))
  {
    if s.mode.AskApproval? {
      AnswerKeepsPromptMatchingThread(app, fuel, s.(mode := AskApproval(s.checkpoint.values)), s.checkpoint.values,
                                      if input.None? then "y" else input.value);
    } else {
      StepKeepsPromptMatchingThread(app, prettyRepr, fuel, s, input);
    }
  }

  /** With the intended step too, every session reached has its prompt
      matching its thread. */
  lemma {:induction false} IntendedPromptsAlwaysMatchThread(app: Graph.Compiled, prettyRepr: Message -> string,
                                                            fuel: nat, s: Session, inputs: seq<Option<string>>)
    requires Graph.KeepsToTheGraph(app)
    requires PromptMatchesThread(s)
    ensures PromptMatchesThread(StepsIntended(app, prettyRepr, fuel, s, inputs))
    decreases |inputs|
  {
    if inputs != [] {
      StepIntendedKeepsPromptMatchingThread(app, prettyRepr, fuel, s, inputs[0]);
      IntendedPromptsAlwaysMatchThread(app, prettyRepr, fuel, StepIntended(app, prettyRepr, fuel, s, inputs[0]),
                                       inputs[1..]);
    }
  }

  /** In every session the intended program reaches on this graph, a denial
      at the approval prompt answers the sensitive call the thread is paused
      on, and never raises. */
  lemma ReachableIntendedDenialsAnswerPendingCall(env: Graph.Env, prettyRepr: Message -> string, fuel: nat,
                                                  threadId: string, inputs: seq<Option<string>>, answer: string)
    ensures var s := StepsIntended(Graph.Compile(env), prettyRepr, fuel, Init(threadId), inputs);
      var pending := s.checkpoint.values.messages;
      s.mode.AskApproval? ==>
        && pending != [] && ToolCallsOf(Utils.Last(pending)) != []
        && ToolCallsOf(Utils.Last(pending))[0].name in Registry.SensitiveToolNames
        && Denial(s.checkpoint.values, answer).Success?
        && Denial(s.checkpoint.values, answer).value.toolCallId == ToolCallsOf(Utils.Last(pending))[0].id
  {
    var s := StepsIntended(Graph.Compile(env), prettyRepr, fuel, Init(threadId), inputs);
    Graph.CompiledKeepsToTheGraph(env);
    IntendedPromptsAlwaysMatchThread(Graph.Compile(env), prettyRepr, fuel, Init(threadId), inputs);
    if s.mode.AskApproval? {
      IntendedDenialAnswersPendingCall(s, answer);
    }
  }

  /** A model that first proposes to cancel the reservation and, once refused,
      proposes to change its date instead. */
  const CancelCall: ToolCall := ToolCall("CancelReservation", map[], "call-1")
  const ChangeDateCall: ToolCall := ToolCall("UpdateReservationDate", map[], "call-2")

  function ExampleModel(st: ReservState): AIReply
  {
    if |st.messages| <= 1 then AIMessage(Some("ai-1"), Text(""), [CancelCall])
    else AIMessage(Some("ai-2"), Text(""), [ChangeDateCall])
  }

  /** Distinct ids for the messages the example's history merge receives. */
  function ExampleId(i: nat): string
  {
    if i == 0 then "m" else ExampleId(i - 1) + "m"
  }

  const ExampleEnv: Graph.Env := Graph.Env(ExampleModel, _ => Graph.Returned(""), ExampleId)

  const ExampleApp: Graph.Compiled := Graph.Compile(ExampleEnv)

  lemma ExampleUserInfoStep(config: RunConfig, st0: ReservState, fuel: nat)
    requires Truthy(UserTool.PhoneNumber(config))
    ensures Graph.StepFrom(ExampleEnv, config, Graph.FetchUserInfo, st0, fuel)
         == Graph.Moved(st0.(userInfo := Some([])), Graph.Assistant, [])
  {
    assert Apply(st0, Update(None, Some([])), ExampleEnv.mint) == st0.(userInfo := Some([]));
  }

  lemma ExampleProposalRouted(st2: ReservState)
    requires st2.messages != [] && Utils.Last(st2.messages).AIMessage?
    requires Utils.Last(st2.messages).toolCalls == [CancelCall] || Utils.Last(st2.messages).toolCalls == [ChangeDateCall]
    ensures Graph.RouteTools(st2) == Success(Graph.SensitiveTools)
  {
    Registry.SensitiveToolNamesExactly();
  }

  lemma ExampleAssistantReplies(st1: ReservState, fuel: nat)
    requires fuel > 0
    ensures Nodes.AssistantUpdate(ExampleEnv.llm, st1, fuel) == Success(Update(Some([ExampleModel(st1)]), None))
  {
    Nodes.ToolCallsAcceptedAtOnce(ExampleEnv.llm, st1, fuel);
  }

  lemma ExampleReplyMerged(st1: ReservState)
    ensures Apply(st1, Update(Some([ExampleModel(st1)]), None), ExampleEnv.mint)
         == st1.(messages := st1.messages + [ExampleModel(st1)])
  {
    var a := ExampleModel(st1);
    assert WithId(a, ExampleEnv.mint(|st1.messages|)) == a;
  }

  lemma ExampleAssistantStep(config: RunConfig, st1: ReservState, fuel: nat)
    requires fuel > 0
    ensures Graph.StepFrom(ExampleEnv, config, Graph.Assistant, st1, fuel)
         == Graph.Moved(st1.(messages := st1.messages + [ExampleModel(st1)]), Graph.SensitiveTools, [])
  {
    var st2 := st1.(messages := st1.messages + [ExampleModel(st1)]);
    ExampleAssistantReplies(st1, fuel);
    ExampleReplyMerged(st1);
    ExampleProposalRouted(st2);
  }

  /** The run from the assistant, on any nodes whose assistant step proposes
      a sensitive call: one step, then the pause. */
  lemma ExampleRunFromAssistant(step: Graph.Stepper, st1: ReservState, st2: ReservState, fuel: nat)
    requires fuel > 0 && step(Graph.Assistant, st1, fuel) == Graph.Moved(st2, Graph.SensitiveTools, [])
    ensures Graph.Run(step, st1, Graph.Assistant, fuel, false)
         == Graph.RunResult([st2], [], [Graph.Assistant], Graph.Stopped(Graph.Checkpoint(st2, Some(Graph.SensitiveTools))))
  {
    assert Graph.Run(step, st2, Graph.SensitiveTools, fuel - 1, false)
        == Graph.RunResult([], [], [], Graph.Stopped(Graph.Checkpoint(st2, Some(Graph.SensitiveTools))));
  }

  lemma ExampleRunFromUserInfo(step: Graph.Stepper, st0: ReservState, st1: ReservState, st2: ReservState, fuel: nat)
    requires fuel >= 2
    requires step(Graph.FetchUserInfo, st0, fuel) == Graph.Moved(st1, Graph.Assistant, [])
    requires step(Graph.Assistant, st1, fuel - 1) == Graph.Moved(st2, Graph.SensitiveTools, [])
    ensures Graph.Run(step, st0, Graph.FetchUserInfo, fuel, false)
         == Graph.RunResult([st1, st2], [], [Graph.FetchUserInfo, Graph.Assistant],
                            Graph.Stopped(Graph.Checkpoint(st2, Some(Graph.SensitiveTools))))
  {
    ExampleRunFromAssistant(step, st1, st2, fuel - 1);
  }

  /** A run of the example from the start of a thread on the message `m`:
      the model's proposal is routed to the sensitive tool node and the run
      pauses there. */
  lemma ExampleRunPauses(config: RunConfig, cp: Graph.Checkpoint, m: Message, fuel: nat)
    requires Truthy(UserTool.PhoneNumber(config)) && fuel >= 2
    ensures var st0 := Apply(cp.values, Update(Some([m]), None), ExampleEnv.mint);
      var st1 := st0.(userInfo := Some([]));
      var st2 := st1.(messages := st1.messages + [ExampleModel(st1)]);
      var r := Graph.StartRun(ExampleApp, config, cp, [m], fuel);
      r.events == [st0, st1, st2] && r.outcome == Graph.Stopped(Graph.Checkpoint(st2, Some(Graph.SensitiveTools)))
  {
    var st0 := Apply(cp.values, Update(Some([m]), None), ExampleEnv.mint);
    var st1 := st0.(userInfo := Some([]));
    var st2 := st1.(messages := st1.messages + [ExampleModel(st1)]);
    assert ExampleApp.mint == ExampleEnv.mint;
    ExampleNodesPropose(config, st0, fuel);
    ExampleStartRun(ExampleApp, config, cp, m, st1, st2, fuel);
  }

  /** A run started on `m` whose first two steps fetch the user information
      and propose a sensitive call records those states and pauses. */
  lemma ExampleStartRun(app: Graph.Compiled, config: RunConfig, cp: Graph.Checkpoint, m: Message,
                        st1: ReservState, st2: ReservState, fuel: nat)
    requires fuel >= 2
    requires app.nodes(config)(Graph.FetchUserInfo, Apply(cp.values, Update(Some([m]), None), app.mint), fuel)
             == Graph.Moved(st1, Graph.Assistant, [])
    requires app.nodes(config)(Graph.Assistant, st1, fuel - 1) == Graph.Moved(st2, Graph.SensitiveTools, [])
    ensures var r := Graph.StartRun(app, config, cp, [m], fuel);
      && r.events == [Apply(cp.values, Update(Some([m]), None), app.mint), st1, st2]
      && r.outcome == Graph.Stopped(Graph.Checkpoint(st2, Some(Graph.SensitiveTools)))
  {
    var st0 := Apply(cp.values, Update(Some([m]), None), app.mint);
    assert Graph.FixedEdges[Graph.Start] == Graph.FetchUserInfo;
    ExampleRunFromUserInfo(app.nodes(config), st0, st1, st2, fuel);
  }

  /** The example's nodes fetch the user information, then propose the
      cancellation. */
  lemma ExampleNodesPropose(config: RunConfig, st0: ReservState, fuel: nat)
    requires Truthy(UserTool.PhoneNumber(config)) && fuel >= 2
    ensures var st1 := st0.(userInfo := Some([]));
      && ExampleApp.nodes(config)(Graph.FetchUserInfo, st0, fuel) == Graph.Moved(st1, Graph.Assistant, [])
      && ExampleApp.nodes(config)(Graph.Assistant, st1, fuel - 1)
         == Graph.Moved(st1.(messages := st1.messages + [ExampleModel(st1)]), Graph.SensitiveTools, [])
  {
    var st1 := st0.(userInfo := Some([]));
    var step := Graph.NodeSteps(ExampleEnv, config);
    assert ExampleApp.nodes(config) == step;
    ExampleUserInfoStep(config, st0, fuel);
    ExampleAssistantStep(config, st1, fuel - 1);
    assert step(Graph.FetchUserInfo, st0, fuel) == Graph.StepFrom(ExampleEnv, config, Graph.FetchUserInfo, st0, fuel);
    assert step(Graph.Assistant, st1, fuel - 1) == Graph.StepFrom(ExampleEnv, config, Graph.Assistant, st1, fuel - 1);
  }

  /** The configuration once the phone number is entered. */
  function ExampleConfig(threadId: string, phone: string): RunConfig
  {
    RunConfig(Some(map["phone_number" := PyStr(phone), "thread_id" := PyStr(threadId)]))
  }

  /** The history at the first pause: the question and the cancellation
      proposal. */
  function ExampleFirstPause(question: string): ReservState
  {
    ReservState([HumanMessage(Some("m"), question), AIMessage(Some("ai-1"), Text(""), [CancelCall])], Some([]))
  }

  lemma ExamplePhoneStep(prettyRepr: Message -> string, fuel: nat, threadId: string, phone: string)
    ensures Step(ExampleApp, prettyRepr, fuel, Init(threadId), Some(phone))
         == Session(AskQuestion, ExampleConfig(threadId, phone), EmptyThread, [], [])
  {
    assert InitialConfig(threadId).configurable.value["phone_number" := PyStr(phone)]
        == ExampleConfig(threadId, phone).configurable.value;
  }

  /** The question's run pauses on the cancellation proposal. */
  lemma ExampleQuestionRun(config: RunConfig, question: string, fuel: nat)
    requires Truthy(UserTool.PhoneNumber(config)) && fuel >= 2
    ensures var r := Graph.StartRun(ExampleApp, config, EmptyThread, [HumanMessage(None, question)], fuel);
      && r.outcome == Graph.Stopped(Graph.Checkpoint(ExampleFirstPause(question), Some(Graph.SensitiveTools)))
      && Utils.Last(r.events) == ExampleFirstPause(question)
  {
    var h := HumanMessage(None, question);
    ExampleRunPauses(config, EmptyThread, h, fuel);
    var st0 := Apply(EmptyThread.values, Update(Some([h]), None), ExampleEnv.mint);
    assert ExampleEnv.mint(0) == "m";
    assert st0 == ReservState([HumanMessage(Some("m"), question)], None);
  }

  lemma ExampleQuestionPauses(prettyRepr: Message -> string, fuel: nat, threadId: string, phone: string,
                              question: string)
    requires phone != "" && question != "q" && fuel >= 2
    ensures var s := Step(ExampleApp, prettyRepr, fuel, Session(AskQuestion, ExampleConfig(threadId, phone), EmptyThread, [], []),
                          Some(question));
      s.mode == AskApproval(ExampleFirstPause(question)) && s.config == ExampleConfig(threadId, phone)
      && s.checkpoint == Graph.Checkpoint(ExampleFirstPause(question), Some(Graph.SensitiveTools))
  {
    var s1 := Session(AskQuestion, ExampleConfig(threadId, phone), EmptyThread, [], []);
    ExampleQuestionRun(ExampleConfig(threadId, phone), question, fuel);
    StepAtQuestion(ExampleApp, prettyRepr, fuel, s1, question);
  }

  /** The refusal `n` is not the approval `y`. */
  lemma RefusalIsNotApproval()
    ensures Strip("n") == "n"
  {
    assert "n" == ['n'];
    StripSingle('n');
  }

  /** A single character that is not whitespace is its own strip. */
  lemma StripSingle(c: char)
    requires !IsSpace(c)
    ensures Strip([c]) == [c]
  {
    assert StripLeft([c]) == [c];
    assert StripRight([c]) == [c];
  }

  /** The denial at the first pause answers the cancellation call. */
  lemma ExampleDenialOfFirstPause(question: string)
    ensures Denial(ExampleFirstPause(question), "n") == Success(ToolMessage(None, DenialContent("n"), CancelCall.id))
  {
  }

  lemma ExampleDenialPausesAgain(prettyRepr: Message -> string, fuel: nat, s2: Session, question: string)
    requires s2.mode == AskApproval(ExampleFirstPause(question)) && Truthy(UserTool.PhoneNumber(s2.config))
    requires s2.checkpoint == Graph.Checkpoint(ExampleFirstPause(question), Some(Graph.SensitiveTools)) && fuel >= 2
    ensures var s := Step(ExampleApp, prettyRepr, fuel, s2, Some("n"));
      && s.mode == AskApproval(ExampleFirstPause(question))
      && s.checkpoint.values.messages != []
      && Utils.Last(s.checkpoint.values.messages) == AIMessage(Some("ai-2"), Text(""), [ChangeDateCall])
  {
    var denial := ToolMessage(None, DenialContent("n"), CancelCall.id);
    RefusalIsNotApproval();
    ExampleDenialOfFirstPause(question);
    DenialStep(ExampleApp, prettyRepr, fuel, s2, "n");
    ExampleRunPauses(s2.config, s2.checkpoint, denial, fuel);
    var st0 := Apply(ExampleFirstPause(question), Update(Some([denial]), None), ExampleEnv.mint);
    assert |st0.messages| == 3;
  }

  /** The program as written answers the wrong call after a second pause: the
      user gives a phone number, asks something, and the model proposes to
      cancel; the user refuses, the model proposes a date change instead, and
      the program waits for approval of it; a second refusal is sent as the
      answer to the cancellation call, which was already answered, while the
      pending date change call is left unanswered. */
  lemma StaleDenialCounterexample(prettyRepr: Message -> string, fuel: nat, threadId: string, phone: string,
                                  question: string)
    requires phone != "" && question != "q" && fuel >= 2
    ensures var s1 := Step(ExampleApp, prettyRepr, fuel, Init(threadId), Some(phone));
      var s2 := Step(ExampleApp, prettyRepr, fuel, s1, Some(question));
      var s := Step(ExampleApp, prettyRepr, fuel, s2, Some("n"));
      && s.mode.AskApproval?
      && s.checkpoint.values.messages != []
      && ToolCallsOf(Utils.Last(s.checkpoint.values.messages)) == [ChangeDateCall]
      && Denial(s.mode.event, "n").Success?
      && Denial(s.mode.event, "n").value.toolCallId == CancelCall.id != ChangeDateCall.id
  {
    ExamplePhoneStep(prettyRepr, fuel, threadId, phone);
    ExampleQuestionPauses(prettyRepr, fuel, threadId, phone, question);
    var s2 := Step(ExampleApp, prettyRepr, fuel, Session(AskQuestion, ExampleConfig(threadId, phone), EmptyThread, [], []),
                   Some(question));
    ExampleDenialPausesAgain(prettyRepr, fuel, s2, question);
  }
}
