/** Helpers around the graph: the fallback that turns a failed tool run into
    error results, the console printer that shows each message once and cuts
    long renderings, and the scanner for Korean mobile phone numbers. */
module Utils {
  import opened Base
  import opened State

  function Last<T>(s: seq<T>): T
    requires s != []
  {
    s[|s| - 1]
  }

  // ---------------------------------------------------------------------------
  // Tool error fallback

  /** The content of every error result: the repr of the exception (`None` when
      the fallback got none) framed by a fixed request to fix the mistake. */
  function ErrorContent(error: Option<Exception>): string
  {
    "Error: " + (if error.Some? then Repr(error.value) else "None") + "\n please fix your mistakes."
  }

  /** The Python class name a message is an instance of. */
  function ClassName(m: Message): string
  {
    match m
    case HumanMessage(_, _) => "HumanMessage"
    case AIMessage(_, _, _) => "AIMessage"
    case ToolMessage(_, _, _) => "ToolMessage"
  }

  /** One error result with `content` per call, answering the calls in order. */
  function ErrorResults(calls: seq<ToolCall>, content: string): (out: seq<Message>)
    ensures |out| == |calls|
    ensures forall i :: 0 <= i < |calls| ==> out[i] == ToolMessage(None, content, calls[i].id)
  {
    if calls == [] then [] else [ToolMessage(None, content, calls[0].id)] + ErrorResults(calls[1..], content)
  }

  /** `handle_tool_error`: one error result per tool call of the last message,
      in the same order, each answering its call's id with the same content.
      An empty history raises `IndexError`, a last message that is not an AI
      message raises `AttributeError`. */
  function HandleToolError(error: Option<Exception>, st: ReservState): (r: Result<Update, Exception>)
    ensures r.Success? <==> st.messages != [] && Last(st.messages).AIMessage?
    ensures r.Success? ==> r.value.userInfo.None? && r.value.messages.Some?
    ensures r.Success? ==>
      var calls := Last(st.messages).toolCalls;
      var out := r.value.messages.value;
      && |out| == |calls|
      && forall i :: 0 <= i < |out| ==>
           out[i].ToolMessage? && out[i].id.None? && out[i].toolCallId == calls[i].id
           && out[i].text == ErrorContent(error)
  {
    if st.messages == [] then
      Failure(Exception("IndexError", "list index out of range"))
    else
      var last := Last(st.messages);
      if !last.AIMessage? then
        Failure(Exception("AttributeError", "'" + ClassName(last) + "' object has no attribute 'tool_calls'"))
      else
        Success(Update(Some(ErrorResults(last.toolCalls, ErrorContent(error))), None))
  }

  /** Every tool call of the failed turn is answered: the ids of the error
      results are exactly the ids of the calls, and all of them carry the
      exception's repr. */
  lemma ErrorAnswersEveryCall(error: Exception, st: ReservState)
    requires st.messages != [] && Last(st.messages).AIMessage?
    ensures HandleToolError(Some(error), st).Success?
    ensures var out := HandleToolError(Some(error), st).value.messages.value;
      && (set m | m in out :: m.toolCallId) == (set c | c in Last(st.messages).toolCalls :: c.id)
      && forall m :: m in out ==> Contains(m.text, Repr(error))
  {
    var calls := Last(st.messages).toolCalls;
    var out := HandleToolError(Some(error), st).value.messages.value;
    var content := ErrorContent(Some(error));
    assert content[7..7 + |Repr(error)|] == Repr(error);
    assert Occurs(content, Repr(error), 7);
    forall m | m in out ensures Contains(m.text, Repr(error)) {
    }
    forall c | c in calls ensures c.id in (set m | m in out :: m.toolCallId) {
      var i :| 0 <= i < |calls| && calls[i] == c;
      assert out[i] in out;
    }
  }

  // ---------------------------------------------------------------------------
  // Event printing

  const TruncationMarker: string := " ... (truncated)"

  /** A rendering longer than `maxLength` is cut to its first `maxLength`
      characters followed by the marker; a shorter one is kept whole. */
  function Truncate(repr: string, maxLength: nat): (r: string)
    ensures |repr| <= maxLength ==> r == repr
    ensures |repr| > maxLength ==>
      |r| == maxLength + |TruncationMarker| && r[..maxLength] == repr[..maxLength]
      && r[maxLength..] == TruncationMarker
  {
    if |repr| > maxLength then repr[..maxLength] + TruncationMarker else repr
  }

  /** The ids of the messages printed so far (`_printed`), shared across the
      events of one question. */
  class PrintedIds {
    var ids: set<Option<string>>

    constructor ()
      ensures ids == {}
    {
      ids := {};
    }
  }

  /** A printed line with the id of the message it shows. */
  datatype Printed = Printed(id: Option<string>, line: string)

  /** What `_print_event` prints for one event (a state of the stream), given
      the ids already printed: the last message, rendered and truncated, unless
      the history is empty or that message's id was printed before. */
  function EventLine(event: ReservState, seen: set<Option<string>>, maxLength: nat,
                     prettyRepr: Message -> string): Option<Printed>
  {
    if event.messages == [] then None
    else
      var m := Last(event.messages);
      if m.id in seen then None else Some(Printed(m.id, Truncate(prettyRepr(m), maxLength)))
  }

  /** The ids an event adds to `_printed`. */
  function EventIds(event: ReservState): set<Option<string>>
  {
    if event.messages == [] then {} else {Last(event.messages).id}
  }

  /** `_print_event`: prints the event's line and records the id it showed. */
  method PrintEvent(event: ReservState, printed: PrintedIds, maxLength: nat,
                    prettyRepr: Message -> string) returns (out: Option<Printed>)
    modifies printed
    ensures out == EventLine(event, old(printed.ids), maxLength, prettyRepr)
    ensures printed.ids == old(printed.ids) + EventIds(event)
  {
    out := None;
    var message := event.messages;
    if message != [] {
      var m := message[|message| - 1];
      if m.id !in printed.ids {
        var msgRepr := prettyRepr(m);
        if |msgRepr| > maxLength {
          msgRepr := msgRepr[..maxLength] + TruncationMarker;
        }
        out := Some(Printed(m.id, msgRepr));
        printed.ids := printed.ids + {m.id};
      }
    }
  }

  /** The lines printed for a sequence of events, starting from the ids `seen`. */
  function Printout(events: seq<ReservState>, seen: set<Option<string>>, maxLength: nat,
                    prettyRepr: Message -> string): seq<Printed>
  {
    if events == [] then []
    else
      var before := events[..|events| - 1];
      var line := EventLine(Last(events), SeenAfter(before, seen), maxLength, prettyRepr);
      Printout(before, seen, maxLength, prettyRepr) + (if line.Some? then [line.value] else [])
  }

  /** The printed ids after a sequence of events. */
  function SeenAfter(events: seq<ReservState>, seen: set<Option<string>>): set<Option<string>>
  {
    if events == [] then seen else SeenAfter(events[..|events| - 1], seen) + EventIds(Last(events))
  }

  /** The loop over a stream's events, printing each with `_print_event`. */
  method PrintEvents(events: seq<ReservState>, printed: PrintedIds, maxLength: nat,
                     prettyRepr: Message -> string) returns (lines: seq<Printed>)
    modifies printed
    ensures lines == Printout(events, old(printed.ids), maxLength, prettyRepr)
    ensures printed.ids == SeenAfter(events, old(printed.ids))
  {
    lines := [];
    var i := 0;
    while i < |events|
      invariant 0 <= i <= |events|
      invariant lines == Printout(events[..i], old(printed.ids), maxLength, prettyRepr)
      invariant printed.ids == SeenAfter(events[..i], old(printed.ids))
    {
      var out := PrintEvent(events[i], printed, maxLength, prettyRepr);
      assert events[..i + 1][..i] == events[..i];
      if out.Some? {
        lines := lines + [out.value];
      }
      i := i + 1;
    }
    assert events[..|events|] == events;
  }

  /** The printed ids only grow: they keep the initial ones and gain the id of
      every event's last message. */
  lemma {:induction false} SeenOnlyGrows(events: seq<ReservState>, seen: set<Option<string>>)
    ensures seen <= SeenAfter(events, seen)
    ensures forall e :: e in events ==> EventIds(e) <= SeenAfter(events, seen)
  {
    if events != [] {
      var before := events[..|events| - 1];
      SeenOnlyGrows(before, seen);
      forall e | e in events ensures EventIds(e) <= SeenAfter(events, seen) {
        if e != Last(events) {
          var k :| 0 <= k < |events| && events[k] == e;
          assert before[k] == e;
        }
      }
    }
  }

  /** Every printed id is new (not among the initial ones) and recorded. */
  lemma {:induction false} PrintedIdsAreNew(events: seq<ReservState>, seen: set<Option<string>>,
                                            maxLength: nat, prettyRepr: Message -> string)
    ensures forall p :: p in Printout(events, seen, maxLength, prettyRepr) ==>
      p.id !in seen && p.id in SeenAfter(events, seen)
  {
    if events != [] {
      var before := events[..|events| - 1];
      PrintedIdsAreNew(before, seen, maxLength, prettyRepr);
      SeenOnlyGrows(before, seen);
    }
  }

  predicate DistinctIds(out: seq<Printed>)
  {
    forall i, j :: 0 <= i < j < |out| ==> out[i].id != out[j].id
  }

  /** Each message id is printed at most once within the events of one
      question. */
  lemma {:induction false} PrintedAtMostOnce(events: seq<ReservState>, seen: set<Option<string>>,
                                             maxLength: nat, prettyRepr: Message -> string)
    ensures DistinctIds(Printout(events, seen, maxLength, prettyRepr))
  {
    if events != [] {
      var before := events[..|events| - 1];
      PrintedAtMostOnce(before, seen, maxLength, prettyRepr);
      PrintedIdsAreNew(before, seen, maxLength, prettyRepr);
      var prev := Printout(before, seen, maxLength, prettyRepr);
      var line := EventLine(Last(events), SeenAfter(before, seen), maxLength, prettyRepr);
      var out := Printout(events, seen, maxLength, prettyRepr);
      assert out == prev + (if line.Some? then [line.value] else []);
      forall i, j | 0 <= i < j < |out| ensures out[i].id != out[j].id {
        assert out[i] == prev[i] && out[i] in prev;
        assert out[i].id in SeenAfter(before, seen);
        if j >= |prev| {
          assert line.Some? && out[j] == line.value;
          assert line.value.id == Last(Last(events).messages).id;
          assert line.value.id !in SeenAfter(before, seen);
        } else {
          assert out[j] == prev[j];
        }
      }
    }
  }

  // ---------------------------------------------------------------------------
  // Phone number scanning: the pattern `01[016789]\d{8}`

  predicate IsDigit(c: char)
  {
    '0' <= c <= '9'
  }

  /** A Korean mobile number without hyphens: `01`, then one of 0/1/6/7/8/9,
      then eight digits. */
  predicate IsMobileNumber(w: string)
  {
    && |w| == 11
    && w[0] == '0' && w[1] == '1'
    && (w[2] == '0' || w[2] == '1' || w[2] == '6' || w[2] == '7' || w[2] == '8' || w[2] == '9')
    && IsDigit(w[3]) && IsDigit(w[4]) && IsDigit(w[5]) && IsDigit(w[6])
    && IsDigit(w[7]) && IsDigit(w[8]) && IsDigit(w[9]) && IsDigit(w[10])
  }

  /** The pattern matches the text at position `i`. */
  predicate MatchAt(s: string, i: int)
  {
    0 <= i <= |s| - 11 && IsMobileNumber(s[i..i + 11])
  }

  /** The start positions `re.findall` reports scanning from `i`: try the
      pattern at each position, skip past a match, step by one otherwise.  The
      matches lie at or after `i`, do not overlap and come in order. */
  function MatchStarts(s: string, i: nat): (ps: seq<nat>)
    decreases |s| - i
    ensures forall k :: 0 <= k < |ps| ==> i <= ps[k] && MatchAt(s, ps[k])
    ensures forall j, k :: 0 <= j < k < |ps| ==> ps[j] + 11 <= ps[k]
  {
    if i + 11 > |s| then []
    else if MatchAt(s, i) then [i] + MatchStarts(s, i + 11)
    else MatchStarts(s, i + 1)
  }

  /** The scan misses nothing: every position at or after `i` where the pattern
      matches lies inside one of the reported matches. */
  lemma {:induction false} MatchStartsCover(s: string, i: nat, p: nat)
    requires i <= p && MatchAt(s, p)
    ensures exists k :: 0 <= k < |MatchStarts(s, i)| && MatchStarts(s, i)[k] <= p < MatchStarts(s, i)[k] + 11
    decreases |s| - i
  {
    var ps := MatchStarts(s, i);
    if MatchAt(s, i) {
      assert ps[0] == i;
      if p >= i + 11 {
        MatchStartsCover(s, i + 11, p);
        var rest := MatchStarts(s, i + 11);
        var k :| 0 <= k < |rest| && rest[k] <= p < rest[k] + 11;
        assert ps[k + 1] == rest[k];
      }
    } else {
      MatchStartsCover(s, i + 1, p);
    }
  }

  /** `parse_phone_number`: every match of the pattern, as found left to
      right. */
  function ParsePhoneNumber(text: string): (r: seq<string>)
    ensures forall k :: 0 <= k < |r| ==> IsMobileNumber(r[k])
  {
    var ps := MatchStarts(text, 0);
    seq(|ps|, k requires 0 <= k < |ps| => text[ps[k]..ps[k] + 11])
  }

  /** The numbers found are non-overlapping substrings of the text, in the
      order they occur. */
  lemma ParsedAreOrderedSubstrings(text: string)
    ensures var r := ParsePhoneNumber(text);
      exists ps: seq<nat> ::
        && |ps| == |r|
        && (forall k :: 0 <= k < |ps| ==> ps[k] + 11 <= |text| && text[ps[k]..ps[k] + 11] == r[k])
        && (forall j, k :: 0 <= j < k < |ps| ==> ps[j] + 11 <= ps[k])
  {
    var ps := MatchStarts(text, 0);
    assert |ps| == |ParsePhoneNumber(text)|;
  }

  /** The pattern is unanchored: the result is empty exactly when no position
      of the text matches. */
  lemma EmptyIffNoMatch(text: string)
    ensures ParsePhoneNumber(text) == [] <==> forall p :: !MatchAt(text, p)
  {
    var ps := MatchStarts(text, 0);
    if ps != [] {
      assert MatchAt(text, ps[0]);
    } else {
      forall p | MatchAt(text, p) ensures false {
        MatchStartsCover(text, 0, p);
      }
    }
  }

  /** The first number found is the leftmost match, so a longer run of digits
      yields its first eleven characters that match. */
  lemma LeftmostMatchFirst(text: string, p: nat)
    requires MatchAt(text, p)
    requires forall q :: 0 <= q < p ==> !MatchAt(text, q)
    ensures ParsePhoneNumber(text) != [] && ParsePhoneNumber(text)[0] == text[p..p + 11]
  {
    var ps := MatchStarts(text, 0);
    MatchStartsCover(text, 0, p);
    var k :| 0 <= k < |ps| && ps[k] <= p < ps[k] + 11;
    assert ps[k] == p;
    assert ps[0] == p;
  }
}
