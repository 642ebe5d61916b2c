/** What `SparkChat.on_message` does to the fields `answer`,
    `function_call` and `usage` and to the connection, frame by frame; what
    a whole session of `chatCompletion` leaves in them; and the completion
    object built from them at the end of `chatCompletion`. */
module Accumulator {
  import opened Json
  import opened Protocol

  /** The three fields `on_message` writes; Python's None is `Null`. */
  datatype State = State(answer: string, functionCall: Json, usage: Json)

  /** The class-level defaults of lines 21-23. */
  const Initial: State := State("", Null, Null)

  /** What `on_message` does to the connection. */
  datatype Reaction =
    | Continue  // the frame is consumed and the next one is awaited
    | Close     // `ws.close()`: an error code, or a frame with status 2
    | Raise     // `data["payload"]["usage"]` raised KeyError

  /** The fields after `on_message` handled `f`. A frame with a non-zero
      code changes nothing. Otherwise the content is appended, the function
      call is replaced when the frame carries the key, and the usage is
      replaced; when the frame has no usage, the KeyError is raised after
      the first two updates and leaves the usage as it was. */
  function Apply(s: State, f: Frame): State
  {
    if f.code != 0 then s
    else
      State(s.answer + f.content,
            if f.functionCall.Some? then f.functionCall.value else s.functionCall,
            if f.usage.Some? then f.usage.value else s.usage)
  }

  /** How `on_message` leaves the connection. The KeyError is raised before
      the status is looked at, so a status-2 frame without usage does not
      close the connection. */
  function React(f: Frame): Reaction
  {
    if f.code != 0 then Close
    else if f.usage.None? then Raise
    else if f.status == StatusDone then Close
    else Continue
  }

  /** Events after which `run_forever` returns: the peer closed, or
      `on_message` closed the connection. */
  predicate Ends(e: Event)
  {
    e.PeerClosed? || React(e.frame) == Close
  }

  datatype Session = Session(state: State, closed: bool)

  /** `run_forever` dispatching the events to `on_message` until the
      connection is closed. `closed` is false when the events run out first:
      the real call would still be waiting for the next frame. A KeyError
      raised by `on_message` is reported to `on_error` by the WebSocket
      library, which keeps reading. Whatever `answer` held before is kept
      at its front: the field is only ever appended to. */
  function Drive(s: State, events: seq<Event>): (r: Session)
    ensures |s.answer| <= |r.state.answer| && r.state.answer[..|s.answer|] == s.answer
    decreases |events|
  {
    if events == [] then Session(s, false)
    else match events[0]
      case PeerClosed => Session(s, true)
      case Received(f, _) =>
        var s' := Apply(s, f);
        assert s'.answer[..|s.answer|] == s.answer;
        if React(f) == Close then Session(s', true)
        else
          var r := Drive(s', events[1..]);
          assert r.state.answer[..|s.answer|] == r.state.answer[..|s'.answer|][..|s.answer|];
          r
  }

  /** Position of the first event that ends the session, `|events|` when
      none does. */
  function EndIndex(events: seq<Event>): (k: nat)
    ensures k <= |events|
    ensures forall i :: 0 <= i < k ==> !Ends(events[i])
    ensures k < |events| ==> Ends(events[k])
  {
    if events == [] then 0
    else if Ends(events[0]) then 0
    else 1 + EndIndex(events[1..])
  }

  /** The events the session handles: up to and including the one that
      ends it. */
  function Handled(events: seq<Event>): seq<Event>
  {
    var k := EndIndex(events);
    if k < |events| then events[..k + 1] else events
  }

  /** The text of the ok frames among `events`, in arrival order. */
  function OkContents(events: seq<Event>): string
  {
    if events == [] then ""
    else
      var last := events[|events| - 1];
      OkContents(events[..|events| - 1]) + (if IsOk(last) then last.frame.content else "")
  }

  /** The function call of the last ok frame among `events` that carries
      one, or `fc` when none does. */
  function LastFunctionCall(fc: Json, events: seq<Event>): Json
  {
    if events == [] then fc
    else
      var last := events[|events| - 1];
      if IsOk(last) && last.frame.functionCall.Some? then last.frame.functionCall.value
      else LastFunctionCall(fc, events[..|events| - 1])
  }

  /** The usage of the last ok frame among `events` that has one, or `u`
      when none does. */
  function LastUsage(u: Json, events: seq<Event>): Json
  {
    if events == [] then u
    else
      var last := events[|events| - 1];
      if IsOk(last) && last.frame.usage.Some? then last.frame.usage.value
      else LastUsage(u, events[..|events| - 1])
  }

  lemma {:induction false} OkContentsCons(e: Event, events: seq<Event>)
    ensures OkContents([e] + events) == (if IsOk(e) then e.frame.content else "") + OkContents(events)
    decreases |events|
  {
    if events != [] {
      var all := [e] + events;
      assert all[..|all| - 1] == [e] + events[..|events| - 1];
      OkContentsCons(e, events[..|events| - 1]);
    } else {
      assert [e][..0] == [];
    }
  }

  lemma {:induction false} LastFunctionCallCons(fc: Json, e: Event, events: seq<Event>)
    ensures LastFunctionCall(fc, [e] + events)
         == LastFunctionCall(if IsOk(e) && e.frame.functionCall.Some? then e.frame.functionCall.value else fc,
                             events)
    decreases |events|
  {
    if events != [] {
      var all := [e] + events;
      assert all[..|all| - 1] == [e] + events[..|events| - 1];
      LastFunctionCallCons(fc, e, events[..|events| - 1]);
    } else {
      assert [e][..0] == [];
    }
  }

  lemma {:induction false} LastUsageCons(u: Json, e: Event, events: seq<Event>)
    ensures LastUsage(u, [e] + events)
         == LastUsage(if IsOk(e) && e.frame.usage.Some? then e.frame.usage.value else u, events)
    decreases |events|
  {
    if events != [] {
      var all := [e] + events;
      assert all[..|all| - 1] == [e] + events[..|events| - 1];
      LastUsageCons(u, e, events[..|events| - 1]);
    } else {
      assert [e][..0] == [];
    }
  }

  /** A session appends the text of every ok frame it handles, in order, to
      whatever `answer` already held (it is never reset); `function_call`
      and `usage` are those of the last handled frame that carried them;
      nothing after the ending event is looked at; and the connection is
      closed exactly when some event ends the session. */
  lemma {:induction false} DriveMeaning(s: State, events: seq<Event>)
    ensures var handled := Handled(events);
      Drive(s, events)
      == Session(State(s.answer + OkContents(handled),
                       LastFunctionCall(s.functionCall, handled),
                       LastUsage(s.usage, handled)),
                 EndIndex(events) < |events|)
    decreases |events|
  {
    if events == [] {
    } else {
      var e := events[0];
      var handled := Handled(events);
      if Ends(e) {
        assert handled == [e] + [] by { assert events[..1] == [e]; }
        OkContentsCons(e, []);
        LastFunctionCallCons(s.functionCall, e, []);
        LastUsageCons(s.usage, e, []);
      } else {
        var rest := events[1..];
        var s' := Apply(s, e.frame);
        assert handled == [e] + Handled(rest) by {
          if EndIndex(rest) < |rest| {
            assert events[..EndIndex(events) + 1] == [e] + rest[..EndIndex(rest) + 1];
          } else {
            assert events == [e] + rest;
          }
        }
        DriveMeaning(s', rest);
        OkContentsCons(e, Handled(rest));
        LastFunctionCallCons(s.functionCall, e, Handled(rest));
        LastUsageCons(s.usage, e, Handled(rest));
      }
    }
  }

  /** Events that do not end the session are handled one after the other:
      what follows them starts from the state they leave. */
  lemma {:induction false} DriveAppend(s: State, prefix: seq<Event>, rest: seq<Event>)
    requires forall i :: 0 <= i < |prefix| ==> !Ends(prefix[i])
    ensures !Drive(s, prefix).closed
    ensures Drive(s, prefix + rest) == Drive(Drive(s, prefix).state, rest)
    decreases |prefix|
  {
    if prefix != [] {
      assert (prefix + rest)[1..] == prefix[1..] + rest;
      DriveAppend(Apply(s, prefix[0].frame), prefix[1..], rest);
    } else {
      assert prefix + rest == rest;
    }
  }

  /** A frame with a non-zero code ends the session and leaves the three
      fields as the frames before it left them; no later event is handled. */
  lemma ErrorEndsSession(s: State, prefix: seq<Event>, e: Event, rest: seq<Event>)
    requires forall i :: 0 <= i < |prefix| ==> !Ends(prefix[i])
    requires IsError(e)
    ensures Drive(s, prefix + [e] + rest) == Session(Drive(s, prefix).state, true)
  {
    assert prefix + [e] + rest == prefix + ([e] + rest);
    DriveAppend(s, prefix, [e] + rest);
  }

  /** Three ok frames "A", "B", "C" with statuses 1, 1, 2 and usage on the
      last one only: the answer is "ABC", the connection is closed by the
      third frame, and a frame after it is never handled. */
  lemma ThreeFrameSession(u: Json, late: Event)
    ensures var events := [Received(Frame(0, 1, "A", None, None), 0),
                           Received(Frame(0, 1, "B", None, None), 0),
                           Received(Frame(0, 2, "C", None, Some(u)), 0),
                           late];
      && EndIndex(events) == 2
      && Drive(Initial, events) == Session(State("ABC", Null, u), true)
  {
    var events := [Received(Frame(0, 1, "A", None, None), 0),
                   Received(Frame(0, 1, "B", None, None), 0),
                   Received(Frame(0, 2, "C", None, Some(u)), 0),
                   late];
    assert events[1..][0] == events[1] && events[1..][1..] == events[2..];
    assert events[2..][0] == events[2];
    assert EndIndex(events[2..]) == 0;
    assert EndIndex(events[1..]) == 1;
    var s1 := State("A", Null, Null);
    var s2 := State("AB", Null, Null);
    assert Apply(Initial, events[0].frame) == s1;
    assert Apply(s1, events[1].frame) == s2;
    assert Apply(s2, events[2].frame) == State("ABC", Null, u);
    assert Drive(s2, events[2..]) == Session(State("ABC", Null, u), true);
    assert Drive(s1, events[1..]) == Drive(s2, events[2..]);
  }

  /** A status-2 frame without usage does not close the connection: the
      session goes on to the next event. */
  lemma DoneWithoutUsageKeepsOpen(s: State, content: string, rest: seq<Event>)
    ensures Drive(s, [Received(Frame(0, StatusDone, content, None, None), 0)] + rest)
         == Drive(State(s.answer + content, s.functionCall, s.usage), rest)
  {
    var e := Received(Frame(0, StatusDone, content, None, None), 0);
    assert ([e] + rest)[1..] == rest;
  }

  /** The completion object of lines 193-211: one choice holding the
      answer as the assistant's message, and, when a function call was
      captured, the same object added as a tool call and as
      `function_call`. Its keys are `choices` then `usage`. */
  function Completion(s: State): (r: Json)
    ensures r.Obj? && Keys(r.fields) == ["choices", "usage"]
  {
    Obj([("choices", Arr([Obj([("index", Int(0)),
                                ("message", Obj(CompletionMessage(s))),
                                ("finish_reason", Str("stop"))])])),
         ("usage", s.usage)])
  }

  function ToolCall(functionCall: Json): Json
  {
    Obj([("id", Str("tool-call-1")), ("type", Str("function")), ("function", functionCall)])
  }

  /** Where the message of the single choice sits in a completion. */
  const MessagePath: seq<Selector> := [K("choices"), I(0), K("message")]

  /** The message dict of a completion. */
  function CompletionMessage(s: State): seq<(string, Json)>
  {
    var message := [("role", Str("assistant")), ("content", Str(s.answer))];
    if s.functionCall != Null then
      Put(Put(message, "tool_calls", Arr([ToolCall(s.functionCall)])), "function_call", s.functionCall)
    else message
  }

  lemma MessageEntries(s: State)
    ensures var m := CompletionMessage(s);
      && Lookup(m, "role") == Some(Str("assistant"))
      && Lookup(m, "content") == Some(Str(s.answer))
      && Lookup(m, "tool_calls") == (if s.functionCall != Null then Some(Arr([ToolCall(s.functionCall)])) else None)
      && Lookup(m, "function_call") == (if s.functionCall != Null then Some(s.functionCall) else None)
  {
    var message := [("role", Str("assistant")), ("content", Str(s.answer))];
    assert Keys(message) == ["role", "content"];
    if s.functionCall != Null {
      MessageWithCall(message, Arr([ToolCall(s.functionCall)]), s.functionCall);
    } else {
      LookupDistinct(message, 0);
      LookupDistinct(message, 1);
    }
  }

  lemma MessageWithCall(message: seq<(string, Json)>, toolCalls: Json, fc: Json)
    requires Keys(message) == ["role", "content"]
    ensures var m := Put(Put(message, "tool_calls", toolCalls), "function_call", fc);
      && Lookup(m, "role") == Lookup(message, "role")
      && Lookup(m, "content") == Lookup(message, "content")
      && Lookup(m, "tool_calls") == Some(toolCalls)
      && Lookup(m, "function_call") == Some(fc)
  {
    var m1 := message + [("tool_calls", toolCalls)];
    AppendCall(message, toolCalls, fc);
    LookupAppend(message, [("tool_calls", toolCalls)], "role");
    LookupAppend(message, [("tool_calls", toolCalls)], "content");
    LookupAppend(message, [("tool_calls", toolCalls)], "tool_calls");
    LookupAppend(m1, [("function_call", fc)], "role");
    LookupAppend(m1, [("function_call", fc)], "content");
    LookupAppend(m1, [("function_call", fc)], "tool_calls");
    LookupAppend(m1, [("function_call", fc)], "function_call");
  }

  lemma AppendCall(message: seq<(string, Json)>, toolCalls: Json, fc: Json)
    requires Keys(message) == ["role", "content"]
    ensures Keys(message + [("tool_calls", toolCalls)]) == ["role", "content", "tool_calls"]
    ensures Put(Put(message, "tool_calls", toolCalls), "function_call", fc)
         == (message + [("tool_calls", toolCalls)]) + [("function_call", fc)]
  {
    PutNew(message, "tool_calls", toolCalls);
    KeysAfterCall(message, toolCalls);
    PutNew(message + [("tool_calls", toolCalls)], "function_call", fc);
  }

  lemma KeysAfterCall(message: seq<(string, Json)>, toolCalls: Json)
    requires Keys(message) == ["role", "content"]
    ensures Keys(message + [("tool_calls", toolCalls)]) == ["role", "content", "tool_calls"]
  {
    KeysAppend(message, [("tool_calls", toolCalls)]);
    assert Keys([("tool_calls", toolCalls)]) == ["tool_calls"];
  }

  /** The completion has one choice, at index 0, whose message is the
      assistant's and holds the whole answer, with finish reason "stop", and
      the usage beside it; `tool_calls` (a list of exactly one call, with
      id "tool-call-1" and type "function") and `function_call` are both present exactly when a
      function call was captured, and both carry that same object. */
  lemma CompletionShape(s: State)
    ensures var r := Completion(s);
      && At(r, [K("choices")]).Some? && At(r, [K("choices")]).value.Arr?
      && |At(r, [K("choices")]).value.items| == 1
      && At(r, [K("choices"), I(0), K("index")]) == Some(Int(0))
      && At(r, [K("choices"), I(0), K("finish_reason")]) == Some(Str("stop"))
      && At(r, [K("usage")]) == Some(s.usage)
      && At(r, MessagePath + [K("role")]) == Some(Str("assistant"))
      && At(r, MessagePath + [K("content")]) == Some(Str(s.answer))
      && (At(r, MessagePath + [K("tool_calls")]).Some? <==> s.functionCall != Null)
      && (At(r, MessagePath + [K("function_call")]).Some? <==> s.functionCall != Null)
      && (s.functionCall != Null ==>
            && At(r, MessagePath + [K("tool_calls")]) == Some(Arr([ToolCall(s.functionCall)]))
            && At(r, MessagePath + [K("tool_calls"), I(0), K("function")]) == Some(s.functionCall)
            && At(r, MessagePath + [K("tool_calls"), I(0), K("id")]) == Some(Str("tool-call-1"))
            && At(r, MessagePath + [K("tool_calls"), I(0), K("type")]) == Some(Str("function"))
            && At(r, MessagePath + [K("function_call")]) == Some(s.functionCall))
  {
    CompletionTop(s);
    MessageUnder(s, [K("role")]);
    MessageUnder(s, [K("content")]);
    MessageUnder(s, [K("tool_calls")]);
    MessageUnder(s, [K("function_call")]);
    MessageUnder(s, [K("tool_calls"), I(0), K("function")]);
    MessageUnder(s, [K("tool_calls"), I(0), K("id")]);
    MessageUnder(s, [K("tool_calls"), I(0), K("type")]);
    MessageShape(s);
  }

  /** The entries of a completion around its message. */
  lemma CompletionTop(s: State)
    ensures var r := Completion(s);
      && At(r, [K("choices")]).Some? && At(r, [K("choices")]).value.Arr?
      && |At(r, [K("choices")]).value.items| == 1
      && At(r, [K("choices"), I(0), K("index")]) == Some(Int(0))
      && At(r, [K("choices"), I(0), K("finish_reason")]) == Some(Str("stop"))
      && At(r, [K("usage")]) == Some(s.usage)
  {
    var r := Completion(s);
    var choice := Obj([("index", Int(0)), ("message", Obj(CompletionMessage(s))), ("finish_reason", Str("stop"))]);
    LookupDistinct(r.fields, 0);
    LookupDistinct(r.fields, 1);
    AtOne(r, "choices");
    AtOne(r, "usage");
    ChoicePaths(r, choice);
    LookupDistinct(choice.fields, 0);
    LookupDistinct(choice.fields, 2);
    AtOne(choice, "index");
    AtOne(choice, "finish_reason");
  }

  /** A path through the message of a completion continues in the message. */
  lemma MessageUnder(s: State, rest: seq<Selector>)
    ensures At(Completion(s), MessagePath + rest) == At(Obj(CompletionMessage(s)), rest)
  {
    var r := Completion(s);
    var choice := Obj([("index", Int(0)), ("message", Obj(CompletionMessage(s))), ("finish_reason", Str("stop"))]);
    LookupDistinct(r.fields, 0);
    ChoicePaths(r, choice);
    LookupDistinct(choice.fields, 1);
    AtOne(choice, "message");
    AtAppend(r, MessagePath, rest);
  }

  /** The message entries, read by paths. */
  lemma MessageShape(s: State)
    ensures var m := Obj(CompletionMessage(s));
      && At(m, [K("role")]) == Some(Str("assistant"))
      && At(m, [K("content")]) == Some(Str(s.answer))
      && (At(m, [K("tool_calls")]).Some? <==> s.functionCall != Null)
      && (At(m, [K("function_call")]).Some? <==> s.functionCall != Null)
      && (s.functionCall != Null ==>
            && At(m, [K("tool_calls")]) == Some(Arr([ToolCall(s.functionCall)]))
            && At(m, [K("tool_calls"), I(0), K("function")]) == Some(s.functionCall)
            && At(m, [K("tool_calls"), I(0), K("id")]) == Some(Str("tool-call-1"))
            && At(m, [K("tool_calls"), I(0), K("type")]) == Some(Str("function"))
            && At(m, [K("function_call")]) == Some(s.functionCall))
  {
    var message := Obj(CompletionMessage(s));
    MessageEntries(s);
    AtOne(message, "role");
    AtOne(message, "content");
    AtOne(message, "tool_calls");
    AtOne(message, "function_call");
    if s.functionCall != Null {
      ToolCallEntries(s.functionCall);
      AtUnder(message, "tool_calls", Arr([ToolCall(s.functionCall)]), [I(0), K("function")]);
      AtUnder(message, "tool_calls", Arr([ToolCall(s.functionCall)]), [I(0), K("id")]);
      AtUnder(message, "tool_calls", Arr([ToolCall(s.functionCall)]), [I(0), K("type")]);
    }
  }

  /** Paths into the single choice. */
  lemma ChoicePaths(r: Json, choice: Json)
    requires r.Obj? && Lookup(r.fields, "choices") == Some(Arr([choice]))
    requires choice.Obj?
    ensures At(r, [K("choices"), I(0), K("index")]) == At(choice, [K("index")])
    ensures At(r, [K("choices"), I(0), K("finish_reason")]) == At(choice, [K("finish_reason")])
    ensures At(r, MessagePath) == At(choice, [K("message")])
  {
    AtUnder(r, "choices", Arr([choice]), [I(0), K("index")]);
    AtUnder(r, "choices", Arr([choice]), [I(0), K("finish_reason")]);
    AtUnder(r, "choices", Arr([choice]), [I(0), K("message")]);
    assert [K("choices"), I(0), K("index")] == [K("choices")] + [I(0), K("index")];
    assert [K("choices"), I(0), K("finish_reason")] == [K("choices")] + [I(0), K("finish_reason")];
    assert MessagePath == [K("choices")] + [I(0), K("message")];
    assert [I(0), K("index")][1..] == [K("index")];
    assert [I(0), K("finish_reason")][1..] == [K("finish_reason")];
    assert [I(0), K("message")][1..] == [K("message")];
  }

  lemma ToolCallEntries(fc: Json)
    ensures At(Arr([ToolCall(fc)]), [I(0), K("function")]) == Some(fc)
    ensures At(Arr([ToolCall(fc)]), [I(0), K("id")]) == Some(Str("tool-call-1"))
    ensures At(Arr([ToolCall(fc)]), [I(0), K("type")]) == Some(Str("function"))
  {
    var t := ToolCall(fc);
    LookupDistinct(t.fields, 0);
    LookupDistinct(t.fields, 1);
    LookupDistinct(t.fields, 2);
    AtOne(t, "function");
    AtOne(t, "id");
    AtOne(t, "type");
    assert [I(0), K("function")][1..] == [K("function")];
    assert [I(0), K("id")][1..] == [K("id")];
    assert [I(0), K("type")][1..] == [K("type")];
  }
}
