/** The lines `SparkChat.chatCompletionStream` yields for the frames it
    receives (lines 131-172): one Server-Sent Events line per chunk of
    non-empty content, then `data: [DONE]` when the answer is complete or
    the peer closed the connection, and nothing more after an error frame.
    The generator is stated as a function of the events it receives; the
    loop that yields them is `Client.SparkChat.ChatCompletionStream`. */
module Stream {
  import opened Json
  import opened Text
  import opened Protocol

  /** The fixed model name every chunk reports. */
  const ModelName: string := "spark-ai"

  /** The `object` of every chunk. */
  const ChunkObject: string := "chat.completion.chunk"

  /** The `id` every chunk of one stream carries. */
  function ChunkId(threadId: string): (id: string)
    ensures |id| == |"chatcmpl-"| + |threadId|
  {
    "chatcmpl-" + threadId
  }

  datatype Delta = Delta(role: string, content: string)

  datatype ChunkChoice = ChunkChoice(index: int, delta: Delta, finishReason: Option<string>)

  /** The chunk dict of lines 148-160. */
  datatype Chunk = Chunk(id: string, objectKind: string, created: int, model: string, choices: seq<ChunkChoice>)

  /** A yielded line: a chunk, or the `[DONE]` sentinel. */
  datatype Line = Data(chunk: Chunk) | Done

  /** The chunk built for an ok frame: `created` is the `int(time())` read
      while the frame was handled, and `finish_reason` is None. The content
      is carried verbatim as the assistant's delta of the only choice. */
  function MakeChunk(threadId: string, content: string, now: int): (c: Chunk)
    ensures c.id == "chatcmpl-" + threadId && c.created == now
    ensures |c.choices| == 1 && c.choices[0].index == 0
    ensures c.choices[0].delta == Delta("assistant", content) && c.choices[0].finishReason == None
  {
    Chunk(ChunkId(threadId), ChunkObject, now, ModelName,
          [ChunkChoice(0, Delta("assistant", content), None)])
  }

  /** Events after which the loop breaks: the peer closed the connection,
      an error frame arrived, or an ok frame had status 2. */
  predicate Stops(e: Event)
  {
    e.PeerClosed? || IsError(e) || e.frame.status == StatusDone
  }

  /** What the generator yields for `events`. A connection closed by the
      peer yields DONE; an error frame yields nothing; an ok frame yields
      its chunk when its content is not empty, then DONE if its status is 2
      or else whatever the following events yield. When the events run out
      first the generator is still waiting and has yielded nothing more.
      No event yields more than one chunk, so there are at most as many
      lines as events, and the DONE line. */
  function Emitted(threadId: string, events: seq<Event>): (lines: seq<Line>)
    ensures |lines| <= |events| + 1
    decreases |events|
  {
    if events == [] then []
    else match events[0]
      case PeerClosed => [Done]
      case Received(f, now) =>
        if f.code != 0 then []
        else
          (if |f.content| > 0 then [Data(MakeChunk(threadId, f.content, now))] else [])
          + (if f.status == StatusDone then [Done] else Emitted(threadId, events[1..]))
  }

  /** Position of the first event that stops the loop, `|events|` when none
      does. */
  function StopIndex(events: seq<Event>): (k: nat)
    ensures k <= |events|
    ensures forall i :: 0 <= i < k ==> !Stops(events[i])
    ensures k < |events| ==> Stops(events[k])
  {
    if events == [] then 0
    else if Stops(events[0]) then 0
    else 1 + StopIndex(events[1..])
  }

  /** The chunks of the ok frames among `events` whose content is not
      empty, in arrival order. */
  function Chunks(threadId: string, events: seq<Event>): seq<Line>
  {
    if events == [] then []
    else
      var last := events[|events| - 1];
      Chunks(threadId, events[..|events| - 1])
      + (if IsOk(last) && |last.frame.content| > 0
         then [Data(MakeChunk(threadId, last.frame.content, last.now))] else [])
  }

  /** Whether the stream ends with DONE: some event stopped the loop and it
      was not an error frame. */
  predicate EndsWithDone(events: seq<Event>)
  {
    StopIndex(events) < |events| && !IsError(events[StopIndex(events)])
  }

  lemma {:induction false} ChunksCons(threadId: string, e: Event, events: seq<Event>)
    ensures Chunks(threadId, [e] + events)
         == (if IsOk(e) && |e.frame.content| > 0 then [Data(MakeChunk(threadId, e.frame.content, e.now))] else [])
            + Chunks(threadId, events)
    decreases |events|
  {
    var es := [e] + events;
    if events == [] {
      assert es[..0] == [];
    } else {
      var last := events[|events| - 1];
      assert es[|es| - 1] == last;
      assert es[..|es| - 1] == [e] + events[..|events| - 1];
      ChunksCons(threadId, e, events[..|events| - 1]);
    }
  }

  /** The yielded lines are the chunks of the non-empty ok frames up to
      and including the one that stops the loop, followed by one DONE
      exactly when the loop stopped on something other than an error
      frame. */
  lemma {:induction false} EmittedMeaning(threadId: string, events: seq<Event>)
    ensures var k := StopIndex(events);
      Emitted(threadId, events)
      == Chunks(threadId, events[..if k < |events| then k + 1 else k])
         + (if EndsWithDone(events) then [Done] else [])
    decreases |events|
  {
    if events != [] {
      var e := events[0];
      var k := StopIndex(events);
      if Stops(e) {
        StopsFirst(threadId, events);
      } else {
        var rest := events[1..];
        assert events == [e] + rest;
        var k' := StopIndex(rest);
        assert k == k' + 1;
        EmittedMeaning(threadId, rest);
        EmittedStep(threadId, e, rest);
        var n := if k' < |rest| then k' + 1 else k';
        assert events[..if k < |events| then k + 1 else k] == [e] + rest[..n];
        ChunksCons(threadId, e, rest[..n]);
        if k' < |rest| {
          assert events[k] == rest[k'];
        }
        assert EndsWithDone(events) == EndsWithDone(rest);
        var first := if |e.frame.content| > 0 then [Data(MakeChunk(threadId, e.frame.content, e.now))] else [];
        ConcatAssoc(first, Chunks(threadId, rest[..n]), if EndsWithDone(rest) then [Done] else []);
      }
    }
  }

  /** The case of `EmittedMeaning` where the first event stops the loop. */
  lemma StopsFirst(threadId: string, events: seq<Event>)
    requires events != [] && Stops(events[0])
    ensures Emitted(threadId, events)
         == Chunks(threadId, events[..1]) + (if EndsWithDone(events) then [Done] else [])
  {
    var e := events[0];
    assert StopIndex(events) == 0;
    assert events[..1] == [e] + [];
    ChunksCons(threadId, e, []);
    var first := Chunks(threadId, [e]);
    ConcatEmpty(first);
    if e.PeerClosed? {
      assert first == [];
    } else if IsError(e) {
      assert first == [];
    } else {
      assert Emitted(threadId, events) == first + [Done];
    }
  }

  /** DONE is yielded at most once, and only as the last line. */
  lemma DoneOnlyLast(threadId: string, events: seq<Event>, i: nat)
    requires i < |Emitted(threadId, events)|
    requires Emitted(threadId, events)[i] == Done
    ensures i == |Emitted(threadId, events)| - 1
  {
    var k := StopIndex(events);
    var handled := events[..if k < |events| then k + 1 else k];
    EmittedMeaning(threadId, events);
    ChunksAreData(threadId, handled);
  }

  /** The stream ends with DONE exactly when the loop stopped on a close by
      the peer or a status-2 frame, and not on an error frame. */
  lemma DoneIff(threadId: string, events: seq<Event>)
    ensures Done in Emitted(threadId, events) <==> EndsWithDone(events)
  {
    var k := StopIndex(events);
    var handled := events[..if k < |events| then k + 1 else k];
    EmittedMeaning(threadId, events);
    ChunksAreData(threadId, handled);
  }

  /** Every chunk line of a stream carries the stream's one id, object and
      model, the role "assistant", a non-empty content and no finish
      reason. */
  lemma {:induction false} ChunksAreData(threadId: string, events: seq<Event>)
    ensures forall i :: 0 <= i < |Chunks(threadId, events)| ==>
      var l := Chunks(threadId, events)[i];
      && l.Data?
      && l.chunk.id == "chatcmpl-" + threadId
      && l.chunk.objectKind == "chat.completion.chunk"
      && l.chunk.model == "spark-ai"
      && |l.chunk.choices| == 1
      && l.chunk.choices[0].index == 0
      && l.chunk.choices[0].delta.role == "assistant"
      && |l.chunk.choices[0].delta.content| > 0
      && l.chunk.choices[0].finishReason == None
    decreases |events|
  {
    if events != [] {
      ChunksAreData(threadId, events[..|events| - 1]);
    }
  }

  /** Every chunk line of the stream has the same id "chatcmpl-" followed
      by the thread id. */
  lemma SameId(threadId: string, events: seq<Event>, i: nat)
    requires i < |Emitted(threadId, events)| && Emitted(threadId, events)[i].Data?
    ensures Emitted(threadId, events)[i].chunk.id == "chatcmpl-" + threadId
    ensures |Emitted(threadId, events)[i].chunk.choices| == 1
    ensures Emitted(threadId, events)[i].chunk.choices[0].delta.content != ""
  {
    var k := StopIndex(events);
    var handled := events[..if k < |events| then k + 1 else k];
    EmittedMeaning(threadId, events);
    ChunksAreData(threadId, handled);
  }

  /** Frames that do not stop the loop are handled one after the other:
      the lines of what follows them come after theirs. */
  lemma {:induction false} EmittedAppend(threadId: string, prefix: seq<Event>, rest: seq<Event>)
    requires forall i :: 0 <= i < |prefix| ==> !Stops(prefix[i])
    ensures Emitted(threadId, prefix + rest) == Chunks(threadId, prefix) + Emitted(threadId, rest)
    decreases |prefix|
  {
    if prefix == [] {
      assert prefix + rest == rest;
    } else {
      var e := prefix[0];
      assert prefix + rest == [e] + (prefix[1..] + rest);
      assert prefix == [e] + prefix[1..];
      EmittedStep(threadId, e, prefix[1..] + rest);
      EmittedAppend(threadId, prefix[1..], rest);
      ChunksCons(threadId, e, prefix[1..]);
      var first := if |e.frame.content| > 0 then [Data(MakeChunk(threadId, e.frame.content, e.now))] else [];
      ConcatAssoc(first, Chunks(threadId, prefix[1..]), Emitted(threadId, rest));
    }
  }

  /** The lines of the events from position `i` on: those of the event at
      `i`, then, unless it stops the loop, those of the events after it. */
  lemma EmittedFrom(threadId: string, events: seq<Event>, i: nat)
    requires i < |events|
    ensures Emitted(threadId, events[i..])
         == if events[i].PeerClosed? then [Done]
            else if events[i].frame.code != 0 then []
            else (if |events[i].frame.content| > 0
                  then [Data(MakeChunk(threadId, events[i].frame.content, events[i].now))] else [])
                 + (if events[i].frame.status == StatusDone then [Done] else Emitted(threadId, events[i + 1..]))
  {
    assert events[i..][0] == events[i];
    assert events[i..][1..] == events[i + 1..];
  }

  /** An event that does not stop the loop is an ok frame: it yields a
      chunk line exactly when its content is not empty, and the lines of
      the events after it follow. */
  lemma EmittedStep(threadId: string, e: Event, rest: seq<Event>)
    requires !Stops(e)
    ensures Emitted(threadId, [e] + rest)
         == (if |e.frame.content| > 0 then [Data(MakeChunk(threadId, e.frame.content, e.now))] else [])
            + Emitted(threadId, rest)
  {
    assert ([e] + rest)[0] == e;
    assert ([e] + rest)[1..] == rest;
  }

  /** An error frame ends the stream silently: after the chunks of the
      frames before it, nothing is yielded, whatever follows. */
  lemma ErrorIsSilent(threadId: string, prefix: seq<Event>, e: Event, rest: seq<Event>)
    requires forall i :: 0 <= i < |prefix| ==> !Stops(prefix[i])
    requires IsError(e)
    ensures Emitted(threadId, prefix + [e] + rest) == Chunks(threadId, prefix)
  {
    assert prefix + [e] + rest == prefix + ([e] + rest);
    EmittedAppend(threadId, prefix, [e] + rest);
  }

  /** An empty first frame is suppressed; the status-2 frame after it
      yields its chunk and then DONE; a later close is never reached. */
  lemma SuppressedThenDone(threadId: string)
    ensures Emitted(threadId, [Received(Frame(0, 1, "", None, None), 10),
                               Received(Frame(0, 2, "Hi", None, None), 11),
                               PeerClosed])
         == [Data(Chunk("chatcmpl-" + threadId, "chat.completion.chunk", 11, "spark-ai",
                        [ChunkChoice(0, Delta("assistant", "Hi"), None)])),
             Done]
  {
    var events := [Received(Frame(0, 1, "", None, None), 10),
                   Received(Frame(0, 2, "Hi", None, None), 11),
                   PeerClosed];
    assert events[1..][0] == events[1];
    assert Emitted(threadId, events) == Emitted(threadId, events[1..]);
  }

  /** A line as yielded on the wire, with `dumps` standing for
      `json.dumps`: one Server-Sent Events `data` field followed by the
      blank line that ends the event. */
  function Render(line: Line, dumps: Chunk -> string): (text: string)
    ensures |text| >= |"data: "| + 2
    ensures text[..6] == "data: " && text[|text| - 2..] == "\n\n"
  {
    match line
    case Data(c) => "data: " + dumps(c) + "\n\n"
    case Done => "data: " + "[DONE]" + "\n\n"
  }

  /** The payload a line carries in its `data` field. */
  function Payload(line: Line, dumps: Chunk -> string): string
  {
    match line
    case Data(c) => dumps(c)
    case Done => "[DONE]"
  }

  /** Each rendered line is exactly one event of the Server-Sent Events
      format (section 9.2 of the WHATWG HTML Living Standard): when the
      serialised chunk has no line break, splitting the text at line feeds
      gives the single field line `data: <payload>` and the two empty
      pieces of the terminating blank line. */
  lemma RenderIsOneEvent(line: Line, dumps: Chunk -> string)
    requires line.Data? ==> '\n' !in dumps(line.chunk)
    ensures Split(Render(line, dumps), '\n') == ["data: " + Payload(line, dumps), "", ""]
  {
    var field := "data: " + Payload(line, dumps);
    assert '\n' !in field by {
      assert forall i :: 0 <= i < |field| ==> field[i] != '\n' by {
        forall i | 0 <= i < |field| ensures field[i] != '\n' {
          if i >= 6 {
            assert field[i] == Payload(line, dumps)[i - 6];
          }
        }
      }
    }
    JoinThree(field, "", "", '\n');
    assert Render(line, dumps) == Join([field, "", ""], '\n');
    SplitJoin([field, "", ""], '\n');
  }
}
