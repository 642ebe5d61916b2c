/** The `SparkChat` object: its three accumulation fields, the frame
    handler `on_message` that updates them, the aggregating call
    `chatCompletion` and the streaming call `chatCompletionStream`.
    The connection's inbound side is the sequence `events`; the clock and
    the entropy source are the parameters `date`, `Event.now` and `draw`. */
module Client {
  import opened Json
  import opened Protocol
  import opened Accumulator
  import Signer
  import Encoder
  import RandomId
  import Stream
  import Text

  class SparkChat {
    const config: Config

    /** The fields of lines 21-23; they are class attributes in the source,
        so they start empty and are never reset by a call. */
    var answer: string
    var functionCall: Json
    var usage: Json

    /** The three accumulation fields as one value. */
    function Fields(): State
      reads this
    {
      State(answer, functionCall, usage)
    }

    /** `host` and `path` are what `urlparse(sparkChatUrl)` gives as
        `netloc` and `path`. */
    constructor(appId: string, apiKey: string, apiSecret: string, sparkChatUrl: string,
                host: string, path: string, domain: string)
      ensures config == Config(appId, apiKey, apiSecret, sparkChatUrl, host, path, domain)
      ensures Fields() == Initial
    {
      config := Config(appId, apiKey, apiSecret, sparkChatUrl, host, path, domain);
      answer := "";
      functionCall := Null;
      usage := Null;
    }

    /** `on_message`: a frame with a non-zero code only closes the
        connection; an ok frame replaces the function call when it carries
        one, appends its content and replaces the usage, and closes the
        connection on status 2. A frame without usage raises KeyError
        between the answer and the usage updates. */
    method OnMessage(frame: Frame) returns (reaction: Reaction)
      modifies this
      ensures Fields() == Apply(old(Fields()), frame)
      ensures reaction == React(frame)
    {
      if frame.code != 0 {
        reaction := Close;
      } else {
        if frame.functionCall.Some? {
          functionCall := frame.functionCall.value;
        }
        answer := answer + frame.content;
        if frame.usage.None? {
          reaction := Raise;
        } else {
          usage := frame.usage.value;
          if frame.status == StatusDone {
            reaction := Close;
          } else {
            reaction := Continue;
          }
        }
      }
    }

    /** `chatCompletion`: signs the URL, sends the request built from the
        arguments, hands the frames to `OnMessage` until the connection is
        closed, and then builds the completion from the fields. When the
        events run out before the connection is closed the real call is
        still waiting, and `completion` is None. The answer left by earlier
        calls on the same object is kept, and the text of this session's
        ok frames is appended to it. */
    method ChatCompletion(messages: seq<Json>, functions: Option<seq<Json>>,
                          date: string, prims: Signer.Primitives, events: seq<Event>,
                          temperature: real := Encoder.DefaultTemperature,
                          maxTokens: int := Encoder.DefaultMaxTokens)
      returns (url: string, request: Json, completion: Option<Json>)
      modifies this
      ensures url == Signer.CreateUrl(config, date, prims)
      ensures request == Encoder.GenerateParams(config, messages, functions, temperature, maxTokens)
      ensures Fields() == Drive(old(Fields()), events).state
      ensures answer == old(answer) + OkContents(Handled(events))
      ensures completion.Some? <==> EndIndex(events) < |events|
      ensures completion.Some? ==> completion.value == Completion(Fields())
    {
      url := Signer.CreateUrl(config, date, prims);
      request := Encoder.GenerateParams(config, messages, functions, temperature, maxTokens);
      ghost var start := Fields();
      var i := 0;
      var closed := false;
      while !closed && i < |events|
        invariant 0 <= i <= |events|
        invariant closed ==> Drive(start, events) == Session(Fields(), true)
        invariant !closed ==> Drive(start, events) == Drive(Fields(), events[i..])
        decreases |events| - i
      {
        assert events[i..][0] == events[i] && events[i..][1..] == events[i + 1..];
        match events[i] {
          case PeerClosed =>
            closed := true;
          case Received(f, _) =>
            var reaction := OnMessage(f);
            if reaction == Close {
              closed := true;
            }
        }
        i := i + 1;
      }
      DriveMeaning(start, events);
      if closed {
        completion := Some(Completion(Fields()));
      } else {
        completion := None;
      }
    }

    /** `chatCompletionStream`: signs the URL, sends the request, draws the
        thread id, then yields a line per chunk and DONE as the frames
        arrive. It leaves the fields of the object alone. */
    method ChatCompletionStream(messages: seq<Json>, functions: Option<seq<Json>>,
                                date: string, prims: Signer.Primitives, draw: nat -> nat,
                                events: seq<Event>,
                                temperature: real := Encoder.DefaultTemperature,
                                maxTokens: int := Encoder.DefaultMaxTokens)
      returns (url: string, request: Json, lines: seq<Stream.Line>)
      ensures url == Signer.CreateUrl(config, date, prims)
      ensures request == Encoder.GenerateParams(config, messages, functions, temperature, maxTokens)
      ensures lines == Stream.Emitted(RandomId.GenerateRandomId(draw), events)
    {
      url := Signer.CreateUrl(config, date, prims);
      request := Encoder.GenerateParams(config, messages, functions, temperature, maxTokens);
      var threadId := RandomId.GenerateRandomId(draw);
      ghost var total := Stream.Emitted(threadId, events);
      lines := [];
      var i := 0;
      var stop := false;
      while !stop && i < |events|
        invariant 0 <= i <= |events|
        invariant stop ==> lines == total
        invariant !stop ==> lines + Stream.Emitted(threadId, events[i..]) == total
        decreases |events| - i
      {
        Stream.EmittedFrom(threadId, events, i);
        ghost var before := lines;
        match events[i] {
          case PeerClosed =>
            lines := lines + [Stream.Done];
            stop := true;
          case Received(f, now) =>
            if f.code != 0 {
              Text.ConcatEmpty(lines);
              stop := true;
            } else {
              var chunk := Stream.MakeChunk(threadId, f.content, now);
              ghost var yielded: seq<Stream.Line> := if |f.content| > 0 then [Stream.Data(chunk)] else [];
              if |f.content| > 0 {
                lines := lines + [Stream.Data(chunk)];
              } else {
                Text.ConcatEmpty(lines);
              }
              if f.status == StatusDone {
                Text.ConcatAssoc(before, yielded, [Stream.Done]);
                lines := lines + [Stream.Done];
                stop := true;
              } else {
                Text.ConcatAssoc(before, yielded, Stream.Emitted(threadId, events[i + 1..]));
              }
            }
        }
        i := i + 1;
      }
      if !stop {
        Text.ConcatEmpty(lines);
      }
    }
  }
}
