# SparkChat protocol adapter, modelled in Dafny

`SparkChat` (spark_chat.py) turns an OpenAI-style chat request into one
WebSocket session with the Spark chat service. It then gives the answer
back in one of two ways: as one aggregated completion (`chatCompletion`),
or as a stream of Server-Sent Events lines (`chatCompletionStream`).

This project models the protocol logic of that class:

- **`create_url`** (`Signer`): the signing string, the authorization value
  and the query string of the signed URL. The clock and the cryptographic
  and encoding library calls are parameters.
- **`generate_params`** (`Encoder`): the request dict, with its one
  conditional key `payload.functions`.
- **`on_message`** (`Client.SparkChat.OnMessage`, specified in
  `Accumulator`): how one frame updates the object fields `answer`,
  `function_call` and `usage`, and when it closes the connection.
- **`chatCompletion`** (`Client.SparkChat.ChatCompletion`): frames are handed
  to `OnMessage` until the connection closes. The completion dict is then
  built from the fields, and its shape is stated in `Accumulator`.
- **`chatCompletionStream`** (`Client.SparkChat.ChatCompletionStream`,
  specified in `Stream`): the generator's receive loop, as the lines it
  yields for a given sequence of inbound events.
- **`generate_random_id`** (`RandomId`): 28 characters drawn from the
  ASCII letters and digits.

Python dicts are ordered lists of entries (`Json.Obj`). `d[k] = v` is
`Json.Put`, and a path lookup such as `r["choices"][0]["message"]` is
`Json.At`. Python's None is `Json.Null`.

The inbound side of a connection is a finite sequence of `Protocol.Event`s.
Each event is either a decoded frame together with the `int(time())` read
for it, or the peer closing the connection. When the sequence ends without
a terminal event, the real call would still be blocked in its receive.
`chatCompletion` then returns no completion (`None`), and the stream has
yielded nothing more.

Behaviour of the code as written that the model keeps:

- `on_message` reads `payload.usage` without checking that it is there.
  A frame without usage raises KeyError after `answer` and `function_call`
  are updated and before the status is checked. The model relies on the
  websocket-client library here: its `WebSocketApp` catches an exception
  raised in the `on_message` callback, passes it to `on_error` and keeps
  reading frames. So a status-2 frame without usage does not close the
  connection. The model calls this reaction `Raise`.
- `answer`, `function_call` and `usage` are class attributes. No call
  resets them, so an answer accumulated by one `chatCompletion` call stays
  at the front of the next call's answer on the same object.

Where the code and the prose design of the system disagree, the model
follows the code:

- A frame with a non-zero code makes the stream stop with no `[DONE]`
  line. The design says a DONE marker is emitted.
- A frame with a non-zero code in `chatCompletion` closes the connection,
  and the completion is still built from whatever was accumulated. The
  design says no partial result is returned.
- `usage` is described as optional in a frame, but `on_message` requires
  it, as above.

## Model

| member | source | states |
|---|---|---|
| Client.SparkChat.constructor | spark_chat.py:20-32 | the configuration holds the arguments; `answer`, `function_call` and `usage` start as the class defaults `""`, None, None |
| Client.SparkChat.OnMessage | spark_chat.py:85-103 | the fields become `Apply(old fields, frame)` and the reaction is `React(frame)`: an error frame changes nothing and closes; an ok frame replaces `function_call` only when it has the key, appends the content, replaces `usage` (or raises KeyError without it) and closes only on status 2 |
| Client.SparkChat.ChatCompletion | spark_chat.py:175-212 | returns the signed URL and the request (temperature and `max_tokens` default to 0.7 and 2048); afterwards the fields are those of the session driven from the old fields; `answer` is the old answer followed by the text of every handled ok frame; a completion is returned exactly when some event ended the session, and it is `Completion` of the final fields |
| Client.SparkChat.ChatCompletionStream | spark_chat.py:124-172 | returns the signed URL and the request (with the same defaults); the yielded lines are exactly `Emitted(GenerateRandomId(draw), events)`; the object's fields are not written |
| Accumulator.Drive | spark_chat.py:180-191 | `run_forever` handing each frame to `on_message` until the connection is closed (a KeyError is reported and reading goes on); the old `answer` always stays at the front of the new one |
| Accumulator.DriveMeaning | spark_chat.py:85-103 | a session leaves `answer` as the old answer followed by the in-order contents of the ok frames up to and including the ending event; `function_call` and `usage` are those of the last handled frame carrying them; the connection is closed exactly when some event ends the session |
| Accumulator.EndIndex | spark_chat.py:88-103 | the position of the first event that closes the connection: no earlier event does |
| Accumulator.DriveAppend | spark_chat.py:85-103 | frames that do not end the session are handled one after another, and the session goes on from the fields they leave |
| Accumulator.ErrorEndsSession | spark_chat.py:88-91 | a frame with a non-zero code closes the connection and leaves all three fields as the earlier frames left them; no later event is handled |
| Accumulator.ThreeFrameSession | spark_chat.py:93-103 | frames "A", "B", "C" with statuses 1, 1, 2 (usage only on the last) give the answer "ABC", close on the third frame, and never handle a fourth |
| Accumulator.DoneWithoutUsageKeepsOpen | spark_chat.py:100-103 | a status-2 frame without usage appends its content but does not close the connection |
| Accumulator.Completion | spark_chat.py:193-211 | the completion dict built from the fields after the session; it is a dict whose keys are `choices` then `usage` |
| Accumulator.CompletionShape | spark_chat.py:193-211 | the completion has one choice, index 0, role "assistant", content equal to `answer`, finish reason "stop", and the usage; `tool_calls` (a list of exactly one call, with id "tool-call-1" and type "function") and `function_call` are present exactly when a function call was captured, and both carry that object |
| Accumulator.MessageShape | spark_chat.py:197-211 | the message dict read by key: role, content, and `tool_calls` (the one-call list) and `function_call` present exactly when there is a function call |
| Stream.Emitted | spark_chat.py:131-172 | the generator's receive loop as the lines it yields for the events: nothing after an error frame, a chunk per non-empty ok frame, DONE on status 2 or a peer close; never more lines than events plus the DONE line |
| Stream.EmittedMeaning | spark_chat.py:131-172 | the yielded lines are the chunks of the non-empty ok frames up to the event that stops the loop, then one DONE exactly when the loop stopped on a peer close or a status-2 frame rather than on an error frame |
| Stream.StopIndex | spark_chat.py:132-172 | the position of the first event that breaks the loop: no earlier event does |
| Stream.DoneOnlyLast | spark_chat.py:165-172 | `data: [DONE]` is yielded at most once, and only as the last line |
| Stream.DoneIff | spark_chat.py:138-172 | DONE is yielded exactly when the loop stopped, and not on an error frame |
| Stream.ChunksAreData | spark_chat.py:148-163 | every chunk line has id "chatcmpl-" followed by the thread id, object "chat.completion.chunk", model "spark-ai", one choice with index 0, role "assistant", non-empty content and no finish reason |
| Stream.SameId | spark_chat.py:131-163 | every chunk line of one stream carries the same id "chatcmpl-" + thread id, and non-empty content |
| Stream.EmittedStep | spark_chat.py:143-168 | an ok frame with status other than 2 yields a chunk line exactly when its content is non-empty, and the lines of later events follow |
| Stream.EmittedAppend | spark_chat.py:132-168 | frames that do not stop the loop yield their chunks, and then the lines of what follows |
| Stream.ErrorIsSilent | spark_chat.py:138-141 | after an error frame nothing more is yielded, whatever follows |
| Stream.SuppressedThenDone | spark_chat.py:162-168 | an empty first frame yields nothing; a following status-2 frame "Hi" yields its chunk and then DONE; a later close is never reached |
| Stream.RenderIsOneEvent | spark_chat.py:163-171 | each yielded text is one Server-Sent Events event: the single line `data: <payload>` followed by a blank line |
| Stream.MakeChunk | spark_chat.py:148-160 | the chunk has the stream's id, the `created` time read for the frame, and one choice at index 0 whose delta is the assistant's with the frame's content verbatim and no finish reason |
| Stream.Render | spark_chat.py:163-171 | the text of a yielded line starts with the `data: ` field name and ends with the blank line that closes the event |
| Stream.ChunkId | spark_chat.py:149 | the chunk id is "chatcmpl-" followed by the thread id |
| Encoder.GenerateParams | spark_chat.py:105-122 | the request is a dict: the literal of lines 106-119, with `payload.functions` assigned in place when there are functions |
| Encoder.TopLevel | spark_chat.py:105-122 | the request has the keys header, parameter, payload in that order, with the header, the chat parameters and the payload as built |
| Encoder.DefaultSampling | spark_chat.py:105 | a request built without sampling arguments has temperature 0.7 and `max_tokens` 2048 |
| Encoder.ParamsHeader | spark_chat.py:106-115 | `app_id`, `domain`, `temperature` and `max_tokens` are the configured and given values; `uid` is "verysmallwoods" and `auditing` is "default" for every request |
| Encoder.ParamsPayload | spark_chat.py:116-121 | `payload.message.text` is the messages verbatim; `payload.functions` is present exactly when functions is not None and not empty, and then equals `{"text": functions}`; the payload keys are message then functions |
| Signer.SignatureOrigin | spark_chat.py:43-45 | the signing string is the host line, the date line and the request line joined by line feeds |
| Signer.Signature | spark_chat.py:48-54 | base64 of the HMAC-SHA256 of the signing string under the API secret; when `b64encode` gives base64 text, so does the signature, and it holds no comma or quote |
| Signer.SignatureOriginLines | spark_chat.py:43-45 | the signing string is the three lines `host: <host>`, `date: <date>` and `GET <path> HTTP/1.1` |
| Signer.SignatureOriginInjective | spark_chat.py:43-45 | different hosts, dates or paths never give the same signing string |
| Signer.AuthorizationOrigin | spark_chat.py:56 | the authorization value is the `api_key`, `algorithm`, `headers` and `signature` fields joined by commas |
| Signer.Authorization | spark_chat.py:56-60 | the authorization value base64-encoded again; when `b64encode` gives base64 text, the result is base64 text |
| Signer.SignedAuthorizationFields | spark_chat.py:48-56 | for every request whose API key has no comma, the authorization value splits at commas into its four fields, the last quoting the request's own signature |
| Signer.AuthorizationFields | spark_chat.py:56 | the authorization value is four comma-separated fields: the API key, `algorithm="hmac-sha256"`, `headers="host date request-line"` and the signature |
| Signer.AuthorizationNamesAlgorithm | spark_chat.py:56 | the authorization value always contains `algorithm="hmac-sha256"` |
| Signer.CreateUrl | spark_chat.py:39-63 | the signed URL starts with the base URL and `?`; the query after it is read back by `Signer.CreateUrlParses` |
| Signer.CreateUrlParses | spark_chat.py:61-63 | the URL reads back as the base URL, then the query parameters authorization, date and host, in that order, with their values quoted |
| Signer.ParseQuery | spark_chat.py:61-63 | the url-encoded query splits back into its three parameters when no quoted value holds `&` or `=` |
| RandomId.GenerateRandomId | spark_chat.py:34-37 | the id has 28 characters, each an ASCII letter or digit |
| RandomId.AlphabetChars | spark_chat.py:35 | the alphabet has 62 characters: the lowercase letters, the uppercase letters, then the digits |
| RandomId.EveryIdReachable | spark_chat.py:34-37 | every string of 28 ASCII letters and digits is the id of some entropy source |
| Json.Put | spark_chat.py:121 | `d[k] = v` makes `k` map to `v` and leaves every other key's value alone |
| Json.PutKeys | spark_chat.py:121 | assigning an existing key keeps the key order; a new key goes last |

## Left out

- The WebSocket transport is not modelled. This covers `connect`, `WebSocketApp`, `run_forever` and its SSL options, `send` and `recv`. The inbound side is a given sequence of events, and the outbound request is returned rather than sent.
- The thread that `on_open`/`run` starts to send the request is not modelled, because it is concurrency. The request is taken as sent before any frame is handled.
- `on_error` and `on_close` are not modelled, because they only print.
- HMAC-SHA256, base64, UTF-8 encoding and `quote_plus` are uninterpreted functions in `Signer.Primitives`. The contracts of `Signer.Signature` and `Signer.Authorization` assume only that base64 output uses the alphabet of section 4 of RFC 4648. The URL read-back assumes only that `quote_plus` leaves unreserved text alone and escapes `&` and `=`.
- `urlparse` in the constructor is not modelled, because it is a library call. The host and the path are constructor arguments.
- The clock is not modelled. `datetime.now`/`format_date_time` is the `date` parameter, and `time()` is the `now` of each event.
- `secrets.choice` is not modelled. It is the `draw` parameter, and the i-th draw picks index `draw(i) % 62`.
- `json.dumps` and `json.loads` are not modelled. Frames are decoded values (`Protocol.Frame`), and the text of a chunk line uses a `dumps` parameter.
- Frames that are not shaped as expected are not modelled: invalid JSON, or a missing `header`, `code`, `choices`, `status`, `text` or `content`. The source raises on them. Only a missing `function_call` or `usage` is modelled.
- In the stream, only `ConnectionClosed` is caught, and a frame without `usage` is harmless there because the stream never reads it.
- `print` logging is left out.
- `temperature` is a float that is only passed through, so it is an uninterpreted `real`.
- Ways `run_forever` can return other than a close are not modelled, for example network errors reported through `on_error`.
- Encoder.GenerateParams: its own contract states only that the request is a dict. Its contents are stated by `Encoder.TopLevel`, `Encoder.ParamsHeader` and `Encoder.ParamsPayload`.
