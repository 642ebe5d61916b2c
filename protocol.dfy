/** The adapter's configuration and the decoded inbound side of one
    WebSocket session. */
module Protocol {
  import opened Json

  /** What a `SparkChat` is constructed with. `host` and `path` are the
      `netloc` and `path` of `sparkChatUrl` as Python's `urlparse` splits
      them. */
  datatype Config = Config(
    appId: string,
    apiKey: string,
    apiSecret: string,
    sparkChatUrl: string,
    host: string,
    path: string,
    domain: string)

  /** One decoded server frame, reduced to the fields the adapter reads:
      `header.code`, `payload.choices.status`,
      `payload.choices.text[0].content`, whether `payload.choices.text[0]`
      has a `function_call` key (and its value), and whether `payload` has
      a `usage` key (and its value). The payload of a frame whose code is
      not 0 is never read. */
  datatype Frame = Frame(
    code: int,
    status: int,
    content: string,
    functionCall: Option<Json>,
    usage: Option<Json>)

  /** What one receive on the connection gives: a frame, together with the
      value of `int(time())` taken while it is handled, or the peer closing
      the connection. A finite sequence of events that ends without either
      stands for a session whose next receive is still waiting. */
  datatype Event =
    | Received(frame: Frame, now: int)
    | PeerClosed

  /** The completion status that marks the last frame of a session. */
  const StatusDone: int := 2

  predicate IsOk(e: Event)
  {
    e.Received? && e.frame.code == 0
  }

  predicate IsError(e: Event)
  {
    e.Received? && e.frame.code != 0
  }
}
