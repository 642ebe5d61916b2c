/** `SparkChat.generate_params`: the request the adapter sends as the first
    frame of every session. */
module Encoder {
  import opened Json
  import opened Protocol

  /** The fixed placeholder user id sent with every request. */
  const Uid: string := "verysmallwoods"

  /** The default arguments of `generate_params`, `chatCompletion` and
      `chatCompletionStream`. */
  const DefaultTemperature: real := 0.7
  const DefaultMaxTokens: int := 2048

  /** `functions is not None and len(functions) > 0`. */
  predicate HasFunctions(functions: Option<seq<Json>>)
  {
    functions.Some? && |functions.value| > 0
  }

  /** The dict literal of lines 106-119. */
  function BaseParams(cfg: Config, messages: seq<Json>, temperature: real, maxTokens: int)
    : seq<(string, Json)>
  {
    [("header", Header(cfg)),
     ("parameter", Obj([("chat", Chat(cfg, temperature, maxTokens))])),
     ("payload", Obj([("message", Message(messages))]))]
  }

  /** The request: the dict literal, and `payload.functions` added to it in
      place when there are functions to send (lines 120-121). The
      temperature is a Python float that is only passed through. */
  function GenerateParams(cfg: Config, messages: seq<Json>, functions: Option<seq<Json>>,
                          temperature: real := DefaultTemperature,
                          maxTokens: int := DefaultMaxTokens): (r: Json)
    ensures r.Obj?
  {
    var data := BaseParams(cfg, messages, temperature, maxTokens);
    if HasFunctions(functions) then
      var payload := Put(data[2].1.fields, "functions", Obj([("text", Arr(functions.value))]));
      Obj(Put(data, "payload", Obj(payload)))
    else
      Obj(data)
  }

  function Header(cfg: Config): Json
  {
    Obj([("app_id", Str(cfg.appId)), ("uid", Str(Uid))])
  }

  function Chat(cfg: Config, temperature: real, maxTokens: int): Json
  {
    Obj([("domain", Str(cfg.domain)),
         ("temperature", Float(temperature)),
         ("max_tokens", Int(maxTokens)),
         ("auditing", Str("default"))])
  }

  function Message(messages: seq<Json>): Json
  {
    Obj([("text", Arr(messages))])
  }

  /** The payload dict as sent. */
  function Payload(messages: seq<Json>, functions: Option<seq<Json>>): seq<(string, Json)>
  {
    if HasFunctions(functions)
    then [("message", Message(messages)), ("functions", Obj([("text", Arr(functions.value))]))]
    else [("message", Message(messages))]
  }

  /** The three top-level entries of the request. */
  lemma TopLevel(cfg: Config, messages: seq<Json>, functions: Option<seq<Json>>,
                 temperature: real, maxTokens: int)
    ensures var r := GenerateParams(cfg, messages, functions, temperature, maxTokens);
      && Keys(r.fields) == ["header", "parameter", "payload"]
      && Lookup(r.fields, "header") == Some(Header(cfg))
      && Lookup(r.fields, "parameter") == Some(Obj([("chat", Chat(cfg, temperature, maxTokens))]))
      && Lookup(r.fields, "payload") == Some(Obj(Payload(messages, functions)))
  {
    var r := GenerateParams(cfg, messages, functions, temperature, maxTokens);
    ParamsFields(cfg, messages, functions, temperature, maxTokens);
    LookupDistinct(r.fields, 0);
    LookupDistinct(r.fields, 1);
    LookupDistinct(r.fields, 2);
  }

  /** The request's entries, whether or not `payload.functions` was added. */
  lemma ParamsFields(cfg: Config, messages: seq<Json>, functions: Option<seq<Json>>,
                     temperature: real, maxTokens: int)
    ensures GenerateParams(cfg, messages, functions, temperature, maxTokens).fields
         == [("header", Header(cfg)),
             ("parameter", Obj([("chat", Chat(cfg, temperature, maxTokens))])),
             ("payload", Obj(Payload(messages, functions)))]
  {
    var data := BaseParams(cfg, messages, temperature, maxTokens);
    if HasFunctions(functions) {
      var fs := Obj([("text", Arr(functions.value))]);
      var message := ("message", Message(messages));
      assert data[2].1.fields == [message];
      assert Keys([message]) == ["message"];
      PutNew([message], "functions", fs);
      assert Put(data[2].1.fields, "functions", fs) == Payload(messages, functions);
      assert GenerateParams(cfg, messages, functions, temperature, maxTokens).fields
          == Put(data, "payload", Obj(Payload(messages, functions)));
      PutLast(data[0], data[1], data[2], Obj(Payload(messages, functions)));
    }
  }

  /** Assigning the key of the last of three entries with distinct keys. */
  lemma PutLast(a: (string, Json), b: (string, Json), c: (string, Json), value: Json)
    requires a.0 != c.0 && b.0 != c.0
    ensures Put([a, b, c], c.0, value) == [a, b, (c.0, value)]
  {
    var key := c.0;
    assert Put([c], key, value) == [(key, value)] by {
      assert [c][1..] == [];
    }
    assert Put([b, c], key, value) == [b] + [(key, value)] by {
      assert [b, c][1..] == [c];
    }
    assert Put([a, b, c], key, value) == [a] + ([b] + [(key, value)]) by {
      assert [a, b, c][1..] == [b, c];
    }
  }

  /** The identity, model and sampling fields are the configured and given
      ones, and `uid` and `auditing` are the same for every request. */
  lemma ParamsHeader(cfg: Config, messages: seq<Json>, functions: Option<seq<Json>>,
                     temperature: real, maxTokens: int)
    ensures var r := GenerateParams(cfg, messages, functions, temperature, maxTokens);
      && At(r, [K("header"), K("app_id")]) == Some(Str(cfg.appId))
      && At(r, [K("header"), K("uid")]) == Some(Str("verysmallwoods"))
      && At(r, [K("parameter"), K("chat"), K("domain")]) == Some(Str(cfg.domain))
      && At(r, [K("parameter"), K("chat"), K("temperature")]) == Some(Float(temperature))
      && At(r, [K("parameter"), K("chat"), K("max_tokens")]) == Some(Int(maxTokens))
      && At(r, [K("parameter"), K("chat"), K("auditing")]) == Some(Str("default"))
  {
    var r := GenerateParams(cfg, messages, functions, temperature, maxTokens);
    var chat := Chat(cfg, temperature, maxTokens);
    TopLevel(cfg, messages, functions, temperature, maxTokens);
    HeaderPaths(r, cfg);
    ChatPath(r, chat, "domain");
    ChatPath(r, chat, "temperature");
    ChatPath(r, chat, "max_tokens");
    ChatPath(r, chat, "auditing");
    ChatIdentity(cfg, temperature, maxTokens);
    ChatSampling(cfg, temperature, maxTokens);
  }

  lemma HeaderPaths(r: Json, cfg: Config)
    requires r.Obj? && Lookup(r.fields, "header") == Some(Header(cfg))
    ensures At(r, [K("header"), K("app_id")]) == Some(Str(cfg.appId))
    ensures At(r, [K("header"), K("uid")]) == Some(Str("verysmallwoods"))
  {
    var h := Header(cfg);
    AtUnder(r, "header", h, [K("app_id")]);
    AtUnder(r, "header", h, [K("uid")]);
    assert [K("header"), K("app_id")] == [K("header")] + [K("app_id")];
    assert [K("header"), K("uid")] == [K("header")] + [K("uid")];
    LookupDistinct(h.fields, 0);
    LookupDistinct(h.fields, 1);
    AtOne(h, "app_id");
    AtOne(h, "uid");
  }

  /** A path into the chat parameters continues in them. */
  lemma ChatPath(r: Json, chat: Json, key: string)
    requires r.Obj? && Lookup(r.fields, "parameter") == Some(Obj([("chat", chat)]))
    ensures At(r, [K("parameter"), K("chat"), K(key)]) == At(chat, [K(key)])
  {
    var parameter := Obj([("chat", chat)]);
    AtUnder(r, "parameter", parameter, [K("chat"), K(key)]);
    assert [K("parameter"), K("chat"), K(key)] == [K("parameter")] + [K("chat"), K(key)];
    LookupDistinct(parameter.fields, 0);
    AtUnder(parameter, "chat", chat, [K(key)]);
    assert [K("chat"), K(key)] == [K("chat")] + [K(key)];
  }

  /** A request built without sampling arguments asks for temperature 0.7
      and at most 2048 tokens. */
  lemma DefaultSampling(cfg: Config, messages: seq<Json>, functions: Option<seq<Json>>)
    ensures var r := GenerateParams(cfg, messages, functions);
      && At(r, [K("parameter"), K("chat"), K("temperature")]) == Some(Float(0.7))
      && At(r, [K("parameter"), K("chat"), K("max_tokens")]) == Some(Int(2048))
  {
    ParamsHeader(cfg, messages, functions, DefaultTemperature, DefaultMaxTokens);
  }

  lemma ChatIdentity(cfg: Config, temperature: real, maxTokens: int)
    ensures var chat := Chat(cfg, temperature, maxTokens);
      && At(chat, [K("domain")]) == Some(Str(cfg.domain))
      && At(chat, [K("auditing")]) == Some(Str("default"))
  {
    var chat := Chat(cfg, temperature, maxTokens);
    AtOne(chat, "domain");
    AtOne(chat, "auditing");
    LookupDistinct(chat.fields, 0);
    LookupDistinct(chat.fields, 3);
  }

  lemma ChatSampling(cfg: Config, temperature: real, maxTokens: int)
    ensures var chat := Chat(cfg, temperature, maxTokens);
      && At(chat, [K("temperature")]) == Some(Float(temperature))
      && At(chat, [K("max_tokens")]) == Some(Int(maxTokens))
  {
    var chat := Chat(cfg, temperature, maxTokens);
    AtOne(chat, "temperature");
    AtOne(chat, "max_tokens");
    LookupDistinct(chat.fields, 1);
    LookupDistinct(chat.fields, 2);
  }

  /** `payload.message.text` is the messages verbatim; `payload.functions`
      is `{"text": functions}` exactly when there are functions, and the
      top-level and payload keys come in the order the source writes them. */
  lemma ParamsPayload(cfg: Config, messages: seq<Json>, functions: Option<seq<Json>>,
                      temperature: real, maxTokens: int)
    ensures var r := GenerateParams(cfg, messages, functions, temperature, maxTokens);
      && At(r, [K("payload"), K("message"), K("text")]) == Some(Arr(messages))
      && At(r, [K("payload"), K("functions")])
         == (if HasFunctions(functions) then Some(Obj([("text", Arr(functions.value))])) else None)
      && KeysAt(r, []) == Some(["header", "parameter", "payload"])
      && KeysAt(r, [K("payload")])
         == Some(if HasFunctions(functions) then ["message", "functions"] else ["message"])
  {
    var r := GenerateParams(cfg, messages, functions, temperature, maxTokens);
    TopLevel(cfg, messages, functions, temperature, maxTokens);
    PayloadPaths(r, Obj(Payload(messages, functions)));
    PayloadEntries(messages, functions);
  }

  /** Paths under `payload` continue in the payload dict. */
  lemma PayloadPaths(r: Json, payload: Json)
    requires r.Obj? && Lookup(r.fields, "payload") == Some(payload)
    ensures At(r, [K("payload"), K("message"), K("text")]) == At(payload, [K("message"), K("text")])
    ensures At(r, [K("payload"), K("functions")]) == At(payload, [K("functions")])
    ensures KeysAt(r, [K("payload")]) == KeysAt(payload, [])
  {
    AtUnder(r, "payload", payload, [K("message"), K("text")]);
    AtUnder(r, "payload", payload, [K("functions")]);
    AtUnder(r, "payload", payload, []);
  }

  lemma PayloadEntries(messages: seq<Json>, functions: Option<seq<Json>>)
    ensures var payload := Obj(Payload(messages, functions));
      && At(payload, [K("message"), K("text")]) == Some(Arr(messages))
      && At(payload, [K("functions")])
         == (if HasFunctions(functions) then Some(Obj([("text", Arr(functions.value))])) else None)
      && Keys(payload.fields) == if HasFunctions(functions) then ["message", "functions"] else ["message"]
  {
    var payload := Obj(Payload(messages, functions));
    var message := Message(messages);
    LookupDistinct(payload.fields, 0);
    LookupDistinct(message.fields, 0);
    AtUnder(payload, "message", message, [K("text")]);
    AtOne(message, "text");
    AtOne(payload, "functions");
    if HasFunctions(functions) {
      LookupDistinct(payload.fields, 1);
    }
  }
}
