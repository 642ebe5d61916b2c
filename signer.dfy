/** `SparkChat.create_url`: the signed connection URL.

    The clock (`format_date_time(mktime(datetime.now().timetuple()))`, an
    IMF-fixdate as in section 7.1.1.1 of RFC 7231) is the parameter `date`.
    UTF-8 encoding, HMAC-SHA256 (RFC 2104 over the SHA-256 of FIPS 180-4),
    base64 (section 4 of RFC 4648) and `urllib.parse.quote_plus` are library
    code whose internals are not modelled: they are the fields of a
    `Primitives` value. */
module Signer {
  import opened Text
  import opened Protocol

  newtype byte = x: int | 0 <= x < 256

  datatype Primitives = Primitives(
    utf8: string -> seq<byte>,
    hmacSha256: (seq<byte>, seq<byte>) -> seq<byte>,
    base64: seq<byte> -> string,
    quotePlus: string -> string)

  /** Characters `quote_plus` never escapes. */
  predicate IsUnreserved(c: char)
  {
    'a' <= c <= 'z' || 'A' <= c <= 'Z' || '0' <= c <= '9' || c in "_.-~"
  }

  predicate AllUnreserved(s: string)
  {
    forall i :: 0 <= i < |s| ==> IsUnreserved(s[i])
  }

  /** What the URL assembly relies on from `quote_plus`: it leaves a string
      of unreserved characters alone and escapes every `&` and `=`. */
  ghost predicate QuotesLikeQuotePlus(p: Primitives)
  {
    && (forall s :: AllUnreserved(s) ==> p.quotePlus(s) == s)
    && (forall s :: '&' !in p.quotePlus(s) && '=' !in p.quotePlus(s))
  }

  /** A character of the base64 alphabet of section 4 of RFC 4648, or its
      pad character. */
  predicate IsBase64Char(c: char)
  {
    'a' <= c <= 'z' || 'A' <= c <= 'Z' || '0' <= c <= '9' || c == '+' || c == '/' || c == '='
  }

  predicate IsBase64Text(s: string)
  {
    forall i :: 0 <= i < |s| ==> IsBase64Char(s[i])
  }

  /** What the signing relies on from `base64.b64encode(...).decode()`: its
      text only holds base64 characters. */
  ghost predicate EncodesBase64(p: Primitives)
  {
    forall b :: IsBase64Text(p.base64(b))
  }

  /** The canonical string that is signed (lines 43-45): the host line,
      the date line and the request line, separated by line feeds. */
  function SignatureOrigin(host: string, date: string, path: string): (origin: string)
    ensures origin == Join(["host: " + host, "date: " + date, "GET " + path + " HTTP/1.1"], '\n')
  {
    JoinThree("host: " + host, "date: " + date, "GET " + path + " HTTP/1.1", '\n');
    "host: " + host + "\n" + "date: " + date + "\n" + "GET " + path + " HTTP/1.1"
  }

  /** Base64 of the HMAC-SHA256 of the signing string under the API secret
      (lines 48-54). It holds no comma or quote, so it fits in a quoted field
      of the authorization value. */
  function Signature(p: Primitives, apiSecret: string, origin: string): (signature: string)
    ensures EncodesBase64(p) ==> IsBase64Text(signature) && ',' !in signature && '"' !in signature
  {
    p.base64(p.hmacSha256(p.utf8(apiSecret), p.utf8(origin)))
  }

  /** The authorization header value before its own base64 encoding
      (line 56): the API key, the algorithm, the signed headers and the
      signature, separated by commas. */
  function AuthorizationOrigin(apiKey: string, signature: string): (value: string)
    ensures value == Join(["api_key=\"" + apiKey + "\"",
                           " algorithm=\"hmac-sha256\"",
                           " headers=\"host date request-line\"",
                           " signature=\"" + signature + "\""], ',')
  {
    var key := "api_key=\"" + apiKey + "\"";
    var sig := " signature=\"" + signature + "\"";
    JoinFour(key, " algorithm=\"hmac-sha256\"", " headers=\"host date request-line\"", sig, ',');
    key + "," + " algorithm=\"hmac-sha256\"" + "," + " headers=\"host date request-line\"" + "," + sig
  }

  /** The authorization value, base64-encoded once more (lines 56-60). */
  function Authorization(cfg: Config, date: string, p: Primitives): (authorization: string)
    ensures EncodesBase64(p) ==> IsBase64Text(authorization)
  {
    var origin := SignatureOrigin(cfg.host, date, cfg.path);
    p.base64(p.utf8(AuthorizationOrigin(cfg.apiKey, Signature(p, cfg.apiSecret, origin))))
  }

  /** The `key=value` items of `urlencode(pairs)`, each side passed through
      `quote_plus`. */
  function QueryItems(pairs: seq<(string, string)>, p: Primitives): (items: seq<string>)
    ensures |items| == |pairs|
  {
    if pairs == [] then []
    else [p.quotePlus(pairs[0].0) + "=" + p.quotePlus(pairs[0].1)] + QueryItems(pairs[1..], p)
  }

  /** `urllib.parse.urlencode(pairs)`. */
  function UrlEncode(pairs: seq<(string, string)>, p: Primitives): string
  {
    Join(QueryItems(pairs, p), '&')
  }

  /** `create_url`: the base URL, `?`, then authorization, date and host
      url-encoded in that order (lines 61-63). */
  function CreateUrl(cfg: Config, date: string, p: Primitives): (url: string)
    ensures |url| > |cfg.sparkChatUrl| && url[..|cfg.sparkChatUrl| + 1] == cfg.sparkChatUrl + "?"
  {
    var base := cfg.sparkChatUrl + "?";
    var query := UrlEncode([("authorization", Authorization(cfg, date, p)), ("date", date), ("host", cfg.host)], p);
    assert (base + query)[..|base|] == base;
    base + query
  }

  /** A reader of the URL, independent of how it was built: the part before
      the first `?`, and the query split at `&` into items, each split at its
      first `=` into a key and a (still quoted) value. */
  function ParseUrl(url: string): (string, seq<(string, string)>)
  {
    var i := IndexOf(url, '?');
    if i == |url| then (url, []) else (url[..i], ParseItems(Split(url[i + 1..], '&')))
  }

  function ParseItems(items: seq<string>): (pairs: seq<(string, string)>)
    ensures |pairs| == |items|
  {
    if items == [] then []
    else
      var j := IndexOf(items[0], '=');
      [(items[0][..j], if j < |items[0]| then items[0][j + 1..] else "")] + ParseItems(items[1..])
  }

  /** The signing string is three lines: the host line, the date line and
      the request line. */
  lemma SignatureOriginLines(host: string, date: string, path: string)
    requires '\n' !in host && '\n' !in date && '\n' !in path
    ensures Split(SignatureOrigin(host, date, path), '\n')
         == ["host: " + host, "date: " + date, "GET " + path + " HTTP/1.1"]
  {
    var lines := ["host: " + host, "date: " + date, "GET " + path + " HTTP/1.1"];
    forall i | 0 <= i < 3 ensures '\n' !in lines[i] {
      assert lines[i] == ["host: ", "date: ", "GET "][i] + [host, date, path][i] + ["", "", " HTTP/1.1"][i];
    }
    SplitJoin(lines, '\n');
  }

  /** Different hosts, dates or paths never produce the same signing string,
      so the signature covers each of them. */
  lemma SignatureOriginInjective(host: string, date: string, path: string,
                                 host': string, date': string, path': string)
    requires '\n' !in host && '\n' !in date && '\n' !in path
    requires '\n' !in host' && '\n' !in date' && '\n' !in path'
    requires SignatureOrigin(host, date, path) == SignatureOrigin(host', date', path')
    ensures host == host' && date == date' && path == path'
  {
    SignatureOriginLines(host, date, path);
    SignatureOriginLines(host', date', path');
    assert ("host: " + host)[6..] == host && ("host: " + host')[6..] == host';
    assert ("date: " + date)[6..] == date && ("date: " + date')[6..] == date';
    var line := "GET " + path + " HTTP/1.1";
    var line' := "GET " + path' + " HTTP/1.1";
    assert line == line';
    assert line[4..|line| - 9] == path && line'[4..|line'| - 9] == path';
  }

  /** The authorization value names the algorithm, the signed headers and
      carries the signature, as four comma-separated fields. */
  lemma AuthorizationFields(apiKey: string, signature: string)
    requires ',' !in apiKey && ',' !in signature
    ensures Split(AuthorizationOrigin(apiKey, signature), ',')
         == ["api_key=\"" + apiKey + "\"",
             " algorithm=\"hmac-sha256\"",
             " headers=\"host date request-line\"",
             " signature=\"" + signature + "\""]
  {
    var f0, f1, f2, f3 := "api_key=\"" + apiKey + "\"", " algorithm=\"hmac-sha256\"",
                          " headers=\"host date request-line\"", " signature=\"" + signature + "\"";
    assert ',' !in f0 by {
      assert forall i :: 0 <= i < |f0| ==> f0[i] == '"' || f0[i] in "api_key=" || f0[i] in apiKey;
    }
    assert ',' !in f3 by {
      assert forall i :: 0 <= i < |f3| ==> f3[i] == '"' || f3[i] in " signature=" || f3[i] in signature;
    }
    assert ',' !in f1 && ',' !in f2;
    SplitJoin([f0, f1, f2, f3], ',');
  }

  /** The authorization value of a request splits at commas into its four
      fields, the last carrying the signature of the request's signing
      string, whenever the API key has no comma. */
  lemma SignedAuthorizationFields(cfg: Config, date: string, p: Primitives)
    requires EncodesBase64(p)
    requires ',' !in cfg.apiKey
    ensures var signature := Signature(p, cfg.apiSecret, SignatureOrigin(cfg.host, date, cfg.path));
      Split(AuthorizationOrigin(cfg.apiKey, signature), ',')
      == ["api_key=\"" + cfg.apiKey + "\"",
          " algorithm=\"hmac-sha256\"",
          " headers=\"host date request-line\"",
          " signature=\"" + signature + "\""]
  {
    AuthorizationFields(cfg.apiKey, Signature(p, cfg.apiSecret, SignatureOrigin(cfg.host, date, cfg.path)));
  }

  /** Whatever the key and signature, the authorization value contains
      `algorithm="hmac-sha256"`. */
  lemma AuthorizationNamesAlgorithm(apiKey: string, signature: string)
    ensures Contains(AuthorizationOrigin(apiKey, signature), "algorithm=\"hmac-sha256\"")
  {
    var key := "api_key=\"" + apiKey + "\"";
    var needle := "algorithm=\"hmac-sha256\"";
    var value := AuthorizationOrigin(apiKey, signature);
    var head := key + "," + " algorithm=\"hmac-sha256\"";
    var i := |key| + 2;
    assert value[..|head|] == head;
    assert head[i..] == needle;
    assert value[i..i + |needle|] == head[i..];
    assert OccursAt(value, needle, i);
  }

  /** `key=value` read back at its first `=` when the key has none. */
  lemma ParseItem(key: string, value: string)
    requires '=' !in key
    ensures ParseItems([key + "=" + value]) == [(key, value)]
  {
    var item := key + "=" + value;
    assert item[..|key|] == key;
    IndexOfFirst(item, '=', |key|);
    assert item[|key| + 1..] == value;
  }

  /** The query of the URL starts right after its first `?`. */
  lemma QueryAfterBase(base: string, query: string)
    requires '?' !in base
    ensures IndexOf(base + "?" + query, '?') == |base|
    ensures (base + "?" + query)[|base| + 1..] == query
  {
    var url := base + "?" + query;
    assert url[..|base|] == base;
    IndexOfFirst(url, '?', |base|);
  }

  lemma ParseThreeItems(a: string, b: string, c: string)
    ensures ParseItems([a, b, c]) == ParseItems([a]) + ParseItems([b]) + ParseItems([c])
  {
    assert [a, b, c][1..] == [b, c];
    assert [b, c][1..] == [c];
  }

  /** `quote_plus` leaves the three parameter names alone. */
  lemma QuotedNames(p: Primitives)
    requires QuotesLikeQuotePlus(p)
    ensures p.quotePlus("authorization") == "authorization"
    ensures p.quotePlus("date") == "date"
    ensures p.quotePlus("host") == "host"
  {
    assert AllUnreserved("authorization");
    assert AllUnreserved("date");
    assert AllUnreserved("host");
  }

  /** The three `key=value` items of the query, names left unquoted. */
  lemma UrlItems(p: Primitives, auth: string, date: string, host: string)
    requires QuotesLikeQuotePlus(p)
    ensures QueryItems([("authorization", auth), ("date", date), ("host", host)], p)
         == ["authorization" + "=" + p.quotePlus(auth), "date" + "=" + p.quotePlus(date),
             "host" + "=" + p.quotePlus(host)]
  {
    QuotedNames(p);
    var pairs := [("authorization", auth), ("date", date), ("host", host)];
    var items := ["authorization" + "=" + p.quotePlus(auth), "date" + "=" + p.quotePlus(date),
                  "host" + "=" + p.quotePlus(host)];
    assert pairs[1..][1..] == [pairs[2]];
    assert QueryItems([pairs[2]], p) == [items[2]];
    assert QueryItems(pairs[1..], p) == [items[1]] + QueryItems([pairs[2]], p);
    assert QueryItems(pairs, p) == [items[0]] + QueryItems(pairs[1..], p);
  }

  /** Splitting the query at `&` and each item at `=` gives the three
      parameters back when no value holds either character. */
  lemma ParseQuery(qa: string, qd: string, qh: string)
    requires '&' !in qa && '&' !in qd && '&' !in qh
    requires '=' !in qa && '=' !in qd && '=' !in qh
    ensures ParseItems(Split(Join(["authorization" + "=" + qa, "date" + "=" + qd, "host" + "=" + qh], '&'), '&'))
         == [("authorization", qa), ("date", qd), ("host", qh)]
  {
    var items := ["authorization" + "=" + qa, "date" + "=" + qd, "host" + "=" + qh];
    assert forall i :: 0 <= i < 3 ==> '&' !in items[i] by {
      assert '&' !in "authorization" + "=" + qa;
      assert '&' !in "date" + "=" + qd;
      assert '&' !in "host" + "=" + qh;
    }
    SplitJoin(items, '&');
    ParseItemsBack(qa, qd, qh);
  }

  lemma ParseItemsBack(qa: string, qd: string, qh: string)
    requires '=' !in qa && '=' !in qd && '=' !in qh
    ensures ParseItems(["authorization" + "=" + qa, "date" + "=" + qd, "host" + "=" + qh])
         == [("authorization", qa), ("date", qd), ("host", qh)]
  {
    ParseThreeItems("authorization" + "=" + qa, "date" + "=" + qd, "host" + "=" + qh);
    ParseItem("authorization", qa);
    ParseItem("date", qd);
    ParseItem("host", qh);
  }

  /** Reading the URL back gives the base URL and the three query
      parameters, in order, with their values quoted. */
  lemma CreateUrlParses(cfg: Config, date: string, p: Primitives)
    requires QuotesLikeQuotePlus(p)
    requires '?' !in cfg.sparkChatUrl
    ensures ParseUrl(CreateUrl(cfg, date, p))
         == (cfg.sparkChatUrl,
             [("authorization", p.quotePlus(Authorization(cfg, date, p))),
              ("date", p.quotePlus(date)),
              ("host", p.quotePlus(cfg.host))])
  {
    var auth := Authorization(cfg, date, p);
    var qa, qd, qh := p.quotePlus(auth), p.quotePlus(date), p.quotePlus(cfg.host);
    var items := ["authorization" + "=" + qa, "date" + "=" + qd, "host" + "=" + qh];
    var url := CreateUrl(cfg, date, p);
    UrlItems(p, auth, date, cfg.host);
    assert url == cfg.sparkChatUrl + "?" + Join(items, '&');
    QueryAfterBase(cfg.sparkChatUrl, Join(items, '&'));
    assert url[..|cfg.sparkChatUrl|] == cfg.sparkChatUrl;
    assert '&' !in qa && '&' !in qd && '&' !in qh;
    assert '=' !in qa && '=' !in qd && '=' !in qh;
    ParseQuery(qa, qd, qh);
  }
}
