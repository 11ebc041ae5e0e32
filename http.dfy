/** The request both tools send: an endpoint, a header mapping and a JSON
    body mapping, plus the header rules the two tools have in common. */
module Http {
  import opened Outcomes
  import opened Decimal

  type Fields = map<string, string>

  /** One POST request; the body is the mapping that is serialised to JSON. */
  datatype Request = Request(endpoint: string, headers: Fields, body: Fields)

  /** `key` is present and maps to `value`. */
  predicate Has(m: Fields, key: string, value: string) {
    key in m && m[key] == value
  }

  /** The value under `key`, if any. */
  function Lookup(m: Fields, key: string): Option<string> {
    if key in m then Some(m[key]) else None
  }

  /** `key` is present exactly when `cond` holds, and then maps to `value`. */
  predicate PresentIff(m: Fields, key: string, value: string, cond: bool) {
    && (key in m <==> cond)
    && (cond ==> m[key] == value)
  }

  /** The `X-Engine` value an engine mode selects: `fast` asks for a direct
      fetch, `quality` for a browser-rendered one; every other mode
      (`default` included) sends no `X-Engine` header. */
  function EngineValue(mode: string): (v: Option<string>)
    ensures v.Some? <==> mode == "fast" || mode == "quality"
    ensures v == Some("direct") <==> mode == "fast"
    ensures v == Some("browser") <==> mode == "quality"
  {
    if mode == "fast" then Some("direct")
    else if mode == "quality" then Some("browser")
    else None
  }

  /** The `Authorization` and `Content-Type` headers every request starts
      with. The key is not checked locally: an empty key still yields
      `"Bearer "`. */
  predicate BaseHeaders(h: Fields, apiKey: string) {
    && Has(h, "Authorization", "Bearer " + apiKey)
    && Has(h, "Content-Type", "application/json")
  }

  /** Two mappings over the same known keys that agree on which keys are
      present and on their values are equal. */
  lemma FieldsDetermined(m1: Fields, m2: Fields, names: set<string>)
    requires m1.Keys <= names && m2.Keys <= names
    requires forall k | k in names :: Lookup(m1, k) == Lookup(m2, k)
    ensures m1 == m2
  {
    forall k | k in m1
      ensures k in m2 && m1[k] == m2[k]
    {
      assert Lookup(m1, k) == Lookup(m2, k);
    }
  }

  /** `X-Engine` follows `EngineValue(mode)` when `enabled`, and is absent
      otherwise. */
  predicate EngineHeader(h: Fields, mode: string, enabled: bool) {
    && ("X-Engine" in h <==> enabled && EngineValue(mode).Some?)
    && (enabled && EngineValue(mode).Some? ==> h["X-Engine"] == EngineValue(mode).value)
  }

  /** `X-Timeout` carries the decimal timeout when `enabled` and the timeout
      is positive, and is absent otherwise. */
  predicate TimeoutHeader(h: Fields, timeout: int, enabled: bool) {
    PresentIff(h, "X-Timeout", IntToString(timeout), enabled && timeout > 0)
  }

  /** The timeout header value reads back as the configured timeout. */
  lemma TimeoutValueReadsBack(h: Fields, timeout: int)
    requires TimeoutHeader(h, timeout, true) && "X-Timeout" in h
    ensures timeout > 0 && ParseInt(h["X-Timeout"]) == Some(timeout)
  {
    ParseIntToString(timeout);
  }

  /** Status check on the reply to a POST: status 200 yields the body text
      verbatim; any other status fails with `statusMessage` followed by the
      decimal status code; an exception keeps its own message. The failure
      message is lossless: the status code can be read back from it. */
  function CheckReply(reply: Reply, statusMessage: string): (r: Result<string>)
    ensures r.Ok? <==> reply.Response? && reply.status == 200
    ensures r.Ok? ==> r.value == reply.text
    ensures reply.Response? && reply.status != 200 ==>
              && IsPrefix(statusMessage, r.message)
              && ParseInt(r.message[|statusMessage|..]) == Some(reply.status)
    ensures reply.Raised? ==> r == Err(reply.error)
  {
    match reply
    case Response(status, text) =>
      if status == 200 then Ok(text)
      else
        var m := statusMessage + IntToString(status);
        assert m[|statusMessage|..] == IntToString(status);
        ParseIntToString(status);
        Err(m)
    case Raised(error) => Err(error)
  }
}
