/**
 * The transport core of `ChertClient`: the session it opens lazily, the
 * headers it sends, the classification of a decoded HTTP response into a
 * value or an error for both call shapes (`_make_request` and
 * `_rpc_call`), and address generation.  The network itself is an oracle
 * that maps the request sent to what came back.
 */
module Client {
  import opened Options
  import opened JsonValue
  import opened Bytes
  import opened Exceptions
  import opened Types

  /** A decoded HTTP response; aiohttp's `response.ok` is `status < 400`. */
  datatype HttpResponse = HttpResponse(status: int, body: Json)
  {
    predicate Ok()
    {
      status < 400
    }
  }

  /**
   * What came back for a request: a decoded response; an aiohttp.ClientError
   * (a connection failure, or `response.json()` refusing a non-JSON content
   * type); or another exception from the request or from decoding that no
   * handler catches (the JSONDecodeError of malformed JSON under a JSON
   * content type, the asyncio.TimeoutError of the total timeout).
   */
  datatype Delivery =
    | Delivered(response: HttpResponse)
    | Failed(reason: string)
    | Raising(name: string, detail: string)

  /** Where a request goes: the endpoint itself, or `urljoin(base, path)` (not resolved here). */
  datatype Target = Endpoint(url: string) | Joined(base: string, path: string)

  datatype HttpRequest = HttpRequest(
    verb: string,
    target: Target,
    body: Json,
    query: map<string, Json>,
    headers: map<string, string>)

  /**
   * The `result_type` asked of `_rpc_call`: none, a type without
   * `__annotations__` (a `List[...]` alias), or a pydantic model.
   */
  datatype Shape = NoShape | Unannotated | Model(name: ModelName)

  /** pydantic's `Model(**fields)`: the validated record, or None where it raises ValidationError. */
  type Coercer = (ModelName, map<string, Json>) -> Option<Json>

  /** A JSON-RPC call as the managers issue it through `_rpc_call`. */
  datatype Call = Call(methodName: string, params: Json, shape: Shape)

  /** `client._rpc_call`, as the managers see it. */
  type Rpc = Call -> Outcome<Json>

  /** Stands for the text of pydantic's ValidationError, which is not modelled. */
  const PydanticDetail: string := "<pydantic validation errors>"

  /** `isinstance(body, dict)` failing before `.get` or `**`: the exception Python raises. */
  function NotADict(call: string): Raised
  {
    if call == "get" then Foreign("AttributeError", "object has no attribute 'get'")
    else Foreign("TypeError", "argument after ** must be a mapping")
  }

  /** The body's `error` member is a dict, or absent (so `.get('error', {})` is a dict). */
  predicate ErrorMemberIsDict(body: Json)
  {
    body.JObject? && Get(body.fields, "error", EmptyObject).JObject?
  }

  /** The envelope of a 2xx response, when it decodes. */
  function Envelope(body: Json): Option<ApiResponse>
  {
    if body.JObject? then DecodeApiResponse(body.fields) else None
  }

  /**
   * `_make_request` from the moment the response (or the exception) is in
   * hand: a non-ok status is an APIError carrying that status whatever the
   * body says; an ok status returns the envelope's `data` exactly when the
   * envelope decodes and says `success`.
   */
  function ClassifyHttp(d: Delivery): (o: Outcome<Json>)
    ensures d.Failed? ==> o == Err(Chert(NetworkError("HTTP request failed: " + d.reason, None)))
    ensures d.Raising? ==> o == Err(Foreign(d.name, d.detail))
    ensures d.Delivered? && !d.response.Ok() ==> o.Err?
    ensures d.Delivered? && !d.response.Ok() && !ErrorMemberIsDict(d.response.body) ==> o == Err(NotADict("get"))
    ensures d.Delivered? && !d.response.Ok() && ErrorMemberIsDict(d.response.body) ==>
              && o.raised.Chert?
              && o.raised.error.kind == Api(Some(d.response.status))
              && o.raised.error.data == d.response.body
    ensures d.Delivered? && d.response.Ok() && !d.response.body.JObject? ==> o == Err(NotADict("**"))
    ensures d.Delivered? && d.response.Ok() && d.response.body.JObject? && Envelope(d.response.body).None? ==>
              o == Err(Chert(ValidationError("response", "Invalid response format: " + PydanticDetail)))
    ensures o.Ok? <==> d.Delivered? && d.response.Ok() && Envelope(d.response.body).Some?
                       && Envelope(d.response.body).value.success
    ensures o.Ok? ==> o.value == d.response.body.fields["data"]
  {
    match d
    case Failed(reason) => Err(Chert(NetworkError("HTTP request failed: " + reason, None)))
    case Raising(name, detail) => Err(Foreign(name, detail))
    case Delivered(resp) =>
      if !resp.Ok() then
        if !resp.body.JObject? then Err(NotADict("get"))
        else
          var e := Get(resp.body.fields, "error", EmptyObject);
          if !e.JObject? then Err(NotADict("get"))
          else
            Err(Chert(ApiError(Get(e.fields, "message", JString("Unknown API error")),
                               Get(e.fields, "code", JString("API_ERROR")),
                               Some(resp.status), resp.body)))
      else if !resp.body.JObject? then Err(NotADict("**"))
      else
        match DecodeApiResponse(resp.body.fields)
        case None => Err(Chert(ValidationError("response", "Invalid response format: " + PydanticDetail)))
        case Some(env) =>
          if env.success then Ok(env.data)
          else if env.error.Some? && |env.error.value| > 0 then
            var e := env.error.value;
            Err(Chert(ApiError(Get(e, "message", JString("API request failed")),
                               Get(e, "code", JString("API_ERROR")), None, JObject(e))))
          else Err(Chert(ApiError(JString("API request failed"), JString("API_ERROR"), None, JNull)))
  }

  /**
   * A non-ok response's error member gives the message and the code, as
   * they are, or the defaults apply; a falsy code becomes UNKNOWN_ERROR.
   */
  lemma NonOkErrorDefaults(status: int, body: Json)
    requires status >= 400 && ErrorMemberIsDict(body)
    ensures var o := ClassifyHttp(Delivered(HttpResponse(status, body)));
            var err := Get(body.fields, "error", EmptyObject).fields;
            && o.Err? && o.raised.Chert?
            && ("code" !in err ==> o.raised.error.code == JString("API_ERROR"))
            && ("code" in err && Truthy(err["code"]) ==> o.raised.error.code == err["code"])
            && ("code" in err && !Truthy(err["code"]) ==> o.raised.error.code == JString("UNKNOWN_ERROR"))
            && ("message" !in err ==> o.raised.error.message == JString("Unknown API error"))
            && ("message" in err ==> o.raised.error.message == err["message"])
  {
  }

  /**
   * An ok response whose envelope says `success: false` is an APIError
   * without a status: built from the envelope's error map when that map is
   * non-empty, and generic otherwise.
   */
  lemma UnsuccessfulEnvelope(status: int, body: Json)
    requires status < 400 && Envelope(body).Some? && !Envelope(body).value.success
    ensures var o := ClassifyHttp(Delivered(HttpResponse(status, body)));
            var env := Envelope(body).value;
            && o.Err? && o.raised.Chert?
            && o.raised.error.kind == Api(None)
            && (env.error.Some? && |env.error.value| > 0 ==>
                  var err := env.error.value;
                  && o.raised.error.data == JObject(err)
                  && ("message" !in err ==> o.raised.error.message == JString("API request failed"))
                  && ("message" in err ==> o.raised.error.message == err["message"])
                  && ("code" !in err ==> o.raised.error.code == JString("API_ERROR"))
                  && ("code" in err && Truthy(err["code"]) ==> o.raised.error.code == err["code"])
                  && ("code" in err && !Truthy(err["code"]) ==> o.raised.error.code == JString("UNKNOWN_ERROR")))
            && ((env.error.None? || |env.error.value| == 0) ==>
                  o.raised.error == ChertError(Api(None), JString("API request failed"), JString("API_ERROR"), EmptyObject))
  {
  }

  /** The body of a 2xx JSON-RPC response, when it decodes. */
  function RpcEnvelope(body: Json): Option<JsonRpcResponse>
  {
    if body.JObject? then DecodeRpcResponse(body.fields) else None
  }

  /** The response carries a non-empty error descriptor. */
  predicate HasRpcError(r: JsonRpcResponse)
  {
    r.error.Some? && |r.error.value| > 0
  }

  /** The `result` of a delivered, ok, well-formed JSON-RPC response without an error descriptor. */
  function SettledResult(d: Delivery): Option<Json>
  {
    if d.Delivered? && d.response.Ok() && RpcEnvelope(d.response.body).Some?
       && !HasRpcError(RpcEnvelope(d.response.body).value)
    then Some(RpcEnvelope(d.response.body).value.result)
    else None
  }

  /**
   * `_rpc_call` from the moment the response (or the exception) is in hand.
   * A non-ok status is `APIError("HTTP <status>: RPC call failed",
   * "RPC_ERROR", status)` whatever the body holds; a non-empty error
   * descriptor is an APIError whose data is the descriptor, and the result is
   * then never returned; otherwise the result is returned raw unless a model
   * was requested and the result is truthy, in which case it is coerced.
   */
  function ClassifyRpc(d: Delivery, shape: Shape, coerce: Coercer): (o: Outcome<Json>)
    ensures d.Failed? ==> o == Err(Chert(NetworkError("RPC request failed: " + d.reason, None)))
    ensures d.Raising? ==> o == Err(Foreign(d.name, d.detail))
    ensures d.Delivered? && !d.response.Ok() ==>
              o == Err(Chert(ChertError(Api(Some(d.response.status)),
                                        JString("HTTP " + IntToString(d.response.status) + ": RPC call failed"),
                                        JString("RPC_ERROR"), EmptyObject)))
    ensures d.Delivered? && d.response.Ok() && !d.response.body.JObject? ==> o == Err(NotADict("**"))
    ensures d.Delivered? && d.response.Ok() && d.response.body.JObject? && RpcEnvelope(d.response.body).None? ==>
              o == Err(Chert(ValidationError("rpc_response", "Invalid RPC response format: " + PydanticDetail)))
    ensures d.Delivered? && d.response.Ok() && RpcEnvelope(d.response.body).Some?
            && HasRpcError(RpcEnvelope(d.response.body).value) ==>
              var err := RpcEnvelope(d.response.body).value.error.value;
              && o.Err? && o.raised.Chert?
              && o.raised.error.kind == Api(None)
              && o.raised.error.data == JObject(err)
              && o.raised.error.code == (var c := PyStr(Get(err, "code", JString("RPC_ERROR")));
                                         JString(if c != "" then c else "UNKNOWN_ERROR"))
              && o.raised.error.message == Get(err, "message", JString("RPC call failed"))
    ensures o.Ok? ==> SettledResult(d).Some?
    ensures SettledResult(d).Some? && (!shape.Model? || !Truthy(SettledResult(d).value)) ==>
              o == Ok(SettledResult(d).value)
    ensures SettledResult(d).Some? && shape.Model? && Truthy(SettledResult(d).value) ==>
              var res := SettledResult(d).value;
              && (!res.JObject? ==> o == Err(NotADict("**")))
              && (res.JObject? && coerce(shape.name, res.fields).Some? ==> o == Ok(coerce(shape.name, res.fields).value))
  {
    match d
    case Failed(reason) => Err(Chert(NetworkError("RPC request failed: " + reason, None)))
    case Raising(name, detail) => Err(Foreign(name, detail))
    case Delivered(resp) =>
      if !resp.Ok() then
        Err(Chert(ApiError(JString("HTTP " + IntToString(resp.status) + ": RPC call failed"),
                           JString("RPC_ERROR"), Some(resp.status), JNull)))
      else if !resp.body.JObject? then Err(NotADict("**"))
      else
        match DecodeRpcResponse(resp.body.fields)
        case None => Err(Chert(ValidationError("rpc_response", "Invalid RPC response format: " + PydanticDetail)))
        case Some(r) =>
          if HasRpcError(r) then
            var e := r.error.value;
            Err(Chert(ApiError(Get(e, "message", JString("RPC call failed")),
                               JString(PyStr(Get(e, "code", JString("RPC_ERROR")))), None, JObject(e))))
          else if shape.Model? && Truthy(r.result) then
            if !r.result.JObject? then Err(NotADict("**"))
            else
              match coerce(shape.name, r.result.fields)
              case None => Err(Chert(ValidationError("rpc_response", "Invalid RPC response format: " + PydanticDetail)))
              case Some(v) => Ok(v)
          else Ok(r.result)
  }

  /** A requested model whose coercion fails is a ValidationError on "rpc_response", never a pass-through. */
  lemma CoercionFailure(status: int, body: Json, name: ModelName, coerce: Coercer)
    requires status < 400 && RpcEnvelope(body).Some? && !HasRpcError(RpcEnvelope(body).value)
    requires RpcEnvelope(body).value.result.JObject?
    requires Truthy(RpcEnvelope(body).value.result)
    requires coerce(name, RpcEnvelope(body).value.result.fields).None?
    ensures ClassifyRpc(Delivered(HttpResponse(status, body)), Model(name), coerce)
            == Err(Chert(ValidationError("rpc_response", "Invalid RPC response format: " + PydanticDetail)))
  {
  }

  /** A response with neither result nor error yields None (JNull), not an error. */
  lemma NeitherResultNorError(status: int, body: Json, shape: Shape, coerce: Coercer)
    requires status < 400 && body.JObject? && "jsonrpc" in body.fields && body.fields["jsonrpc"].JString?
    requires "id" in body.fields && "result" !in body.fields && "error" !in body.fields
    ensures ClassifyRpc(Delivered(HttpResponse(status, body)), shape, coerce) == Ok(JNull)
  {
  }

  /** `path.lstrip('/')` */
  function LStripSlash(path: string): (r: string)
    ensures |r| <= |path| && r == path[|path| - |r|..]
    ensures r != [] ==> r[0] != '/'
    ensures forall k :: 0 <= k < |path| - |r| ==> path[k] == '/'
  {
    if path != [] && path[0] == '/' then LStripSlash(path[1..]) else path
  }

  /** `self.config.api_key` is truthy. */
  predicate HasApiKey(config: ClientConfig)
  {
    config.apiKey.Some? && config.apiKey.value != ""
  }

  /**
   * The headers `_make_request` sends: JSON Content-Type and Accept, a bearer
   * Authorization when an API key is set, and the configured headers applied
   * last so that they override the built-in ones.
   */
  ghost predicate ProperHeaders(config: ClientConfig, h: map<string, string>)
  {
    && h.Keys == {"Content-Type", "Accept"} + (if HasApiKey(config) then {"Authorization"} else {}) + config.headers.Keys
    && (forall k :: k in config.headers ==> k in h && h[k] == config.headers[k])
    && ("Content-Type" !in config.headers ==> h["Content-Type"] == "application/json")
    && ("Accept" !in config.headers ==> h["Accept"] == "application/json")
    && (HasApiKey(config) && "Authorization" !in config.headers ==>
          h["Authorization"] == "Bearer " + config.apiKey.value)
  }

  /** ProperHeaders leaves no freedom: it fixes every header the request carries. */
  lemma ProperHeadersUnique(config: ClientConfig, h1: map<string, string>, h2: map<string, string>)
    requires ProperHeaders(config, h1) && ProperHeaders(config, h2)
    ensures h1 == h2
  {
    forall k | k in h1.Keys ensures k in h2 && h1[k] == h2[k] {
      if k in config.headers {
      } else if k == "Content-Type" || k == "Accept" {
      } else {
        assert k == "Authorization" && HasApiKey(config);
      }
    }
    assert h1.Keys == h2.Keys;
  }

  /** `generate_address`: "chert_" and the first 40 hex digits of the SHA-256 of the key's bytes. */
  function GenerateAddress(sha: Sha256, publicKey: string): (r: Option<string>)
    ensures r.Some? <==> IsHex(publicKey)
    ensures r.Some? ==> |r.value| == 46 && r.value[..6] == "chert_" && IsLowerHex(r.value[6..])
    ensures r.Some? ==> r.value[6..] == ToHex(sha(FromHex(publicKey).value))[..40]
    ensures r.Some? ==> FromHex(r.value[6..]) == Some(sha(FromHex(publicKey).value)[..20])
  {
    match FromHex(publicKey)
    case None => None
    case Some(keyBytes) =>
      HexPrefix(sha(keyBytes), 20);
      HexRoundTrip(sha(keyBytes)[..20]);
      assert ("chert_" + ToHex(sha(keyBytes))[..40])[6..] == ToHex(sha(keyBytes))[..40];
      Some("chert_" + ToHex(sha(keyBytes))[..40])
  }

  /**
   * The address depends only on the key's bytes: the same key written with
   * upper- or lower-case digits, or asked for twice, gives the same address.
   */
  lemma AddressDeterministic(sha: Sha256, k1: string, k2: string)
    requires IsHex(k1) && FromHex(k1) == FromHex(k2)
    ensures GenerateAddress(sha, k1).Some? && GenerateAddress(sha, k1) == GenerateAddress(sha, k2)
  {
  }

  /** `get_network_status`, `get_latest_block`, `get_block` and `get_transaction`. */
  function GetNetworkStatus(rpc: Rpc): (r: Outcome<Json>)
    ensures r == rpc(Call("getNetworkStatus", JNull, Model(NetworkStatusModel)))
  {
    rpc(Call("getNetworkStatus", JNull, Model(NetworkStatusModel)))
  }

  function GetLatestBlock(rpc: Rpc): (r: Outcome<Json>)
    ensures r == rpc(Call("getLatestBlock", JNull, Model(BlockModel)))
  {
    rpc(Call("getLatestBlock", JNull, Model(BlockModel)))
  }

  function GetBlock(rpc: Rpc, height: int): (r: Outcome<Json>)
    ensures r == rpc(Call("getBlock", JArray([JInt(height)]), Model(BlockModel)))
  {
    rpc(Call("getBlock", JArray([JInt(height)]), Model(BlockModel)))
  }

  function GetTransaction(rpc: Rpc, txHash: string): (r: Outcome<Json>)
    ensures r == rpc(Call("getTransaction", JArray([JString(txHash)]), Model(TransactionModel)))
  {
    rpc(Call("getTransaction", JArray([JString(txHash)]), Model(TransactionModel)))
  }

  /** `is_connected`: whether `get_network_status` returns without raising. */
  function IsConnected(rpc: Rpc): (b: bool)
    ensures b <==> GetNetworkStatus(rpc).Ok?
  {
    rpc(Call("getNetworkStatus", JNull, Model(NetworkStatusModel))).Ok?
  }

  /** `generate_tx_id`, with the 32 bytes `secrets.token_hex` draws given as `seed`. */
  function GenerateTxId(seed: seq<byte>): (id: string)
    requires |seed| == 32
    ensures |id| == 64 && IsLowerHex(id) && FromHex(id) == Some(seed)
  {
    HexRoundTrip(seed);
    ToHex(seed)
  }

  /** `isinstance(result, dict) and key in result`: return `result[key]`, else raise `missing`. */
  function ExpectKey(reply: Outcome<Json>, key: string, missing: ChertError): Outcome<Json>
  {
    match reply
    case Err(e) => Err(e)
    case Ok(result) => if HasKey(result, key) then Ok(result.fields[key]) else Err(Chert(missing))
  }

  /**
   * The result-key contract of the managers' write operations: an RPC error
   * propagates unchanged; `result[key]` is returned exactly when the result
   * is a dict holding `key`; otherwise the manager's own error is raised.
   */
  ghost predicate ReturnsKey(r: Outcome<Json>, reply: Outcome<Json>, key: string, missing: ChertError)
  {
    && (reply.Err? ==> r == reply)
    && (reply.Ok? && HasKey(reply.value, key) ==> r == Ok(reply.value.fields[key]))
    && (reply.Ok? && !HasKey(reply.value, key) ==> r == Err(Chert(missing)))
  }

  /** The session `start` opens: an aiohttp ClientSession with a total timeout. */
  class Session {
    const timeout: real
    var closed: bool

    constructor (timeout: real)
      ensures this.timeout == timeout && !closed
    {
      this.timeout := timeout;
      closed := false;
    }

    method Close()
      modifies this
      ensures closed
    {
      closed := true;
    }
  }

  /** `ChertClient`: a configuration and a session opened lazily and closed explicitly. */
  class ChertClient {
    const config: ClientConfig
    var session: Session?

    /** The session the client holds, if any, is open. */
    ghost predicate Valid()
      reads this, session
    {
      session != null ==> !session.closed
    }

    /** `ChertClient(config=None)`: without a configuration the defaults apply. */
    constructor (config: Option<ClientConfig>)
      ensures config.Some? ==> this.config == config.value
      ensures config.None? ==> this.config == DefaultClientConfig()
      ensures session == null && Valid()
    {
      this.config := config.GetOr(DefaultClientConfig());
      session := null;
    }

    /** `start`: opens a session only when there is none, so a second start changes nothing. */
    method Start()
      requires Valid()
      modifies this
      ensures Valid() && session != null
      ensures old(session) != null ==> session == old(session)
      ensures old(session) == null ==> fresh(session) && session.timeout == config.timeout
    {
      if session == null {
        session := new Session(config.timeout);
      }
    }

    /** `close`: closes the session held, if any, and leaves none. */
    method Close()
      requires Valid()
      modifies this, session
      ensures Valid() && session == null
      ensures old(session) != null ==> old(session).closed
    {
      if session != null {
        session.Close();
        session := null;
      }
    }

    /** The header assembly of `_make_request`. */
    method BuildHeaders() returns (headers: map<string, string>)
      ensures ProperHeaders(config, headers)
    {
      headers := map["Content-Type" := "application/json", "Accept" := "application/json"];
      if HasApiKey(config) {
        headers := headers["Authorization" := "Bearer " + config.apiKey.value];
      }
      headers := headers + config.headers;
    }

    /**
     * `_make_request`: re-opens the session if it was closed, sends the body
     * and query with the assembled headers to `urljoin(endpoint, path)`, and
     * classifies what `transport` returns for that request.
     */
    method MakeRequest(verb: string, path: string, data: Json, query: map<string, Json>,
                       transport: HttpRequest -> Delivery)
      returns (sent: HttpRequest, o: Outcome<Json>)
      requires Valid()
      modifies this
      ensures Valid() && session != null
      ensures old(session) != null ==> session == old(session)
      ensures old(session) == null ==> fresh(session)
      ensures sent.verb == verb && sent.target == Joined(config.endpoint, LStripSlash(path))
      ensures sent.body == data && sent.query == query && ProperHeaders(config, sent.headers)
      ensures o == ClassifyHttp(transport(sent))
    {
      if session == null {
        Start();
      }
      var headers := BuildHeaders();
      sent := HttpRequest(verb, Joined(config.endpoint, LStripSlash(path)), data, query, headers);
      o := ClassifyHttp(transport(sent));
    }

    /**
     * `_rpc_call`: re-opens the session if it was closed, posts
     * `{jsonrpc: "2.0", method, params, id: 1}` to the endpoint with only a
     * JSON Content-Type header, and classifies what `transport` returns.
     */
    method RpcCall(methodName: string, params: Json, shape: Shape, coerce: Coercer,
                   transport: HttpRequest -> Delivery)
      returns (sent: HttpRequest, o: Outcome<Json>)
      requires Valid()
      modifies this
      ensures Valid() && session != null
      ensures old(session) != null ==> session == old(session)
      ensures old(session) == null ==> fresh(session)
      ensures sent.verb == "POST" && sent.target == Endpoint(config.endpoint) && sent.query == map[]
      ensures sent.headers == map["Content-Type" := "application/json"]
      ensures sent.body == JObject(map["jsonrpc" := JString("2.0"), "method" := JString(methodName),
                                       "params" := params, "id" := JInt(1)])
      ensures o == ClassifyRpc(transport(sent), shape, coerce)
    {
      if session == null {
        Start();
      }
      var request := NewRpcRequest(methodName, params);
      sent := HttpRequest("POST", Endpoint(config.endpoint), request.ToJson(), map[],
                          map["Content-Type" := "application/json"]);
      o := ClassifyRpc(transport(sent), shape, coerce);
    }
  }
}
