/**
 * The SDK's domain records and enumerations, with the defaults the
 * records declare, the `.dict()` views that are sent on the wire, and the
 * decoding of the two response envelopes.
 */
module Types {
  import opened Options
  import opened JsonValue

  datatype Network = Mainnet | Testnet | Devnet
  {
    function Value(): string
    {
      match this
      case Mainnet => "mainnet"
      case Testnet => "testnet"
      case Devnet => "devnet"
    }
  }

  /** Client configuration; `timeout` is in seconds. */
  datatype ClientConfig = ClientConfig(
    endpoint: string,
    network: Network,
    timeout: real,
    apiKey: Option<string>,
    headers: map<string, string>)

  /** `ClientConfig()` with every field left at its default. */
  function DefaultClientConfig(): (c: ClientConfig)
    ensures c.endpoint == "https://api.chert.com" && c.network == Mainnet
    ensures c.timeout == 30.0 && c.apiKey == None && c.headers == map[]
  {
    ClientConfig("https://api.chert.com", Mainnet, 30.0, None, map[])
  }

  /** An account; without a private key it is watch-only. */
  datatype Account = Account(address: string, publicKey: string, privateKey: Option<string>)
  {
    /** `if not account.private_key`: None and "" both mean the account cannot sign. */
    predicate CanSign()
    {
      privateKey.Some? && privateKey.value != ""
    }
  }

  datatype TransactionRequest = TransactionRequest(
    to: string,
    amount: string,
    fee: string,
    memo: Option<string>,
    nonce: Option<int>)
  {
    /** `request.dict()` */
    function ToJson(): (j: Json)
      ensures j.JObject? && j.fields.Keys == {"to", "amount", "fee", "memo", "nonce"}
      ensures j.fields["to"] == JString(to) && j.fields["amount"] == JString(amount)
              && j.fields["fee"] == JString(fee)
      ensures memo.None? <==> j.fields["memo"] == JNull
      ensures memo.Some? ==> j.fields["memo"] == JString(memo.value)
      ensures nonce.None? <==> j.fields["nonce"] == JNull
      ensures nonce.Some? ==> j.fields["nonce"] == JInt(nonce.value)
    {
      JObject(map[
        "to" := JString(to),
        "amount" := JString(amount),
        "fee" := JString(fee),
        "memo" := if memo.Some? then JString(memo.value) else JNull,
        "nonce" := if nonce.Some? then JInt(nonce.value) else JNull])
    }
  }

  datatype TransactionStatus = Pending | Confirmed | Failed | Rejected
  {
    function Value(): string
    {
      match this
      case Pending => "pending"
      case Confirmed => "confirmed"
      case Failed => "failed"
      case Rejected => "rejected"
    }
  }

  /** The status named by its wire value, if any. */
  function ParseStatus(s: string): (r: Option<TransactionStatus>)
    ensures r.Some? ==> r.value.Value() == s
    ensures forall t: TransactionStatus :: t.Value() == s ==> r == Some(t)
  {
    if s == "pending" then Some(Pending)
    else if s == "confirmed" then Some(Confirmed)
    else if s == "failed" then Some(Failed)
    else if s == "rejected" then Some(Rejected)
    else None
  }

  /** A transaction; `fromAddress` travels on the wire under the key "from". */
  datatype Transaction = Transaction(
    hash: string,
    fromAddress: string,
    to: string,
    amount: string,
    fee: string,
    memo: Option<string>,
    blockHeight: Option<int>,
    status: TransactionStatus,
    timestamp: string,
    nonce: int)

  datatype KeyPair = KeyPair(public: string, secret: string)
  {
    function ToJson(): Json
    {
      JObject(map["public" := JString(public), "secret" := JString(secret)])
    }
  }

  datatype StealthKeys = StealthKeys(viewKeypair: KeyPair, spendKeypair: KeyPair)
  {
    function ToJson(): Json
    {
      JObject(map["view_keypair" := viewKeypair.ToJson(), "spend_keypair" := spendKeypair.ToJson()])
    }
  }

  datatype StealthAccount = StealthAccount(
    address: string,
    viewKey: string,
    spendPublicKey: string,
    keys: Option<StealthKeys>)

  datatype PrivacyLevel = Stealth | Encrypted
  {
    function Value(): string
    {
      match this
      case Stealth => "stealth"
      case Encrypted => "encrypted"
    }
  }

  datatype PrivateTransactionRequest = PrivateTransactionRequest(
    senderKeys: StealthKeys,
    recipientViewKey: string,
    amount: string,
    fee: string,
    privacyLevel: PrivacyLevel,
    nonce: int,
    memo: Option<string>)

  datatype ValidatorStatus = Active | Inactive | Jailed

  datatype DelegationRequest = DelegationRequest(validatorAddress: string, amount: string, fee: string)
  {
    /** `request.dict()` */
    function ToJson(): Json
    {
      JObject(map["validator_address" := JString(validatorAddress),
                  "amount" := JString(amount), "fee" := JString(fee)])
    }
  }

  datatype ProposalStatus = Voting | Passed | ProposalRejected | Executed | ProposalFailed

  datatype VoteOption = Yes | No | Abstain | NoWithVeto
  {
    function Value(): string
    {
      match this
      case Yes => "yes"
      case No => "no"
      case Abstain => "abstain"
      case NoWithVeto => "no_with_veto"
    }
  }

  datatype VoteRequest = VoteRequest(proposalId: string, option: VoteOption, fee: string)
  {
    /** `request.dict()`, as serialised: the option travels as its string value. */
    function ToJson(): Json
    {
      JObject(map["proposal_id" := JString(proposalId),
                  "option" := JString(option.Value()), "fee" := JString(fee)])
    }
  }

  /**
   * The records that RPC results are coerced into when a result type is
   * requested; their fields are left to the coercion oracle.
   */
  datatype ModelName =
    | NetworkStatusModel | BlockModel | TransactionModel | BalanceModel
    | ValidatorModel | ProposalModel | VoteTallyModel | StakingRewardsModel

  /** The generic HTTP envelope `{success, data, error}`. */
  datatype ApiResponse = ApiResponse(data: Json, success: bool, error: Option<map<string, Json>>)

  /** A JSON-RPC request; `jsonrpc` defaults to "2.0", `params` to None and `id` to 1. */
  datatype JsonRpcRequest = JsonRpcRequest(jsonrpc: string, methodName: string, params: Json, id: Json)
  {
    /** `request.dict()` */
    function ToJson(): Json
    {
      JObject(map["jsonrpc" := JString(jsonrpc), "method" := JString(methodName),
                  "params" := params, "id" := id])
    }
  }

  /** `JSONRPCRequest(method=method, params=params)` */
  function NewRpcRequest(methodName: string, params: Json): (r: JsonRpcRequest)
    ensures r.jsonrpc == "2.0" && r.methodName == methodName && r.params == params && r.id == JInt(1)
  {
    JsonRpcRequest("2.0", methodName, params, JInt(1))
  }

  /** A JSON-RPC response; `result` and `error` are optional (None is JNull / None). */
  datatype JsonRpcResponse = JsonRpcResponse(jsonrpc: string, result: Json, error: Option<map<string, Json>>, id: Json)

  /** An `Optional[Dict[str, Any]]` field: absent or null is None, a dict is kept, anything else fails. */
  function OptDict(f: map<string, Json>, key: string): Option<Option<map<string, Json>>>
  {
    if key !in f || f[key] == JNull then Some(None)
    else if f[key].JObject? then Some(Some(f[key].fields))
    else None
  }

  /** An ASCII lower-casing, enough to compare against the words pydantic accepts as booleans. */
  function AsciiLower(s: string): (r: string)
    ensures |r| == |s|
  {
    if s == [] then []
    else [if 'A' <= s[0] <= 'Z' then (s[0] as int + 32) as char else s[0]] + AsciiLower(s[1..])
  }

  /** pydantic's lax `bool` validation of a JSON value. */
  function LaxBool(j: Json): (r: Option<bool>)
    ensures j.JBool? ==> r == Some(j.b)
    ensures j.JNull? || j.JArray? || j.JObject? ==> r == None
  {
    match j
    case JBool(b) => Some(b)
    case JInt(i) => if i == 0 then Some(false) else if i == 1 then Some(true) else None
    case JFloat(f) => if f == 0.0 then Some(false) else if f == 1.0 then Some(true) else None
    case JString(s) =>
      var w := AsciiLower(s);
      if w in {"0", "off", "f", "false", "n", "no"} then Some(false)
      else if w in {"1", "on", "t", "true", "y", "yes"} then Some(true)
      else None
    case _ => None
  }

  /** `APIResponse(**body)`: `data` and `success` are required, `error` is optional. */
  function DecodeApiResponse(body: map<string, Json>): (r: Option<ApiResponse>)
    ensures r.Some? ==> "data" in body && "success" in body && r.value.data == body["data"]
    ensures r.Some? ==> LaxBool(body["success"]) == Some(r.value.success)
    ensures r.Some? && "error" in body && body["error"].JObject? ==> r.value.error == Some(body["error"].fields)
    ensures r.Some? && ("error" !in body || body["error"] == JNull) ==> r.value.error == None
    ensures r.None? <==> "data" !in body || "success" !in body
                         || LaxBool(body["success"]).None? || OptDict(body, "error").None?
  {
    if "data" in body && "success" in body && LaxBool(body["success"]).Some? && OptDict(body, "error").Some?
    then Some(ApiResponse(body["data"], LaxBool(body["success"]).value, OptDict(body, "error").value))
    else None
  }

  /** `JSONRPCResponse(**body)`: `jsonrpc` (a string) and `id` are required. */
  function DecodeRpcResponse(body: map<string, Json>): (r: Option<JsonRpcResponse>)
    ensures r.Some? ==> "jsonrpc" in body && body["jsonrpc"] == JString(r.value.jsonrpc)
    ensures r.Some? ==> "id" in body && r.value.id == body["id"]
    ensures r.Some? ==> r.value.result == Get(body, "result", JNull)
    ensures r.Some? && "error" in body && body["error"].JObject? ==> r.value.error == Some(body["error"].fields)
    ensures r.Some? && ("error" !in body || body["error"] == JNull) ==> r.value.error == None
    ensures r.None? <==> "jsonrpc" !in body || !body["jsonrpc"].JString? || "id" !in body
                         || OptDict(body, "error").None?
  {
    if "jsonrpc" in body && body["jsonrpc"].JString? && "id" in body && OptDict(body, "error").Some?
    then Some(JsonRpcResponse(body["jsonrpc"].s, Get(body, "result", JNull), OptDict(body, "error").value, body["id"]))
    else None
  }
}
