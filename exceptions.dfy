/**
 * The SDK's error taxonomy: one base error with a message, a code that is
 * never falsy and a structured data payload, and one kind per subclass
 * with the extra fields that subclass keeps.
 */
module Exceptions {
  import opened Options
  import opened JsonValue

  /** Which subclass of ChertError was raised, with the fields only it keeps. */
  datatype Kind =
    | Base
    | Network(cause: Option<string>)
    | Api(statusCode: Option<int>)
    | Validation(field: string)
    | Transaction(txHash: Option<string>)
    | Wallet
    | Privacy
    | Staking
    | Governance
    | Configuration
    | Crypto
    | Timeout(operation: string, timeoutSeconds: real)

  /**
   * A raised ChertError.  Message and code keep the values they were given,
   * as Python does: an API error's code may be the integer from a response
   * body; only `str()` turns them into text.
   */
  datatype ChertError = ChertError(kind: Kind, message: Json, code: Json, data: Json)

  /**
   * The exceptions a call can end in: a ChertError, or a Python built-in
   * exception (TypeError, AttributeError, ValueError, ...) that no handler
   * converts, named by its class with an abbreviated text.
   */
  datatype Raised = Chert(error: ChertError) | Foreign(name: string, detail: string)

  /** What an SDK call gives back: its value, or the exception it raises. */
  datatype Outcome<+T> = Ok(value: T) | Err(raised: Raised)

  /** `ChertError.__init__`: `code or "UNKNOWN_ERROR"` and `data or {}`. */
  function NewError(kind: Kind, message: Json, code: Json, data: Json): (e: ChertError)
    ensures e.kind == kind && e.message == message
    ensures Truthy(e.code)
    ensures Truthy(code) ==> e.code == code
    ensures !Truthy(code) ==> e.code == JString("UNKNOWN_ERROR")
    ensures Truthy(data) ==> e.data == data
    ensures !Truthy(data) ==> e.data == EmptyObject
  {
    ChertError(kind, message,
               if Truthy(code) then code else JString("UNKNOWN_ERROR"),
               if Truthy(data) then data else EmptyObject)
  }

  /** `ChertError.__str__` */
  function ErrorStr(e: ChertError): string
  {
    if Truthy(e.code) then PyStr(e.code) + ": " + PyStr(e.message) else PyStr(e.message)
  }

  /** `str(e)` for any raised exception. */
  function RaisedStr(r: Raised): string
  {
    match r
    case Chert(e) => ErrorStr(e)
    case Foreign(_, detail) => detail
  }

  /**
   * Every error built by the constructor renders as "<code>: <message>":
   * the constructor never leaves the code falsy, so the other branch of
   * `__str__` is unreachable.
   */
  lemma StrHasCode(kind: Kind, message: Json, code: Json, data: Json)
    ensures var e := NewError(kind, message, code, data);
            ErrorStr(e) == PyStr(e.code) + ": " + PyStr(e.message)
  {
  }

  function NetworkError(message: string, cause: Option<string>): (e: ChertError)
    ensures e.kind == Network(cause) && e.message == JString(message)
    ensures e.code == JString("NETWORK_ERROR") && e.data == EmptyObject
  {
    NewError(Network(cause), JString(message), JString("NETWORK_ERROR"), JNull)
  }

  /**
   * `APIError(message, code, status_code, data)`: the code is kept as given
   * (falling back to UNKNOWN_ERROR only when it is falsy), and so is the
   * status, which may be None.
   */
  function ApiError(message: Json, code: Json, statusCode: Option<int>, data: Json): (e: ChertError)
    ensures e.kind == Api(statusCode) && e.message == message
    ensures Truthy(code) ==> e.code == code
    ensures !Truthy(code) ==> e.code == JString("UNKNOWN_ERROR")
    ensures Truthy(data) ==> e.data == data
    ensures !Truthy(data) ==> e.data == EmptyObject
  {
    NewError(Api(statusCode), message, code, data)
  }

  /** `ValidationError(field, message)` */
  function ValidationError(field: string, message: string): (e: ChertError)
    ensures e.kind == Validation(field) && e.code == JString("VALIDATION_ERROR")
    ensures e.message == JString("Validation error in " + field + ": " + message)
    ensures e.data == JObject(map["field" := JString(field)])
  {
    NewError(Validation(field), JString("Validation error in " + field + ": " + message),
             JString("VALIDATION_ERROR"), JObject(map["field" := JString(field)]))
  }

  /** `TransactionError(message, tx_hash)`: the hash is recorded in data only when non-empty. */
  function TransactionError(message: string, txHash: Option<string>): (e: ChertError)
    ensures e.kind == Transaction(txHash) && e.code == JString("TRANSACTION_ERROR") && e.message == JString(message)
    ensures txHash.Some? && txHash.value != "" <==> e.data != EmptyObject
    ensures e.data != EmptyObject ==> e.data == JObject(map["tx_hash" := JString(txHash.value)])
  {
    NewError(Transaction(txHash), JString(message), JString("TRANSACTION_ERROR"),
             if txHash.Some? && txHash.value != "" then JObject(map["tx_hash" := JString(txHash.value)]) else JNull)
  }

  /** The subclasses that only fix the code. */
  function WalletError(message: string): (e: ChertError)
    ensures e == ChertError(Wallet, JString(message), JString("WALLET_ERROR"), EmptyObject)
  {
    NewError(Wallet, JString(message), JString("WALLET_ERROR"), JNull)
  }

  function PrivacyError(message: string): (e: ChertError)
    ensures e == ChertError(Privacy, JString(message), JString("PRIVACY_ERROR"), EmptyObject)
  {
    NewError(Privacy, JString(message), JString("PRIVACY_ERROR"), JNull)
  }

  function StakingError(message: string): (e: ChertError)
    ensures e == ChertError(Staking, JString(message), JString("STAKING_ERROR"), EmptyObject)
  {
    NewError(Staking, JString(message), JString("STAKING_ERROR"), JNull)
  }

  function GovernanceError(message: string): (e: ChertError)
    ensures e == ChertError(Governance, JString(message), JString("GOVERNANCE_ERROR"), EmptyObject)
  {
    NewError(Governance, JString(message), JString("GOVERNANCE_ERROR"), JNull)
  }

  function ConfigurationError(message: string): (e: ChertError)
    ensures e == ChertError(Configuration, JString(message), JString("CONFIG_ERROR"), EmptyObject)
  {
    NewError(Configuration, JString(message), JString("CONFIG_ERROR"), JNull)
  }

  function CryptoError(message: string): (e: ChertError)
    ensures e == ChertError(Crypto, JString(message), JString("CRYPTO_ERROR"), EmptyObject)
  {
    NewError(Crypto, JString(message), JString("CRYPTO_ERROR"), JNull)
  }

  /** `TimeoutError(operation, timeout_seconds)` */
  function TimeoutError(operation: string, timeoutSeconds: real): (e: ChertError)
    ensures e.kind == Timeout(operation, timeoutSeconds) && e.code == JString("TIMEOUT_ERROR")
    ensures e.message == JString("Operation '" + operation + "' timed out after " + PyStr(JFloat(timeoutSeconds)) + "s")
    ensures e.data == JObject(map["operation" := JString(operation), "timeout_seconds" := JFloat(timeoutSeconds)])
  {
    NewError(Timeout(operation, timeoutSeconds),
             JString("Operation '" + operation + "' timed out after " + PyStr(JFloat(timeoutSeconds)) + "s"),
             JString("TIMEOUT_ERROR"),
             JObject(map["operation" := JString(operation), "timeout_seconds" := JFloat(timeoutSeconds)]))
  }
}
