/**
 * `WalletManager`: account creation, import and watch-only construction,
 * transaction validation, signing and submission, and the bounded wait for
 * confirmation.  RPC calls go through the `Rpc` oracle; key generation takes
 * its random bytes as a parameter; `float()` parsing is the `parses`
 * predicate.
 */
module Wallet {
  import opened Options
  import opened JsonValue
  import opened Bytes
  import opened Exceptions
  import opened Types
  import opened Client

  /** `_generate_keypair` over 32 random bytes: the private key is their hex, the public key the hex of their SHA-256. */
  function GenerateKeypair(sha: Sha256, seed: seq<byte>): (r: (string, string))
    requires |seed| == 32
    ensures |r.0| == 64 && |r.1| == 64 && IsLowerHex(r.0) && IsLowerHex(r.1)
    ensures FromHex(r.0) == Some(seed) && FromHex(r.1) == Some(sha(seed))
  {
    HexRoundTrip(seed);
    HexRoundTrip(sha(seed));
    (ToHex(seed), ToHex(sha(seed)))
  }

  /** `_derive_public_key`: the hex of the SHA-256 of the private key's bytes. */
  function DerivePublicKey(sha: Sha256, privateKey: string): (r: Option<string>)
    ensures r.Some? <==> IsHex(privateKey)
    ensures r.Some? ==> |r.value| == 64 && IsLowerHex(r.value) && IsHex(r.value)
    ensures r.Some? ==> FromHex(r.value) == Some(sha(FromHex(privateKey).value))
  {
    match FromHex(privateKey)
    case None => None
    case Some(keyBytes) =>
      HexRoundTrip(sha(keyBytes));
      LowerHexIsHex(ToHex(sha(keyBytes)));
      Some(ToHex(sha(keyBytes)))
  }

  /** `create_account`, with the 32 bytes `secrets.token_bytes` would return given as `seed`. */
  function CreateAccount(sha: Sha256, seed: seq<byte>): (a: Account)
    requires |seed| == 32
    ensures a.CanSign() && a.privateKey == Some(ToHex(seed))
    ensures DerivePublicKey(sha, a.privateKey.value) == Some(a.publicKey)
    ensures GenerateAddress(sha, a.publicKey) == Some(a.address)
  {
    var (privateKey, publicKey) := GenerateKeypair(sha, seed);
    LowerHexIsHex(privateKey);
    LowerHexIsHex(publicKey);
    Account(GenerateAddress(sha, publicKey).value, publicKey, Some(privateKey))
  }

  /**
   * `import_account`.  A key of the wrong length raises ValidationError
   * inside the `try`, which the generic handler re-raises as a WalletError
   * quoting it; a 64-character key that is not hex is a ValidationError on
   * "private_key"; otherwise the account keeps the key and derives the rest.
   */
  function ImportAccount(sha: Sha256, privateKey: string): (r: Outcome<Account>)
    ensures |privateKey| != 64 ==>
              r == Err(Chert(WalletError("Failed to import account: "
                                         + ErrorStr(ValidationError("private_key", "Private key must be 64 hex characters")))))
    ensures |privateKey| == 64 && !IsHex(privateKey) ==>
              r == Err(Chert(ValidationError("private_key", "Invalid hex format")))
    ensures r.Ok? <==> |privateKey| == 64 && IsHex(privateKey)
    ensures r.Ok? ==> && r.value.privateKey == Some(privateKey)
                      && |r.value.publicKey| == 64
                      && FromHex(r.value.publicKey) == Some(sha(FromHex(privateKey).value))
                      && GenerateAddress(sha, r.value.publicKey) == Some(r.value.address)
  {
    if privateKey == "" || |privateKey| != 64 then
      Err(Chert(WalletError("Failed to import account: "
                            + ErrorStr(ValidationError("private_key", "Private key must be 64 hex characters")))))
    else if FromHex(privateKey).None? then
      Err(Chert(ValidationError("private_key", "Invalid hex format")))
    else
      var publicKey := DerivePublicKey(sha, privateKey).value;
      Ok(Account(GenerateAddress(sha, publicKey).value, publicKey, Some(privateKey)))
  }

  /** A freshly created account is exactly what importing its private key gives back. */
  lemma ImportCreatedAccount(sha: Sha256, seed: seq<byte>)
    requires |seed| == 32
    ensures ImportAccount(sha, ToHex(seed)) == Ok(CreateAccount(sha, seed))
  {
    HexRoundTrip(seed);
    LowerHexIsHex(ToHex(seed));
  }

  /**
   * `create_watch_only_account`: a key of the wrong length or not hex is a
   * ValidationError on "public_key"; otherwise an account without private key.
   */
  function CreateWatchOnlyAccount(sha: Sha256, publicKey: string): (r: Outcome<Account>)
    ensures |publicKey| != 64 ==>
              r == Err(Chert(ValidationError("public_key", "Public key must be 64 hex characters")))
    ensures |publicKey| == 64 && !IsHex(publicKey) ==>
              r == Err(Chert(ValidationError("public_key", "Invalid hex format")))
    ensures r.Ok? <==> |publicKey| == 64 && IsHex(publicKey)
    ensures r.Ok? ==> && r.value.privateKey == None && !r.value.CanSign()
                      && r.value.publicKey == publicKey
                      && GenerateAddress(sha, publicKey) == Some(r.value.address)
  {
    if publicKey == "" || |publicKey| != 64 then
      Err(Chert(ValidationError("public_key", "Public key must be 64 hex characters")))
    else if FromHex(publicKey).None? then
      Err(Chert(ValidationError("public_key", "Invalid hex format")))
    else
      Ok(Account(GenerateAddress(sha, publicKey).value, publicKey, None))
  }

  /** `get_balance`: an empty address fails before any RPC. */
  function GetBalance(rpc: Rpc, address: string): (r: Outcome<Json>)
    ensures address == "" ==> r == Err(Chert(ValidationError("address", "Address cannot be empty")))
    ensures address != "" ==> r == rpc(Call("getBalance", JArray([JString(address)]), Model(BalanceModel)))
  {
    if address == "" then Err(Chert(ValidationError("address", "Address cannot be empty")))
    else rpc(Call("getBalance", JArray([JString(address)]), Model(BalanceModel)))
  }

  /**
   * `_validate_transaction_request`: `to`, `amount` and `fee` must be
   * non-empty, in that order, then `amount` and `fee` must parse as numbers;
   * the first check that fails names its field.
   */
  function ValidateTransactionRequest(parses: string -> bool, req: TransactionRequest): (r: Option<ChertError>)
    ensures r.None? <==> req.to != "" && req.amount != "" && req.fee != "" && parses(req.amount) && parses(req.fee)
    ensures r.Some? ==> r.value.kind.Validation? && r.value.code == JString("VALIDATION_ERROR")
    ensures req.to == "" ==> r.value.kind.field == "to"
    ensures req.to != "" && req.amount == "" ==> r.value.kind.field == "amount"
    ensures req.to != "" && req.amount != "" && req.fee == "" ==> r.value.kind.field == "fee"
    ensures req.to != "" && req.amount != "" && req.fee != "" && !parses(req.amount) ==> r.value.kind.field == "amount"
    ensures req.to != "" && req.amount != "" && req.fee != "" && parses(req.amount) && !parses(req.fee) ==>
              r.value.kind.field == "fee"
  {
    if req.to == "" then Some(ValidationError("to", "Recipient address cannot be empty"))
    else if req.amount == "" then Some(ValidationError("amount", "Amount cannot be empty"))
    else if req.fee == "" then Some(ValidationError("fee", "Fee cannot be empty"))
    else if !parses(req.amount) then Some(ValidationError("amount", "Invalid amount format"))
    else if !parses(req.fee) then Some(ValidationError("fee", "Invalid fee format"))
    else None
  }

  /** `request.nonce or 0` */
  function NonceOrZero(req: TransactionRequest): int
  {
    if req.nonce.Some? then req.nonce.value else 0
  }

  /** `request.memo` is truthy. */
  predicate HasMemo(req: TransactionRequest)
  {
    req.memo.Some? && req.memo.value != ""
  }

  /**
   * `_sign_transaction`: the hex SHA-256 of recipient, amount, fee, nonce,
   * the memo when present, and the private key, concatenated as text.
   */
  function SignTransaction(sha: Sha256, req: TransactionRequest, privateKey: string): (s: string)
    ensures |s| == 64 && IsLowerHex(s)
    ensures FromHex(s) == Some(sha(Utf8(req.to + req.amount + req.fee + IntToString(NonceOrZero(req))
                                        + (if HasMemo(req) then req.memo.value else "") + privateKey)))
  {
    var signed := req.to + req.amount + req.fee + IntToString(NonceOrZero(req))
                  + (if HasMemo(req) then req.memo.value else "") + privateKey;
    HexRoundTrip(sha(Utf8(signed)));
    ToHex(sha(Utf8(signed)))
  }

  /** The `tx_data` dict `send_transaction` submits. */
  function TransactionPayload(req: TransactionRequest, sender: string, signature: string): (p: Json)
    ensures p.JObject?
    ensures p.fields.Keys == {"sender", "recipient", "amount", "fee", "nonce", "signature"}
                             + (if HasMemo(req) then {"memo"} else {})
    ensures p.fields["sender"] == JString(sender) && p.fields["recipient"] == JString(req.to)
    ensures p.fields["amount"] == JString(req.amount) && p.fields["fee"] == JString(req.fee)
    ensures p.fields["signature"] == JString(signature)
    ensures p.fields["nonce"] == JInt(if req.nonce.Some? then req.nonce.value else 0)
    ensures "memo" in p.fields ==> p.fields["memo"] == JString(req.memo.value)
  {
    var base := map[
      "sender" := JString(sender),
      "recipient" := JString(req.to),
      "amount" := JString(req.amount),
      "fee" := JString(req.fee),
      "nonce" := JInt(NonceOrZero(req)),
      "signature" := JString(signature)];
    JObject(if HasMemo(req) then base["memo" := JString(req.memo.value)] else base)
  }

  /**
   * `send_transaction`: a watch-only account fails before validation, an
   * invalid request fails before any RPC, and otherwise the result's "hash"
   * is returned when present, a TransactionError raised when not.
   */
  function SendTransaction(sha: Sha256, parses: string -> bool, rpc: Rpc, req: TransactionRequest, account: Account)
    : (r: Outcome<Json>)
    ensures !account.CanSign() ==> r == Err(Chert(WalletError("Account does not have a private key")))
    ensures account.CanSign() && ValidateTransactionRequest(parses, req).Some? ==>
              r == Err(Chert(ValidateTransactionRequest(parses, req).value))
    ensures account.CanSign() && ValidateTransactionRequest(parses, req).None? ==>
              var payload := TransactionPayload(req, account.address, SignTransaction(sha, req, account.privateKey.value));
              ReturnsKey(r, rpc(Call("sendTransaction", JArray([payload]), NoShape)), "hash",
                         TransactionError("Invalid transaction response", None))
  {
    if !account.CanSign() then Err(Chert(WalletError("Account does not have a private key")))
    else
      match ValidateTransactionRequest(parses, req)
      case Some(e) => Err(Chert(e))
      case None =>
        var signature := SignTransaction(sha, req, account.privateKey.value);
        var payload := TransactionPayload(req, account.address, signature);
        ExpectKey(rpc(Call("sendTransaction", JArray([payload]), NoShape)), "hash",
                  TransactionError("Invalid transaction response", None))
  }

  /** `estimate_fee`: validation first, then the request's dict is sent as is. */
  function EstimateFee(parses: string -> bool, rpc: Rpc, req: TransactionRequest): (r: Outcome<Json>)
    ensures ValidateTransactionRequest(parses, req).Some? ==> r == Err(Chert(ValidateTransactionRequest(parses, req).value))
    ensures ValidateTransactionRequest(parses, req).None? ==> r == rpc(Call("estimateFee", JArray([req.ToJson()]), NoShape))
  {
    match ValidateTransactionRequest(parses, req)
    case Some(e) => Err(Chert(e))
    case None => rpc(Call("estimateFee", JArray([req.ToJson()]), NoShape))
  }

  /** Between the k-th and the next loop test the clock moves forward, by at least the interval slept. */
  ghost predicate Advances(clock: nat -> int, intervalMs: int, k: nat)
  {
    clock(k) < clock(k + 1) && clock(k) + intervalMs <= clock(k + 1)
  }

  /**
   * `clock(k)` is the elapsed time, in ms since the start, read by the k-th
   * test of the loop condition: never negative and strictly increasing.
   */
  ghost predicate Ticking(clock: nat -> int, intervalMs: int)
  {
    0 <= clock(0) && forall k: nat :: Advances(clock, intervalMs, k)
  }

  /** The `fetch(k)` that makes the wait return: a transaction whose status is CONFIRMED. */
  predicate IsConfirmed(fetched: Outcome<Transaction>)
  {
    fetched.Ok? && fetched.value.status == Confirmed
  }

  /**
   * What polling does from the k-th loop test on, `fetch(k)` being the k-th
   * `get_transaction` outcome: the confirmed transaction it returns (None at
   * the timeout) and how many fetches were made by then.
   */
  ghost function PollFrom(timeoutMs: int, intervalMs: int, clock: nat -> int, fetch: nat -> Outcome<Transaction>, k: nat)
    : (Option<Transaction>, nat)
    requires Ticking(clock, intervalMs)
    decreases timeoutMs - clock(k)
  {
    if clock(k) >= timeoutMs then (None, k)
    else if IsConfirmed(fetch(k)) then (Some(fetch(k).value), k + 1)
    else
      assert Advances(clock, intervalMs, k);
      PollFrom(timeoutMs, intervalMs, clock, fetch, k + 1)
  }

  /**
   * `wait_for_transaction`: an empty hash is a ValidationError; otherwise the
   * loop fetches while the elapsed time is below the timeout and returns the
   * first CONFIRMED transaction, or None once the timeout is reached.  A
   * FAILED or REJECTED status raises TransactionError inside the `try`, and
   * the `except Exception` around it swallows that like any failed fetch, so
   * polling goes on.  The source's defaults are a 60 s timeout and a 2 s
   * interval; here both are given in milliseconds by the caller.
   */
  method WaitForTransaction(txHash: string, timeoutMs: int, intervalMs: int,
                            clock: nat -> int, fetch: nat -> Outcome<Transaction>)
    returns (r: Outcome<Option<Transaction>>, polls: nat)
    requires Ticking(clock, intervalMs)
    ensures txHash == "" ==> r == Err(Chert(ValidationError("tx_hash", "Transaction hash cannot be empty"))) && polls == 0
    ensures txHash != "" ==> r == Ok(PollFrom(timeoutMs, intervalMs, clock, fetch, 0).0)
                             && polls == PollFrom(timeoutMs, intervalMs, clock, fetch, 0).1
  {
    if txHash == "" {
      return Err(Chert(ValidationError("tx_hash", "Transaction hash cannot be empty"))), 0;
    }
    var k: nat := 0;
    while clock(k) < timeoutMs
      invariant PollFrom(timeoutMs, intervalMs, clock, fetch, k) == PollFrom(timeoutMs, intervalMs, clock, fetch, 0)
      decreases timeoutMs - clock(k)
    {
      var fetched := fetch(k);
      if fetched.Ok? && fetched.value.status == Confirmed {
        return Ok(Some(fetched.value)), k + 1;
      }
      // FAILED, REJECTED, PENDING or a failed fetch: sleep and poll again.
      assert Advances(clock, intervalMs, k);
      k := k + 1;
    }
    return Ok(None), k;
  }

  /**
   * A wait that returns a transaction returns a CONFIRMED one, fetched by
   * the last poll, made before the timeout.
   */
  lemma {:induction false} PollReturnsConfirmed(timeoutMs: int, intervalMs: int, clock: nat -> int,
                                                fetch: nat -> Outcome<Transaction>, k: nat)
    requires Ticking(clock, intervalMs)
    ensures var (found, polls) := PollFrom(timeoutMs, intervalMs, clock, fetch, k);
            found.Some? ==> && k < polls && fetch(polls - 1) == Ok(found.value)
                            && found.value.status == Confirmed && clock(polls - 1) < timeoutMs
    decreases timeoutMs - clock(k)
  {
    if clock(k) < timeoutMs && !IsConfirmed(fetch(k)) {
      assert Advances(clock, intervalMs, k);
      PollReturnsConfirmed(timeoutMs, intervalMs, clock, fetch, k + 1);
    }
  }

  /**
   * A wait that returns None made its polls before the timeout, saw no
   * CONFIRMED status in any of them, and stopped at the first loop test
   * whose elapsed time reached the timeout.
   */
  lemma {:induction false} PollNoneMeansTimeout(timeoutMs: int, intervalMs: int, clock: nat -> int,
                                                fetch: nat -> Outcome<Transaction>, k: nat)
    requires Ticking(clock, intervalMs)
    ensures var (found, polls) := PollFrom(timeoutMs, intervalMs, clock, fetch, k);
            found.None? ==> && k <= polls && clock(polls) >= timeoutMs
                            && (forall j :: k <= j < polls ==> clock(j) < timeoutMs && !IsConfirmed(fetch(j)))
    decreases timeoutMs - clock(k)
  {
    if clock(k) < timeoutMs && !IsConfirmed(fetch(k)) {
      assert Advances(clock, intervalMs, k);
      PollNoneMeansTimeout(timeoutMs, intervalMs, clock, fetch, k + 1);
    }
  }

  /** A timeout that is not positive means no poll at all. */
  lemma NonPositiveTimeoutNoPolls(timeoutMs: int, intervalMs: int, clock: nat -> int, fetch: nat -> Outcome<Transaction>)
    requires Ticking(clock, intervalMs) && timeoutMs <= 0
    ensures PollFrom(timeoutMs, intervalMs, clock, fetch, 0) == (None, 0)
  {
  }

  /** A FAILED or REJECTED status, or a failed fetch, before the timeout does not end the wait. */
  lemma FailureKeepsPolling(timeoutMs: int, intervalMs: int, clock: nat -> int, fetch: nat -> Outcome<Transaction>, k: nat)
    requires Ticking(clock, intervalMs) && clock(k) < timeoutMs
    requires fetch(k).Err? || fetch(k).value.status == TransactionStatus.Failed || fetch(k).value.status == TransactionStatus.Rejected
    ensures PollFrom(timeoutMs, intervalMs, clock, fetch, k) == PollFrom(timeoutMs, intervalMs, clock, fetch, k + 1)
  {
  }

  /**
   * A transaction that stays pending, a timeout of 100 ms and a clock that
   * advances by exactly the 20 ms interval: the wait returns None after 5 polls.
   */
  lemma PendingScenario(fetch: nat -> Outcome<Transaction>)
    requires forall j: nat :: fetch(j).Ok? && fetch(j).value.status == Pending
    ensures Ticking((j: nat) => 20 * j, 20)
    ensures PollFrom(100, 20, (j: nat) => 20 * j, fetch, 0) == (None, 5)
  {
    var clock := (j: nat) => 20 * j;
    assert Ticking(clock, 20) by {
      forall k: nat ensures Advances(clock, 20, k) {
      }
    }
    var (found, polls) := PollFrom(100, 20, clock, fetch, 0);
    PollReturnsConfirmed(100, 20, clock, fetch, 0);
    PollNoneMeansTimeout(100, 20, clock, fetch, 0);
    if polls > 0 {
      assert clock(polls - 1) < 100;
    }
  }
}
