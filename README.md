# chert_sdk in Dafny

A model of the decision logic of `chert_sdk`, an async Python client for the
Chert blockchain. It covers:

- `ChertClient`: its session lifecycle, the headers it sends, and the
  classification of a decoded HTTP response into a value or an error. There
  are two call paths, `_make_request` and `_rpc_call`. The client also
  generates addresses.
- The wallet: accounts, transaction validation, signing and sending, and the
  bounded wait for confirmation.
- The privacy helpers: stealth keys and addresses, the shared secret, the XOR
  memo cipher, and private transactions.
- The staking and governance façades.
- The error taxonomy and the domain records.

Everything outside the SDK is a parameter:

- The network is a function from the request sent to what came back
  (`transport`, or `Rpc` for the managers, which see `_rpc_call` as a function
  from a call to its outcome).
- SHA-256 is the uninterpreted `Sha256`: any function whose digests are 32
  bytes.
- Random bytes are seeds passed in.
- `float()` parsing is a predicate `parses`.
- pydantic's model coercion is a `Coercer` oracle.
- The event-loop clock is a function `clock` from the number of loop tests to
  elapsed milliseconds.

Python exceptions map onto `Outcome`:

- A raised `ChertError` is `Err(Chert(e))`.
- Any other exception (an `AttributeError`, a `ValueError` from
  `bytes.fromhex`, a `ZeroDivisionError`) is `Err(Foreign(name, detail))`.

Modules, one per file:

- `Options`, `JsonValue`, `Bytes`: the value layer. This is JSON after
  `response.json()`, Python truthiness and `str()`, hex, UTF-8 and the digest.
- `Exceptions`: `exceptions.py`.
- `Types`: `types.py`, including the decoding of the two response
  envelopes under pydantic 2's default (lax) validation (`setup.py` asks for
  `pydantic>=2`).
- `Client`: `client.py`. `ChertClient` is a class whose `session` field is set
  by `Start`, cleared by `Close` and re-set lazily by `MakeRequest` and
  `RpcCall`.
- `Wallet`, `Privacy`, `Governance`, `Staking`: the managers, as functions of
  their arguments and the RPC oracle. Two operations are loops:
  - `wait_for_transaction` is a `while` loop proved against the polling
    function `PollFrom`.
  - `encrypt_memo` and `decrypt_memo` are byte loops proved against the
    functional cipher `CyclicXor`.

Behaviour of the code worth knowing:

- A response body that is not a dict makes `.get` or `**` raise
  `AttributeError` or `TypeError`, and that exception reaches the caller
  untranslated (`Client.NotADict`).
- Only `aiohttp.ClientError` becomes a NetworkError. A JSONDecodeError from a
  malformed JSON body and the asyncio.TimeoutError of the total timeout reach
  the caller untranslated (`Client.Delivery.Raising`).
- Errors keep their `code` and `message` as given: an integer code from an
  error body stays an integer, and only `_rpc_call` applies `str()` to its
  code.
- A shape is only applied to a truthy result.
- `List[...]` result types have no `__annotations__`, so they are returned raw.
- A JSON-RPC response with a result of null, or with no result and no error,
  returns None.
- `wait_for_transaction` swallows the `TransactionError` it raises for a
  FAILED or REJECTED transaction and keeps polling until the timeout.
- `import_account` turns its own length `ValidationError` into a
  `WalletError`.

## Model

| member | source | states |
|---|---|---|
| Exceptions.NewError | chert_sdk/exceptions.py:11-15 | message kept as given; the code is the given value (of any JSON type) when truthy, else "UNKNOWN_ERROR", so it is never falsy; data is the given value when truthy, else `{}` |
| Exceptions.StrHasCode | chert_sdk/exceptions.py:17-20 | every constructed error renders as "code: message"; the message-only branch of `__str__` is unreachable |
| Exceptions.NetworkError | chert_sdk/exceptions.py:26-28 | code NETWORK_ERROR, empty data, cause recorded in the kind |
| Exceptions.ApiError | chert_sdk/exceptions.py:34-36 | a truthy code of any JSON type is kept and a falsy one becomes UNKNOWN_ERROR; the status (possibly None) is kept; dict data is kept |
| Exceptions.ValidationError | chert_sdk/exceptions.py:42-44 | message "Validation error in <field>: <msg>", code VALIDATION_ERROR, data `{"field": field}` |
| Exceptions.TransactionError | chert_sdk/exceptions.py:50-52 | data is `{"tx_hash": h}` exactly when the hash is non-empty, `{}` otherwise |
| Exceptions.WalletError | chert_sdk/exceptions.py:58-59 | the whole error: kind Wallet, code WALLET_ERROR, empty data |
| Exceptions.PrivacyError | chert_sdk/exceptions.py:65-66 | the whole error: code PRIVACY_ERROR, empty data |
| Exceptions.StakingError | chert_sdk/exceptions.py:72-73 | the whole error: code STAKING_ERROR, empty data |
| Exceptions.GovernanceError | chert_sdk/exceptions.py:79-80 | the whole error: code GOVERNANCE_ERROR, empty data |
| Exceptions.ConfigurationError | chert_sdk/exceptions.py:86-87 | the whole error: code CONFIG_ERROR, empty data |
| Exceptions.CryptoError | chert_sdk/exceptions.py:93-94 | the whole error: code CRYPTO_ERROR, empty data |
| Exceptions.TimeoutError | chert_sdk/exceptions.py:100-106 | code TIMEOUT_ERROR, data `{operation, timeout_seconds}`, message naming both |
| Types.DefaultClientConfig | chert_sdk/types.py:266-272 | endpoint https://api.chert.com, mainnet, timeout 30, no API key, no extra headers |
| Types.ParseStatus | chert_sdk/types.py:44-49 | a wire value names at most one status, and every status's value parses back to it |
| Types.TransactionRequest.ToJson | chert_sdk/types.py:35-41 | the dict has exactly the keys to, amount, fee, memo, nonce, each holding its field; memo and nonce are null exactly when unset |
| Types.NewRpcRequest | chert_sdk/types.py:249-254 | jsonrpc "2.0", id 1, method and params as given |
| Types.LaxBool | chert_sdk/types.py:244 | a JSON bool is kept; null, lists and dicts are rejected |
| Types.DecodeApiResponse | chert_sdk/types.py:241-245 | decodes exactly when data and success are present, success is a bool under pydantic's lax rules, and error is absent, null or a dict; data is kept as is |
| Types.DecodeRpcResponse | chert_sdk/types.py:257-262 | decodes exactly when jsonrpc is a string, id is present and error is absent, null or a dict; an absent result is None; a dict error is kept and an absent or null one is None |
| Client.ClassifyHttp | chert_sdk/client.py:188-219 | a ClientError is a NetworkError and any other exception passes through; a non-ok status is always an error: AttributeError when the body or its error member is not a dict, otherwise an APIError carrying the status and the whole body; an ok body that is not a dict is a TypeError, one that does not decode a ValidationError on "response"; a value is returned exactly when the status is ok, the envelope decodes and says success, and it is the envelope's data |
| Client.NonOkErrorDefaults | chert_sdk/client.py:198-201 | on a non-ok status the message is the error's message as given, else "Unknown API error"; the code is the error's code as given when truthy, UNKNOWN_ERROR when present and falsy, API_ERROR when absent |
| Client.UnsuccessfulEnvelope | chert_sdk/client.py:203-212 | success false gives an APIError without status: from a non-empty error map it carries that map, its message as given (else "API request failed") and its code as given when truthy (UNKNOWN_ERROR when falsy, API_ERROR when absent); otherwise the generic "API request failed", API_ERROR, `{}` |
| Client.ClassifyRpc | chert_sdk/client.py:247-283 | a ClientError is a NetworkError and any other exception passes through; non-ok status is exactly APIError("HTTP <status>: RPC call failed", RPC_ERROR, status) with empty data; a body that is not a dict is a TypeError and an undecodable envelope a ValidationError on "rpc_response"; a non-empty error descriptor is an APIError carrying it, with its message as given and str(code) defaulting to RPC_ERROR, and no result is ever returned with one; otherwise an unrequested shape or a falsy result is returned raw, and a truthy result under a requested model is a TypeError when not a dict and the coerced value when coercion succeeds |
| Client.CoercionFailure | chert_sdk/client.py:271-283 | a requested model that does not fit the result is a ValidationError on "rpc_response", not a pass-through |
| Client.NeitherResultNorError | chert_sdk/client.py:262-278 | a well-formed response with neither result nor error yields None |
| Client.LStripSlash | chert_sdk/client.py:174 | removes exactly the leading slashes of the path |
| Client.ProperHeadersUnique | chert_sdk/client.py:176-186 | the header rules fix every header: there is only one map that satisfies them |
| Client.GenerateAddress | chert_sdk/client.py:286-301 | defined exactly for hex keys; "chert_" and 40 lower-case hex digits, which decode to the first 20 bytes of the key's digest |
| Client.AddressDeterministic | chert_sdk/client.py:296-300 | keys with the same bytes give the same address |
| Client.GetNetworkStatus | chert_sdk/client.py:77-88 | one getNetworkStatus call with no params, coerced to NetworkStatus |
| Client.GetLatestBlock | chert_sdk/client.py:90-101 | one getLatestBlock call with no params, coerced to Block |
| Client.GetBlock | chert_sdk/client.py:103-117 | one getBlock call with `[height]`, coerced to Block |
| Client.GetTransaction | chert_sdk/client.py:119-133 | one getTransaction call with `[tx_hash]`, coerced to Transaction |
| Client.IsConnected | chert_sdk/client.py:135-146 | true exactly when get_network_status does not raise |
| Client.GenerateTxId | chert_sdk/client.py:304-310 | 64 lower-case hex digits that decode to the random bytes drawn |
| Client.Session.constructor | chert_sdk/client.py:65-69 | an open session with the configured timeout |
| Client.ChertClient.constructor | chert_sdk/client.py:37-48 | keeps the configuration given, or the default configuration when none is, and holds no session |
| Client.ChertClient.Start | chert_sdk/client.py:65-69 | opens a session only when there is none, so a second start changes nothing |
| Client.ChertClient.Close | chert_sdk/client.py:71-75 | closes the session held, if any, and leaves none |
| Client.ChertClient.BuildHeaders | chert_sdk/client.py:176-186 | JSON Content-Type and Accept, a bearer Authorization only with a non-empty API key, configured headers applied last and overriding |
| Client.ChertClient.MakeRequest | chert_sdk/client.py:148-219 | re-opens the session if there is none, sends body, query and the proper headers to urljoin(endpoint, path without leading slashes), and returns what ClassifyHttp makes of the reply |
| Client.ChertClient.RpcCall | chert_sdk/client.py:221-283 | re-opens the session if there is none, posts {jsonrpc "2.0", method, params, id 1} to the endpoint with only a JSON Content-Type, and returns what ClassifyRpc makes of the reply |
| Wallet.GenerateKeypair | chert_sdk/wallet.py:231-242 | the private key decodes to the random bytes and the public key to their digest, both 64 lower-case hex digits |
| Wallet.DerivePublicKey | chert_sdk/wallet.py:244-251 | defined exactly for hex keys; 64 lower-case hex digits decoding to the digest of the key's bytes |
| Wallet.CreateAccount | chert_sdk/wallet.py:22-42 | an account that can sign, whose public key derives from its private key and whose address is generated from its public key |
| Wallet.ImportAccount | chert_sdk/wallet.py:44-76 | a wrong-length key is a WalletError quoting the length ValidationError; a 64-character non-hex key is a ValidationError on "private_key"; otherwise the key is kept, the public key decodes to its digest and the address is generated from it |
| Wallet.ImportCreatedAccount | chert_sdk/wallet.py:22-76 | importing the private key of a created account gives that same account back |
| Wallet.CreateWatchOnlyAccount | chert_sdk/wallet.py:78-105 | wrong length or non-hex is a ValidationError on "public_key"; otherwise an account with no private key, the key kept and the address generated from it |
| Wallet.GetBalance | chert_sdk/wallet.py:107-124 | an empty address is a ValidationError on "address" before any RPC; otherwise one getBalance call coerced to Balance |
| Wallet.ValidateTransactionRequest | chert_sdk/wallet.py:253-273 | passes exactly when to, amount and fee are non-empty and amount and fee parse; otherwise the first failing check, in source order, names the field |
| Wallet.SignTransaction | chert_sdk/wallet.py:275-288 | 64 lower-case hex digits decoding to the digest of to, amount, fee, nonce-or-0, the memo when present and the private key |
| Wallet.TransactionPayload | chert_sdk/wallet.py:152-162 | keys sender, recipient, amount, fee, nonce, signature, plus memo exactly when the memo is non-empty; sender is the account address, recipient, amount and fee come from the request, nonce is nonce-or-0, signature and memo as given |
| Wallet.SendTransaction | chert_sdk/wallet.py:126-170 | a watch-only account is a WalletError before validation; an invalid request fails before any RPC; otherwise result["hash"] is returned exactly when present, else a TransactionError |
| Wallet.EstimateFee | chert_sdk/wallet.py:172-186 | validation before any RPC, then one estimateFee call with the request's dict |
| Wallet.WaitForTransaction | chert_sdk/wallet.py:188-229 | an empty hash is a ValidationError; otherwise the loop returns what PollFrom defines, with the same number of fetches |
| Wallet.PollReturnsConfirmed | chert_sdk/wallet.py:214-219 | a returned transaction is CONFIRMED and is what the last poll fetched, before the timeout |
| Wallet.PollNoneMeansTimeout | chert_sdk/wallet.py:214-229 | None means every poll came before the timeout without a CONFIRMED status, and the last loop test reached the timeout |
| Wallet.NonPositiveTimeoutNoPolls | chert_sdk/wallet.py:211-214 | a non-positive timeout makes no poll and returns None |
| Wallet.FailureKeepsPolling | chert_sdk/wallet.py:220-227 | a FAILED or REJECTED status or a failed fetch before the timeout does not end the wait |
| Wallet.PendingScenario | chert_sdk/wallet.py:211-229 | an always-pending transaction with a 100 ms timeout and a 20 ms interval gives None after 5 polls |
| Privacy.GenerateStealthKeys | chert_sdk/privacy.py:23-42 | both pairs have a public key that decodes to the digest of the secret key's bytes, and the secret keys decode to the random bytes |
| Privacy.CreateStealthAccount | chert_sdk/privacy.py:44-77 | an empty view or spend key is a ValidationError on "keys"; otherwise the inputs are kept and the address is "stealth_" and 40 lower-case hex digits decoding to the first 20 bytes of the digest of the two keys |
| Privacy.DeriveSharedSecret | chert_sdk/privacy.py:79-92 | 64 lower-case hex digits decoding to the digest of the two view keys in argument order |
| Privacy.XorInvolution | chert_sdk/privacy.py:110-111 | the cyclic XOR is its own inverse |
| Privacy.SealMemo | chert_sdk/privacy.py:94-113 | a non-hex secret is a ValueError; an empty secret with a non-empty memo divides by zero; an empty memo gives ""; otherwise the output is 2·|UTF-8 memo| lower-case hex digits that decode to the cyclic XOR |
| Privacy.SealMemoBytes | chert_sdk/privacy.py:110-113 | byte i of the ciphertext is memo byte i XOR secret byte (i mod the secret length) |
| Privacy.OpenMemo | chert_sdk/privacy.py:115-134 | the secret is checked before the ciphertext; it succeeds exactly when both are hex and the secret is non-empty or the ciphertext empty, and then gives the cyclic XOR of the decoded ciphertext with the decoded secret; an empty secret with a non-empty ciphertext divides by zero |
| Privacy.MemoRoundTrip | chert_sdk/privacy.py:94-134 | with a non-empty hex secret, decrypting the encryption of a memo gives back its UTF-8 bytes |
| Privacy.EncryptMemo | chert_sdk/privacy.py:94-113 | the byte loop computes SealMemo |
| Privacy.DecryptMemo | chert_sdk/privacy.py:115-134 | the byte loop computes OpenMemo |
| Privacy.PrivatePayload | chert_sdk/privacy.py:171-183 | the eight fixed keys, plus encrypted_memo exactly when there is a non-empty ciphertext; sender and ephemeral keys as their dicts, the recipient's keys, amount, fee and nonce as given, privacy_level as its string value |
| Privacy.CarriedMemo | chert_sdk/privacy.py:166-169 | a ciphertext exactly when the memo is non-empty, encrypted under the shared secret of the sender's view secret and the recipient's view key |
| Privacy.SendPrivateTransaction | chert_sdk/privacy.py:136-193 | result["tx_id"] is returned exactly when present; every failure, an RPC error or the missing tx_id, is a PrivacyError "Failed to send private transaction: " quoting it |
| Privacy.PrivateMemoReadable | chert_sdk/privacy.py:160-169 | the recipient recovers the memo's bytes from encrypted_memo with the same shared secret |
| Governance.GetProposals | chert_sdk/governance.py:18-23 | sends `[{"limit": limit}]` when the limit is positive and `[{}]` otherwise; the list is returned raw |
| Governance.NonPositiveLimitsAgree | chert_sdk/governance.py:20-22 | all non-positive limits make the same call |
| Governance.GetProposal | chert_sdk/governance.py:25-29 | an empty id is a ValidationError on "proposal_id" before any RPC |
| Governance.CreateProposal | chert_sdk/governance.py:31-45 | empty title or description is a ValidationError on "proposal" before any RPC; params title, description, proposer, fee; result["proposal_id"] exactly when present, else a GovernanceError |
| Governance.Vote | chert_sdk/governance.py:47-57 | sends proposal_id, option value and fee; result["tx_hash"] exactly when present, else GovernanceError("Invalid vote response") |
| Governance.VoterNotSent | chert_sdk/governance.py:49-54 | the voter address does not affect the call |
| Governance.GetProposalVotes | chert_sdk/governance.py:59-61 | one call coerced to VoteTally |
| Governance.GetVoterVotes | chert_sdk/governance.py:63-65 | one call, result returned raw |
| Governance.ExecuteProposal | chert_sdk/governance.py:67-77 | params proposal_id, executor, fee; result["tx_hash"] exactly when present, else a GovernanceError |
| Staking.GetValidators | chert_sdk/staking.py:18-20 | one call with no params, list returned raw |
| Staking.GetValidator | chert_sdk/staking.py:22-26 | an empty address is a ValidationError on "address" before any RPC |
| Staking.Delegate | chert_sdk/staking.py:28-38 | sends validator_address, amount, fee; result["tx_hash"] exactly when present, else a StakingError |
| Staking.DelegatorNotSent | chert_sdk/staking.py:30-35 | the delegator address does not affect the call |
| Staking.Undelegate | chert_sdk/staking.py:40-51 | params delegator, validator, amount, fee; result["tx_hash"] exactly when present, else a StakingError |
| Staking.GetDelegations | chert_sdk/staking.py:53-55 | one call, list returned raw |
| Staking.GetStakingRewards | chert_sdk/staking.py:57-59 | one call coerced to StakingRewards |
| Staking.ClaimRewards | chert_sdk/staking.py:61-71 | params delegator, validator, fee; result["tx_hash"] exactly when present, else a StakingError |

## Left out

- aiohttp I/O: sessions, requests and `response.json()` decoding are not modelled. A response is given as status and decoded body, an `aiohttp.ClientError` (which includes `response.json()` refusing a non-JSON content type) as a reason string, and any other exception from the request or the decoding (a JSONDecodeError, the total timeout) by its name and text.
- `urljoin`: the request records the endpoint and the stripped path without resolving them.
- pydantic model coercion: the `Coercer` oracle stands for it, and its error text for `PydanticDetail`. The envelopes are decoded by hand, following pydantic 2's rules.
- `float()`: the predicate `parses` stands for it. The model does not decide which strings it accepts.
- Wallet.ImportAccount, Wallet.CreateWatchOnlyAccount, Wallet.DerivePublicKey, Client.GenerateAddress, Privacy.SealMemo, Privacy.OpenMemo: `bytes.fromhex` also skips whitespace between digit pairs; the model accepts only digit pairs.
- Privacy.DecryptMemo: stops before the final `.decode()`, so it returns the decrypted bytes and not the string. A UnicodeDecodeError is not modelled.
- Privacy.MemoRoundTrip: states the round trip on UTF-8 bytes, not on the decoded string.
- The SHA-256 function itself and `secrets` randomness: the digest is the uninterpreted `Sha256` and random bytes are parameters. The `try`/`except` wrappers around key generation in `create_account` and `generate_stealth_keys` can never fire in the model.
- JsonValue.PyStr: Python's `str()` of lists, dicts and non-integral or huge floats is a placeholder text.
- Foreign exceptions (`AttributeError`, `TypeError`, `ValueError`, `ZeroDivisionError`): their names are kept and their message texts abbreviated.
- Wallet.WaitForTransaction: the asyncio clock and `sleep` are the `clock` function. Its readings are in integer milliseconds, strictly increasing, and at least one interval apart. `get_transaction` followed by the `.status` access is the `fetch` function. The text of the swallowed TransactionError is not modelled, because it is never observable.
- The async context manager (`__aenter__`/`__aexit__`) is Start then Close. Concurrent first use of the session is not modelled.
- `setup.py` and `chert_sdk/__init__.py` hold only packaging and re-exports.
