/**
 * `PrivacyManager`: stealth keys and addresses, the shared secret, the XOR
 * memo cipher and private transaction submission.  Random bytes are
 * parameters; SHA-256 is the uninterpreted `Sha256`.
 */
module Privacy {
  import opened Options
  import opened JsonValue
  import opened Bytes
  import opened Exceptions
  import opened Types
  import opened Client
  import opened Wallet

  /** What `bytes.fromhex` raises on a string that is not pairs of hex digits. */
  const NotHexDetail: string := "non-hexadecimal number found in fromhex() arg"
  /** What `i % len(secret_bytes)` raises for an empty secret. */
  const ModuloByZeroDetail: string := "integer modulo by zero"

  /** A key pair whose public half is the SHA-256 of its secret half's bytes. */
  ghost predicate Paired(sha: Sha256, kp: KeyPair)
  {
    FromHex(kp.secret).Some? && FromHex(kp.public) == Some(sha(FromHex(kp.secret).value))
  }

  /** `generate_stealth_keys`, with the two 32-byte `token_bytes` draws given as seeds. */
  function GenerateStealthKeys(sha: Sha256, viewSeed: seq<byte>, spendSeed: seq<byte>): (k: StealthKeys)
    requires |viewSeed| == 32 && |spendSeed| == 32
    ensures Paired(sha, k.viewKeypair) && Paired(sha, k.spendKeypair)
    ensures FromHex(k.viewKeypair.secret) == Some(viewSeed) && FromHex(k.spendKeypair.secret) == Some(spendSeed)
    ensures |k.viewKeypair.public| == |k.spendKeypair.public| == 64
  {
    var (viewPrivate, viewPublic) := GenerateKeypair(sha, viewSeed);
    var (spendPrivate, spendPublic) := GenerateKeypair(sha, spendSeed);
    StealthKeys(KeyPair(viewPublic, viewPrivate), KeyPair(spendPublic, spendPrivate))
  }

  /**
   * `create_stealth_account`: both keys are required; the address is
   * "stealth_" and the first 40 hex digits of the SHA-256 of the two keys
   * concatenated as text.
   */
  function CreateStealthAccount(sha: Sha256, viewKey: string, spendPublicKey: string, keys: Option<StealthKeys>)
    : (r: Outcome<StealthAccount>)
    ensures r.Err? <==> viewKey == "" || spendPublicKey == ""
    ensures r.Err? ==> r == Err(Chert(ValidationError("keys", "View key and spend public key are required")))
    ensures r.Ok? ==> && r.value.viewKey == viewKey && r.value.spendPublicKey == spendPublicKey && r.value.keys == keys
                      && |r.value.address| == 48 && r.value.address[..8] == "stealth_"
                      && IsLowerHex(r.value.address[8..])
                      && FromHex(r.value.address[8..]) == Some(sha(Utf8(viewKey + spendPublicKey))[..20])
  {
    if viewKey == "" || spendPublicKey == "" then
      Err(Chert(ValidationError("keys", "View key and spend public key are required")))
    else
      var digest := sha(Utf8(viewKey + spendPublicKey));
      HexPrefix(digest, 20);
      HexRoundTrip(digest[..20]);
      var address := "stealth_" + ToHex(digest)[..40];
      assert address[8..] == ToHex(digest[..20]);
      Ok(StealthAccount(address, viewKey, spendPublicKey, keys))
  }

  /** `derive_shared_secret`: the hex SHA-256 of the two view keys concatenated as text. */
  function DeriveSharedSecret(sha: Sha256, viewKey: string, recipientViewKey: string): (s: string)
    ensures |s| == 64 && IsLowerHex(s) && IsHex(s)
    ensures FromHex(s) == Some(sha(Utf8(viewKey + recipientViewKey)))
  {
    var digest := sha(Utf8(viewKey + recipientViewKey));
    HexRoundTrip(digest);
    LowerHexIsHex(ToHex(digest));
    ToHex(digest)
  }

  /** The memo cipher: byte `i` of the data XOR byte `i mod |key|` of the key. */
  function CyclicXor(data: seq<byte>, key: seq<byte>): (out: seq<byte>)
    requires |key| > 0 || data == []
    ensures |out| == |data|
  {
    seq(|data|, i requires 0 <= i < |data| => data[i] ^ key[i % |key|])
  }

  /** The cipher is its own inverse. */
  lemma XorInvolution(data: seq<byte>, key: seq<byte>)
    requires |key| > 0 || data == []
    ensures CyclicXor(CyclicXor(data, key), key) == data
  {
    var once := CyclicXor(data, key);
    forall i | 0 <= i < |data| ensures CyclicXor(once, key)[i] == data[i] {
      assert once[i] == data[i] ^ key[i % |key|];
    }
  }

  /**
   * `encrypt_memo` as a value: the secret must be hex, and an empty secret
   * divides by zero as soon as there is a byte to encrypt; otherwise the hex
   * of the UTF-8 memo XOR the secret's bytes.
   */
  function SealMemo(memo: string, sharedSecret: string): (r: Outcome<string>)
    ensures !IsHex(sharedSecret) ==> r == Err(Foreign("ValueError", NotHexDetail))
    ensures sharedSecret == "" && memo != "" ==> r == Err(Foreign("ZeroDivisionError", ModuloByZeroDetail))
    ensures r.Ok? <==> IsHex(sharedSecret) && (sharedSecret != "" || memo == "")
    ensures IsHex(sharedSecret) && memo == "" ==> r == Ok("")
    ensures r.Ok? ==> |r.value| == 2 * |Utf8(memo)| && IsLowerHex(r.value)
    ensures r.Ok? ==> FromHex(r.value) == Some(CyclicXor(Utf8(memo), FromHex(sharedSecret).value))
  {
    match FromHex(sharedSecret)
    case None => Err(Foreign("ValueError", NotHexDetail))
    case Some(key) =>
      if key == [] && memo != "" then Err(Foreign("ZeroDivisionError", ModuloByZeroDetail))
      else
        HexRoundTrip(CyclicXor(Utf8(memo), key));
        Ok(ToHex(CyclicXor(Utf8(memo), key)))
  }

  /**
   * `decrypt_memo` up to its final `.decode()`: the secret is parsed first,
   * then the ciphertext, and the result is the bytes that are decoded.
   */
  function OpenMemo(encryptedMemo: string, sharedSecret: string): (r: Outcome<seq<byte>>)
    ensures !IsHex(sharedSecret) ==> r == Err(Foreign("ValueError", NotHexDetail))
    ensures IsHex(sharedSecret) && !IsHex(encryptedMemo) ==> r == Err(Foreign("ValueError", NotHexDetail))
    ensures r.Ok? <==> IsHex(sharedSecret) && IsHex(encryptedMemo) && (sharedSecret != "" || encryptedMemo == "")
    ensures IsHex(sharedSecret) && IsHex(encryptedMemo) && sharedSecret == "" && encryptedMemo != "" ==>
              r == Err(Foreign("ZeroDivisionError", ModuloByZeroDetail))
    ensures r.Ok? ==> 2 * |r.value| == |encryptedMemo|
    ensures r.Ok? ==> r.value == CyclicXor(FromHex(encryptedMemo).value, FromHex(sharedSecret).value)
  {
    match FromHex(sharedSecret)
    case None => Err(Foreign("ValueError", NotHexDetail))
    case Some(key) =>
      match FromHex(encryptedMemo)
      case None => Err(Foreign("ValueError", NotHexDetail))
      case Some(data) =>
        if key == [] && data != [] then Err(Foreign("ZeroDivisionError", ModuloByZeroDetail))
        else Ok(CyclicXor(data, key))
  }

  /** Byte `i` of an encrypted memo is byte `i` of the UTF-8 memo XOR byte `i mod |secret|` of the secret. */
  lemma SealMemoBytes(memo: string, sharedSecret: string, i: int)
    requires SealMemo(memo, sharedSecret).Ok? && 0 <= i < |Utf8(memo)|
    ensures var key := FromHex(sharedSecret).value;
            var sealed := FromHex(SealMemo(memo, sharedSecret).value).value;
            |key| > 0 && sealed[i] == Utf8(memo)[i] ^ key[i % |key|]
  {
  }

  /** Decrypting an encrypted memo with the same non-empty secret gives back the memo's UTF-8 bytes. */
  lemma MemoRoundTrip(memo: string, sharedSecret: string)
    requires IsHex(sharedSecret) && sharedSecret != ""
    ensures SealMemo(memo, sharedSecret).Ok?
    ensures OpenMemo(SealMemo(memo, sharedSecret).value, sharedSecret) == Ok(Utf8(memo))
  {
    var key := FromHex(sharedSecret).value;
    XorInvolution(Utf8(memo), key);
    LowerHexIsHex(SealMemo(memo, sharedSecret).value);
  }

  /** `encrypt_memo`: the byte loop, proved to compute `SealMemo`. */
  method EncryptMemo(memo: string, sharedSecret: string) returns (r: Outcome<string>)
    ensures r == SealMemo(memo, sharedSecret)
  {
    var secret := FromHex(sharedSecret);
    if secret.None? {
      return Err(Foreign("ValueError", NotHexDetail));
    }
    var key := secret.value;
    var data := Utf8(memo);
    var encrypted: seq<byte> := [];
    var i := 0;
    while i < |data|
      invariant 0 <= i <= |data| && |encrypted| == i
      invariant i > 0 ==> |key| > 0
      invariant forall j :: 0 <= j < i ==> encrypted[j] == data[j] ^ key[j % |key|]
    {
      if |key| == 0 {
        return Err(Foreign("ZeroDivisionError", ModuloByZeroDetail));
      }
      encrypted := encrypted + [data[i] ^ key[i % |key|]];
      i := i + 1;
    }
    assert encrypted == CyclicXor(data, key);
    return Ok(ToHex(encrypted));
  }

  /** `decrypt_memo` up to its final `.decode()`: the byte loop, proved to compute `OpenMemo`. */
  method DecryptMemo(encryptedMemo: string, sharedSecret: string) returns (r: Outcome<seq<byte>>)
    ensures r == OpenMemo(encryptedMemo, sharedSecret)
  {
    var secret := FromHex(sharedSecret);
    if secret.None? {
      return Err(Foreign("ValueError", NotHexDetail));
    }
    var encrypted := FromHex(encryptedMemo);
    if encrypted.None? {
      return Err(Foreign("ValueError", NotHexDetail));
    }
    var key, data := secret.value, encrypted.value;
    var decrypted: seq<byte> := [];
    var i := 0;
    while i < |data|
      invariant 0 <= i <= |data| && |decrypted| == i
      invariant i > 0 ==> |key| > 0
      invariant forall j :: 0 <= j < i ==> decrypted[j] == data[j] ^ key[j % |key|]
    {
      if |key| == 0 {
        return Err(Foreign("ZeroDivisionError", ModuloByZeroDetail));
      }
      decrypted := decrypted + [data[i] ^ key[i % |key|]];
      i := i + 1;
    }
    assert decrypted == CyclicXor(data, key);
    return Ok(decrypted);
  }

  /** The `tx_data` dict of `send_private_transaction`. */
  function PrivatePayload(request: PrivateTransactionRequest, recipientViewKey: string, recipientSpendKey: string,
                          ephemeral: StealthKeys, encryptedMemo: Option<string>): (p: Json)
    ensures p.JObject?
    ensures p.fields.Keys == {"sender_keys", "recipient_view_key", "recipient_spend_key", "ephemeral_keys",
                              "amount", "fee", "privacy_level", "nonce"}
                             + (if encryptedMemo.Some? && encryptedMemo.value != "" then {"encrypted_memo"} else {})
    ensures p.fields["sender_keys"] == request.senderKeys.ToJson() && p.fields["ephemeral_keys"] == ephemeral.ToJson()
    ensures p.fields["privacy_level"] == JString(request.privacyLevel.Value())
    ensures p.fields["recipient_view_key"] == JString(recipientViewKey)
            && p.fields["recipient_spend_key"] == JString(recipientSpendKey)
    ensures p.fields["amount"] == JString(request.amount) && p.fields["fee"] == JString(request.fee)
            && p.fields["nonce"] == JInt(request.nonce)
    ensures "encrypted_memo" in p.fields ==> p.fields["encrypted_memo"] == JString(encryptedMemo.value)
  {
    var base := map[
      "sender_keys" := request.senderKeys.ToJson(),
      "recipient_view_key" := JString(recipientViewKey),
      "recipient_spend_key" := JString(recipientSpendKey),
      "ephemeral_keys" := ephemeral.ToJson(),
      "amount" := JString(request.amount),
      "fee" := JString(request.fee),
      "privacy_level" := JString(request.privacyLevel.Value()),
      "nonce" := JInt(request.nonce)];
    JObject(if encryptedMemo.Some? && encryptedMemo.value != "" then base["encrypted_memo" := JString(encryptedMemo.value)]
            else base)
  }

  /** The memo a private transaction carries: encrypted under the shared secret when the memo is non-empty. */
  function CarriedMemo(sha: Sha256, request: PrivateTransactionRequest, recipientViewKey: string): (m: Option<string>)
    ensures m.Some? <==> request.memo.Some? && request.memo.value != ""
    ensures m.Some? ==> m.value != "" && Ok(m.value) == SealMemo(request.memo.value,
              DeriveSharedSecret(sha, request.senderKeys.viewKeypair.secret, recipientViewKey))
  {
    if request.memo.Some? && request.memo.value != "" then
      var secret := DeriveSharedSecret(sha, request.senderKeys.viewKeypair.secret, recipientViewKey);
      MemoRoundTrip(request.memo.value, secret);
      Some(SealMemo(request.memo.value, secret).value)
    else None
  }

  /**
   * `send_private_transaction`, with the ephemeral key draws given as seeds:
   * any failure, the missing "tx_id" included, is re-raised as a
   * PrivacyError quoting it; otherwise `result["tx_id"]` is returned.
   */
  function SendPrivateTransaction(sha: Sha256, rpc: Rpc, request: PrivateTransactionRequest,
                                  recipientViewKey: string, recipientSpendKey: string,
                                  ephemeralViewSeed: seq<byte>, ephemeralSpendSeed: seq<byte>): (r: Outcome<Json>)
    requires |ephemeralViewSeed| == 32 && |ephemeralSpendSeed| == 32
    ensures var payload := PrivatePayload(request, recipientViewKey, recipientSpendKey,
                                          GenerateStealthKeys(sha, ephemeralViewSeed, ephemeralSpendSeed),
                                          CarriedMemo(sha, request, recipientViewKey));
            var reply := rpc(Call("sendPrivateTransaction", JArray([payload]), NoShape));
            && (r.Ok? <==> reply.Ok? && HasKey(reply.value, "tx_id"))
            && (r.Ok? ==> r.value == reply.value.fields["tx_id"])
            && (reply.Err? ==> r == Err(Chert(PrivacyError("Failed to send private transaction: " + RaisedStr(reply.raised)))))
            && (reply.Ok? && !HasKey(reply.value, "tx_id") ==>
                  r == Err(Chert(PrivacyError("Failed to send private transaction: "
                                              + ErrorStr(PrivacyError("Invalid private transaction response"))))))
  {
    var ephemeral := GenerateStealthKeys(sha, ephemeralViewSeed, ephemeralSpendSeed);
    var payload := PrivatePayload(request, recipientViewKey, recipientSpendKey, ephemeral,
                                  CarriedMemo(sha, request, recipientViewKey));
    match ExpectKey(rpc(Call("sendPrivateTransaction", JArray([payload]), NoShape)), "tx_id",
                    PrivacyError("Invalid private transaction response"))
    case Ok(txId) => Ok(txId)
    case Err(e) => Err(Chert(PrivacyError("Failed to send private transaction: " + RaisedStr(e))))
  }

  /**
   * The recipient of a private transaction can read its memo: the
   * "encrypted_memo" field decrypts, under the secret derived from the
   * sender's view secret and the recipient's view key, to the memo's bytes.
   */
  lemma PrivateMemoReadable(sha: Sha256, request: PrivateTransactionRequest, recipientViewKey: string)
    requires request.memo.Some? && request.memo.value != ""
    ensures CarriedMemo(sha, request, recipientViewKey).Some?
    ensures OpenMemo(CarriedMemo(sha, request, recipientViewKey).value,
                     DeriveSharedSecret(sha, request.senderKeys.viewKeypair.secret, recipientViewKey))
            == Ok(Utf8(request.memo.value))
  {
    MemoRoundTrip(request.memo.value, DeriveSharedSecret(sha, request.senderKeys.viewKeypair.secret, recipientViewKey));
  }
}
