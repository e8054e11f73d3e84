/** `SigningKey<P>`: the secret key held in a byte array sized by the
    parameter set, its transcoding, the verifying key it contains, and the
    two calls into the C library (`slh_keygen`, `slh_sign`) together with
    the way their results are turned into `Result`s. The C library itself is
    not modelled: what it writes and returns is a parameter of the methods. */
module SigningKeys {
  import opened FfiTypes
  import opened Typenum
  import opened ParameterSets
  import opened SignatureEncoding

  /** `EMPTY_CTX`: the context string `try_sign` signs under. */
  const EmptyCtx: seq<u8> := []

  /** `transcoding::TranscodingError`, which carries no information. */
  datatype TranscodingError = TranscodingError

  /** `KeygenError`: the C key generation reported a non-zero status. */
  datatype KeygenError = FFIError(code: c_int)

  /** `<P as SigningKeyLen>::LEN::USIZE`. */
  function SigningKeyArrayLen(p: ParamSet): (len: nat)
    ensures len == SigningKeyLen(p)
  {
    TestSizes(p);
    ToUsize(Impl(p).signingKeyLenTy)
  }

  /** `<P as VerifyingKeyLen>::LEN::USIZE`. */
  function VerifyingKeyArrayLen(p: ParamSet): (len: nat)
    ensures len == VerifyingKeyLen(p)
  {
    TestSizes(p);
    ToUsize(Impl(p).verifyingKeyLenTy)
  }

  /** A secret key for the parameter set `params`. */
  datatype SigningKey = SigningKey(params: ParamSet, sk: seq<u8>)
  {
    /** The array type admits exactly `SIGNING_KEY_LEN` bytes. */
    predicate Valid()
    {
      |sk| == SigningKeyArrayLen(params)
    }
  }

  /** A public key for the parameter set `params`. */
  datatype VerifyingKey = VerifyingKey(params: ParamSet, pk: seq<u8>)
  {
    /** The array type admits exactly `VERIFYING_KEY_LEN` bytes. */
    predicate Valid()
    {
      |pk| == VerifyingKeyArrayLen(params)
    }
  }

  /** `SigningKey::<P>::try_from(bytes)`, also reached as `from_bytes`: a
      slice of any other length than `SIGNING_KEY_LEN` is refused, one of
      exactly that length is copied unchanged. */
  function TryFrom(params: ParamSet, bytes: seq<u8>): (r: Result<SigningKey, TranscodingError>)
    ensures r.Failure? <==> |bytes| != SigningKeyLen(params)
    ensures r.Success? ==> r.value.params == params && r.value.sk == bytes && r.value.Valid()
  {
    if |bytes| != SigningKeyArrayLen(params) then Failure(TranscodingError)
    else Success(SigningKey(params, bytes))
  }

  /** `AsRef<[u8]>` (and `as_bytes`), and equally `From<SigningKey<P>> for
      GenericArray`: the stored bytes, which decode back to the same key. */
  function AsRef(key: SigningKey): (bytes: seq<u8>)
    requires key.Valid()
    ensures |bytes| == SigningKeyLen(key.params)
    ensures TryFrom(key.params, bytes) == Success(key)
  {
    key.sk
  }

  /** Decoding then encoding gives back the slice that was decoded. */
  lemma DecodeThenEncode(params: ParamSet, bytes: seq<u8>)
    requires TryFrom(params, bytes).Success?
    ensures AsRef(TryFrom(params, bytes).value) == bytes
  {
  }

  /** `AsRef<VerifyingKey<P>>`: the verifying key is the slice that starts
      `VERIFYING_KEY_LEN` bytes before the end of the secret key. The start
      never underflows, and the slice has the length the verifying key's
      array demands. */
  function AsVerifyingKey(key: SigningKey): (vk: VerifyingKey)
    requires key.Valid()
    ensures vk.params == key.params && vk.Valid()
    ensures |vk.pk| == VerifyingKeyLen(key.params)
    ensures key.sk == key.sk[..|key.sk| - |vk.pk|] + vk.pk
  {
    assert VerifyingKeyLen(key.params) <= SigningKeyLen(key.params) by {
      SigningKeyIsTwiceVerifyingKey(key.params);
    }
    var pkStart := |key.sk| - VerifyingKeyLen(key.params);
    VerifyingKey(key.params, key.sk[pkStart..])
  }

  /** A secret key laid out as section 9.1 of FIPS 205 lays it out,
      `SK.seed || SK.prf || PK.seed || PK.root` with `n` bytes each, yields
      `PK.seed || PK.root`, which is the public key. */
  lemma VerifyingKeyIsPublicKeyPart(
    key: SigningKey, skSeed: seq<u8>, skPrf: seq<u8>, pkSeed: seq<u8>, pkRoot: seq<u8>)
    requires key.Valid()
    requires var n := Fips205Params(key.params).n;
      |skSeed| == n && |skPrf| == n && |pkSeed| == n && |pkRoot| == n
    requires key.sk == skSeed + skPrf + pkSeed + pkRoot
    ensures AsVerifyingKey(key).pk == pkSeed + pkRoot
  {
    var n := Fips205Params(key.params).n;
    assert VerifyingKeyLen(key.params) == 2 * n by {
      TableFollowsFips205(key.params);
    }
    assert key.sk == (skSeed + skPrf) + (pkSeed + pkRoot);
  }

  // ---------------------------------------------------------------------
  // Key generation

  /** What one call of the C function `slh_keygen` does: the status it
      returns and the bytes it leaves in the secret- and public-key buffers. */
  datatype KeygenCall = KeygenCall(status: c_int, sk: seq<u8>, pk: seq<u8>)

  /** What `keygen` promises: `Ok` with the secret-key buffer as the key
      when the C status is 0, otherwise `Err(FFIError)` with that status. */
  function KeygenOutcome(params: ParamSet, c: KeygenCall): (r: Result<SigningKey, KeygenError>)
    requires |c.sk| == SigningKeyLen(params)
    ensures r.Success? <==> c.status == 0
    ensures r.Failure? ==> r.error == FFIError(c.status)
    ensures r.Success? ==> r.value.params == params && r.value.sk == c.sk && r.value.Valid()
  {
    if c.status != 0 then Failure(FFIError(c.status)) else Success(SigningKey(params, c.sk))
  }

  /** `slh_keygen(sk, pk, rbg, prm)`: fills both buffers in place and
      returns a status. The bytes written are those recorded in `c`. */
  method SlhKeygen(sk: array<u8>, pk: array<u8>, c: KeygenCall) returns (ret: c_int)
    requires sk != pk
    requires sk.Length == |c.sk| && pk.Length == |c.pk|
    modifies sk, pk
    ensures ret == c.status
    ensures sk[..] == c.sk && pk[..] == c.pk
  {
    forall i | 0 <= i < sk.Length {
      sk[i] := c.sk[i];
    }
    forall i | 0 <= i < pk.Length {
      pk[i] := c.pk[i];
    }
    ret := c.status;
  }

  /** `SigningKey::<P>::keygen()`: allocates zeroed secret- and public-key
      arrays, lets the C library fill them, maps the status to a `Result`
      and keeps only the secret key. What the C call leaves in each buffer
      is its final contents, so it has the buffer's length; bytes the call
      does not write stay 0. */
  method Keygen(params: ParamSet, c: KeygenCall) returns (r: Result<SigningKey, KeygenError>)
    requires |c.sk| == SigningKeyLen(params) && |c.pk| == VerifyingKeyLen(params)
    ensures r == KeygenOutcome(params, c)
  {
    var sk := new u8[SigningKeyArrayLen(params)](_ => 0);
    var pk := new u8[VerifyingKeyArrayLen(params)](_ => 0);
    var ret := SlhKeygen(sk, pk, c);
    if ret != 0 {
      return Failure(FFIError(ret));
    }
    return Success(SigningKey(params, sk[..]));
  }

  /** When the C library lays the secret key out as FIPS 205 does, with the
      public key as its second half, the verifying key that the new signing
      key exposes is the public key `keygen` discarded. */
  lemma KeygenKeepsPublicKey(params: ParamSet, c: KeygenCall)
    requires |c.sk| == SigningKeyLen(params) && |c.pk| == VerifyingKeyLen(params)
    requires c.status == 0
    requires c.sk[|c.sk| - |c.pk|..] == c.pk
    ensures AsVerifyingKey(KeygenOutcome(params, c).value).pk == c.pk
  {
  }

  // ---------------------------------------------------------------------
  // Signing

  /** The arguments `try_sign_with_ctx` hands to the C function `slh_sign`:
      message, context, secret key, the optional additional randomness and
      the parameter set. */
  datatype SignRequest = SignRequest(
    params: ParamSet, message: seq<u8>, context: seq<u8>, sk: seq<u8>, addrnd: Option<seq<u8>>)

  /** What one call of `slh_sign` does: the length it returns and the bytes
      it leaves in the signature buffer. */
  datatype SignCall = SignCall(ret: usize, sig: seq<u8>)

  /** The request `try_sign_with_ctx` makes: always without additional
      randomness (a null `addrnd`), i.e. in the deterministic mode. */
  function Request(key: SigningKey, message: seq<u8>, context: seq<u8>): (req: SignRequest)
    ensures req.addrnd == None
    ensures req.params == key.params && req.sk == key.sk
    ensures req.message == message && req.context == context
  {
    SignRequest(key.params, message, context, key.sk, None)
  }

  /** What `try_sign_with_ctx` promises: a signature made of the buffer the
      C library filled when it reports exactly `SIGNATURE_LEN` bytes, an
      error for any other reported length. */
  function SignOutcome(key: SigningKey, message: seq<u8>, context: seq<u8>, slhSign: SignRequest -> SignCall)
    : (r: Result<Signature, SignatureError>)
    requires |slhSign(Request(key, message, context)).sig| == SignatureLen(key.params)
    ensures var out := slhSign(Request(key, message, context));
      && (r.Success? <==> out.ret as int == SignatureLen(key.params))
      && (r.Success? ==> r.value == Signature(key.params, out.sig) && r.value.Valid())
  {
    var out := slhSign(Request(key, message, context));
    if out.ret as int != SignatureArrayLen(key.params) then Failure(SignatureError)
    else Success(Signature(key.params, out.sig))
  }

  /** `slh_sign(sig, m, mlen, ctx, ctxlen, sk, addrnd, prm)`: fills the
      signature buffer in place and returns the signature length. */
  method SlhSign(sig: array<u8>, req: SignRequest, slhSign: SignRequest -> SignCall) returns (ret: usize)
    requires sig.Length == |slhSign(req).sig|
    modifies sig
    ensures ret == slhSign(req).ret
    ensures sig[..] == slhSign(req).sig
  {
    var out := slhSign(req);
    forall i | 0 <= i < sig.Length {
      sig[i] := out.sig[i];
    }
    ret := out.ret;
  }

  /** `SigningKey::try_sign_with_ctx(message, context)`: allocates a zeroed
      signature array, lets the C library fill it without additional
      randomness, and accepts it only when the returned length is the
      signature length. What the C call leaves in the buffer is its final
      contents, so it has the buffer's length; bytes the call does not
      write stay 0. */
  method TrySignWithCtx(key: SigningKey, message: seq<u8>, context: seq<u8>, slhSign: SignRequest -> SignCall)
    returns (r: Result<Signature, SignatureError>)
    requires key.Valid()
    requires |slhSign(Request(key, message, context)).sig| == SignatureLen(key.params)
    ensures r == SignOutcome(key, message, context, slhSign)
  {
    var sig := new u8[SignatureArrayLen(key.params)](_ => 0);
    var ret := SlhSign(sig, Request(key, message, context), slhSign);
    if ret as int != SignatureArrayLen(key.params) {
      return Failure(SignatureError);
    }
    return Success(Signature(key.params, sig[..]));
  }

  /** `Signer::try_sign(msg)`: `try_sign_with_ctx` under the empty context. */
  method TrySign(key: SigningKey, message: seq<u8>, slhSign: SignRequest -> SignCall)
    returns (r: Result<Signature, SignatureError>)
    requires key.Valid()
    requires |slhSign(Request(key, message, EmptyCtx)).sig| == SignatureLen(key.params)
    ensures r == SignOutcome(key, message, [], slhSign)
  {
    r := TrySignWithCtx(key, message, EmptyCtx, slhSign);
  }

  /** The encoding half of the crate's sign-and-verify test: a signature
      that signing produced encodes to `SIGNATURE_LEN` bytes, which decode
      to an equal signature. */
  lemma SignedSignatureRoundTrips(
    key: SigningKey, message: seq<u8>, context: seq<u8>, slhSign: SignRequest -> SignCall)
    requires |slhSign(Request(key, message, context)).sig| == SignatureLen(key.params)
    requires SignOutcome(key, message, context, slhSign).Success?
    ensures var s := SignOutcome(key, message, context, slhSign).value;
      && |SignatureEncoding.AsRef(s)| == SignatureLen(key.params)
      && SignatureEncoding.TryFrom(key.params, SignatureEncoding.AsRef(s)) == Success(s)
  {
  }
}
