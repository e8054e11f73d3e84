/** `Signature<P>`: a signature held in a byte array sized by the parameter
    set, decoded from a slice only when the slice has exactly that length. */
module SignatureEncoding {
  import opened FfiTypes
  import opened Typenum
  import opened ParameterSets

  /** `signature::Error`, which carries no information. */
  datatype SignatureError = SignatureError

  /** `<P as SignatureLen>::LEN::USIZE`: the length of the byte array that
      holds a signature, read off the array's length type. */
  function SignatureArrayLen(p: ParamSet): (len: nat)
    ensures len == SignatureLen(p)
  {
    TestSizes(p);
    ToUsize(Impl(p).signatureLenTy)
  }

  /** A signature for the parameter set `params`. */
  datatype Signature = Signature(params: ParamSet, sig: seq<u8>)
  {
    /** The array type admits exactly `SIGNATURE_LEN` bytes. */
    predicate Valid()
    {
      |sig| == SignatureArrayLen(params)
    }
  }

  /** `Signature::<P>::try_from(bytes)`, also reached as `from_bytes` and
      `try_into`: a slice of any other length is refused, one of exactly
      `SIGNATURE_LEN` bytes is copied unchanged. */
  function TryFrom(params: ParamSet, bytes: seq<u8>): (r: Result<Signature, SignatureError>)
    ensures r.Failure? <==> |bytes| != SignatureLen(params)
    ensures r.Success? ==> r.value.params == params && r.value.sig == bytes && r.value.Valid()
  {
    if |bytes| != SignatureArrayLen(params) then Failure(SignatureError)
    else Success(Signature(params, bytes))
  }

  /** `AsRef<[u8]>` (and `as_bytes`, `to_bytes`), and equally
      `From<Signature<P>> for GenericArray`, which gives the signature up as
      its array: the stored bytes, which decode back to the very same
      signature. */
  function AsRef(s: Signature): (bytes: seq<u8>)
    requires s.Valid()
    ensures |bytes| == SignatureLen(s.params)
    ensures TryFrom(s.params, bytes) == Success(s)
  {
    s.sig
  }

  /** Decoding then encoding gives back the slice that was decoded. */
  lemma DecodeThenEncode(params: ParamSet, bytes: seq<u8>)
    requires TryFrom(params, bytes).Success?
    ensures AsRef(TryFrom(params, bytes).value) == bytes
  {
  }

  /** Two valid signatures with the same encoding are equal, so the
      encoding loses nothing. */
  lemma EncodingInjective(s: Signature, t: Signature)
    requires s.Valid() && t.Valid() && s.params == t.params
    requires AsRef(s) == AsRef(t)
    ensures s == t
  {
  }
}
