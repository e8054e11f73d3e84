/** The traits every parameter-set type implements, with their defaulted
    constants, and the parameter set that is written out by hand rather than
    through `define_param_set!`. */
module Wrapper {
  import opened Typenum

  /** What one parameter-set type provides through `FFIParams`,
      `SignatureLen`, `SigningKeyLen`, `VerifyingKeyLen` and `ParameterSet`:
      each `*_LEN` constant comes with the typenum type `LEN` that sizes the
      matching byte array. */
  datatype ParamImpl = ParamImpl(
    typeIdent: string,          // the name of the zero-sized struct
    ffiParams: string,          // `FFIParams::prm()`: the C parameter record it refers to
    signatureLen: nat,          // `SignatureLen::SIGNATURE_LEN`
    signatureLenTy: Unsigned,   // `SignatureLen::LEN`
    signingKeyLen: nat,         // `SigningKeyLen::SIGNING_KEY_LEN`
    signingKeyLenTy: Unsigned,  // `SigningKeyLen::LEN`
    verifyingKeyLen: nat,       // `VerifyingKeyLen::VERIFYING_KEY_LEN`
    verifyingKeyLenTy: Unsigned,// `VerifyingKeyLen::LEN`
    name: string,               // `ParameterSet::NAME`
    algorithmOid: string)       // `ParameterSet::ALGORITHM_OID_STR`
  {
    /** `SigningKeyLen::SECRET_KEY_LEN`, whose default is the signing-key length. */
    function SecretKeyLen(): nat
    {
      signingKeyLen
    }

    /** `VerifyingKeyLen::PUBLIC_KEY_LEN`, whose default is the verifying-key length. */
    function PublicKeyLen(): nat
    {
      verifyingKeyLen
    }

    /** The agreement between constants that the crate's size test asserts:
        every `LEN` type denotes its `*_LEN` constant, and the two aliases
        equal the lengths they stand for. */
    predicate SizesConsistent()
    {
      && ToUsize(signatureLenTy) == signatureLen
      && ToUsize(signingKeyLenTy) == signingKeyLen
      && ToUsize(verifyingKeyLenTy) == verifyingKeyLen
      && SecretKeyLen() == signingKeyLen
      && PublicKeyLen() == verifyingKeyLen
    }
  }

  /** The SLH-DSA-SHAKE-128s type as written out directly in the wrapper module. */
  const SLH_DSA_SHAKE_128s: ParamImpl := ParamImpl(
    "SLH_DSA_SHAKE_128s", "slh_dsa_shake_128s",
    7856, U7856,
    64, U64,
    32, U32,
    "SLH-DSA-SHAKE-128s", "2.16.840.1.101.3.4.3.26")

  /** The crate's size test for the hand-written SHAKE-128s type: the defaulted
      aliases agree and every `LEN` type evaluates to its constant. */
  lemma TestSizesShake128s()
    ensures SLH_DSA_SHAKE_128s.SizesConsistent()
    ensures SLH_DSA_SHAKE_128s.SecretKeyLen() == 64 && SLH_DSA_SHAKE_128s.PublicKeyLen() == 32
  {
    Typenum7856();
    KeyTypenums();
  }
}
