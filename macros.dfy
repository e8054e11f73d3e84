/** The `define_param_set!` macro, as the function from its arguments to the
    trait constants it generates. */
module Macros {
  import opened Typenum
  import opened Wrapper

  /** Expands `define_param_set!(name, oid, vk_len, vk_len_ty, sk_len,
      sk_len_ty, sig_len, sig_len_ty, TypeIdent, ffi_path)`; the defaulted
      `SECRET_KEY_LEN` and `PUBLIC_KEY_LEN` follow the lengths they stand for. */
  function DefineParamSet(
    name: string, oid: string,
    vkLen: nat, vkLenTy: Unsigned,
    skLen: nat, skLenTy: Unsigned,
    sigLen: nat, sigLenTy: Unsigned,
    typeIdent: string, ffiPath: string): (r: ParamImpl)
    ensures r.SecretKeyLen() == skLen && r.PublicKeyLen() == vkLen
  {
    ParamImpl(typeIdent, ffiPath, sigLen, sigLenTy, skLen, skLenTy, vkLen, vkLenTy, name, oid)
  }

  /** Each argument of `define_param_set!` lands in exactly one trait
      constant of the generated type. */
  lemma ExpansionMapsArguments(
    name: string, oid: string,
    vkLen: nat, vkLenTy: Unsigned,
    skLen: nat, skLenTy: Unsigned,
    sigLen: nat, sigLenTy: Unsigned,
    typeIdent: string, ffiPath: string)
    ensures var r := DefineParamSet(name, oid, vkLen, vkLenTy, skLen, skLenTy, sigLen, sigLenTy, typeIdent, ffiPath);
      && r.name == name && r.algorithmOid == oid
      && r.verifyingKeyLen == vkLen && r.verifyingKeyLenTy == vkLenTy
      && r.signingKeyLen == skLen && r.signingKeyLenTy == skLenTy
      && r.signatureLen == sigLen && r.signatureLenTy == sigLenTy
      && r.typeIdent == typeIdent && r.ffiParams == ffiPath
  {
  }

  /** A type generated by `define_param_set!` passes the crate's size test
      precisely when each length type given to the macro denotes the length
      given beside it. */
  lemma ExpansionSizesConsistent(
    name: string, oid: string,
    vkLen: nat, vkLenTy: Unsigned,
    skLen: nat, skLenTy: Unsigned,
    sigLen: nat, sigLenTy: Unsigned,
    typeIdent: string, ffiPath: string)
    ensures DefineParamSet(name, oid, vkLen, vkLenTy, skLen, skLenTy, sigLen, sigLenTy, typeIdent, ffiPath).SizesConsistent()
      <==> ToUsize(vkLenTy) == vkLen && ToUsize(skLenTy) == skLen && ToUsize(sigLenTy) == sigLen
  {
  }
}
