# slhdsa-c-rs wrapper, modelled in Dafny

`slhdsa-c-rs` is a thin Rust layer over the C library `slhdsa-c`, which
implements SLH-DSA (FIPS 205). The Rust layer does not compute any
cryptography. What it adds is the following:

- **Fixed-length byte containers.** `Signature<P>` and `SigningKey<P>` hold a
  byte array whose length is fixed by the parameter set `P`. A slice is
  accepted only when it has exactly that length, and the bytes can be read
  back unchanged.
- **The verifying key inside the signing key.** `SigningKey<P>` exposes its
  verifying key as the last `VERIFYING_KEY_LEN` bytes of the secret key.
- **Result mapping around the C calls.** `keygen` turns the status code of
  `slh_keygen` into `Ok` or `Err(FFIError(code))`. `try_sign_with_ctx` keeps
  the buffer filled by `slh_sign` only when the C call reports exactly the
  signature length. `try_sign` is `try_sign_with_ctx` under the empty context.
- **The parameter-set table.** Twelve parameter sets are stamped out by the
  `define_param_set!` macro: SHA2 or SHAKE, at security level 128, 192 or 256,
  in the small (`s`) or fast (`f`) variant. Each carries a name, an OID, and
  verifying-key, signing-key and signature lengths. Each length also comes as
  a typenum type, which sizes the matching array.
- **`u_from_bits!`.** This macro builds the six signature lengths that typenum
  has no predefined alias for, from lists of bits given least significant
  bit first.

The Dafny modules follow the crate:

| module | file | models |
|---|---|---|
| `FfiTypes` | `ffi_types.dfy` | `Result`, `Option`, and the machine integer types `u8`, `c_int`, `usize` |
| `Typenum` | `typenum.dfy` | typenum's `UTerm`/`UInt`/`B0`/`B1`, `USIZE`, `u_from_bits!`, the aliases the crate uses |
| `Wrapper` | `wrapper.dfy` | the `*Len` and `ParameterSet` traits with their defaulted constants; the hand-written `SLH_DSA_SHAKE_128s` |
| `Macros` | `macros.dfy` | `define_param_set!` as a function from its arguments to the generated constants |
| `Fips205` | `fips205.dfy` | the size formulas of FIPS 205 (sections 9.1, 10 and 11), used as an independent reference for the table |
| `ParameterSets` | `parameter_sets.dfy` | the twelve parameter sets, `test_parameter_sets!`, `test_sizes`, and the table's consistency properties |
| `SignatureEncoding` | `signature_encoding.dfy` | `Signature<P>` and its transcoding |
| `SigningKeys` | `signing_key.dfy` | `SigningKey<P>`, its transcoding, its verifying key, `keygen`, `try_sign_with_ctx`, `try_sign` |

A parameter set `P` is the value `ParamSet(family, level, variant)`.
`ParameterSets.Impl(P)` is what `define_param_set!` generates for it. The
byte containers are `seq<u8>` values paired with their parameter set. A
`Valid()` predicate requires the length that the array's typenum type
denotes.

`keygen` and `try_sign_with_ctx` are imperative methods. Each allocates
zero-filled arrays and hands them to a method standing for the C call. That
method fills the arrays in place and returns a status or a length, and the
wrapper then branches on the result. The C computation itself is not part of
this model. What one C call writes and returns is an explicit input:

- a `KeygenCall` record for `slh_keygen`, with the status and both buffers;
- a function `SignRequest -> SignCall` for `slh_sign`, which maps the
  arguments the wrapper passes to the length returned and the bytes written.

This makes the request the wrapper sends visible in the contracts. One
example is the null additional-randomness pointer.

## Model

| member | source | states |
|---|---|---|
| Typenum.ToUsize | src/wrapper/utils/typenum.rs:1 | `Unsigned::USIZE`, the number a type-level number denotes (the value compared against at src/signature_encoding.rs:53, src/signing_key.rs:191 and src/wrapper.rs:186-197); no `ensures` of its own: what it yields is stated by `FromNat`, `CanonicalUnique`, `UFromBitsIsPositional` and `KeyTypenums` |
| Typenum.FromNat | src/wrapper/utils/typenum.rs:1 | typenum's alias `U<n>` denotes `n` and has no leading zero bit |
| Typenum.UFromBits | src/wrapper/utils/typenum.rs:14-18 | `u_from_bits!` itself; no `ensures` of its own: its behaviour is stated by `UFromBitsRules`, `UFromBitsIsPositional`, `UFromBitsBound`, `UFromBitsCanonical` and `CustomTypenums` |
| Typenum.UFromBitsRules | src/wrapper/utils/typenum.rs:14-18 | the three macro rules: no bits give 0, a leading 0 doubles the rest, a leading 1 doubles it and adds one |
| Typenum.UFromBitsBound | src/wrapper/utils/typenum.rs:14-18 | a list of `k` bits yields a number below `2^k` |
| Typenum.UFromBitsIsPositional | src/wrapper/utils/typenum.rs:3-18 | the macro agrees with an independent positional reading in which the `i`-th bit is worth `2^i`, so bits are read least significant first |
| Typenum.UFromBitsCanonical | src/wrapper/utils/typenum.rs:14-18 | a bit list whose last bit is 1 yields a type in typenum's canonical form |
| Typenum.CanonicalUnique | src/wrapper/utils/typenum.rs:1 | two canonical types denoting the same number are the same type |
| Typenum.DocExampleIsThirteen | src/wrapper/utils/typenum.rs:9-13 | `u_from_bits!(1 0 1 1)` denotes 13 |
| Typenum.KeyTypenums | src/wrapper/utils/typenum.rs:1 | the predefined `U32`, `U48`, `U64`, `U96`, `U128` denote 32, 48, 64, 96, 128, and each is the type typenum builds for that number (`FromNat`) |
| Typenum.CustomTypenums | src/wrapper/utils/typenum.rs:20-45 | the six bit lists denote 7856, 16224, 17088, 29792, 35664 and 49856, and each is the type typenum itself builds for that number |
| Wrapper.ParamImpl.SecretKeyLen | src/wrapper.rs:47 | the defaulted `SECRET_KEY_LEN`, the signing-key length; no `ensures` of its own: stated by `Macros.DefineParamSet`, `ParameterSets.SigningKeyIsTwiceVerifyingKey` and `ParameterSets.TestSizes` |
| Wrapper.ParamImpl.PublicKeyLen | src/wrapper.rs:73 | the defaulted `PUBLIC_KEY_LEN`, the verifying-key length; no `ensures` of its own: stated by `Macros.DefineParamSet`, `ParameterSets.SigningKeyIsTwiceVerifyingKey` and `ParameterSets.TestSizes` |
| Wrapper.SLH_DSA_SHAKE_128s | src/wrapper.rs:144-170 | the hand-written SHAKE-128s parameter set; a constant with no `ensures`: its contents are stated by `ParameterSets.HandWrittenShake128sAgrees` and `Wrapper.TestSizesShake128s` |
| Wrapper.TestSizesShake128s | src/wrapper.rs:184-197 | for the hand-written SHAKE-128s, every `LEN` type denotes its constant, `SECRET_KEY_LEN` = 64 and `PUBLIC_KEY_LEN` = 32 |
| Macros.DefineParamSet | src/wrapper/utils/macros.rs:3-32 | the `SECRET_KEY_LEN` and `PUBLIC_KEY_LEN` of a generated type, which default to the signing- and verifying-key lengths (src/wrapper.rs:47 and :73), equal the lengths passed to the macro |
| Macros.ExpansionMapsArguments | src/wrapper/utils/macros.rs:3-32 | each macro argument (name, OID, the three lengths and their types, identifier, C record) lands in exactly its own generated constant |
| Macros.ExpansionSizesConsistent | src/wrapper/utils/macros.rs:17-28 | a generated type passes the size test if and only if each length type passed to the macro denotes the length beside it |
| ParameterSets.Ordinal | src/wrapper/utils/macros.rs:52-67 | the position of a set in the test list is below 12 |
| ParameterSets.TestedParamSets | src/wrapper/utils/macros.rs:52-67 | the list `test_parameter_sets!` expands over; a constant with no `ensures`: stated by `TestedParamSetsEnumerateEachOnce` and `Ordinal` |
| ParameterSets.TestedParamSetsEnumerateEachOnce | src/wrapper/utils/macros.rs:52-67 | `test_parameter_sets!` lists twelve sets, and each set appears at exactly one position |
| ParameterSets.Impl | src/wrapper/parameter_sets.rs:16-170 | the twelve `define_param_set!` invocations as one function from a set to its generated constants; no `ensures` of its own: stated row by row by the twelve `…Row` lemmas below, and as a whole by `TableFollowsFips205` and `TestSizes` |
| ParameterSets.Sha2_128sRow | src/wrapper/parameter_sets.rs:16-27 | SHA2-128s is `define_param_set!` with OID `.20`, lengths 32/64/7856 and types `U32`/`U64`/`U7856` |
| ParameterSets.Sha2_128fRow | src/wrapper/parameter_sets.rs:28-39 | SHA2-128f: OID `.21`, lengths 32/64/17088 and types `U32`/`U64`/`U17088` |
| ParameterSets.Sha2_192sRow | src/wrapper/parameter_sets.rs:40-51 | SHA2-192s: OID `.22`, lengths 48/96/16224 and types `U48`/`U96`/`U16224` |
| ParameterSets.Sha2_192fRow | src/wrapper/parameter_sets.rs:52-63 | SHA2-192f: OID `.23`, lengths 48/96/35664 and types `U48`/`U96`/`U35664` |
| ParameterSets.Sha2_256sRow | src/wrapper/parameter_sets.rs:64-75 | SHA2-256s: OID `.24`, lengths 64/128/29792 and types `U64`/`U128`/`U29792` |
| ParameterSets.Sha2_256fRow | src/wrapper/parameter_sets.rs:76-87 | SHA2-256f: OID `.25`, lengths 64/128/49856 and types `U64`/`U128`/`U49856` |
| ParameterSets.Shake_128sRow | src/wrapper/parameter_sets.rs:98-109 | SHAKE-128s: OID `.26`, lengths 32/64/7856 and types `U32`/`U64`/`U7856` |
| ParameterSets.Shake_128fRow | src/wrapper/parameter_sets.rs:111-122 | SHAKE-128f: OID `.27`, lengths 32/64/17088 and types `U32`/`U64`/`U17088` |
| ParameterSets.Shake_192sRow | src/wrapper/parameter_sets.rs:123-134 | SHAKE-192s: OID `.28`, lengths 48/96/16224 and types `U48`/`U96`/`U16224` |
| ParameterSets.Shake_192fRow | src/wrapper/parameter_sets.rs:135-146 | SHAKE-192f: OID `.29`, lengths 48/96/35664 and types `U48`/`U96`/`U35664` |
| ParameterSets.Shake_256sRow | src/wrapper/parameter_sets.rs:147-158 | SHAKE-256s: OID `.30`, lengths 64/128/29792 and types `U64`/`U128`/`U29792` |
| ParameterSets.Shake_256fRow | src/wrapper/parameter_sets.rs:159-170 | SHAKE-256f: OID `.31`, lengths 64/128/49856 and types `U64`/`U128`/`U49856` |
| ParameterSets.TestSizes | src/wrapper.rs:184-197 | for all twelve sets, every `LEN` type denotes its `*_LEN` constant, and `SECRET_KEY_LEN`/`PUBLIC_KEY_LEN` equal the lengths they alias |
| ParameterSets.HandWrittenShake128sAgrees | src/wrapper.rs:144-170 | the hand-written SHAKE-128s carries exactly the constants of the macro-generated SHAKE-128s |
| ParameterSets.Shake192fMatchesBindings | src/wrapper/parameter_sets.rs:135-146 | the SHAKE-192f row has secret key 96, public key 48 and signature 35664 bytes, the sizes the bindings' documentation asserts |
| ParameterSets.TableFollowsFips205 | src/wrapper/parameter_sets.rs:16-170 | every row's lengths equal the sizes that FIPS 205 derives from the row's Table 2 numbers: signature `(1 + k(1+a) + h + d·len)·n`, secret key `4n`, public key `2n` |
| ParameterSets.SigningKeyIsTwiceVerifyingKey | src/wrapper/parameter_sets.rs:16-170 | for every set, the signing key is twice as long as the verifying key, and the aliases `SECRET_KEY_LEN`/`PUBLIC_KEY_LEN` agree |
| ParameterSets.KeyLengthsFollowLevel | src/wrapper/parameter_sets.rs:16-170 | the verifying key has (level bits)/4 bytes, i.e. 32, 48 or 64, and the signing key (level bits)/2 bytes |
| ParameterSets.HashFamiliesAgreeOnSizes | src/wrapper/parameter_sets.rs:16-170 | a SHA2 set and its SHAKE twin have the same lengths and length types, but different OIDs |
| ParameterSets.SmallSignaturesAreShorter | src/wrapper/parameter_sets.rs:16-170 | at every level and in both families, the `s` signature is shorter than the `f` one |
| ParameterSets.SignatureGrowsWithLevel | src/wrapper/parameter_sets.rs:16-170 | within one family and variant, the signature length grows strictly from 128 to 192 to 256 |
| ParameterSets.OidNumbering | src/wrapper/parameter_sets.rs:17-161 | each OID is `2.16.840.1.101.3.4.3.` plus two digits numbering the set in test-list order: 20–25 exactly for SHA2, 26–31 exactly for SHAKE |
| ParameterSets.OidsDistinct | src/wrapper/parameter_sets.rs:17-161 | no two different sets share an OID |
| ParameterSets.NameLayout | src/wrapper/parameter_sets.rs:17-160 | in `NAME`, the family fixes the length, the level the third character from the end, and the variant the last character |
| ParameterSets.NamesDistinct | src/wrapper/parameter_sets.rs:17-160 | no two different sets share a name |
| SignatureEncoding.SignatureArrayLen | src/wrapper/signature_encoding.rs:53 | the signature array type's `USIZE` is `SIGNATURE_LEN` |
| SignatureEncoding.TryFrom | src/wrapper/signature_encoding.rs:49-59 | decoding fails if and only if the slice length differs from `SIGNATURE_LEN`; on success the signature holds exactly the input bytes |
| SignatureEncoding.AsRef | src/wrapper/signature_encoding.rs:61-72 | encoding (`as_ref`, or `From` into the array) gives `SIGNATURE_LEN` bytes, which decode back to the same signature |
| SignatureEncoding.DecodeThenEncode | src/wrapper/signature_encoding.rs:68-71 | decoding then encoding a slice of valid length gives back that slice |
| SignatureEncoding.EncodingInjective | src/wrapper/signature_encoding.rs:23-37 | two valid signatures of one parameter set with the same encoding are equal |
| SigningKeys.SigningKeyArrayLen | src/wrapper/signing_key.rs:191 | the secret-key array type's `USIZE` is `SIGNING_KEY_LEN` |
| SigningKeys.VerifyingKeyArrayLen | src/wrapper/signing_key.rs:64-67 | the verifying-key array type's `USIZE` is `VERIFYING_KEY_LEN` |
| SigningKeys.TryFrom | src/wrapper/signing_key.rs:187-197 | decoding a secret key fails if and only if the slice length differs from `SIGNING_KEY_LEN`; on success the key holds exactly the input bytes |
| SigningKeys.AsRef | src/wrapper/signing_key.rs:199-203 | encoding a key (`as_ref`, or `From` into the array) gives `SIGNING_KEY_LEN` bytes, which decode back to the same key |
| SigningKeys.DecodeThenEncode | src/wrapper/signing_key.rs:194-202 | decoding then encoding a slice of valid length gives back that slice |
| SigningKeys.AsVerifyingKey | src/wrapper/signing_key.rs:61-73 | the verifying key is the last `VERIFYING_KEY_LEN` bytes of the secret key; the start index never underflows; the result has the length its array demands |
| SigningKeys.VerifyingKeyIsPublicKeyPart | src/wrapper/signing_key.rs:61-73 | for a secret key laid out as `SK.seed ‖ SK.prf ‖ PK.seed ‖ PK.root` (FIPS 205, section 9.1), the verifying key is `PK.seed ‖ PK.root` |
| SigningKeys.KeygenOutcome | src/wrapper/signing_key.rs:120-129 | `keygen` succeeds if and only if the C status is 0, and then keeps the secret-key buffer; otherwise it returns `FFIError` carrying exactly that status |
| SigningKeys.SlhKeygen | src/wrapper/signing_key.rs:108-118 | the C call leaves the bytes it produced in both buffers and returns its status |
| SigningKeys.Keygen | src/wrapper/signing_key.rs:102-130 | `keygen`, with zeroed buffers filled in place and the public-key buffer dropped, returns `KeygenOutcome` of the C call |
| SigningKeys.KeygenKeepsPublicKey | src/wrapper/signing_key.rs:125-129 | when the C secret key ends with the public key, the new key's verifying key equals the public key that `keygen` drops |
| SigningKeys.Request | src/wrapper/signing_key.rs:151-167 | signing passes the message, the context and the secret key, and always a null additional-randomness pointer (the deterministic mode) |
| SigningKeys.SignOutcome | src/wrapper/signing_key.rs:169-177 | signing succeeds if and only if the C call returns `SIGNATURE_LEN`, and then yields a valid signature made of the filled buffer |
| SigningKeys.SlhSign | src/wrapper/signing_key.rs:151-168 | the C call leaves its bytes in the signature buffer and returns its length |
| SigningKeys.TrySignWithCtx | src/wrapper/signing_key.rs:143-178 | `try_sign_with_ctx`, with a zeroed buffer filled in place, returns `SignOutcome` of the request |
| SigningKeys.TrySign | src/wrapper/signing_key.rs:75-79 | `try_sign` is `try_sign_with_ctx` under the empty context |
| SigningKeys.SignedSignatureRoundTrips | src/wrapper.rs:202-224 | a signature produced by signing encodes to `SIGNATURE_LEN` bytes, which decode to an equal signature |

## Left out

- The SLH-DSA algorithm itself, i.e. the C library behind `slh_keygen`,
  `slh_sign` and `slh_verify`, is not part of this model. Its observable
  effect on one call is an input: a `KeygenCall` record, or a function from
  the signing request to the returned length and bytes.
- The randomness source `randombytes` handed to `slh_keygen` reads the
  operating system's entropy, which is I/O. Its effect is folded into the
  `KeygenCall` record.
- SigningKeys.Keygen and SigningKeys.TrySignWithCtx take the effect of the C
  call as the final contents of each buffer it is handed, which therefore
  have the buffer's length. A call that writes fewer bytes is covered: the
  bytes it leaves alone stay 0 and become part of the key or signature.
  The wrapper itself assumes that every byte is set on success
  (src/wrapper/signing_key.rs:125-126 and :173-174). The only C behaviour
  the model cannot express is writing outside the buffers it is handed.
- `VerifyingKey::verify_with_ctx` is `todo!()` in the crate, so there is no
  behaviour to model. `VerifyingKey` appears only as the datatype that
  `AsVerifyingKey` returns. The commented-out verification tests are
  therefore not modelled either.
- The FFI getters `signing_key_len`, `verifying_key_len`, `signature_len`,
  `algorithm_name` and `prm` read C statics through raw pointers. The C
  record is kept only as its name (`ffiParams`). The parts of the size tests
  that compare against these getters are not modelled.
- `transcoding::from_bytes` and `as_bytes` delegate to `try_from` and
  `as_ref`. The model uses the same functions for them, so they agree with
  `try_into` on every input by construction.
- `Display` and `Debug` implementations and the `KeypairRef` marker are
  formatting or type-level glue with no behaviour to state.
- `GenericArray` is modelled only through its length. typenum is modelled
  only as far as the crate builds numbers from it: `UTerm`/`UInt`, `USIZE`,
  and the aliases it uses.
- ParameterSets.Impl is written once for all twelve sets in terms of the
  set's family, level and variant, not as twelve literal invocations. The
  twelve `…Row` lemmas state that, set by set, it equals the literal
  `define_param_set!` invocation in the source.
- `src/lib.rs` declares only the module `ffi` (src/lib.rs:28), so the
  wrapper, including the hand-written SHAKE-128s type, is not compiled into
  the crate as it stands: src/lib.rs includes no `wrapper` module, under a
  `wrapper` feature or otherwise, while tests/test_constants.rs:1 is gated on
  `feature = "wrapper"`. Within the wrapper, `wrapper.rs`
  declares `signature_encoding`, `signing_key`, `verifying_key` and `utils`
  (src/wrapper.rs:7-15) but not `parameter_sets`. The model covers the
  wrapper's code and all twelve sets as the macro invocations define them,
  independently of which modules the crate root wires in.
- Build tooling, bindgen output, module glue and the integration tests, which
  drive the C library through FFI, are not part of this model.
- Machine integer widths: lengths are unbounded naturals. Every length in the
  table is below 50000, so `usize` overflow cannot arise. The returned
  signature length is a `usize` and the status a `c_int`, both with their
  machine ranges.
