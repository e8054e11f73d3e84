/** The twelve standard SLH-DSA parameter sets (FIPS 205, section 11, Table 2)
    as the crate stamps them out with `define_param_set!`, and the facts that
    hold across the table. */
module ParameterSets {
  import opened Typenum
  import opened Wrapper
  import opened Macros
  import Fips205

  datatype HashFamily = Sha2 | Shake

  datatype SecurityLevel = L128 | L192 | L256

  /** The `s` (small signature) and `f` (fast signing) trade-offs. */
  datatype Variant = Small | Fast

  /** One of the twelve parameter-set types: every combination of hash
      family, security level and variant. */
  datatype ParamSet = ParamSet(family: HashFamily, level: SecurityLevel, variant: Variant)

  function FamilyTag(f: HashFamily): string
  {
    match f
    case Sha2 => "SHA2"
    case Shake => "SHAKE"
  }

  /** The hash family as it appears in the C library's symbol names. */
  function FamilySymbol(f: HashFamily): string
  {
    match f
    case Sha2 => "sha2"
    case Shake => "shake"
  }

  function LevelTag(l: SecurityLevel): string
  {
    match l
    case L128 => "128"
    case L192 => "192"
    case L256 => "256"
  }

  function VariantTag(v: Variant): string
  {
    match v
    case Small => "s"
    case Fast => "f"
  }

  /** `NAME`: the FIPS 205 designation, e.g. `SLH-DSA-SHA2-128s`. */
  function Name(p: ParamSet): string
  {
    "SLH-DSA-" + FamilyTag(p.family) + "-" + LevelTag(p.level) + VariantTag(p.variant)
  }

  /** The struct identifier, e.g. `SLH_DSA_SHA2_128s`. */
  function TypeIdent(p: ParamSet): string
  {
    "SLH_DSA_" + FamilyTag(p.family) + "_" + LevelTag(p.level) + VariantTag(p.variant)
  }

  /** The C parameter record, e.g. `slh_dsa_sha2_128s`. */
  function FfiPath(p: ParamSet): string
  {
    "slh_dsa_" + FamilySymbol(p.family) + "_" + LevelTag(p.level) + VariantTag(p.variant)
  }

  /** The arc under which the twelve algorithm identifiers are registered. */
  const OidArc: string := "2.16.840.1.101.3.4.3."

  /** The two decimal digits of a number between 10 and 99. */
  function TwoDigits(i: nat): (s: string)
    requires 10 <= i < 100
    ensures |s| == 2 && '0' <= s[0] <= '9' && '0' <= s[1] <= '9'
    ensures (s[0] as int - '0' as int) * 10 + (s[1] as int - '0' as int) == i
  {
    [(i / 10 + '0' as int) as char, (i % 10 + '0' as int) as char]
  }

  /** `ALGORITHM_OID_STR`: the arc followed by 20 to 31, in the order of
      `test_parameter_sets!`. */
  function Oid(p: ParamSet): string
  {
    OidArc + TwoDigits(20 + Ordinal(p))
  }

  function VerifyingKeyLenOf(l: SecurityLevel): nat
  {
    match l
    case L128 => 32
    case L192 => 48
    case L256 => 64
  }

  function VerifyingKeyLenTyOf(l: SecurityLevel): Unsigned
  {
    match l
    case L128 => U32
    case L192 => U48
    case L256 => U64
  }

  function SigningKeyLenOf(l: SecurityLevel): nat
  {
    match l
    case L128 => 64
    case L192 => 96
    case L256 => 128
  }

  function SigningKeyLenTyOf(l: SecurityLevel): Unsigned
  {
    match l
    case L128 => U64
    case L192 => U96
    case L256 => U128
  }

  function SignatureLenOf(l: SecurityLevel, v: Variant): nat
  {
    match (l, v)
    case (L128, Small) => 7856
    case (L128, Fast) => 17088
    case (L192, Small) => 16224
    case (L192, Fast) => 35664
    case (L256, Small) => 29792
    case (L256, Fast) => 49856
  }

  function SignatureLenTyOf(l: SecurityLevel, v: Variant): Unsigned
  {
    match (l, v)
    case (L128, Small) => U7856
    case (L128, Fast) => U17088
    case (L192, Small) => U16224
    case (L192, Fast) => U35664
    case (L256, Small) => U29792
    case (L256, Fast) => U49856
  }

  /** The trait constants of each parameter-set type: one `define_param_set!`
      invocation per set, whose arguments depend only on the hash family, the
      security level and the variant. `MacroRowsSha2` and `MacroRowsShake`
      spell the twelve invocations out. */
  function Impl(p: ParamSet): ParamImpl
  {
    DefineParamSet(
      Name(p), Oid(p),
      VerifyingKeyLenOf(p.level), VerifyingKeyLenTyOf(p.level),
      SigningKeyLenOf(p.level), SigningKeyLenTyOf(p.level),
      SignatureLenOf(p.level, p.variant), SignatureLenTyOf(p.level, p.variant),
      TypeIdent(p), FfiPath(p))
  }

  function SignatureLen(p: ParamSet): nat
  {
    Impl(p).signatureLen
  }

  function SigningKeyLen(p: ParamSet): nat
  {
    Impl(p).signingKeyLen
  }

  function VerifyingKeyLen(p: ParamSet): nat
  {
    Impl(p).verifyingKeyLen
  }

  /** The order in which `test_parameter_sets!` instantiates a test. */
  const TestedParamSets: seq<ParamSet> := [
    ParamSet(Sha2, L128, Small), ParamSet(Sha2, L128, Fast),
    ParamSet(Sha2, L192, Small), ParamSet(Sha2, L192, Fast),
    ParamSet(Sha2, L256, Small), ParamSet(Sha2, L256, Fast),
    ParamSet(Shake, L128, Small), ParamSet(Shake, L128, Fast),
    ParamSet(Shake, L192, Small), ParamSet(Shake, L192, Fast),
    ParamSet(Shake, L256, Small), ParamSet(Shake, L256, Fast)
  ]

  /** The position of a set in `test_parameter_sets!`: SHA2 before SHAKE,
      then by level, `s` before `f`. */
  function Ordinal(p: ParamSet): (i: nat)
    ensures i < 12
  {
    6 * (if p.family == Sha2 then 0 else 1)
    + 2 * (match p.level case L128 => 0 case L192 => 1 case L256 => 2)
    + (if p.variant == Small then 0 else 1)
  }

  /** `test_parameter_sets!` covers each of the twelve sets exactly once:
      set `p` sits at position `Ordinal(p)` and nowhere else. */
  lemma TestedParamSetsEnumerateEachOnce(p: ParamSet)
    ensures |TestedParamSets| == 12
    ensures TestedParamSets[Ordinal(p)] == p
    ensures forall i :: 0 <= i < 12 && TestedParamSets[i] == p ==> i == Ordinal(p)
  {
  }

  /** The `define_param_set!` invocation for SLH_DSA_SHA2_128s. */
  lemma Sha2_128sRow()
    ensures Impl(ParamSet(Sha2, L128, Small)) == DefineParamSet(
      "SLH-DSA-SHA2-128s", "2.16.840.1.101.3.4.3.20", 32, U32, 64, U64, 7856, U7856,
      "SLH_DSA_SHA2_128s", "slh_dsa_sha2_128s")
  {
  }

  /** The `define_param_set!` invocation for SLH_DSA_SHA2_128f. */
  lemma Sha2_128fRow()
    ensures Impl(ParamSet(Sha2, L128, Fast)) == DefineParamSet(
      "SLH-DSA-SHA2-128f", "2.16.840.1.101.3.4.3.21", 32, U32, 64, U64, 17088, U17088,
      "SLH_DSA_SHA2_128f", "slh_dsa_sha2_128f")
  {
  }

  /** The `define_param_set!` invocation for SLH_DSA_SHA2_192s. */
  lemma Sha2_192sRow()
    ensures Impl(ParamSet(Sha2, L192, Small)) == DefineParamSet(
      "SLH-DSA-SHA2-192s", "2.16.840.1.101.3.4.3.22", 48, U48, 96, U96, 16224, U16224,
      "SLH_DSA_SHA2_192s", "slh_dsa_sha2_192s")
  {
  }

  /** The `define_param_set!` invocation for SLH_DSA_SHA2_192f. */
  lemma Sha2_192fRow()
    ensures Impl(ParamSet(Sha2, L192, Fast)) == DefineParamSet(
      "SLH-DSA-SHA2-192f", "2.16.840.1.101.3.4.3.23", 48, U48, 96, U96, 35664, U35664,
      "SLH_DSA_SHA2_192f", "slh_dsa_sha2_192f")
  {
  }

  /** The `define_param_set!` invocation for SLH_DSA_SHA2_256s. */
  lemma Sha2_256sRow()
    ensures Impl(ParamSet(Sha2, L256, Small)) == DefineParamSet(
      "SLH-DSA-SHA2-256s", "2.16.840.1.101.3.4.3.24", 64, U64, 128, U128, 29792, U29792,
      "SLH_DSA_SHA2_256s", "slh_dsa_sha2_256s")
  {
  }

  /** The `define_param_set!` invocation for SLH_DSA_SHA2_256f. */
  lemma Sha2_256fRow()
    ensures Impl(ParamSet(Sha2, L256, Fast)) == DefineParamSet(
      "SLH-DSA-SHA2-256f", "2.16.840.1.101.3.4.3.25", 64, U64, 128, U128, 49856, U49856,
      "SLH_DSA_SHA2_256f", "slh_dsa_sha2_256f")
  {
  }

  /** The `define_param_set!` invocation for SLH_DSA_SHAKE_128s. */
  lemma Shake_128sRow()
    ensures Impl(ParamSet(Shake, L128, Small)) == DefineParamSet(
      "SLH-DSA-SHAKE-128s", "2.16.840.1.101.3.4.3.26", 32, U32, 64, U64, 7856, U7856,
      "SLH_DSA_SHAKE_128s", "slh_dsa_shake_128s")
  {
  }

  /** The `define_param_set!` invocation for SLH_DSA_SHAKE_128f. */
  lemma Shake_128fRow()
    ensures Impl(ParamSet(Shake, L128, Fast)) == DefineParamSet(
      "SLH-DSA-SHAKE-128f", "2.16.840.1.101.3.4.3.27", 32, U32, 64, U64, 17088, U17088,
      "SLH_DSA_SHAKE_128f", "slh_dsa_shake_128f")
  {
  }

  /** The `define_param_set!` invocation for SLH_DSA_SHAKE_192s. */
  lemma Shake_192sRow()
    ensures Impl(ParamSet(Shake, L192, Small)) == DefineParamSet(
      "SLH-DSA-SHAKE-192s", "2.16.840.1.101.3.4.3.28", 48, U48, 96, U96, 16224, U16224,
      "SLH_DSA_SHAKE_192s", "slh_dsa_shake_192s")
  {
  }

  /** The `define_param_set!` invocation for SLH_DSA_SHAKE_192f. */
  lemma Shake_192fRow()
    ensures Impl(ParamSet(Shake, L192, Fast)) == DefineParamSet(
      "SLH-DSA-SHAKE-192f", "2.16.840.1.101.3.4.3.29", 48, U48, 96, U96, 35664, U35664,
      "SLH_DSA_SHAKE_192f", "slh_dsa_shake_192f")
  {
  }

  /** The `define_param_set!` invocation for SLH_DSA_SHAKE_256s. */
  lemma Shake_256sRow()
    ensures Impl(ParamSet(Shake, L256, Small)) == DefineParamSet(
      "SLH-DSA-SHAKE-256s", "2.16.840.1.101.3.4.3.30", 64, U64, 128, U128, 29792, U29792,
      "SLH_DSA_SHAKE_256s", "slh_dsa_shake_256s")
  {
  }

  /** The `define_param_set!` invocation for SLH_DSA_SHAKE_256f. */
  lemma Shake_256fRow()
    ensures Impl(ParamSet(Shake, L256, Fast)) == DefineParamSet(
      "SLH-DSA-SHAKE-256f", "2.16.840.1.101.3.4.3.31", 64, U64, 128, U128, 49856, U49856,
      "SLH_DSA_SHAKE_256f", "slh_dsa_shake_256f")
  {
  }

  /** The crate's size test, for every set: each `LEN` type evaluates to its
      constant and the defaulted aliases agree. */
  lemma TestSizes(p: ParamSet)
    ensures Impl(p).SizesConsistent()
  {
    var r := Impl(p);
    assert ToUsize(r.signatureLenTy) == r.signatureLen by {
      match (p.level, p.variant)
      case (L128, Small) => Typenum7856();
      case (L128, Fast) => Typenum17088();
      case (L192, Small) => Typenum16224();
      case (L192, Fast) => Typenum35664();
      case (L256, Small) => Typenum29792();
      case (L256, Fast) => Typenum49856();
    }
    assert ToUsize(r.signingKeyLenTy) == r.signingKeyLen && ToUsize(r.verifyingKeyLenTy) == r.verifyingKeyLen by {
      KeyTypenums();
    }
  }

  /** The hand-written SHAKE-128s type carries the same constants as the
      macro-generated one. */
  lemma HandWrittenShake128sAgrees()
    ensures Wrapper.SLH_DSA_SHAKE_128s == Impl(ParamSet(Shake, L128, Small))
  {
  }

  /** The SHAKE-192f row agrees with the sizes the C library's documentation
      example asserts (secret key 96, public key 48, signature 35664). */
  lemma Shake192fMatchesBindings()
    ensures SigningKeyLen(ParamSet(Shake, L192, Fast)) == 96
    ensures VerifyingKeyLen(ParamSet(Shake, L192, Fast)) == 48
    ensures SignatureLen(ParamSet(Shake, L192, Fast)) == 35664
  {
  }

  /** The numbers of Table 2 in section 11 of FIPS 205; SHA2 and SHAKE sets
      of the same level and variant share them. */
  function TableTwo(level: SecurityLevel, variant: Variant): (t: Fips205.SizeParams)
    ensures t.n > 0 && t.lgw == 4 && t.d * t.hp == t.h
  {
    match (level, variant)
    case (L128, Small) => Fips205.SizeParams(16, 63, 7, 9, 12, 14, 4, 30)
    case (L128, Fast) => Fips205.SizeParams(16, 66, 22, 3, 6, 33, 4, 34)
    case (L192, Small) => Fips205.SizeParams(24, 63, 7, 9, 14, 17, 4, 39)
    case (L192, Fast) => Fips205.SizeParams(24, 66, 22, 3, 8, 33, 4, 42)
    case (L256, Small) => Fips205.SizeParams(32, 64, 8, 8, 14, 22, 4, 47)
    case (L256, Fast) => Fips205.SizeParams(32, 68, 17, 4, 9, 35, 4, 49)
  }

  function Fips205Params(p: ParamSet): (t: Fips205.SizeParams)
    ensures t.n > 0 && t.lgw == 4
  {
    TableTwo(p.level, p.variant)
  }

  /** Every row's lengths are the sizes FIPS 205 derives from the row's
      numbers: a signature of `n + k(1+a)n + d(len+h')n` bytes, a secret key
      of `4n` bytes and a public key of `2n` bytes. */
  lemma TableFollowsFips205(p: ParamSet)
    ensures SignatureLen(p) == Fips205.SignatureBytes(Fips205Params(p))
    ensures SigningKeyLen(p) == Fips205.SecretKeyBytes(Fips205Params(p))
    ensures VerifyingKeyLen(p) == Fips205.PublicKeyBytes(Fips205Params(p))
  {
    Fips205.WotsLength(Fips205Params(p));
    match p.level
    case L128 => assert Fips205.Len(Fips205Params(p)) == 35;
    case L192 => assert Fips205.Len(Fips205Params(p)) == 51;
    case L256 => assert Fips205.Len(Fips205Params(p)) == 67;
  }

  /** A secret key carries `SK.seed || SK.prf` in front of the public key,
      so every signing key is twice as long as its verifying key. */
  lemma SigningKeyIsTwiceVerifyingKey(p: ParamSet)
    ensures SigningKeyLen(p) == 2 * VerifyingKeyLen(p)
    ensures Impl(p).SecretKeyLen() == SigningKeyLen(p) && Impl(p).PublicKeyLen() == VerifyingKeyLen(p)
  {
    TableFollowsFips205(p);
  }

  /** The security strength in bits that a level names. */
  function SecurityBits(l: SecurityLevel): nat
  {
    match l
    case L128 => 128
    case L192 => 192
    case L256 => 256
  }

  /** Key lengths depend on the security level alone: a verifying key is a
      quarter and a signing key half of the level's bit count, in bytes
      (32, 48 and 64 bytes of verifying key for levels 128, 192 and 256). */
  lemma KeyLengthsFollowLevel(p: ParamSet)
    ensures VerifyingKeyLen(p) == SecurityBits(p.level) / 4
    ensures SigningKeyLen(p) == SecurityBits(p.level) / 2
  {
    TableFollowsFips205(p);
  }

  /** A SHA2 set and its SHAKE twin of the same level and variant have the
      same lengths and length types; only names, OIDs and C records differ. */
  lemma HashFamiliesAgreeOnSizes(l: SecurityLevel, v: Variant)
    ensures var a, b := Impl(ParamSet(Sha2, l, v)), Impl(ParamSet(Shake, l, v));
      && a.signatureLen == b.signatureLen && a.signatureLenTy == b.signatureLenTy
      && a.signingKeyLen == b.signingKeyLen && a.signingKeyLenTy == b.signingKeyLenTy
      && a.verifyingKeyLen == b.verifyingKeyLen && a.verifyingKeyLenTy == b.verifyingKeyLenTy
    ensures Impl(ParamSet(Sha2, l, v)).algorithmOid != Impl(ParamSet(Shake, l, v)).algorithmOid
  {
    OidsDistinct(ParamSet(Sha2, l, v), ParamSet(Shake, l, v));
  }

  /** At every level and for both hash families the `s` signature is
      shorter than the `f` one. */
  lemma SmallSignaturesAreShorter(f: HashFamily, l: SecurityLevel)
    ensures SignatureLen(ParamSet(f, l, Small)) < SignatureLen(ParamSet(f, l, Fast))
  {
  }

  /** Within one variant, signatures grow strictly with the security level. */
  lemma SignatureGrowsWithLevel(f: HashFamily, v: Variant)
    ensures SignatureLen(ParamSet(f, L128, v)) < SignatureLen(ParamSet(f, L192, v))
    ensures SignatureLen(ParamSet(f, L192, v)) < SignatureLen(ParamSet(f, L256, v))
  {
  }

  /** The number closing an OID: the value of its last two decimal digits. */
  function OidNumber(oid: string): int
    requires |oid| >= 2
  {
    (oid[|oid| - 2] as int - '0' as int) * 10 + (oid[|oid| - 1] as int - '0' as int)
  }

  /** Every OID is the arc `2.16.840.1.101.3.4.3` followed by a two-digit
      number: 20 to 25 for the SHA2 sets, 26 to 31 for the SHAKE sets, in
      the order of `test_parameter_sets!`. */
  lemma OidNumbering(p: ParamSet)
    ensures var oid := Impl(p).algorithmOid;
      && |oid| == |OidArc| + 2 && oid[..|OidArc|] == OidArc
      && OidNumber(oid) == 20 + Ordinal(p)
      && (p.family == Sha2 <==> 20 <= OidNumber(oid) <= 25)
      && (p.family == Shake <==> 26 <= OidNumber(oid) <= 31)
  {
    var oid := Impl(p).algorithmOid;
    var d := TwoDigits(20 + Ordinal(p));
    assert oid == OidArc + d;
    assert oid[|oid| - 2] == d[0] && oid[|oid| - 1] == d[1];
    assert oid[..|OidArc|] == OidArc;
  }

  /** No two parameter sets share an OID. */
  lemma OidsDistinct(p: ParamSet, q: ParamSet)
    requires p != q
    ensures Impl(p).algorithmOid != Impl(q).algorithmOid
  {
    OidNumbering(p);
    OidNumbering(q);
    TestedParamSetsEnumerateEachOnce(p);
    TestedParamSetsEnumerateEachOnce(q);
  }

  /** Where family, level and variant sit in `NAME`: the family decides the
      length, the level the third character from the end and the variant
      the last one. */
  lemma NameLayout(p: ParamSet)
    ensures var name := Impl(p).name;
      && |name| == 13 + |FamilyTag(p.family)|
      && name[|name| - 3] == LevelTag(p.level)[1]
      && name[|name| - 1] == VariantTag(p.variant)[0]
  {
    var tail := LevelTag(p.level) + VariantTag(p.variant);
    assert Name(p) == "SLH-DSA-" + FamilyTag(p.family) + "-" + tail;
  }

  /** No two parameter sets share a name. */
  lemma NamesDistinct(p: ParamSet, q: ParamSet)
    requires p != q
    ensures Impl(p).name != Impl(q).name
  {
    NameLayout(p);
    NameLayout(q);
  }
}
