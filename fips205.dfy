/** The size formulas of FIPS 205 (sections 9.1, 10 and 11): the byte lengths
    of keys and signatures as functions of a parameter set's numbers, used as
    an independent reference for the crate's table. */
module Fips205 {
  import opened Typenum

  /** One row of Table 2 in section 11 of FIPS 205. */
  datatype SizeParams = SizeParams(
    n: nat,     // security parameter: bytes per hash value
    h: nat,     // total hypertree height
    d: nat,     // number of hypertree layers
    hp: nat,    // height of one XMSS tree, h / d
    a: nat,     // height of one FORS tree
    k: nat,     // number of FORS trees
    lgw: nat,   // bits per Winternitz digit
    m: nat)     // message digest length in bytes

  /** The floor of the base-2 logarithm of a positive number. */
  function Log2(x: nat): (r: nat)
    requires x >= 1
    ensures Pow2(r) <= x < 2 * Pow2(r)
  {
    if x == 1 then 0 else Log2(x / 2) + 1
  }

  /** Equation (5.1): base-`w` digits of an `n`-byte message. */
  function Len1(p: SizeParams): nat
    requires p.lgw > 0
  {
    (8 * p.n + p.lgw - 1) / p.lgw
  }

  /** Equation (5.2): base-`w` digits of the WOTS+ checksum. */
  function Len2(p: SizeParams): nat
    requires p.lgw > 0 && p.n > 0
  {
    Log2(Len1(p) * (Pow2(p.lgw) - 1)) / p.lgw + 1
  }

  /** Equation (5.3): number of WOTS+ chains. */
  function Len(p: SizeParams): nat
    requires p.lgw > 0 && p.n > 0
  {
    Len1(p) + Len2(p)
  }

  /** Section 9.1: a public key is `PK.seed || PK.root`. */
  function PublicKeyBytes(p: SizeParams): nat
  {
    2 * p.n
  }

  /** Section 9.1: a secret key is `SK.seed || SK.prf || PK.seed || PK.root`. */
  function SecretKeyBytes(p: SizeParams): nat
  {
    4 * p.n
  }

  /** Section 10: a signature is the randomizer `R` (n bytes), the FORS
      signature (k trees, each a secret value and `a` authentication nodes)
      and the hypertree signature (d layers, each `len` WOTS+ values and `hp`
      authentication nodes). */
  function SignatureBytes(p: SizeParams): int
    requires p.lgw > 0 && p.n > 0
  {
    p.n + p.k * (1 + p.a) * p.n + p.d * (Len(p) + p.hp) * p.n
  }

  /** The floor of the logarithm is the only exponent whose power brackets `x`. */
  lemma {:induction false} Log2Unique(x: nat, r: nat)
    requires Pow2(r) <= x < 2 * Pow2(r)
    ensures Log2(x) == r
  {
    if x > 1 {
      assert r > 0;
      assert Pow2(r) == 2 * Pow2(r - 1);
      Log2Unique(x / 2, r - 1);
    }
  }

  lemma Pow2Values()
    ensures Pow2(4) == 16 && Pow2(8) == 256 && Pow2(9) == 512
  {
  }

  /** With 4-bit digits an n-byte value has 2n digits. */
  lemma Len1Bytes(p: SizeParams)
    requires p.lgw == 4
    ensures Len1(p) == 2 * p.n && Pow2(p.lgw) - 1 == 15
  {
    Pow2Values();
  }

  /** With 4-bit digits and the hash sizes of the standard (16, 24 or 32
      bytes), WOTS+ uses 2n message digits and 3 checksum digits. */
  lemma WotsLength(p: SizeParams)
    requires p.lgw == 4 && (p.n == 16 || p.n == 24 || p.n == 32)
    ensures Len1(p) == 2 * p.n && Len2(p) == 3 && Len(p) == 2 * p.n + 3
  {
    Pow2Values();
    Len1Bytes(p);
    var x := Len1(p) * (Pow2(p.lgw) - 1);
    assert x == 30 * p.n;
    var r := if p.n == 16 then 8 else 9;
    Log2Unique(x, r);
    assert Len2(p) == r / 4 + 1;
  }
}
