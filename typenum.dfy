/** Type-level unsigned integers as the `typenum` crate builds them, and the
    `u_from_bits!` macro that spells out the six signature lengths which have
    no predefined typenum alias. */
module Typenum {

  /** typenum's bit types `B0` and `B1`. */
  datatype Bit = B0 | B1

  /** typenum's binary unsigned integers: `UTerm` is zero and `UInt<U, B>`
      is `2 * U + B`, so the outermost bit is the least significant one. */
  datatype Unsigned = UTerm | UInt(high: Unsigned, low: Bit)

  /** The token list handed to `u_from_bits!`: bits, least significant first. */
  datatype Bits = Nil | Cons(first: Bit, rest: Bits)

  function BitValue(b: Bit): nat
  {
    if b == B1 then 1 else 0
  }

  function Pow2(k: nat): (r: nat)
    ensures r >= 1
  {
    if k == 0 then 1 else 2 * Pow2(k - 1)
  }

  function Length(bits: Bits): nat
  {
    match bits
    case Nil => 0
    case Cons(_, rest) => Length(rest) + 1
  }

  /** The last token, i.e. the most significant bit. */
  function Last(bits: Bits): Bit
    requires bits != Nil
  {
    if bits.rest == Nil then bits.first else Last(bits.rest)
  }

  /** `Unsigned::USIZE` / `Unsigned::to_usize()`: the value a type-level number denotes. */
  function ToUsize(u: Unsigned): nat
  {
    match u
    case UTerm => 0
    case UInt(high, b) => 2 * ToUsize(high) + BitValue(b)
  }

  /** The form typenum itself gives every number: no `UInt<UTerm, B0>`
      anywhere, i.e. no leading zero bit. */
  predicate Canonical(u: Unsigned)
  {
    match u
    case UTerm => true
    case UInt(high, b) => Canonical(high) && (high == UTerm ==> b == B1)
  }

  /** typenum's own alias `U<n>` for a number `n` (the predefined `U32`,
      `U64`, ... are these). */
  function FromNat(n: nat): (u: Unsigned)
    ensures ToUsize(u) == n
    ensures Canonical(u)
  {
    if n == 0 then UTerm else UInt(FromNat(n / 2), if n % 2 == 1 then B1 else B0)
  }

  /** `u_from_bits!`: no tokens give `UTerm`; a leading bit `b` in front of
      the rest gives `UInt<u_from_bits!(rest), b>`. */
  function UFromBits(bits: Bits): Unsigned
  {
    match bits
    case Nil => UTerm
    case Cons(b, rest) => UInt(UFromBits(rest), b)
  }

  /** Positional reading of a token list that starts at bit position `k`:
      the token at position `i` is worth `2^i`. Independent of `UFromBits`. */
  function PositionalFrom(bits: Bits, k: nat): nat
  {
    match bits
    case Nil => 0
    case Cons(b, rest) => BitValue(b) * Pow2(k) + PositionalFrom(rest, k + 1)
  }

  /** The three rules of `u_from_bits!`, stated on the values the types
      denote, for every token list at once. */
  lemma UFromBitsRules()
    ensures ToUsize(UFromBits(Nil)) == 0
    ensures forall rest :: ToUsize(UFromBits(Cons(B0, rest))) == 2 * ToUsize(UFromBits(rest))
    ensures forall rest :: ToUsize(UFromBits(Cons(B1, rest))) == 2 * ToUsize(UFromBits(rest)) + 1
  {
  }

  /** One step of `Last`, for every token list at once. */
  lemma LastStep()
    ensures forall b, rest :: Last(Cons(b, rest)) == if rest == Nil then b else Last(rest)
  {
  }

  /** `u_from_bits!` yields a number whose width is the number of tokens, and
      which is below `2^Length(bits)`. */
  lemma {:induction false} UFromBitsBound(bits: Bits)
    ensures ToUsize(UFromBits(bits)) < Pow2(Length(bits))
  {
    match bits
    case Nil =>
    case Cons(_, rest) => UFromBitsBound(rest);
  }

  /** `u_from_bits!` agrees with the positional reading of its tokens, so the
      token list is the binary numeral written backwards. */
  lemma {:induction false} UFromBitsIsPositional(bits: Bits, k: nat)
    ensures ToUsize(UFromBits(bits)) * Pow2(k) == PositionalFrom(bits, k)
  {
    match bits
    case Nil =>
    case Cons(b, rest) =>
      UFromBitsIsPositional(rest, k + 1);
      var v := ToUsize(UFromBits(rest));
      calc {
        ToUsize(UFromBits(bits)) * Pow2(k);
        (2 * v + BitValue(b)) * Pow2(k);
        v * (2 * Pow2(k)) + BitValue(b) * Pow2(k);
        v * Pow2(k + 1) + BitValue(b) * Pow2(k);
      }
  }

  /** A token list whose last (most significant) bit is 1 yields a type in
      typenum's canonical form. */
  lemma {:induction false} UFromBitsCanonical(bits: Bits)
    requires bits != Nil ==> Last(bits) == B1
    ensures Canonical(UFromBits(bits))
  {
    match bits
    case Nil =>
    case Cons(b, rest) =>
      if rest != Nil {
        UFromBitsCanonical(rest);
      }
  }

  /** Two canonical type-level numbers denoting the same value are the same
      type; with `FromNat` this makes `ToUsize` a bijection on canonical forms. */
  lemma {:induction false} CanonicalUnique(u: Unsigned)
    requires Canonical(u)
    ensures FromNat(ToUsize(u)) == u
  {
    match u
    case UTerm =>
    case UInt(high, b) =>
      CanonicalUnique(high);
      if high == UTerm {
        assert ToUsize(u) == 1;
      } else {
        assert ToUsize(high) > 0;
      }
      var n := ToUsize(u);
      assert n / 2 == ToUsize(high) && (n % 2 == 1 <==> b == B1);
  }

  /** The documented example: `u_from_bits!(1 0 1 1)` is 13 (0b1101). */
  lemma DocExampleIsThirteen()
    ensures ToUsize(UFromBits(Cons(B1, Cons(B0, Cons(B1, Cons(B1, Nil)))))) == 13
  {
  }

  // The predefined typenum aliases used for key lengths, written out as
  // typenum spells them.
  const U32: Unsigned := UInt(UInt(UInt(UInt(UInt(UInt(UTerm, B1), B0), B0), B0), B0), B0)
  const U48: Unsigned := UInt(UInt(UInt(UInt(UInt(UInt(UTerm, B1), B1), B0), B0), B0), B0)
  const U64: Unsigned := UInt(UInt(UInt(UInt(UInt(UInt(UInt(UTerm, B1), B0), B0), B0), B0), B0), B0)
  const U96: Unsigned := UInt(UInt(UInt(UInt(UInt(UInt(UInt(UTerm, B1), B1), B0), B0), B0), B0), B0)
  const U128: Unsigned := UInt(UInt(UInt(UInt(UInt(UInt(UInt(UInt(UTerm, B1), B0), B0), B0), B0), B0), B0), B0)

  /** The predefined aliases denote the numbers their names promise, and
      each is the type `FromNat` builds for that number. */
  lemma KeyTypenums()
    ensures ToUsize(U32) == 32 && ToUsize(U48) == 48 && ToUsize(U64) == 64
    ensures ToUsize(U96) == 96 && ToUsize(U128) == 128
    ensures U32 == FromNat(32) && U48 == FromNat(48) && U64 == FromNat(64)
    ensures U96 == FromNat(96) && U128 == FromNat(128)
  {
  }

  // The six signature lengths, spelled with `u_from_bits!`.
  const U7856Bits: Bits :=
    Cons(B0, Cons(B0, Cons(B0, Cons(B0, Cons(B1, Cons(B1, Cons(B0, Cons(B1, Cons(B0, Cons(B1, Cons(B1, Cons(B1,
    Cons(B1, Nil)))))))))))))
  const U16224Bits: Bits :=
    Cons(B0, Cons(B0, Cons(B0, Cons(B0, Cons(B0, Cons(B1, Cons(B1, Cons(B0, Cons(B1, Cons(B1, Cons(B1, Cons(B1,
    Cons(B1, Cons(B1, Nil))))))))))))))
  const U17088Bits: Bits :=
    Cons(B0, Cons(B0, Cons(B0, Cons(B0, Cons(B0, Cons(B0, Cons(B1, Cons(B1, Cons(B0, Cons(B1, Cons(B0, Cons(B0,
    Cons(B0, Cons(B0, Cons(B1, Nil)))))))))))))))
  const U29792Bits: Bits :=
    Cons(B0, Cons(B0, Cons(B0, Cons(B0, Cons(B0, Cons(B1, Cons(B1, Cons(B0, Cons(B0, Cons(B0, Cons(B1, Cons(B0,
    Cons(B1, Cons(B1, Cons(B1, Nil)))))))))))))))
  const U35664Bits: Bits :=
    Cons(B0, Cons(B0, Cons(B0, Cons(B0, Cons(B1, Cons(B0, Cons(B1, Cons(B0, Cons(B1, Cons(B1, Cons(B0, Cons(B1,
    Cons(B0, Cons(B0, Cons(B0, Cons(B1, Nil))))))))))))))))
  const U49856Bits: Bits :=
    Cons(B0, Cons(B0, Cons(B0, Cons(B0, Cons(B0, Cons(B0, Cons(B1, Cons(B1, Cons(B0, Cons(B1, Cons(B0, Cons(B0,
    Cons(B0, Cons(B0, Cons(B1, Cons(B1, Nil))))))))))))))))

  const U7856: Unsigned := UFromBits(U7856Bits)
  const U16224: Unsigned := UFromBits(U16224Bits)
  const U17088: Unsigned := UFromBits(U17088Bits)
  const U29792: Unsigned := UFromBits(U29792Bits)
  const U35664: Unsigned := UFromBits(U35664Bits)
  const U49856: Unsigned := UFromBits(U49856Bits)

  /** The six derived types denote the lengths their names promise, and each
      is the very type typenum would build for that number. */
  lemma CustomTypenums()
    ensures ToUsize(U7856) == 7856 && U7856 == FromNat(7856)
    ensures ToUsize(U16224) == 16224 && U16224 == FromNat(16224)
    ensures ToUsize(U17088) == 17088 && U17088 == FromNat(17088)
    ensures ToUsize(U29792) == 29792 && U29792 == FromNat(29792)
    ensures ToUsize(U35664) == 35664 && U35664 == FromNat(35664)
    ensures ToUsize(U49856) == 49856 && U49856 == FromNat(49856)
  {
    Typenum7856();
    Typenum16224();
    Typenum17088();
    Typenum29792();
    Typenum35664();
    Typenum49856();
  }

  lemma Typenum7856()
    ensures ToUsize(U7856) == 7856 && U7856 == FromNat(7856)
  {
    UFromBitsRules();
    LastStep();
    UFromBitsCanonical(U7856Bits);
    CanonicalUnique(U7856);
  }

  lemma Typenum16224()
    ensures ToUsize(U16224) == 16224 && U16224 == FromNat(16224)
  {
    UFromBitsRules();
    LastStep();
    UFromBitsCanonical(U16224Bits);
    CanonicalUnique(U16224);
  }

  lemma Typenum17088()
    ensures ToUsize(U17088) == 17088 && U17088 == FromNat(17088)
  {
    UFromBitsRules();
    LastStep();
    UFromBitsCanonical(U17088Bits);
    CanonicalUnique(U17088);
  }

  lemma Typenum29792()
    ensures ToUsize(U29792) == 29792 && U29792 == FromNat(29792)
  {
    UFromBitsRules();
    LastStep();
    UFromBitsCanonical(U29792Bits);
    CanonicalUnique(U29792);
  }

  lemma Typenum35664()
    ensures ToUsize(U35664) == 35664 && U35664 == FromNat(35664)
  {
    UFromBitsRules();
    LastStep();
    UFromBitsCanonical(U35664Bits);
    CanonicalUnique(U35664);
  }

  lemma Typenum49856()
    ensures ToUsize(U49856) == 49856 && U49856 == FromNat(49856)
  {
    UFromBitsRules();
    LastStep();
    UFromBitsCanonical(U49856Bits);
    CanonicalUnique(U49856);
  }
}
