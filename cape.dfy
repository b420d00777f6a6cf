/**
 * The cape rule of the `updateOptions` hook: when capes are not allowed,
 * the model-customisation byte the client sent is stored with its cape bit
 * (bit 0) cleared.
 */
module CapeRule {

  /** A Java `int`. */
  type Int32 = x: int | -0x8000_0000 <= x < 0x8000_0000

  /** Bit i of a byte. */
  predicate Bit(b: bv8, i: nat)
    requires i < 8
  {
    (b >> i) & 1 == 1
  }

  /** Java's narrowing cast `(byte) x`: the low eight bits of x, as a bit pattern. */
  function ToByte(x: int): bv8
  {
    (x % 256) as bv8
  }

  /** `b & ~1` on a byte: the cape bit cleared. */
  function ClearCapeBit(b: bv8): (r: bv8)
    ensures !Bit(r, 0)
    ensures forall i :: 1 <= i < 8 ==> Bit(r, i) == Bit(b, i)
  {
    b & !1
  }

  /**
   * `(byte) ((byte) modelCustomisation & ~1)`: the byte that is stored when
   * capes are disallowed: the client's low byte with bit 0 off and bits 1 to 7 kept.
   */
  function CapeMask(modelCustomisation: Int32): (b: bv8)
    ensures !Bit(b, 0)
    ensures forall i :: 1 <= i < 8 ==> Bit(b, i) == Bit(ToByte(modelCustomisation), i)
  {
    ClearCapeBit(ToByte(modelCustomisation))
  }

  /**
   * Worked cases of the `(byte)` cast and the mask, negative ints included:
   * Dafny's `%` is Euclidean, so x % 256 is the two's-complement low byte.
   */
  lemma CastAndMaskCases()
    ensures ToByte(-1) == 0xFF && CapeMask(-1) == 0xFE
    ensures ToByte(-128) == 0x80 && CapeMask(-128) == 0x80
    ensures ToByte(0x17F) == 0x7F && CapeMask(0x17F) == 0x7E
    ensures ToByte(256) == 0 && CapeMask(1) == 0
    ensures ToByte(-0x8000_0000) == 0 && ToByte(0x7FFF_FFFF) == 0xFF
  {
  }

  /** Masking the stored byte once more changes nothing. */
  lemma CapeMaskIdempotent(modelCustomisation: Int32)
    ensures ClearCapeBit(CapeMask(modelCustomisation)) == CapeMask(modelCustomisation)
  {
  }

  /** The stored byte is the client's byte exactly when the cape bit was already off. */
  lemma CapeMaskKeepsCapeless(modelCustomisation: Int32)
    ensures CapeMask(modelCustomisation) == ToByte(modelCustomisation) <==> !Bit(ToByte(modelCustomisation), 0)
  {
  }
}
