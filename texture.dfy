/**
 * The coordinate hash and the four block-rotation classifiers of the finder
 * (src/lib.rs).  Every function here is total and pure: the same coordinate
 * always yields the same rotation.
 *
 * Two finishing families sit on the shared coordinate hash:
 *  - the legacy ("vanilla") one, a single `java.util.Random`-style step on a
 *    48-bit seed;
 *  - the "sodium" one, the MurmurHash3 64-bit finaliser followed by two
 *    golden-ratio increments, each scrambled by Stafford's Mix13.
 */
module Texture {
  import opened FixedWidth

  /** The multiplier of `java.util.Random`, xored into the legacy seed. */
  const MULTIPLIER: bv64 := 0x5_DEEC_E66D
  /** `(1 << 48) - 1`: the legacy seed keeps 48 bits. */
  const MASK: bv64 := 0xFFFF_FFFF_FFFF
  /** The 64-bit golden-ratio increment of the sodium family. */
  const PHI: bv64 := 0x9E37_79B9_7F4A_7C15

  /** The quadratic step `l * l * 42317861 + l * 11` of the coordinate hash, wrapping modulo 2^64. */
  function Quadratic(l: bv64): bv64
  {
    l * l * 42317861 + l * 11
  }

  /**
   * The first line of `get_coordinate_random`: the x product wraps in 32
   * bits before it is widened, while z and y are widened first.
   */
  function Combine(x: int32, y: int32, z: int32): bv64
  {
    SignExtend(Bits32(x) * 3129871) ^ (SignExtend(Bits32(z)) * 116129781) ^ SignExtend(Bits32(y))
  }

  /**
   * `get_coordinate_random`: the combined coordinates go through the
   * quadratic step, which wraps in 64 bits, and then the sign-preserving
   * shift of `isize`.
   */
  function GetCoordinateRandom(x: int32, y: int32, z: int32): bv64
  {
    ShiftRightArith16(Quadratic(Combine(x, y, z)))
  }

  /** Read as an `isize`, the coordinate hash lies in [-2^47, 2^47). */
  lemma CoordinateRandomRange(x: int32, y: int32, z: int32)
    ensures -0x8000_0000_0000 <= Signed64(GetCoordinateRandom(x, y, z)) < 0x8000_0000_0000
  {
    ArithShiftRange(Quadratic(Combine(x, y, z)));
  }

  /**
   * The model of the hash wraps the x product before widening it: at
   * `(1000, 0, 0)` the combined value is the 32-bit product `1000 * 3129871`,
   * which overflows to a negative `i32`, and not the product widened first.
   */
  lemma XProductWrapsBeforeWidening()
    ensures Combine(1000, 0, 0) != SignExtend(Bits32(1000)) * 3129871
    ensures Combine(1000, 0, 0) >> 63 == 1
  {
    assert Bits32(1000) == 1000 && Bits32(0) == 0;
    assert Combine(1000, 0, 0) == SignExtend(1000 * 3129871);
  }

  /**
   * The z term is the other way round: it is widened to `isize` before its
   * multiply, so at `(0, 0, 19)` the combined value is not the 32-bit product
   * `19 * 116129781` (which would wrap) sign-extended.
   */
  lemma ZProductWidensBeforeMultiplying()
    ensures Combine(0, 0, 19) != SignExtend(Bits32(19) * 116129781)
  {
    assert Bits32(19) == 19 && Bits32(0) == 0;
  }

  /** The legacy seed before its one generator step: the hash xored with `MULTIPLIER`, cut to 48 bits. */
  function LegacySeed(x: int32, y: int32, z: int32): (seed: bv64)
    ensures seed < 0x1_0000_0000_0000
  {
    (GetCoordinateRandom(x, y, z) ^ MULTIPLIER) & MASK
  }

  /** The affine step `seed * 0xBB20B4600A69 + 0x40942DE6BA` of both legacy classifiers, wrapping modulo 2^64. */
  function LegacyStep(seed: bv64): bv64
  {
    seed * 0xBB20_B460_0A69 + 0x40_942D_E6BA
  }

  /**
   * `get_texture_side`: the stepped seed is cut to a `u32` before the shift,
   * and `& 1` on the resulting `i32` keeps one bit, so the rotation is bit 16
   * of the stepped seed.
   */
  function GetTextureSide(x: int32, y: int32, z: int32): (r: int32)
    ensures r == 0 || r == 1
    ensures r == 1 <==> (LegacyStep(LegacySeed(x, y, z)) >> 16) & 1 == 1
  {
    var low := Truncate32(LegacyStep(LegacySeed(x, y, z))) >> 16;
    Signed32(low & 1)
  }

  /**
   * `get_texture_top`: the stepped seed is shifted as a `usize` (zero-filling),
   * its low 32 bits are read as an `i32`, made non-negative with the wrapping
   * `abs` and masked to two bits.  When those 32 bits are `i32::MIN`, `abs`
   * leaves them negative and the mask yields 0.
   */
  function GetTextureTop(x: int32, y: int32, z: int32): (r: int32)
    ensures 0 <= r <= 3
    ensures Truncate32(LegacyStep(LegacySeed(x, y, z)) >> 16) == 0x8000_0000 ==> r == 0
  {
    var seed := LegacyStep(LegacySeed(x, y, z)) >> 16;
    Signed32(Abs32(Truncate32(seed)) & 3)
  }

  /** `stafford_mix_13`: two xor-shift-multiply rounds and a final xor-shift, all shifts zero-filling. */
  function StaffordMix13(z: bv64): bv64
  {
    var z1 := (z ^ (z >> 30)) * 0xBF58_476D_1CE4_E5B9;
    var z2 := (z1 ^ (z1 >> 27)) * 0x94D0_49BB_1331_11EB;
    z2 ^ (z2 >> 31)
  }

  /** The first half of `sodium_random`: the MurmurHash3 `fmix64` finaliser, all shifts zero-filling. */
  function Fmix64(seed: bv64): bv64
  {
    var s1 := (seed ^ (seed >> 33)) * 0xFF51_AFD7_ED55_8CCD;
    var s2 := (s1 ^ (s1 >> 33)) * 0xC4CE_B9FE_1A85_EC53;
    s2 ^ (s2 >> 33)
  }

  /** `sodium_random`: two golden-ratio steps from the finalised seed, each mixed, and their wrapping sum. */
  function SodiumRandom(seed: bv64): bv64
  {
    var s1 := Fmix64(seed) + PHI;
    var rand1 := StaffordMix13(s1);
    var s2 := s1 + PHI;
    var rand2 := StaffordMix13(s2);
    rand1 + rand2
  }

  /** The bit pattern of `(sodium_random(..) as i32).abs()`, the value both sodium classifiers reduce. */
  function SodiumValue(x: int32, y: int32, z: int32): (v: bv32)
    ensures Signed32(v) >= 0 || Signed32(v) == I32_MIN
  {
    Abs32(Truncate32(SodiumRandom(GetCoordinateRandom(x, y, z))))
  }

  /** `get_texture_top_sodium`: the sodium value modulo 4 (Rust remainder, which is 0 for `i32::MIN`). */
  function GetTextureTopSodium(x: int32, y: int32, z: int32): (r: int32)
    ensures 0 <= r <= 3
  {
    var v := Signed32(SodiumValue(x, y, z));
    RemRange(v, 4);
    Rem(v, 4)
  }

  /** `get_texture_side_sodium`: the sodium value modulo 2 (Rust remainder). */
  function GetTextureSideSodium(x: int32, y: int32, z: int32): (r: int32)
    ensures 0 <= r <= 1
  {
    var v := Signed32(SodiumValue(x, y, z));
    RemRange(v, 2);
    Rem(v, 2)
  }

  /**
   * Both sodium classifiers reduce the same value, so at every coordinate the
   * side rotation is the parity of the top rotation.
   */
  lemma SodiumSideIsTopParity(x: int32, y: int32, z: int32)
    ensures GetTextureSideSodium(x, y, z) == GetTextureTopSodium(x, y, z) % 2
  {
    RemParity(Signed32(SodiumValue(x, y, z)));
  }
}
