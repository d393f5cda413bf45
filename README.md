# agora block-rotation finder, modelled in Dafny

agora searches a Minecraft world region for a formation of blocks whose
textures are rotated in a known way. The game picks the rotation of a
block's texture deterministically from its coordinates. A formation is a
list of constraints: at this offset from an origin, the top (or side) face
has this rotation. The finder scans a box of candidate origins and reports
every origin at which all constraints hold.

The model has five modules:

- `FixedWidth` (`fixed_width.dfy`): the Rust integer semantics the finder
  relies on.
  - `i32` is an `int` in the 32-bit range.
  - `isize`/`usize` on a 64-bit target are one `bv64` bit pattern.
  - The sign-copying `>>` of `isize` is written out explicitly.
  - `i32::abs` wraps (release build).
  - `%` is truncating.
  - `+` on `i32` wraps.
- `Texture` (`texture.dfy`): the coordinate hash `get_coordinate_random`
  and two families of rotation functions.
  - The legacy family (`get_texture_top`, `get_texture_side`) takes one
    `java.util.Random`-style step from a 48-bit seed.
  - The sodium family (`get_texture_top_sodium`, `get_texture_side_sodium`)
    is built from `sodium_random`: the MurmurHash3 `fmix64` finaliser, then
    two golden-ratio increments, each mixed by `stafford_mix_13`.
  - Every value is computed on bit patterns, which wrap as in the source.
    The result becomes a number only at the end.
- `TextureFixtures` (`fixtures.dfy`): every assertion of the four unit
  tests in `src/lib.rs`, as one lemma each.
- `Config` (`config.dfy`): the configuration records and the pure part of
  `get_config`. This covers the default bounds, copying the bounds into
  min/max fields, and normalising each constraint. A side rotation is
  reduced with Rust's `%`, so a negative odd rotation becomes -1.
- `Search` (`search.dfy`): `find`, run sequentially.
  - It builds the two filtered constraint lists, scans x over
    `x_min..x_max` (half-open) and z, y over inclusive ranges, and rejects a
    candidate at the first failing constraint (`Attempt`, whose early
    `return false` is the source's `continue 'next_attempt`).
  - The matches come back as a sequence in scan order.
  - The loop body reaches the four rotation functions through a
    `Classifiers` record of function values. `Scan` is proved for any such
    record. `Find` is `Scan` applied to `TEXTURES`, the record of the
    functions in `Texture`.

The branch structure of the face check is reproduced as written. The
`else` at `src/lib.rs:83` belongs to the inner `if`. So without sodium,
face constraints are never checked. With sodium, a face constraint must
equal both the sodium and the legacy top rotation.

## Model

| member | source | states |
|---|---|---|
| FixedWidth.Signed32 | src/lib.rs:14 | `b as i32` reads a 32-bit pattern in two's complement: the pattern itself when bit 31 is clear, the pattern minus 2^32 when it is set |
| FixedWidth.Bits32 | src/lib.rs:18 | `x as u32` (and the `i32` operand of `*` and `as isize`): the two's-complement bit pattern of an `i32`; no contract of its own, its effect is pinned by the fixture lemmas and by `Texture.XProductWrapsBeforeWidening` |
| FixedWidth.Signed64 | src/lib.rs:17-21 | `b as isize` reads a 64-bit pattern in two's complement: the pattern itself when bit 63 is clear, the pattern minus 2^64 when it is set |
| FixedWidth.Truncate32 | src/lib.rs:14 | `as u32` / `as i32` on a 64-bit value keeps exactly its low 32 bits |
| FixedWidth.SignExtend | src/lib.rs:18 | `(v as i32) as isize` keeps the 32-bit pattern in the low half and fills bits 31..63 with copies of the sign bit |
| FixedWidth.ShiftRightArith16 | src/lib.rs:20 | `l >> 16` on an `isize` is the sign-copying shift: the low 47 result bits are bits 16..62 of `l`, the top 17 are copies of its sign bit |
| FixedWidth.SignedOf48Bits | src/lib.rs:20 | a 64-bit pattern whose top 17 bits agree reads as a number in [-2^47, 2^47) |
| FixedWidth.ArithShiftRange | src/lib.rs:20 | every `isize` shifted right by 16 lies in [-2^47, 2^47) |
| FixedWidth.Abs32 | src/lib.rs:27 | `i32::abs` with release wrapping: the result is the argument or its two's-complement negation, non-negative unless the argument is `i32::MIN`, which is the only value mapped to `i32::MIN` |
| FixedWidth.Rem | src/lib.rs:54 | Rust's `%` on `i32`: dividend = divisor x truncated quotient + remainder, and the remainder has the sign of the dividend and a magnitude below the divisor |
| FixedWidth.Quot | src/lib.rs:54 | Rust's truncating `/`; no contract of its own, it is the quotient that `FixedWidth.Rem`'s contract pairs with the remainder |
| FixedWidth.RemRange | src/lib.rs:53-59 | the remainder of a non-negative value or of `i32::MIN` by 2 or 4 lies in 0..m |
| FixedWidth.RemParity | src/lib.rs:53-59 | for a non-negative value or `i32::MIN`, the remainder by 2 is the parity of the remainder by 4 |
| FixedWidth.WrappingAdd | src/lib.rs:80 | `x + info.x` on `i32` in the release build: congruent to the exact sum modulo 2^32, and equal to it when it does not overflow |
| Texture.Combine | src/lib.rs:18 | first line of `get_coordinate_random`; no contract of its own; `Texture.XProductWrapsBeforeWidening` shows it wraps the x product in 32 bits before widening and `Texture.ZProductWidensBeforeMultiplying` that it widens z first |
| Texture.Quadratic | src/lib.rs:19 | `l * l * 42317861 + l * 11` wrapping modulo 2^64; no contract of its own, its values are pinned by the fixture lemmas |
| Texture.GetCoordinateRandom | src/lib.rs:17-21 | `get_coordinate_random`; no contract of its own: its range is stated by `Texture.CoordinateRandomRange` and its values by the fixture lemmas |
| Texture.CoordinateRandomRange | src/lib.rs:17-21 | `get_coordinate_random` read as an `isize` always lies in [-2^47, 2^47) |
| Texture.XProductWrapsBeforeWidening | src/lib.rs:18 | the hash model wraps the x product in 32 bits before widening: `Combine(1000, 0, 0)` is negative and differs from the product taken after widening |
| Texture.ZProductWidensBeforeMultiplying | src/lib.rs:18 | the z term is widened to `isize` before its multiply: `Combine(0, 0, 19)` differs from the wrapped 32-bit product `19 * 116129781` sign-extended |
| Texture.LegacySeed | src/lib.rs:24-25 | the legacy seed `(hash ^ MULTIPLIER) & MASK` lies in [0, 2^48) |
| Texture.LegacyStep | src/lib.rs:14 | the affine step `seed * 0xBB20B4600A69 + 0x40942DE6BA` wrapping modulo 2^64 (also line 26); no contract of its own, `Texture.GetTextureSide` states which bit of it the side rotation is |
| Texture.GetTextureSide | src/lib.rs:11-15 | `get_texture_side` is 0 or 1, and it is 1 exactly when bit 16 of the stepped seed `seed * 0xBB20B4600A69 + 0x40942DE6BA` is set |
| Texture.GetTextureTop | src/lib.rs:23-28 | `get_texture_top` lies in 0..3, and it is 0 whenever the low 32 bits of the shifted stepped seed are `i32::MIN` |
| Texture.StaffordMix13 | src/lib.rs:30-36 | `stafford_mix_13` with zero-filling shifts and wrapping multiplies; no contract of its own, its values are pinned by the `TextureFixtures.Sodium*` lemmas |
| Texture.Fmix64 | src/lib.rs:41-45 | the `fmix64` rounds of `sodium_random`; no contract of its own, its values are pinned by the `TextureFixtures.Sodium*` lemmas |
| Texture.SodiumRandom | src/lib.rs:38-51 | `sodium_random`: two golden-ratio steps from the finalised seed, mixed and summed with wrapping; no contract of its own, its values are pinned by the `TextureFixtures.Sodium*` lemmas |
| Texture.SodiumValue | src/lib.rs:53-59 | `(sodium_random(..) as i32).abs()` is non-negative or `i32::MIN` |
| Texture.GetTextureTopSodium | src/lib.rs:53-55 | `get_texture_top_sodium` lies in 0..3, including when `abs` wraps |
| Texture.GetTextureSideSodium | src/lib.rs:57-59 | `get_texture_side_sodium` is 0 or 1, including when `abs` wraps |
| Texture.SodiumSideIsTopParity | src/lib.rs:53-59 | at every coordinate the sodium side rotation is the sodium top rotation modulo 2 |
| Config.OrDefault | src/utils.rs:8-13 | a bounds key that is present is kept, an absent one takes the given default |
| Config.ApplyDefaults | src/utils.rs:5-27 | missing bounds default to x = (-10000, 10000), y = (10, 60), z = (-10000, 10000); `sodium` and the constraint list are kept |
| Config.Normalize | src/utils.rs:69-82 | offsets are copied; a record is `Sides` exactly when `is_side`; a face rotation is kept; a side rotation becomes -1, 0 or 1, congruent to the written rotation modulo 2 and with its sign |
| Config.SideRotationValues | src/utils.rs:70-71 | a normalised side rotation is in -1..1 and is -1 exactly when the written rotation is negative and odd |
| Config.NormalizeAll | src/utils.rs:66-83 | the normalised list has the length of the raw list and holds, in order, the normalisation of each record |
| Config.GetConfig | src/utils.rs:84-93 | `sodium` is copied, `x_min`/`x_max` (and y, z) are the two components of the bounds, and the constraint list is normalised pointwise |
| Search.OfType | src/lib.rs:63-72 | the filtered list holds exactly the constraints of the requested kind and is no longer than the original; order and multiplicity are stated by `Search.OfTypeAppend` and `Search.OfTypePartition` |
| Search.OfTypeAppend | src/lib.rs:63-72 | filtering keeps the original order: it distributes over concatenation |
| Search.OfTypePartition | src/lib.rs:63-72 | the face list and the side list together hold every constraint exactly as often as the formation does |
| Search.Attempt | src/lib.rs:77-103 | a candidate passes exactly when every face constraint holds (nothing without sodium; the sodium and the legacy top with sodium) and every side constraint holds for the selected family |
| Search.PartitionedCheck | src/lib.rs:63-72 | checking the face list and then the side list decides the same as checking every constraint of the formation |
| Search.Scan | src/lib.rs:61-110 | the reported points are exactly the accepted points of the box (x half-open, y and z inclusive), strictly in x, z, y scan order and hence without repeats; an empty range reports nothing; no constraints reports the whole box |
| Search.Find | src/lib.rs:61-110 | `find` with the game's rotation functions reports exactly the accepted points of the box, in scan order and without repeats; an empty range reports nothing; no constraints reports the whole box |
| Search.MoreConstraintsFewerMatches | src/lib.rs:77-103 | adding constraints to a formation can only remove reported points |
| Search.LegacyIgnoresFaces | src/lib.rs:77-90 | without sodium an origin is accepted exactly when it passes the side constraints alone: face constraints have no effect |
| Search.TexturesRanges | src/lib.rs:11-59 | the game's top rotations lie in 0..3 and its side rotations in 0..1, in both families |
| Search.UnmatchableSide | src/lib.rs:91-103 | a side constraint whose rotation is neither 0 nor 1 rejects every origin |
| Search.UnmatchableFace | src/lib.rs:77-89 | with sodium, a face constraint whose rotation is outside 0..3 rejects every origin |
| Search.NegativeOddSideMatchesNothing | src/utils.rs:70-71 | a side record with a negative odd rotation becomes -1, so the configured formation accepts no origin |
| Search.SodiumFaceChecksBothFamilies | src/lib.rs:78-88 | with sodium, an accepted face constraint equals both the sodium and the legacy top rotation of its cell |
| Search.SodiumFaceAndSideAgree | src/lib.rs:77-103 | with sodium, a face and a side constraint at the same offset are both met only if the side rotation is the face rotation modulo 2 |
| TextureFixtures.VanillaTop1 | src/lib.rs:120 | `get_texture_top(-1, 0, -1)` is 0 |
| TextureFixtures.VanillaTop2 | src/lib.rs:121 | `get_texture_top(0, 0, -1)` is 1 |
| TextureFixtures.VanillaTop3 | src/lib.rs:122 | `get_texture_top(1, 0, -1)` is 0 |
| TextureFixtures.VanillaTop4 | src/lib.rs:123 | `get_texture_top(-2, 0, 0)` is 2 |
| TextureFixtures.VanillaTop5 | src/lib.rs:124 | `get_texture_top(-1, 0, 0)` is 0 |
| TextureFixtures.VanillaTop6 | src/lib.rs:125 | `get_texture_top(0, 0, 0)` is 0 |
| TextureFixtures.VanillaTop7 | src/lib.rs:126 | `get_texture_top(1, 0, 0)` is 1 |
| TextureFixtures.VanillaTop8 | src/lib.rs:127 | `get_texture_top(-1, 0, 1)` is 0 |
| TextureFixtures.VanillaTop9 | src/lib.rs:128 | `get_texture_top(0, 0, 1)` is 3 |
| TextureFixtures.VanillaTop10 | src/lib.rs:129 | `get_texture_top(1, 0, 1)` is 0 |
| TextureFixtures.VanillaSide1 | src/lib.rs:134 | `get_texture_side(-6, 0, 0)` is 1 |
| TextureFixtures.VanillaSide2 | src/lib.rs:135 | `get_texture_side(-5, 0, 0)` is 0 |
| TextureFixtures.VanillaSide3 | src/lib.rs:136 | `get_texture_side(-4, 0, 0)` is 1 |
| TextureFixtures.VanillaSide4 | src/lib.rs:137 | `get_texture_side(-3, 0, 0)` is 1 |
| TextureFixtures.VanillaSide5 | src/lib.rs:138 | `get_texture_side(-2, 0, 0)` is 0 |
| TextureFixtures.VanillaSide6 | src/lib.rs:139 | `get_texture_side(-1, 0, 0)` is 0 |
| TextureFixtures.VanillaSide7 | src/lib.rs:140 | `get_texture_side(0, 0, 0)` is 0 |
| TextureFixtures.VanillaSide8 | src/lib.rs:141 | `get_texture_side(1, 0, 0)` is 1 |
| TextureFixtures.VanillaSide9 | src/lib.rs:142 | `get_texture_side(2, 0, 0)` is 0 |
| TextureFixtures.VanillaSide10 | src/lib.rs:143 | `get_texture_side(3, 0, 0)` is 0 |
| TextureFixtures.VanillaSide11 | src/lib.rs:144 | `get_texture_side(4, 0, 0)` is 1 |
| TextureFixtures.VanillaSide12 | src/lib.rs:145 | `get_texture_side(5, 0, 0)` is 1 |
| TextureFixtures.VanillaSide13 | src/lib.rs:146 | `get_texture_side(6, 0, 0)` is 0 |
| TextureFixtures.VanillaSide14 | src/lib.rs:147 | `get_texture_side(7, 0, 0)` is 1 |
| TextureFixtures.VanillaSide15 | src/lib.rs:148 | `get_texture_side(8, 0, 0)` is 0 |
| TextureFixtures.SodiumTop1 | src/lib.rs:153 | `get_texture_top_sodium(0, -56, 0)` is 3 |
| TextureFixtures.SodiumTop2 | src/lib.rs:154 | `get_texture_top_sodium(1, -56, 0)` is 3 |
| TextureFixtures.SodiumTop3 | src/lib.rs:155 | `get_texture_top_sodium(2, -56, 0)` is 3 |
| TextureFixtures.SodiumTop4 | src/lib.rs:156 | `get_texture_top_sodium(3, -56, 0)` is 3 |
| TextureFixtures.SodiumTop5 | src/lib.rs:157 | `get_texture_top_sodium(4, -56, 0)` is 1 |
| TextureFixtures.SodiumTop6 | src/lib.rs:158 | `get_texture_top_sodium(5, -56, 0)` is 3 |
| TextureFixtures.SodiumTop7 | src/lib.rs:159 | `get_texture_top_sodium(6, -56, 0)` is 0 |
| TextureFixtures.SodiumTop8 | src/lib.rs:160 | `get_texture_top_sodium(7, -56, 0)` is 2 |
| TextureFixtures.SodiumTop9 | src/lib.rs:161 | `get_texture_top_sodium(8, -56, 0)` is 0 |
| TextureFixtures.SodiumTop10 | src/lib.rs:162 | `get_texture_top_sodium(9, -56, 0)` is 3 |
| TextureFixtures.SodiumTop11 | src/lib.rs:163 | `get_texture_top_sodium(10, -56, 0)` is 1 |
| TextureFixtures.SodiumTop12 | src/lib.rs:164 | `get_texture_top_sodium(11, -56, 0)` is 1 |
| TextureFixtures.SodiumTop13 | src/lib.rs:165 | `get_texture_top_sodium(12, -56, 0)` is 3 |
| TextureFixtures.SodiumTop14 | src/lib.rs:166 | `get_texture_top_sodium(13, -56, 0)` is 3 |
| TextureFixtures.SodiumSide1 | src/lib.rs:171 | `get_texture_side_sodium(0, -56, 1)` is 1 |
| TextureFixtures.SodiumSide2 | src/lib.rs:172 | `get_texture_side_sodium(1, -56, 1)` is 1 |
| TextureFixtures.SodiumSide3 | src/lib.rs:173 | `get_texture_side_sodium(2, -56, 1)` is 1 |
| TextureFixtures.SodiumSide4 | src/lib.rs:174 | `get_texture_side_sodium(3, -56, 1)` is 0 |
| TextureFixtures.SodiumSide5 | src/lib.rs:175 | `get_texture_side_sodium(4, -56, 1)` is 0 |
| TextureFixtures.SodiumSide6 | src/lib.rs:176 | `get_texture_side_sodium(5, -56, 1)` is 0 |
| TextureFixtures.SodiumSide7 | src/lib.rs:177 | `get_texture_side_sodium(6, -56, 1)` is 1 |
| TextureFixtures.SodiumSide8 | src/lib.rs:178 | `get_texture_side_sodium(7, -56, 1)` is 1 |
| TextureFixtures.SodiumSide9 | src/lib.rs:179 | `get_texture_side_sodium(8, -56, 1)` is 1 |
| TextureFixtures.SodiumSide10 | src/lib.rs:180 | `get_texture_side_sodium(9, -56, 1)` is 0 |
| TextureFixtures.SodiumSide11 | src/lib.rs:181 | `get_texture_side_sodium(10, -56, 1)` is 1 |
| TextureFixtures.SodiumSide12 | src/lib.rs:182 | `get_texture_side_sodium(11, -56, 1)` is 1 |
| TextureFixtures.SodiumSide13 | src/lib.rs:183 | `get_texture_side_sodium(12, -56, 1)` is 1 |
| TextureFixtures.SodiumSide14 | src/lib.rs:184 | `get_texture_side_sodium(13, -56, 1)` is 1 |

## Left out

- The parallel x loop (`into_par_iter`, `src/lib.rs:74`) runs sequentially
  here. The set of reported origins does not depend on how the x range is
  split; the order of the printed lines in the source does.
- `println!` of each match and the `Instant` timing (`src/lib.rs:62`,
  `src/lib.rs:104`, `src/lib.rs:108-109`) are output and clock. The matches
  are returned as a sequence instead.
- Reading the configuration file, TOML/serde parsing and the `anyhow` error
  paths (`src/utils.rs:63-65`) are I/O and foreign library code.
  `ConfigFile` stands for an already parsed document, with `None` for an
  absent bounds key.
- `src/main.rs` (command-line wiring) is not part of this model.
- Overflow panics of a debug build are not modelled. All arithmetic follows
  the release build: the hash wraps, `abs(i32::MIN)` is `i32::MIN`, and
  `x + info.x` in `find` wraps (`WrappingAdd`).
- `isize`/`usize` are taken to be 64 bits wide.
- Texture.StaffordMix13, Texture.Fmix64 and Texture.SodiumRandom carry no
  contract of their own. They are pinned down by the sodium fixture lemmas.
  That the mixers are bijections on 64-bit values is not stated.
- Texture.GetCoordinateRandom carries no contract of its own. Its range is
  stated by `Texture.CoordinateRandomRange`.
