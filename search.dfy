/**
 * The search of the finder (`find` in src/lib.rs): every candidate origin in
 * the configured box is checked against every constraint, and the origins that
 * pass are reported.  The source runs the outer x loop in parallel and prints
 * each match; this model runs it sequentially and returns the matches in scan
 * order.
 *
 * The four rotation functions are reached through a `Classifiers` record so
 * that the search and its proofs do not depend on their 64-bit arithmetic;
 * `find` itself always uses `TEXTURES`, the functions of module `Texture`.
 */
module Search {
  import opened FixedWidth
  import opened Texture
  import opened Config

  /** A rotation function: the rotation of the block at `(x, y, z)`. */
  type Classifier = (int32, int32, int32) -> int32

  /** The four rotation functions `find` consults. */
  datatype Classifiers = Classifiers(top: Classifier, side: Classifier, topSodium: Classifier, sideSodium: Classifier)

  /** The rotation functions of the game. */
  const TEXTURES: Classifiers := Classifiers(GetTextureTop, GetTextureSide, GetTextureTopSodium, GetTextureSideSodium)

  /** A reported origin `(x, y, z)`. */
  datatype Point = Point(x: int32, y: int32, z: int32)

  /**
   * A face constraint as the loop over `tops_and_bottoms` checks it.  The
   * `else` at lib.rs:83 belongs to the inner `if`, so without sodium nothing
   * is checked, and with sodium both the sodium and the legacy top rotation
   * must equal the expected one.  Offsets are added with `i32` wrapping.
   */
  predicate FaceHolds(k: Classifiers, sodium: bool, c: RotationInfo, x: int32, y: int32, z: int32)
  {
    var (cx, cy, cz) := (WrappingAdd(x, c.x), WrappingAdd(y, c.y), WrappingAdd(z, c.z));
    sodium ==> c.rotation == k.topSodium(cx, cy, cz) && c.rotation == k.top(cx, cy, cz)
  }

  /** A side constraint: the side rotation of the selected family at the offset cell must equal the expected one. */
  predicate SideHolds(k: Classifiers, sodium: bool, c: RotationInfo, x: int32, y: int32, z: int32)
  {
    var (cx, cy, cz) := (WrappingAdd(x, c.x), WrappingAdd(y, c.y), WrappingAdd(z, c.z));
    c.rotation == (if sodium then k.sideSodium(cx, cy, cz) else k.side(cx, cy, cz))
  }

  /** What one constraint of either kind demands of the origin `(x, y, z)`. */
  predicate Satisfies(k: Classifiers, sodium: bool, c: RotationInfo, x: int32, y: int32, z: int32)
  {
    match c.infoType
    case TopsAndBottoms => FaceHolds(k, sodium, c, x, y, z)
    case Sides => SideHolds(k, sodium, c, x, y, z)
  }

  /** The origin passes every constraint of the formation. */
  predicate Accepts(k: Classifiers, f: Formation, x: int32, y: int32, z: int32)
  {
    forall i :: 0 <= i < |f.rotationInfo| ==> Satisfies(k, f.sodium, f.rotationInfo[i], x, y, z)
  }

  /** The candidate box: x is half-open (`x_min..x_max`), y and z are inclusive. */
  predicate InBox(f: Formation, p: Point)
  {
    f.xMin <= p.x < f.xMax && f.yMin <= p.y <= f.yMax && f.zMin <= p.z <= f.zMax
  }

  /** `p` comes before the loop position `(x, z, y)` in the scan order: x outermost, then z, then y. */
  predicate ScannedBefore(p: Point, x: int, z: int, y: int)
  {
    p.x < x || (p.x == x && (p.z < z || (p.z == z && p.y < y)))
  }

  /** The scan order on points, strict. */
  predicate Precedes(p: Point, q: Point)
  {
    ScannedBefore(p, q.x, q.z, q.y)
  }

  /** The `filter(...).collect()` of `find`: the constraints of one kind, in their original order. */
  function OfType(infos: seq<RotationInfo>, t: InfoType): (r: seq<RotationInfo>)
    ensures forall c :: c in r <==> c in infos && c.infoType == t
    ensures |r| <= |infos|
  {
    if infos == [] then []
    else if infos[0].infoType == t then [infos[0]] + OfType(infos[1..], t)
    else OfType(infos[1..], t)
  }

  /** Filtering keeps the order of the constraints: it distributes over concatenation. */
  lemma {:induction false} OfTypeAppend(a: seq<RotationInfo>, b: seq<RotationInfo>, t: InfoType)
    ensures OfType(a + b, t) == OfType(a, t) + OfType(b, t)
  {
    if a != [] {
      assert (a + b)[1..] == a[1..] + b;
      OfTypeAppend(a[1..], b, t);
    } else {
      assert a + b == b;
    }
  }

  /** The two lists `find` builds partition the constraints: every one lands in exactly one of them, as often as it occurs. */
  lemma {:induction false} OfTypePartition(infos: seq<RotationInfo>)
    ensures multiset(OfType(infos, TopsAndBottoms)) + multiset(OfType(infos, Sides)) == multiset(infos)
  {
    if infos != [] {
      var rest := infos[1..];
      var tops, sides := OfType(rest, TopsAndBottoms), OfType(rest, Sides);
      OfTypePartition(rest);
      assert multiset(infos) == multiset{infos[0]} + multiset(rest) by {
        assert infos == [infos[0]] + rest;
      }
      if infos[0].infoType == TopsAndBottoms {
        assert multiset(OfType(infos, TopsAndBottoms)) == multiset{infos[0]} + multiset(tops) by {
          assert OfType(infos, TopsAndBottoms) == [infos[0]] + tops;
        }
        assert OfType(infos, Sides) == sides;
      } else {
        assert OfType(infos, TopsAndBottoms) == tops;
        assert multiset(OfType(infos, Sides)) == multiset{infos[0]} + multiset(sides) by {
          assert OfType(infos, Sides) == [infos[0]] + sides;
        }
      }
    }
  }

  /**
   * One candidate of the `'next_attempt` loop: the face constraints are
   * checked first, then the side constraints, and the first one that fails
   * rejects the candidate (`continue 'next_attempt`).
   */
  method Attempt(k: Classifiers, sodium: bool, topsAndBottoms: seq<RotationInfo>, sides: seq<RotationInfo>,
                 x: int32, y: int32, z: int32)
    returns (ok: bool)
    ensures ok <==> ((forall c :: c in topsAndBottoms ==> FaceHolds(k, sodium, c, x, y, z))
                  && (forall c :: c in sides ==> SideHolds(k, sodium, c, x, y, z)))
  {
    for i := 0 to |topsAndBottoms|
      invariant forall j :: 0 <= j < i ==> FaceHolds(k, sodium, topsAndBottoms[j], x, y, z)
    {
      var info := topsAndBottoms[i];
      var (cx, cy, cz) := (WrappingAdd(x, info.x), WrappingAdd(y, info.y), WrappingAdd(z, info.z));
      if sodium {
        if info.rotation != k.topSodium(cx, cy, cz) {
          assert !FaceHolds(k, sodium, topsAndBottoms[i], x, y, z);
          return false;
        } else {
          if info.rotation != k.top(cx, cy, cz) {
            assert !FaceHolds(k, sodium, topsAndBottoms[i], x, y, z);
            return false;
          }
        }
      }
    }
    for i := 0 to |sides|
      invariant forall j :: 0 <= j < i ==> SideHolds(k, sodium, sides[j], x, y, z)
    {
      var info := sides[i];
      var (cx, cy, cz) := (WrappingAdd(x, info.x), WrappingAdd(y, info.y), WrappingAdd(z, info.z));
      if sodium {
        if info.rotation != k.sideSodium(cx, cy, cz) {
          assert !SideHolds(k, sodium, sides[i], x, y, z);
          return false;
        }
      } else {
        if info.rotation != k.side(cx, cy, cz) {
          assert !SideHolds(k, sodium, sides[i], x, y, z);
          return false;
        }
      }
    }
    return true;
  }

  /** Checking the two filtered lists is checking the whole constraint list. */
  lemma {:induction false} PartitionedCheck(k: Classifiers, f: Formation, x: int32, y: int32, z: int32)
    ensures ((forall c :: c in OfType(f.rotationInfo, TopsAndBottoms) ==> FaceHolds(k, f.sodium, c, x, y, z))
         && (forall c :: c in OfType(f.rotationInfo, Sides) ==> SideHolds(k, f.sodium, c, x, y, z)))
        <==> Accepts(k, f, x, y, z)
  {
    var tops, sides := OfType(f.rotationInfo, TopsAndBottoms), OfType(f.rotationInfo, Sides);
    if Accepts(k, f, x, y, z) {
      forall c | c in tops ensures FaceHolds(k, f.sodium, c, x, y, z) {
        var i :| 0 <= i < |f.rotationInfo| && f.rotationInfo[i] == c;
        assert Satisfies(k, f.sodium, f.rotationInfo[i], x, y, z);
      }
      forall c | c in sides ensures SideHolds(k, f.sodium, c, x, y, z) {
        var i :| 0 <= i < |f.rotationInfo| && f.rotationInfo[i] == c;
        assert Satisfies(k, f.sodium, f.rotationInfo[i], x, y, z);
      }
    }
  }

  /**
   * The body of `find`, run sequentially, for any rotation functions `k`.  It
   * reports exactly the origins in the box that every constraint accepts, in
   * scan order, so each at most once; an empty box reports nothing, and
   * without constraints the whole box is reported.
   */
  method Scan(k: Classifiers, info: Formation) returns (found: seq<Point>)
    ensures forall p :: p in found <==> InBox(info, p) && Accepts(k, info, p.x, p.y, p.z)
    ensures forall i, j :: 0 <= i < j < |found| ==> Precedes(found[i], found[j])
    ensures forall i, j :: 0 <= i < j < |found| ==> found[i] != found[j]
    ensures info.xMin >= info.xMax || info.yMin > info.yMax || info.zMin > info.zMax ==> found == []
    ensures info.rotationInfo == [] ==> forall p :: InBox(info, p) ==> p in found
  {
    var topsAndBottoms := OfType(info.rotationInfo, TopsAndBottoms);
    var sides := OfType(info.rotationInfo, Sides);
    found := [];
    var x: int := info.xMin;
    while x < info.xMax
      invariant info.xMin <= x
      invariant forall p :: p in found <==> InBox(info, p) && Accepts(k, info, p.x, p.y, p.z) && p.x < x
      invariant forall i, j :: 0 <= i < j < |found| ==> Precedes(found[i], found[j])
    {
      var z: int := info.zMin;
      while z <= info.zMax
        invariant info.zMin <= z
        invariant forall p :: p in found <==> InBox(info, p) && Accepts(k, info, p.x, p.y, p.z) && ScannedBefore(p, x, z, info.yMin)
        invariant forall i, j :: 0 <= i < j < |found| ==> Precedes(found[i], found[j])
      {
        var y: int := info.yMin;
        while y <= info.yMax
          invariant info.yMin <= y
          invariant forall p :: p in found <==> InBox(info, p) && Accepts(k, info, p.x, p.y, p.z) && ScannedBefore(p, x, z, y)
          invariant forall i, j :: 0 <= i < j < |found| ==> Precedes(found[i], found[j])
        {
          var ok := Attempt(k, info.sodium, topsAndBottoms, sides, x, y, z);
          PartitionedCheck(k, info, x, y, z);
          if ok {
            found := found + [Point(x, y, z)];
          }
          y := y + 1;
        }
        z := z + 1;
      }
      x := x + 1;
    }
    if found != [] {
      assert found[0] in found;
    }
  }

  /** `find`: the scan with the rotation functions of the game. */
  method Find(info: Formation) returns (found: seq<Point>)
    ensures forall p :: p in found <==> InBox(info, p) && Accepts(TEXTURES, info, p.x, p.y, p.z)
    ensures forall i, j :: 0 <= i < j < |found| ==> Precedes(found[i], found[j])
    ensures forall i, j :: 0 <= i < j < |found| ==> found[i] != found[j]
    ensures info.xMin >= info.xMax || info.yMin > info.yMax || info.zMin > info.zMax ==> found == []
    ensures info.rotationInfo == [] ==> forall p :: InBox(info, p) ==> p in found
  {
    found := Scan(TEXTURES, info);
  }

  /** Adding constraints can only remove matches. */
  lemma {:induction false} MoreConstraintsFewerMatches(k: Classifiers, f: Formation, extra: seq<RotationInfo>, x: int32, y: int32, z: int32)
    ensures Accepts(k, f.(rotationInfo := f.rotationInfo + extra), x, y, z) ==> Accepts(k, f, x, y, z)
  {
    var g := f.(rotationInfo := f.rotationInfo + extra);
    if Accepts(k, g, x, y, z) {
      forall i | 0 <= i < |f.rotationInfo| ensures Satisfies(k, f.sodium, f.rotationInfo[i], x, y, z) {
        assert g.rotationInfo[i] == f.rotationInfo[i];
      }
    }
  }

  /**
   * Without sodium, face constraints have no effect: an origin is accepted
   * exactly when it passes the side constraints alone.
   */
  lemma {:induction false} LegacyIgnoresFaces(k: Classifiers, f: Formation, x: int32, y: int32, z: int32)
    requires !f.sodium
    ensures Accepts(k, f, x, y, z) <==> Accepts(k, f.(rotationInfo := OfType(f.rotationInfo, Sides)), x, y, z)
  {
    var sides := OfType(f.rotationInfo, Sides);
    if Accepts(k, f, x, y, z) {
      forall i | 0 <= i < |sides| ensures Satisfies(k, f.sodium, sides[i], x, y, z) {
        assert sides[i] in sides;
        var j :| 0 <= j < |f.rotationInfo| && f.rotationInfo[j] == sides[i];
        assert Satisfies(k, f.sodium, f.rotationInfo[j], x, y, z);
      }
    }
    if Accepts(k, f.(rotationInfo := sides), x, y, z) {
      forall i | 0 <= i < |f.rotationInfo| ensures Satisfies(k, f.sodium, f.rotationInfo[i], x, y, z) {
        var c := f.rotationInfo[i];
        if c.infoType == Sides {
          assert c in sides;
          var j :| 0 <= j < |sides| && sides[j] == c;
          assert Satisfies(k, f.sodium, sides[j], x, y, z);
        }
      }
    }
  }

  /** The game's top rotations are 0..3 and its side rotations 0 or 1, in both families. */
  lemma TexturesRanges(x: int32, y: int32, z: int32)
    ensures 0 <= TEXTURES.top(x, y, z) <= 3 && 0 <= TEXTURES.topSodium(x, y, z) <= 3
    ensures 0 <= TEXTURES.side(x, y, z) <= 1 && 0 <= TEXTURES.sideSodium(x, y, z) <= 1
  {
  }

  /** A side constraint whose rotation is neither 0 nor 1 never holds, so no origin is accepted. */
  lemma {:induction false} UnmatchableSide(f: Formation, i: int, x: int32, y: int32, z: int32)
    requires 0 <= i < |f.rotationInfo| && f.rotationInfo[i].infoType == Sides
    requires f.rotationInfo[i].rotation < 0 || f.rotationInfo[i].rotation > 1
    ensures !Accepts(TEXTURES, f, x, y, z)
  {
    var c := f.rotationInfo[i];
    TexturesRanges(WrappingAdd(x, c.x), WrappingAdd(y, c.y), WrappingAdd(z, c.z));
    assert !Satisfies(TEXTURES, f.sodium, c, x, y, z);
  }

  /** In sodium mode, a face constraint whose rotation is outside 0..3 never holds, so no origin is accepted. */
  lemma {:induction false} UnmatchableFace(f: Formation, i: int, x: int32, y: int32, z: int32)
    requires f.sodium
    requires 0 <= i < |f.rotationInfo| && f.rotationInfo[i].infoType == TopsAndBottoms
    requires f.rotationInfo[i].rotation < 0 || f.rotationInfo[i].rotation > 3
    ensures !Accepts(TEXTURES, f, x, y, z)
  {
    var c := f.rotationInfo[i];
    TexturesRanges(WrappingAdd(x, c.x), WrappingAdd(y, c.y), WrappingAdd(z, c.z));
    assert !Satisfies(TEXTURES, f.sodium, c, x, y, z);
  }

  /**
   * A side record with a negative odd rotation is normalised to -1, which no
   * side rotation equals, so the formation accepts no origin at all.
   */
  lemma {:induction false} NegativeOddSideMatchesNothing(raw: RawFormation, i: int, x: int32, y: int32, z: int32)
    requires 0 <= i < |raw.rotationInfo| && raw.rotationInfo[i].isSide
    requires raw.rotationInfo[i].rotation < 0 && raw.rotationInfo[i].rotation % 2 == 1
    ensures !Accepts(TEXTURES, GetConfig(raw), x, y, z)
  {
    SideRotationValues(raw.rotationInfo[i]);
    UnmatchableSide(GetConfig(raw), i, x, y, z);
  }

  /**
   * In sodium mode an accepted face constraint pins both the sodium and the
   * legacy top rotation of its cell to the expected value.
   */
  lemma {:induction false} SodiumFaceChecksBothFamilies(f: Formation, i: int, x: int32, y: int32, z: int32)
    requires f.sodium && Accepts(TEXTURES, f, x, y, z)
    requires 0 <= i < |f.rotationInfo| && f.rotationInfo[i].infoType == TopsAndBottoms
    ensures var c := f.rotationInfo[i];
            var (cx, cy, cz) := (WrappingAdd(x, c.x), WrappingAdd(y, c.y), WrappingAdd(z, c.z));
            GetTextureTopSodium(cx, cy, cz) == c.rotation && GetTextureTop(cx, cy, cz) == c.rotation
  {
    assert Satisfies(TEXTURES, f.sodium, f.rotationInfo[i], x, y, z);
  }

  /**
   * In sodium mode, a face and a side constraint on the same offset can both
   * hold only when the side rotation is the parity of the face rotation.
   */
  lemma {:induction false} SodiumFaceAndSideAgree(f: Formation, i: int, j: int, x: int32, y: int32, z: int32)
    requires f.sodium && Accepts(TEXTURES, f, x, y, z)
    requires 0 <= i < |f.rotationInfo| && f.rotationInfo[i].infoType == TopsAndBottoms
    requires 0 <= j < |f.rotationInfo| && f.rotationInfo[j].infoType == Sides
    requires f.rotationInfo[i].x == f.rotationInfo[j].x && f.rotationInfo[i].y == f.rotationInfo[j].y
    requires f.rotationInfo[i].z == f.rotationInfo[j].z
    ensures f.rotationInfo[j].rotation == f.rotationInfo[i].rotation % 2
  {
    var c := f.rotationInfo[i];
    assert Satisfies(TEXTURES, f.sodium, f.rotationInfo[i], x, y, z);
    assert Satisfies(TEXTURES, f.sodium, f.rotationInfo[j], x, y, z);
    SodiumSideIsTopParity(WrappingAdd(x, c.x), WrappingAdd(y, c.y), WrappingAdd(z, c.z));
  }
}
