/**
 * The FITS WCS header builder `makeWcs` of makeExposure.py.
 *
 * From a pixel scale, a reference pixel (LSST, 0-based), a reference sky
 * position, a position angle, an X-flip flag and a projection code it adds
 * twelve FITS World Coordinate System keywords to a property set, in a fixed
 * order. The property set is modelled as an ordered sequence of cards; the
 * trigonometry and the unit conversions are done by the caller, so cos and
 * sin of the position angle and all angles in degrees arrive as reals.
 */
module MakeExposure {
  import opened PyFormat

  datatype Option<T> = None | Some(value: T)

  datatype Result<T, E> = Success(value: T) | Failure(error: E)

  /** A value stored under a keyword: a string, a float or an integer. */
  datatype Value = Str(s: string) | Real(x: real) | Int(n: int)

  /** One `ps.add(key, value)`. */
  datatype Card = Card(key: string, value: Value)

  type Header = seq<Card>

  datatype WcsError =
    | BadProjectionLength(projection: string)  // the RuntimeError raised for a projection code not of length 3
    | CrPixIndexError(index: nat)              // the IndexError of `crPixFits[index]` when crPixPos is too short

  /** A position on the sky, in degrees (`crValCoord.getPosition(degrees)`). */
  datatype Point2D = Point2D(x: real, y: real) {
    function At(i: nat): real
      requires i < 2
    {
      if i == 0 then x else y
    }
  }

  /** A 2x2 matrix; `mij` is row i, column j, and goes to keyword CD(i+1)_(j+1). */
  datatype Matrix2 = Matrix2(m00: real, m01: real, m10: real, m11: real) {
    function At(i: nat, j: nat): real
      requires i < 2 && j < 2
    {
      if i == 0 then (if j == 0 then m00 else m01) else (if j == 0 then m10 else m11)
    }
  }

  const DefaultProjection := "TAN"
  const DefaultRadDecSys := "ICRS"
  const DefaultEquinox := 2000

  const AxisNames: seq<string> := ["RA", "DEC"]

  /** The keys of a built header, in the order they are added. */
  const HeaderKeys: seq<string> := [
    "CTYPE1", "CRPIX1", "CRVAL1", "CTYPE2", "CRPIX2", "CRVAL2",
    "RADESYS", "EQUINOX", "CD1_1", "CD2_1", "CD1_2", "CD2_2"]

  function Keys(h: Header): (ks: seq<string>)
    ensures |ks| == |h|
    ensures forall k :: 0 <= k < |h| ==> ks[k] == h[k].key
  {
    seq(|h|, k requires 0 <= k < |h| => h[k].key)
  }

  /** The value of the first card with the given key, if any. */
  function Lookup(h: Header, key: string): Option<Value>
  {
    if h == [] then None
    else if h[0].key == key then Some(h[0].value)
    else Lookup(h[1..], key)
  }

  /** A card that no earlier card shadows is what Lookup finds for its key. */
  lemma {:induction false} LookupAt(h: Header, k: nat)
    requires k < |h|
    requires forall j :: 0 <= j < k ==> h[j].key != h[k].key
    ensures Lookup(h, h[k].key) == Some(h[k].value)
  {
    if k > 0 {
      LookupAt(h[1..], k - 1);
    }
  }

  /** `"%1d" % n` appended to a keyword prefix, as in `"CTYPE%1d" % (ip1,)`. */
  function KeyName(prefix: string, n: nat): (r: string)
    requires n < 10
    ensures |r| == |prefix| + 1 && r[..|prefix|] == prefix
    ensures r[|prefix|] as int - '0' as int == n
  {
    prefix + FormatDigit(n)
  }

  /** `("%-5s%3s" % (("RA", "DEC")[i], projection)).replace(" ", "-")` */
  function CType(i: nat, projection: string): string
    requires i < 2
  {
    ReplaceChar(LeftJustify(AxisNames[i], 5) + RightJustify(projection, 3), ' ', '-')
  }

  /** The axis names padded by `%-5s`, with blanks turned into `-`. */
  lemma AxisPrefixes()
    ensures ReplaceChar(LeftJustify(AxisNames[0], 5), ' ', '-') == "RA---"
    ensures ReplaceChar(LeftJustify(AxisNames[1], 5), ' ', '-') == "DEC--"
  {
  }

  /**
   * ctypeList: the CTYPE values of both axes. For a three-character code P
   * they are the 4-3 forms "RA---P" and "DEC--P", eight characters each; no
   * value ever holds a blank.
   */
  function CTypeList(projection: string): (r: seq<string>)
    ensures |r| == 2
    ensures forall i :: 0 <= i < 2 ==> ' ' !in r[i]
    ensures |projection| == 3 ==>
      && r[0] == "RA---" + ReplaceChar(projection, ' ', '-')
      && r[1] == "DEC--" + ReplaceChar(projection, ' ', '-')
      && |r[0]| == 8 && |r[1]| == 8
  {
    var ra := LeftJustify(AxisNames[0], 5);
    var dec := LeftJustify(AxisNames[1], 5);
    var p := RightJustify(projection, 3);
    ReplaceCharConcat(ra, p, ' ', '-');
    ReplaceCharConcat(dec, p, ' ', '-');
    AxisPrefixes();
    [CType(0, projection), CType(1, projection)]
  }

  /** crPixFits: each LSST 0-based pixel coordinate moved to the FITS 1-based convention. */
  function FitsPixel(crPixPos: seq<real>): (r: seq<real>)
    ensures |r| == |crPixPos|
    ensures forall i :: 0 <= i < |r| ==> r[i] == crPixPos[i] + 1.0
  {
    seq(|crPixPos|, i requires 0 <= i < |crPixPos| => crPixPos[i] + 1.0)
  }

  /** `m[:,0] = -m[:,0]` on a value. */
  function NegateColumn0(m: Matrix2): Matrix2
  {
    Matrix2(-m.m00, m.m01, -m.m10, m.m11)
  }

  function Det(m: Matrix2): real
  {
    m.m00 * m.m11 - m.m01 * m.m10
  }

  /**
   * cdMat: pixel scale times the rotation [[c, s], [-s, c]], with column 0
   * negated when the X axis is flipped. Unflipped it is a scaled rotation
   * (equal diagonal, opposite off-diagonal); the flip leaves column 1 alone
   * and swaps those two sign relations.
   */
  function CdMatrix(c: real, s: real, scale: real, doFlipX: bool): (m: Matrix2)
    ensures m.m01 == s * scale && m.m11 == c * scale
    ensures !doFlipX ==> m.m00 == m.m11 && m.m01 == -m.m10
    ensures doFlipX ==> m.m00 == -m.m11 && m.m01 == m.m10
  {
    var m := Matrix2(c * scale, s * scale, -s * scale, c * scale);
    if doFlipX then NegateColumn0(m) else m
  }

  /**
   * The CD matrix preserves orientation (positive determinant scale²(c²+s²)
   * for a nonzero scale and a true rotation) unless the X axis is flipped,
   * which reverses it.
   */
  lemma CdDeterminant(c: real, s: real, scale: real, doFlipX: bool)
    ensures Det(CdMatrix(c, s, scale, doFlipX))
         == (if doFlipX then -1.0 else 1.0) * (scale * scale) * (c * c + s * s)
  {
  }

  /** The three cards the loop adds for axis i (0-based): CTYPE, CRPIX, CRVAL. */
  function AxisCards(i: nat, ctype: string, crPix: real, crVal: real): Header
    requires i < 2
  {
    [ Card(KeyName("CTYPE", i + 1), Str(ctype)),
      Card(KeyName("CRPIX", i + 1), Real(crPix)),
      Card(KeyName("CRVAL", i + 1), Real(crVal)) ]
  }

  /** What the `for i in range(2)` loop has added after n rounds. */
  function AxisPrefix(n: nat, ctypes: seq<string>, crPixFits: seq<real>, crValDeg: Point2D): Header
    requires n <= 2 && n <= |ctypes| && n <= |crPixFits|
  {
    if n == 0 then []
    else AxisPrefix(n - 1, ctypes, crPixFits, crValDeg)
         + AxisCards(n - 1, ctypes[n - 1], crPixFits[n - 1], crValDeg.At(n - 1))
  }

  /** The straight-line adds after the loop. */
  function TrailerCards(radDecCSys: string, equinox: int, cd: Matrix2): Header
  {
    [ Card("RADESYS", Str(radDecCSys)),
      Card("EQUINOX", Int(equinox)),
      Card("CD1_1", Real(cd.m00)),
      Card("CD2_1", Real(cd.m10)),
      Card("CD1_2", Real(cd.m01)),
      Card("CD2_2", Real(cd.m11)) ]
  }

  /** The keyword names `"CTYPE%1d"`, `"CRPIX%1d"` and `"CRVAL%1d"` give for axes 1 and 2. */
  lemma AxisKeyNames()
    ensures KeyName("CTYPE", 1) == "CTYPE1" && KeyName("CRPIX", 1) == "CRPIX1" && KeyName("CRVAL", 1) == "CRVAL1"
    ensures KeyName("CTYPE", 2) == "CTYPE2" && KeyName("CRPIX", 2) == "CRPIX2" && KeyName("CRVAL", 2) == "CRVAL2"
  {
  }

  /** Written out card by card, a complete header lists HeaderKeys in order. */
  lemma BuiltHeaderCards(
    ctypes: seq<string>, crPixFits: seq<real>, crValDeg: Point2D,
    radDecCSys: string, equinox: int, cd: Matrix2)
    requires |ctypes| >= 2 && |crPixFits| >= 2
    ensures AxisPrefix(2, ctypes, crPixFits, crValDeg) + TrailerCards(radDecCSys, equinox, cd) ==
      [ Card("CTYPE1", Str(ctypes[0])), Card("CRPIX1", Real(crPixFits[0])), Card("CRVAL1", Real(crValDeg.x)),
        Card("CTYPE2", Str(ctypes[1])), Card("CRPIX2", Real(crPixFits[1])), Card("CRVAL2", Real(crValDeg.y)),
        Card("RADESYS", Str(radDecCSys)), Card("EQUINOX", Int(equinox)),
        Card("CD1_1", Real(cd.m00)), Card("CD2_1", Real(cd.m10)),
        Card("CD1_2", Real(cd.m01)), Card("CD2_2", Real(cd.m11)) ]
  {
    AxisKeyNames();
    var axis0 := [Card("CTYPE1", Str(ctypes[0])), Card("CRPIX1", Real(crPixFits[0])), Card("CRVAL1", Real(crValDeg.x))];
    var axis1 := [Card("CTYPE2", Str(ctypes[1])), Card("CRPIX2", Real(crPixFits[1])), Card("CRVAL2", Real(crValDeg.y))];
    assert AxisCards(0, ctypes[0], crPixFits[0], crValDeg.x) == axis0;
    assert AxisCards(1, ctypes[1], crPixFits[1], crValDeg.y) == axis1;
    assert AxisPrefix(1, ctypes, crPixFits, crValDeg) == [] + axis0 == axis0;
    assert AxisPrefix(2, ctypes, crPixFits, crValDeg) == axis0 + axis1;
  }

  /**
   * The header makeWcs hands to the WCS factory, or the error it raises.
   * A projection code not of length 3 is rejected before anything else; a
   * reference pixel with fewer than two coordinates fails at the first
   * missing index. Otherwise the twelve keywords come in the fixed order
   * HeaderKeys.
   */
  function WcsHeader(
    pixelScaleDeg: real, crPixPos: seq<real>, crValDeg: Point2D,
    cosPosAng: real, sinPosAng: real, doFlipX: bool,
    projection: string, radDecCSys: string, equinox: int
  ): (r: Result<Header, WcsError>)
    ensures |projection| != 3 ==> r == Failure(BadProjectionLength(projection))
    ensures |projection| == 3 && |crPixPos| < 2 ==> r == Failure(CrPixIndexError(|crPixPos|))
    ensures r.Success? <==> |projection| == 3 && |crPixPos| >= 2
    ensures r.Success? ==> Keys(r.value) == HeaderKeys
  {
    if |projection| != 3 then Failure(BadProjectionLength(projection))
    else if |crPixPos| < 2 then Failure(CrPixIndexError(|crPixPos|))
    else
      var ctypes, crPixFits := CTypeList(projection), FitsPixel(crPixPos);
      var cd := CdMatrix(cosPosAng, sinPosAng, pixelScaleDeg, doFlipX);
      var h := AxisPrefix(2, ctypes, crPixFits, crValDeg) + TrailerCards(radDecCSys, equinox, cd);
      BuiltHeaderCards(ctypes, crPixFits, crValDeg, radDecCSys, equinox, cd);
      assert Keys(h) == HeaderKeys;
      Success(h)
  }

  /** The twelve keys of a header are pairwise distinct. */
  lemma HeaderKeysDistinct()
    ensures |HeaderKeys| == 12
    ensures forall i, j :: 0 <= i < j < |HeaderKeys| ==> HeaderKeys[i] != HeaderKeys[j]
  {
  }

  /** In a header with the twelve keys, each keyword finds the card at its position. */
  lemma LookupByPosition(h: Header, k: nat)
    requires Keys(h) == HeaderKeys && k < 12
    ensures Lookup(h, HeaderKeys[k]) == Some(h[k].value)
  {
    HeaderKeysDistinct();
    assert h[k].key == HeaderKeys[k];
    forall j | 0 <= j < k
      ensures h[j].key != h[k].key
    {
      assert h[j].key == HeaderKeys[j];
    }
    LookupAt(h, k);
  }

  /** In a header with the twelve keys, every keyword finds the card at its position. */
  lemma LookupAll(h: Header)
    requires Keys(h) == HeaderKeys
    ensures Lookup(h, "CTYPE1") == Some(h[0].value) && Lookup(h, "CRPIX1") == Some(h[1].value)
    ensures Lookup(h, "CRVAL1") == Some(h[2].value) && Lookup(h, "CTYPE2") == Some(h[3].value)
    ensures Lookup(h, "CRPIX2") == Some(h[4].value) && Lookup(h, "CRVAL2") == Some(h[5].value)
    ensures Lookup(h, "RADESYS") == Some(h[6].value) && Lookup(h, "EQUINOX") == Some(h[7].value)
    ensures Lookup(h, "CD1_1") == Some(h[8].value) && Lookup(h, "CD2_1") == Some(h[9].value)
    ensures Lookup(h, "CD1_2") == Some(h[10].value) && Lookup(h, "CD2_2") == Some(h[11].value)
  {
    LookupByPosition(h, 0); LookupByPosition(h, 1); LookupByPosition(h, 2);
    LookupByPosition(h, 3); LookupByPosition(h, 4); LookupByPosition(h, 5);
    LookupByPosition(h, 6); LookupByPosition(h, 7); LookupByPosition(h, 8);
    LookupByPosition(h, 9); LookupByPosition(h, 10); LookupByPosition(h, 11);
  }

  /** A built header, card by card, in terms of makeWcs's arguments. */
  lemma WcsHeaderCards(
    pixelScaleDeg: real, crPixPos: seq<real>, crValDeg: Point2D,
    cosPosAng: real, sinPosAng: real, doFlipX: bool,
    projection: string, radDecCSys: string, equinox: int)
    requires |projection| == 3 && |crPixPos| >= 2
    ensures
      var cd := CdMatrix(cosPosAng, sinPosAng, pixelScaleDeg, doFlipX);
      var p := ReplaceChar(projection, ' ', '-');
      WcsHeader(pixelScaleDeg, crPixPos, crValDeg, cosPosAng, sinPosAng, doFlipX,
                projection, radDecCSys, equinox)
      == Success([
        Card("CTYPE1", Str("RA---" + p)), Card("CRPIX1", Real(crPixPos[0] + 1.0)), Card("CRVAL1", Real(crValDeg.x)),
        Card("CTYPE2", Str("DEC--" + p)), Card("CRPIX2", Real(crPixPos[1] + 1.0)), Card("CRVAL2", Real(crValDeg.y)),
        Card("RADESYS", Str(radDecCSys)), Card("EQUINOX", Int(equinox)),
        Card("CD1_1", Real(cd.At(0, 0))), Card("CD2_1", Real(cd.At(1, 0))),
        Card("CD1_2", Real(cd.At(0, 1))), Card("CD2_2", Real(cd.At(1, 1)))])
  {
    var ctypes, crPixFits := CTypeList(projection), FitsPixel(crPixPos);
    var cd := CdMatrix(cosPosAng, sinPosAng, pixelScaleDeg, doFlipX);
    BuiltHeaderCards(ctypes, crPixFits, crValDeg, radDecCSys, equinox, cd);
  }

  /**
   * Each keyword of a built header, looked up by name: the 4-3 form CTYPEs,
   * the reference pixel shifted to 1-based, the reference coordinates in
   * degrees, the caller's RADESYS and EQUINOX, and CDi_j from row i-1,
   * column j-1 of the CD matrix.
   */
  lemma HeaderValues(
    pixelScaleDeg: real, crPixPos: seq<real>, crValDeg: Point2D,
    cosPosAng: real, sinPosAng: real, doFlipX: bool,
    projection: string, radDecCSys: string, equinox: int)
    requires |projection| == 3 && |crPixPos| >= 2
    ensures
      var h := WcsHeader(pixelScaleDeg, crPixPos, crValDeg, cosPosAng, sinPosAng, doFlipX,
                         projection, radDecCSys, equinox).value;
      var cd := CdMatrix(cosPosAng, sinPosAng, pixelScaleDeg, doFlipX);
      && Lookup(h, "CTYPE1") == Some(Str("RA---" + ReplaceChar(projection, ' ', '-')))
      && Lookup(h, "CTYPE2") == Some(Str("DEC--" + ReplaceChar(projection, ' ', '-')))
      && Lookup(h, "CRPIX1") == Some(Real(crPixPos[0] + 1.0))
      && Lookup(h, "CRPIX2") == Some(Real(crPixPos[1] + 1.0))
      && Lookup(h, "CRVAL1") == Some(Real(crValDeg.x))
      && Lookup(h, "CRVAL2") == Some(Real(crValDeg.y))
      && Lookup(h, "RADESYS") == Some(Str(radDecCSys))
      && Lookup(h, "EQUINOX") == Some(Int(equinox))
      && Lookup(h, "CD1_1") == Some(Real(cd.At(0, 0)))
      && Lookup(h, "CD2_1") == Some(Real(cd.At(1, 0)))
      && Lookup(h, "CD1_2") == Some(Real(cd.At(0, 1)))
      && Lookup(h, "CD2_2") == Some(Real(cd.At(1, 1)))
  {
    WcsHeaderCards(pixelScaleDeg, crPixPos, crValDeg, cosPosAng, sinPosAng, doFlipX,
                   projection, radDecCSys, equinox);
    LookupAll(WcsHeader(pixelScaleDeg, crPixPos, crValDeg, cosPosAng, sinPosAng, doFlipX,
                        projection, radDecCSys, equinox).value);
  }

  /**
   * doFlipX negates CD1_1 and CD2_1 (column 0 of the CD matrix) and changes
   * no other card, neither its key nor its value nor its position.
   */
  lemma FlipXNegatesColumn0(
    pixelScaleDeg: real, crPixPos: seq<real>, crValDeg: Point2D,
    cosPosAng: real, sinPosAng: real,
    projection: string, radDecCSys: string, equinox: int)
    requires |projection| == 3 && |crPixPos| >= 2
    ensures
      var plain := WcsHeader(pixelScaleDeg, crPixPos, crValDeg, cosPosAng, sinPosAng, false,
                             projection, radDecCSys, equinox).value;
      var flipped := WcsHeader(pixelScaleDeg, crPixPos, crValDeg, cosPosAng, sinPosAng, true,
                               projection, radDecCSys, equinox).value;
      && |flipped| == |plain|
      && (forall k :: 0 <= k < |plain| ==> flipped[k].key == plain[k].key)
      && (forall k :: 0 <= k < |plain| && plain[k].key != "CD1_1" && plain[k].key != "CD2_1" ==>
            flipped[k] == plain[k])
      && (forall k :: 0 <= k < |plain| && (plain[k].key == "CD1_1" || plain[k].key == "CD2_1") ==>
            plain[k].value.Real? && flipped[k].value == Real(-plain[k].value.x))
  {
  }

  /**
   * With the defaults (projection "TAN", no flip, position angle 0 so that
   * cos = 1 and sin = 0, "ICRS", 2000) the header is a TAN projection with a
   * diagonal CD matrix whose diagonal is the pixel scale.
   */
  lemma DefaultHeader(pixelScaleDeg: real, crPixPos: seq<real>, crValDeg: Point2D)
    requires |crPixPos| >= 2
    ensures
      var r := WcsHeader(pixelScaleDeg, crPixPos, crValDeg, 1.0, 0.0, false,
                         DefaultProjection, DefaultRadDecSys, DefaultEquinox);
      && r.Success?
      && Lookup(r.value, "CTYPE1") == Some(Str("RA---TAN"))
      && Lookup(r.value, "CTYPE2") == Some(Str("DEC--TAN"))
      && Lookup(r.value, "RADESYS") == Some(Str("ICRS"))
      && Lookup(r.value, "EQUINOX") == Some(Int(2000))
      && Lookup(r.value, "CD1_1") == Some(Real(pixelScaleDeg))
      && Lookup(r.value, "CD2_2") == Some(Real(pixelScaleDeg))
      && Lookup(r.value, "CD1_2") == Some(Real(0.0))
      && Lookup(r.value, "CD2_1") == Some(Real(0.0))
  {
    HeaderValues(pixelScaleDeg, crPixPos, crValDeg, 1.0, 0.0, false,
                 DefaultProjection, DefaultRadDecSys, DefaultEquinox);
    var tan := ReplaceChar(DefaultProjection, ' ', '-');
    assert tan == "TAN";
    assert "RA---" + tan == "RA---TAN" && "DEC--" + tan == "DEC--TAN";
  }

  /** `m[:, j] = -m[:, j]`: negates column j of m in place and nothing else. */
  method NegateColumn(m: array2<real>, j: nat)
    requires j < m.Length1
    modifies m
    ensures forall r, k :: 0 <= r < m.Length0 && 0 <= k < m.Length1 ==>
      m[r, k] == if k == j then -old(m[r, k]) else old(m[r, k])
  {
    for r := 0 to m.Length0
      invariant forall r', k :: 0 <= r' < m.Length0 && 0 <= k < m.Length1 ==>
        m[r', k] == if k == j && r' < r then -old(m[r', k]) else old(m[r', k])
    {
      m[r, j] := -m[r, j];
    }
  }

  /**
   * makeWcs up to the call of the WCS factory: checks the projection code,
   * fills the CD matrix (flipping column 0 in place when asked), then adds
   * the cards one by one, three per axis in a loop and the rest in a row.
   * It returns exactly the header (or error) that WcsHeader describes.
   */
  method MakeWcs(
    pixelScaleDeg: real, crPixPos: seq<real>, crValDeg: Point2D,
    cosPosAng: real, sinPosAng: real, doFlipX: bool,
    projection: string, radDecCSys: string, equinox: int
  ) returns (r: Result<Header, WcsError>)
    ensures r == WcsHeader(pixelScaleDeg, crPixPos, crValDeg, cosPosAng, sinPosAng, doFlipX,
                           projection, radDecCSys, equinox)
  {
    if |projection| != 3 {
      return Failure(BadProjectionLength(projection));
    }
    var ctypeList := CTypeList(projection);
    var ps: Header := [];
    var crPixFits := FitsPixel(crPixPos);
    var cdMat := new real[2, 2];
    cdMat[0, 0], cdMat[0, 1] := cosPosAng * pixelScaleDeg, sinPosAng * pixelScaleDeg;
    cdMat[1, 0], cdMat[1, 1] := -sinPosAng * pixelScaleDeg, cosPosAng * pixelScaleDeg;
    if doFlipX {
      NegateColumn(cdMat, 0);
    }
    ghost var cd := CdMatrix(cosPosAng, sinPosAng, pixelScaleDeg, doFlipX);
    assert forall i, j :: 0 <= i < 2 && 0 <= j < 2 ==> cdMat[i, j] == cd.At(i, j);
    for i := 0 to 2
      invariant i <= |crPixFits|
      invariant ps == AxisPrefix(i, ctypeList, crPixFits, crValDeg)
    {
      var ip1 := i + 1;
      ps := ps + [Card(KeyName("CTYPE", ip1), Str(ctypeList[i]))];
      if i >= |crPixFits| {
        return Failure(CrPixIndexError(i));
      }
      ps := ps + [Card(KeyName("CRPIX", ip1), Real(crPixFits[i]))];
      ps := ps + [Card(KeyName("CRVAL", ip1), Real(crValDeg.At(i)))];
    }
    ghost var axes := ps;
    ps := ps + [Card("RADESYS", Str(radDecCSys))];
    ps := ps + [Card("EQUINOX", Int(equinox))];
    ps := ps + [Card("CD1_1", Real(cdMat[0, 0]))];
    ps := ps + [Card("CD2_1", Real(cdMat[1, 0]))];
    ps := ps + [Card("CD1_2", Real(cdMat[0, 1]))];
    ps := ps + [Card("CD2_2", Real(cdMat[1, 1]))];
    assert ps == axes + [
      Card("RADESYS", Str(radDecCSys)), Card("EQUINOX", Int(equinox)),
      Card("CD1_1", Real(cdMat[0, 0])), Card("CD2_1", Real(cdMat[1, 0])),
      Card("CD1_2", Real(cdMat[0, 1])), Card("CD2_2", Real(cdMat[1, 1]))];
    assert cdMat[0, 0] == cd.m00 && cdMat[1, 0] == cd.m10 && cdMat[0, 1] == cd.m01 && cdMat[1, 1] == cd.m11;
    r := Success(ps);
  }
}
