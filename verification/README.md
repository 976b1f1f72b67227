# FITS WCS header builder (`makeWcs`)

This project models `makeWcs` from `_static/makeExposure.py`. The function builds the FITS World
Coordinate System (WCS) header of a simple test exposure. Its inputs are:

- a pixel scale;
- a reference pixel in the LSST (0-based) convention;
- a reference sky position;
- a position angle;
- an X-flip flag;
- a three-character projection code;
- a celestial reference system (RADESYS) and an equinox.

From these it adds twelve keywords to a property set, in a fixed order:
`CTYPE1 CRPIX1 CRVAL1 CTYPE2 CRPIX2 CRVAL2 RADESYS EQUINOX CD1_1 CD2_1 CD1_2 CD2_2`. It follows the
conventions of Greisen & Calabretta 2002 (FITS WCS Paper I):

- CTYPE is in the "4-3" form (`RA---TAN`, `DEC--TAN`);
- CRPIX is 1-based;
- CD is the pixel scale times a rotation, with column 0 negated when X is flipped.

Files:

- `py_format.dfy` (module `PyFormat`) models the Python string operations that the builder relies on:
  `"%-5s"`, `"%3s"`, `"%1d"` and `str.replace` with one-character arguments.
- `make_exposure.dfy` (module `MakeExposure`) has the builder in two forms:
  - `WcsHeader`, a pure function that returns the header (an ordered sequence of key/value cards) or the error;
  - `MakeWcs`, an imperative method in the source's own shape. It checks the projection, fills a
    2x2 `array2<real>` CD matrix, negates column 0 in place under `doFlipX` (`NegateColumn`),
    then adds the cards one at a time: three per axis in a `for` loop, the rest in a row. Its
    postcondition says that it returns exactly `WcsHeader` of its arguments.

The lemmas about `WcsHeader` state the promised properties. `Lookup` returns the value of the first
card with a given key, so these properties are stated keyword by keyword, the way the property set
is read.

The trigonometry and the unit conversions happen in libraries outside this model. So
`cos(posAng)`, `sin(posAng)`, the pixel scale in degrees and the reference position in degrees are
parameters of type `real`. The defaults (`posAng` 0, no flip, `"TAN"`, `"ICRS"`, 2000) are
constants, or `1.0`/`0.0` for cos/sin. `DefaultHeader` states what they produce.

## Model

| member | source | states |
|---|---|---|
| `PyFormat.LeftJustify` | _static/makeExposure.py:32 | `%-5s`: the result has the input as its prefix, is padded only with blanks on the right, and has length max(len, width); the input is never cut |
| `PyFormat.RightJustify` | _static/makeExposure.py:32 | `%3s`: the result has the input as its suffix, is padded only with blanks on the left, and has length max(len, width) |
| `PyFormat.ReplaceChar` | _static/makeExposure.py:32 | `.replace(" ", "-")`: the length is kept, each target character becomes the replacement and every other character is unchanged; when the two characters differ, no target is left |
| `PyFormat.ReplaceCharConcat` | _static/makeExposure.py:32 | replacing in a concatenation is the same as replacing in each part |
| `PyFormat.ReplaceCharIdempotent` | _static/makeExposure.py:32 | replacing a second time changes nothing |
| `PyFormat.FormatDigit` | _static/makeExposure.py:50-52 | `%1d` of a one-digit number is one decimal digit whose value is that number |
| `MakeExposure.KeyName` | _static/makeExposure.py:50-52 | `"CTYPE%1d" % ip1` and the like: the prefix followed by the digit of the axis number |
| `MakeExposure.CTypeList` | _static/makeExposure.py:32-33 | for a 3-character code P: CTYPE1 is `"RA---"` + P and CTYPE2 is `"DEC--"` + P, with the blanks of P turned into `-`, each exactly 8 characters; for any code, no CTYPE value contains a blank |
| `MakeExposure.FitsPixel` | _static/makeExposure.py:35 | every reference pixel coordinate is moved from 0-based to 1-based (+1), with the length kept |
| `MakeExposure.CdMatrix` | _static/makeExposure.py:44-47 | CD = scale·[[c, s], [−s, c]]; column 1 is never flipped; without a flip CD1_1 = CD2_2 and CD1_2 = −CD2_1; with a flip CD1_1 = −CD2_2 and CD1_2 = CD2_1 |
| `MakeExposure.CdDeterminant` | _static/makeExposure.py:44-47 | the determinant of CD is scale²(c²+s²), negated exactly when X is flipped: the flip reverses the orientation of the pixel-to-sky mapping |
| `MakeExposure.WcsHeader` | _static/makeExposure.py:30-58 | a projection code whose length is not 3 gives the projection error, whatever the other inputs; a reference pixel shorter than 2 gives an index error at the first missing index; otherwise the result succeeds and its keys are exactly the twelve keywords in the order they are added |
| `MakeExposure.BuiltHeaderCards` | _static/makeExposure.py:48-58 | the loop's three cards per axis, followed by the six straight-line adds, form the 12-card header CTYPE1 … CD2_2 with those values |
| `MakeExposure.HeaderKeysDistinct` | _static/makeExposure.py:48-58 | the twelve keys are pairwise distinct, so each keyword is added exactly once |
| `MakeExposure.WcsHeaderCards` | _static/makeExposure.py:32-58 | for a valid projection and reference pixel, the header is, card by card: CTYPE1 `"RA---"`+P′, CRPIX1 crPixPos[0]+1, CRVAL1 the first reference coordinate, the same three for axis 2, RADESYS, EQUINOX, then CD1_1, CD2_1, CD1_2, CD2_2 from the CD matrix |
| `MakeExposure.HeaderValues` | _static/makeExposure.py:32-58 | looked up by name: CTYPE1 = `"RA---"`+P′ and CTYPE2 = `"DEC--"`+P′, where P′ is P with blanks turned into `-`; CRPIXn = crPixPos[n−1] + 1; CRVAL1 and CRVAL2 are the reference coordinates in degrees; RADESYS and EQUINOX are the caller's values; CDi_j = cdMat[i−1][j−1] |
| `MakeExposure.FlipXNegatesColumn0` | _static/makeExposure.py:46-47 | `doFlipX` negates the values of CD1_1 and CD2_1 and leaves every other card (key, value, position) as it was unflipped |
| `MakeExposure.DefaultHeader` | _static/makeExposure.py:19-20 | with the defaults (`"TAN"`, no flip, posAng 0, `"ICRS"`, 2000), CTYPE is `RA---TAN`/`DEC--TAN`, RADESYS is `ICRS`, EQUINOX is 2000, and CD is diagonal with both diagonal entries equal to the pixel scale |
| `MakeExposure.NegateColumn` | _static/makeExposure.py:47 | `cdMat[:,0] = -cdMat[:,0]` in place: every entry of the chosen column is negated and every other entry is unchanged |
| `MakeExposure.MakeWcs` | _static/makeExposure.py:19-58 | the step-by-step builder returns exactly the header or error described by `WcsHeader`; on a bad projection it returns before anything is added |

## Left out

- `_static/compare_gwcs_ast.py` is not part of this model. It covers the gwcs/astropy and Starlink AST transform chains, the frame splicing, the polynomial inverse fits, the grid comparison with `np.allclose` and the timing. All of that logic lives in external libraries whose code is not available.
- Transform pipelines, distortion models and the validation harness exist in this repository only as calls into those libraries. The only logic of its own is the header builder.
- Trigonometry and angle units: `math.cos`/`math.sin` of the position angle and the `afwGeom.Angle` and `getPosition` conversions to degrees and radians. These arrive as real parameters. The model uses exact reals, not IEEE doubles. The properties stated (negation, equal products of the same operands, the fixed order) also hold for doubles. The determinant identity holds only for exact reals.
- The call `afwImage.makeWcs(ps)` that turns the property set into a WCS object is a library call. The model returns the header itself. `PropertySet` is modelled as an ordered list of cards. Its behaviour when a key is added twice (values accumulate) is not modelled, because every key here is added once.
- `makeExposure` (the 512x512 bounding box, its centre as reference pixel, `ExposureF`) and the `writeFits` in the script's main block are library construction and file output.
- The diagnostic `print` calls are console output.
- `MakeExposure.KeyName`: only one-digit axis numbers are formatted, since `makeWcs` formats only 1 and 2.
- `MakeExposure.MakeWcs`: `radDecCSys` is a string and `equinox` an integer. Python accepts values of any type there.
- `MakeExposure.MakeWcs`: `crPixPos` is any sequence of reals. One with fewer than two entries gives the IndexError of `crPixFits[i]`. Extra entries are ignored, as in the source. Non-numeric entries are not modelled.
