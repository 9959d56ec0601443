/** Cutting-pattern geometry of a conical camera bellows: the fold plan, the two interpolation
    rules, the chamfered trapezoids and rectangles of the four faces, their layout on a sheet,
    and the tiling of a sheet into printer pages. */
module BellowsGenerator {
  import opened Numeric

  /** A point of the pattern in millimetres; y grows downward, toward the rear of the bellows. */
  datatype Point = Point(x: real, y: real)

  /** One emitted outline: four points, closed from the last back to the first. */
  type Path = seq<Point>

  /** The two horizontal edge widths of one trapezoid, before the chamfer is taken off. */
  datatype Widths = Widths(top: real, bottom: real)

  /** The construction a single-face sheet uses. */
  datatype Shape = Trapezoid | Rectangle

  /** The four faces, in their left-to-right order on the combined sheet. */
  datatype Face = Top | Right | Bottom | Left

  /** An SVG document reduced to its geometry: the canvas size and the paths in emission order. */
  datatype Sheet = Sheet(width: real, height: real, paths: seq<Path>)

  /** A printer page size in millimetres. */
  datatype PageSize = PageSize(width: int, height: int)

  /** The page formats a sheet can be split into: A4 (210 x 297 mm) and A3 (297 x 420 mm), both
      portrait with positive sides, A3 being as wide as A4 is high. */
  function PageSizes(): (sizes: map<string, PageSize>)
    ensures sizes.Keys == {"A4", "A3"}
    ensures sizes["A4"] == PageSize(210, 297) && sizes["A3"] == PageSize(297, 420)
    ensures forall f :: f in sizes ==> 0 < sizes[f].width < sizes[f].height
    ensures sizes["A3"].width == sizes["A4"].height
  {
    map["A4" := PageSize(210, 297), "A3" := PageSize(297, 420)]
  }

  /** What splitting returns for each output file: the input sheet itself, or a page-sized tile
      (row and column from 0) whose view box starts at the given offset. */
  datatype Page = WholeFile | Tile(row: int, col: int, xOffset: int, yOffset: int, size: PageSize)

  /** `page` is the tile at position `k` of a row-major grid with `cols` columns of `size` pages. */
  predicate IsTile(page: Page, k: int, cols: int, size: PageSize)
  {
    && page.Tile?
    && 0 <= page.col < cols && 0 <= page.row
    && page.row * cols + page.col == k
    && page.xOffset == page.col * size.width
    && page.yOffset == page.row * size.height
    && page.size == size
  }

  /** `path` is a chamfered quadrilateral listed top-left, top-right, bottom-right, bottom-left:
      its first two points lie on `yTop` and its last two on `yBottom`, and each horizontal edge is
      centred on `xCenter` and is as long as its width less one chamfer at either end. */
  predicate IsChamferedQuad(path: Path, chamfer: real, xCenter: real, yTop: real, yBottom: real,
                            widthTop: real, widthBottom: real)
  {
    && |path| == 4
    && path[0].y == yTop && path[1].y == yTop
    && path[2].y == yBottom && path[3].y == yBottom
    && path[0].x + path[1].x == 2.0 * xCenter
    && path[3].x + path[2].x == 2.0 * xCenter
    && path[1].x - path[0].x == widthTop - 2.0 * chamfer
    && path[2].x - path[3].x == widthBottom - 2.0 * chamfer
  }

  /** Every point of `path` lies in the vertical band `[lo, hi]`. */
  predicate WithinBand(path: Path, lo: real, hi: real)
  {
    forall k :: 0 <= k < |path| ==> lo <= path[k].x <= hi
  }

  /** The fold count for a draw and a fold pitch: as many folds as fit, made even by dropping
      one if needed. It is the even count whose length fits the draw while two more folds would not. */
  function FoldCount(maxDraw: real, foldCycle: real): (n: nat)
    requires foldCycle > 0.0 && maxDraw >= 0.0
    ensures n % 2 == 0
    ensures n as real * foldCycle <= maxDraw < (n + 2) as real * foldCycle
  {
    var raw := Trunc(maxDraw / foldCycle);
    TruncTimesCycle(maxDraw, foldCycle);
    if raw % 2 != 0 then raw - 1 else raw
  }

  /** The folds that fit before the even rule: their length fits the draw, one more would not. */
  lemma TruncTimesCycle(maxDraw: real, foldCycle: real)
    requires foldCycle > 0.0 && maxDraw >= 0.0
    ensures Trunc(maxDraw / foldCycle) as real * foldCycle <= maxDraw
    ensures maxDraw < (Trunc(maxDraw / foldCycle) + 1) as real * foldCycle
  {
    var q := maxDraw / foldCycle;
    var raw := Trunc(q);
    assert maxDraw == q * foldCycle;
    ScaleByPositive(raw as real, q, foldCycle);
    assert q < (raw + 1) as real;
    ScaleByPositive(q, (raw + 1) as real, foldCycle);
    assert q * foldCycle < (raw + 1) as real * foldCycle;
    assert maxDraw < (raw + 1) as real * foldCycle;
  }

  /** No other even count satisfies the bounds of `FoldCount`. */
  lemma FoldCountUnique(maxDraw: real, foldCycle: real, n: nat)
    requires foldCycle > 0.0 && maxDraw >= 0.0
    requires n % 2 == 0 && n as real * foldCycle <= maxDraw < (n + 2) as real * foldCycle
    ensures n == FoldCount(maxDraw, foldCycle)
  {
    var m := FoldCount(maxDraw, foldCycle);
    if n < m {
      assert n + 2 <= m;
      ScaleByPositive((n + 2) as real, m as real, foldCycle);
      assert false;
    } else if m < n {
      assert m + 2 <= n;
      ScaleByPositive((m + 2) as real, n as real, foldCycle);
      assert false;
    }
  }

  /** A draw shorter than two fold cycles gives no folds at all: one whole cycle is an odd
      count, which the even rule drops. */
  lemma ShortDrawHasNoFolds(maxDraw: real, foldCycle: real)
    requires foldCycle > 0.0 && 0.0 <= maxDraw < 2.0 * foldCycle
    ensures FoldCount(maxDraw, foldCycle) == 0
  {
    FoldCountUnique(maxDraw, foldCycle, 0);
  }

  /** The pattern generator. Its fields are fixed when it is built; the fold plan is derived then. */
  class ConicBellowsGenerator {
    const frontW: real
    const frontH: real
    const rearW: real
    const rearH: real
    const stiffenerHeight: real
    const gapHeight: real
    const chamfer: real
    const faceGap: real
    const maxDraw: real
    const margin: real
    const foldCycle: real
    const numFolds: nat
    const totalLength: real

    /** The fold plan the constructor derives from the dimensions. */
    ghost predicate Valid()
    {
      && foldCycle == stiffenerHeight + gapHeight
      && foldCycle > 0.0 && maxDraw >= 0.0
      && numFolds == FoldCount(maxDraw, foldCycle)
      && totalLength == numFolds as real * foldCycle
    }

    constructor (frontW: real := 96.0, frontH: real := 96.0, rearW: real := 145.0, rearH: real := 145.0,
                 stiffenerHeight: real := 12.0, gapHeight: real := 2.5, chamfer: real := 1.5,
                 faceGap: real := 5.0, maxDraw: real := 300.0, margin: real := 30.0)
      requires stiffenerHeight + gapHeight > 0.0
      requires maxDraw >= 0.0
      ensures this.frontW == frontW && this.frontH == frontH
      ensures this.rearW == rearW && this.rearH == rearH
      ensures this.stiffenerHeight == stiffenerHeight && this.gapHeight == gapHeight
      ensures this.chamfer == chamfer && this.faceGap == faceGap
      ensures this.maxDraw == maxDraw && this.margin == margin
      ensures Valid()
      ensures numFolds % 2 == 0
      ensures totalLength <= maxDraw < totalLength + 2.0 * foldCycle
    {
      this.frontW := frontW;
      this.frontH := frontH;
      this.rearW := rearW;
      this.rearH := rearH;
      this.stiffenerHeight := stiffenerHeight;
      this.gapHeight := gapHeight;
      this.chamfer := chamfer;
      this.faceGap := faceGap;
      this.maxDraw := maxDraw;
      this.margin := margin;
      var cycle := stiffenerHeight + gapHeight;
      var folds := Trunc(maxDraw / cycle);
      if folds % 2 != 0 {
        folds := folds - 1;
      }
      foldCycle := cycle;
      numFolds := folds;
      totalLength := folds as real * cycle;
      assert folds == FoldCount(maxDraw, cycle);
    }

    /** The default bellows: 12 mm stiffeners and 2.5 mm gaps over a 300 mm draw give 20 folds
        and 290 mm; a 310 mm draw fits 21 folds, which the even rule brings back to 20. */
    lemma DefaultFoldPlan()
      requires Valid() && stiffenerHeight == 12.0 && gapHeight == 2.5
      requires maxDraw == 300.0 || maxDraw == 310.0
      ensures numFolds == 20 && totalLength == 290.0
    {
      FoldCountUnique(maxDraw, foldCycle, 20);
    }

    // ---- Interpolation rules ----

    /** Interpolation by pairs of folds (`get_pair_dimension`): folds 2k and 2k+1 share pair k,
        and pair k sits at ratio k / max(pairs - 1, 1). Inside the plan the value stays between
        the two ends. */
    function GetPairDimension(foldIndex: int, dimSmall: real, dimLarge: real): (d: real)
      ensures numFolds % 2 == 0 && 0 <= foldIndex < numFolds ==> Between(d, dimSmall, dimLarge)
    {
      var pairIndex := FloorDiv(foldIndex, 2);
      var numPairs := FloorDiv(numFolds, 2);
      var ratio := pairIndex as real / Max(numPairs - 1, 1) as real;
      assert numFolds % 2 == 0 && 0 <= foldIndex < numFolds ==> 0.0 <= ratio <= 1.0 by {
        if numFolds % 2 == 0 && 0 <= foldIndex < numFolds {
          RatioMonotone(0, pairIndex, Max(numPairs - 1, 1));
          RatioMonotone(pairIndex, Max(numPairs - 1, 1), Max(numPairs - 1, 1));
        }
      }
      LerpBetweenIf(numFolds % 2 == 0 && 0 <= foldIndex < numFolds, dimSmall, dimLarge, ratio);
      Lerp(dimSmall, dimLarge, ratio)
    }

    /** Interpolation fold by fold (`get_continuous_dimension`): fold i sits at ratio
        i / max(folds - 1, 1). Inside the plan the value stays between the two ends. */
    function GetContinuousDimension(foldIndex: int, dimSmall: real, dimLarge: real): (d: real)
      ensures 0 <= foldIndex < numFolds ==> Between(d, dimSmall, dimLarge)
    {
      var ratio := foldIndex as real / Max(numFolds - 1, 1) as real;
      assert 0 <= foldIndex < numFolds ==> 0.0 <= ratio <= 1.0 by {
        if 0 <= foldIndex < numFolds {
          RatioMonotone(0, foldIndex, Max(numFolds - 1, 1));
          RatioMonotone(foldIndex, Max(numFolds - 1, 1), Max(numFolds - 1, 1));
        }
      }
      LerpBetweenIf(0 <= foldIndex < numFolds, dimSmall, dimLarge, ratio);
      Lerp(dimSmall, dimLarge, ratio)
    }

    // ---- Quadrilateral construction ----

    /** The top and bottom widths of trapezoid `foldIndex`. Even folds run from their pair's width
        down to the next pair's; odd folds the other way round. The last pair instead pairs the
        previous pair's width with the rear width. With at least two pairs and a taper that widens
        toward the rear, both widths lie between the front and rear widths. */
    function TrapezoidWidths(foldIndex: int): (w: Widths)
      ensures numFolds % 2 == 0 && numFolds >= 4 && 0 <= foldIndex < numFolds ==>
                Between(w.top, frontW, rearW) && Between(w.bottom, frontW, rearW)
    {
      var baseWidth := GetPairDimension(foldIndex, frontW, rearW);
      var currentPair := FloorDiv(foldIndex, 2);
      var numPairs := FloorDiv(numFolds, 2);
      var isLastPair := currentPair == numPairs - 1;
      if isLastPair then
        var prevPairWidth := GetPairDimension((numPairs - 2) * 2, frontW, rearW);
        if foldIndex % 2 == 0 then Widths(prevPairWidth, rearW) else Widths(rearW, prevPairWidth)
      else
        var nextWidth := GetPairDimension((currentPair + 1) * 2, frontW, rearW);
        if foldIndex % 2 == 0 then Widths(baseWidth, nextWidth) else Widths(nextWidth, baseWidth)
    }

    /** The line on which the stiffener of fold `foldIndex` starts: one margin, then one fold
        cycle per fold before it. Every fold of the plan starts below the top margin, and its whole
        cycle ends within the folded length. */
    function FoldTop(foldIndex: int): (y: real)
      ensures Valid() && 0 <= foldIndex < numFolds ==> margin <= y && y + foldCycle <= margin + totalLength
    {
      FoldFits(foldIndex);
      margin + foldIndex as real * foldCycle
    }

    /** The line on which the stiffener of fold `foldIndex` ends, one stiffener lower. With a
        gap that is not negative, every stiffener of the plan ends within the folded length. */
    function FoldBottom(foldIndex: int): (y: real)
      ensures Valid() && gapHeight >= 0.0 && 0 <= foldIndex < numFolds ==> y <= margin + totalLength
    {
      FoldTop(foldIndex) + stiffenerHeight
    }

    /** Fold `i` of the plan takes up the cycles from the `i`-th to the `(i+1)`-th. */
    lemma FoldFits(i: int)
      ensures Valid() && 0 <= i < numFolds ==>
                0.0 <= i as real * foldCycle && i as real * foldCycle + foldCycle <= totalLength
    {
      if Valid() && 0 <= i < numFolds {
        ScaleByPositive(0.0, i as real, foldCycle);
        ScaleByPositive((i + 1) as real, numFolds as real, foldCycle);
        NextMultiple(i, foldCycle);
      }
    }

    /** The trapezoid of fold `foldIndex` centred on `xCenter` (`create_trapezoid`): its stiffener
        starts `foldIndex` fold cycles below the margin, is one stiffener high, and its edges are
        the widths `TrapezoidWidths` picks. */
    function CreateTrapezoid(foldIndex: int, xCenter: real): (points: Path)
      ensures IsChamferedQuad(points, chamfer, xCenter, FoldTop(foldIndex), FoldBottom(foldIndex),
                              TrapezoidWidths(foldIndex).top, TrapezoidWidths(foldIndex).bottom)
    {
      var w := TrapezoidWidths(foldIndex);
      var yTop := FoldTop(foldIndex);
      var yBottom := FoldBottom(foldIndex);
      var hwTop := w.top / 2.0;
      var hwBottom := w.bottom / 2.0;
      [Point(xCenter - hwTop + chamfer, yTop),
       Point(xCenter + hwTop - chamfer, yTop),
       Point(xCenter + hwBottom - chamfer, yBottom),
       Point(xCenter - hwBottom + chamfer, yBottom)]
    }

    /** The rectangle of fold `foldIndex` centred on `xCenter` (`create_rectangle`): placed like a
        trapezoid, with top and bottom edges both of the fold's continuous height. */
    function CreateRectangle(foldIndex: int, xCenter: real): (points: Path)
      ensures IsChamferedQuad(points, chamfer, xCenter, FoldTop(foldIndex), FoldBottom(foldIndex),
                              GetContinuousDimension(foldIndex, frontH, rearH),
                              GetContinuousDimension(foldIndex, frontH, rearH))
    {
      var width := GetContinuousDimension(foldIndex, frontH, rearH);
      var yTop := FoldTop(foldIndex);
      var yBottom := FoldBottom(foldIndex);
      var hw := width / 2.0;
      [Point(xCenter - hw + chamfer, yTop),
       Point(xCenter + hw - chamfer, yTop),
       Point(xCenter + hw - chamfer, yBottom),
       Point(xCenter - hw + chamfer, yBottom)]
    }

    /** The path a face of the given shape emits for one fold (`_generate_single_face`): the
        chamfered quadrilateral of the fold, with the trapezoid widths or, for a rectangle, the
        fold's continuous height on both edges. */
    function FacePath(shape: Shape, foldIndex: int, xCenter: real): (points: Path)
      ensures shape == Trapezoid ==>
                IsChamferedQuad(points, chamfer, xCenter, FoldTop(foldIndex), FoldBottom(foldIndex),
                                TrapezoidWidths(foldIndex).top, TrapezoidWidths(foldIndex).bottom)
      ensures shape == Rectangle ==>
                IsChamferedQuad(points, chamfer, xCenter, FoldTop(foldIndex), FoldBottom(foldIndex),
                                GetContinuousDimension(foldIndex, frontH, rearH),
                                GetContinuousDimension(foldIndex, frontH, rearH))
    {
      if shape == Trapezoid then CreateTrapezoid(foldIndex, xCenter) else CreateRectangle(foldIndex, xCenter)
    }

    // ---- Properties of the interpolation rules ----

    /** Folds 2k and 2k+1 get the same pair dimension. */
    lemma PairShared(k: int, dimSmall: real, dimLarge: real)
      ensures GetPairDimension(2 * k, dimSmall, dimLarge) == GetPairDimension(2 * k + 1, dimSmall, dimLarge)
    {
      assert FloorDiv(2 * k, 2) == k && FloorDiv(2 * k + 1, 2) == k;
    }

    /** Pair 0 is the small end; with two pairs or more, the last pair is the large end. */
    lemma PairEnds(dimSmall: real, dimLarge: real)
      ensures GetPairDimension(0, dimSmall, dimLarge) == dimSmall
      ensures GetPairDimension(1, dimSmall, dimLarge) == dimSmall
      ensures FloorDiv(numFolds, 2) >= 2 ==>
                GetPairDimension(2 * FloorDiv(numFolds, 2) - 2, dimSmall, dimLarge) == dimLarge
      ensures FloorDiv(numFolds, 2) >= 2 ==>
                GetPairDimension(2 * FloorDiv(numFolds, 2) - 1, dimSmall, dimLarge) == dimLarge
    {
      var numPairs := FloorDiv(numFolds, 2);
      assert FloorDiv(0, 2) == 0 && FloorDiv(1, 2) == 0;
      if numPairs >= 2 {
        assert FloorDiv(2 * numPairs - 2, 2) == numPairs - 1;
        assert FloorDiv(2 * numPairs - 1, 2) == numPairs - 1;
        assert (numPairs - 1) as real / (numPairs - 1) as real == 1.0;
      }
    }

    /** The pair dimension follows the fold index, rising when `dimSmall <= dimLarge` and
        falling otherwise. */
    lemma PairMonotone(i: int, j: int, dimSmall: real, dimLarge: real)
      requires i <= j
      ensures dimSmall <= dimLarge ==> GetPairDimension(i, dimSmall, dimLarge) <= GetPairDimension(j, dimSmall, dimLarge)
      ensures dimLarge <= dimSmall ==> GetPairDimension(j, dimSmall, dimLarge) <= GetPairDimension(i, dimSmall, dimLarge)
    {
      var d := Max(FloorDiv(numFolds, 2) - 1, 1);
      RatioMonotone(FloorDiv(i, 2), FloorDiv(j, 2), d);
      LerpMonotone(dimSmall, dimLarge, FloorDiv(i, 2) as real / d as real, FloorDiv(j, 2) as real / d as real);
    }

    /** The taper is stepped: with distinct ends, two folds get the same pair dimension exactly
        when they belong to the same pair. */
    lemma PairStepped(i: int, j: int, dimSmall: real, dimLarge: real)
      requires dimSmall != dimLarge
      ensures GetPairDimension(i, dimSmall, dimLarge) == GetPairDimension(j, dimSmall, dimLarge)
              <==> FloorDiv(i, 2) == FloorDiv(j, 2)
    {
      var d := Max(FloorDiv(numFolds, 2) - 1, 1);
      var p, q := FloorDiv(i, 2), FloorDiv(j, 2);
      if p <= q { RatioMonotone(p, q, d); } else { RatioMonotone(q, p, d); }
      LerpInjective(dimSmall, dimLarge, p as real / d as real, q as real / d as real);
    }

    /** Fold 0 is the small end; with two folds or more, the last fold is the large end. */
    lemma ContinuousEnds(dimSmall: real, dimLarge: real)
      ensures GetContinuousDimension(0, dimSmall, dimLarge) == dimSmall
      ensures numFolds >= 2 ==> GetContinuousDimension(numFolds - 1, dimSmall, dimLarge) == dimLarge
    {
      if numFolds >= 2 {
        assert (numFolds - 1) as real / (numFolds - 1) as real == 1.0;
      }
    }

    /** The continuous dimension follows the fold index, rising when `dimSmall <= dimLarge` and
        falling otherwise. */
    lemma ContinuousMonotone(i: int, j: int, dimSmall: real, dimLarge: real)
      requires i <= j
      ensures dimSmall <= dimLarge ==> GetContinuousDimension(i, dimSmall, dimLarge) <= GetContinuousDimension(j, dimSmall, dimLarge)
      ensures dimLarge <= dimSmall ==> GetContinuousDimension(j, dimSmall, dimLarge) <= GetContinuousDimension(i, dimSmall, dimLarge)
    {
      var d := Max(numFolds - 1, 1);
      RatioMonotone(i, j, d);
      LerpMonotone(dimSmall, dimLarge, i as real / d as real, j as real / d as real);
    }

    /** The taper is smooth: with distinct ends, every fold gets its own continuous dimension. */
    lemma ContinuousInjective(i: int, j: int, dimSmall: real, dimLarge: real)
      requires dimSmall != dimLarge
      ensures GetContinuousDimension(i, dimSmall, dimLarge) == GetContinuousDimension(j, dimSmall, dimLarge) <==> i == j
    {
      var d := Max(numFolds - 1, 1);
      if i <= j { RatioMonotone(i, j, d); } else { RatioMonotone(j, i, d); }
      LerpInjective(dimSmall, dimLarge, i as real / d as real, j as real / d as real);
    }

    // ---- Properties of the trapezoids ----

    /** Within a pair, the odd fold is the even fold turned upside down. */
    lemma PairMirroring(k: int)
      ensures TrapezoidWidths(2 * k + 1) == Widths(TrapezoidWidths(2 * k).bottom, TrapezoidWidths(2 * k).top)
    {
      assert FloorDiv(2 * k, 2) == k && FloorDiv(2 * k + 1, 2) == k;
      PairShared(k, frontW, rearW);
    }

    /** The two trapezoids of pair k meet on one edge: it is the rear width in the last pair and the
        next pair's width in every other pair. */
    lemma SeamWidth(k: int)
      ensures TrapezoidWidths(2 * k).bottom == TrapezoidWidths(2 * k + 1).top
      ensures TrapezoidWidths(2 * k).bottom ==
                if k == FloorDiv(numFolds, 2) - 1 then rearW else GetPairDimension(2 * (k + 1), frontW, rearW)
    {
      PairMirroring(k);
      assert FloorDiv(2 * k, 2) == k;
    }

    /** With two pairs or more, the last pair repeats the widths of the pair before it, whose
        shared edge is already the rear width. */
    lemma LastPairRepeatsPrevious()
      requires numFolds % 2 == 0 && numFolds >= 4
      ensures TrapezoidWidths(numFolds - 2) == TrapezoidWidths(numFolds - 4)
      ensures TrapezoidWidths(numFolds - 1) == TrapezoidWidths(numFolds - 3)
      ensures TrapezoidWidths(numFolds - 2).bottom == rearW
    {
      var numPairs := FloorDiv(numFolds, 2);
      assert numFolds == 2 * numPairs;
      assert FloorDiv(numFolds - 2, 2) == numPairs - 1 && FloorDiv(numFolds - 1, 2) == numPairs - 1;
      assert FloorDiv(numFolds - 4, 2) == numPairs - 2 && FloorDiv(numFolds - 3, 2) == numPairs - 2;
      PairEnds(frontW, rearW);
      PairShared(numPairs - 2, frontW, rearW);
    }

    /** With a single pair, the previous pair the last pair looks up is pair -1 (Python's floor
        division of -2 by 2), so the edge that is not the rear width is 2 * front - rear. */
    lemma OnePairWidths()
      requires numFolds == 2
      ensures TrapezoidWidths(0) == Widths(2.0 * frontW - rearW, rearW)
      ensures TrapezoidWidths(1) == Widths(rearW, 2.0 * frontW - rearW)
    {
      assert FloorDiv(-2, 2) == -1 && FloorDiv(0, 2) == 0 && FloorDiv(1, 2) == 0 && FloorDiv(2, 2) == 1;
    }

    /** With a single pair whose narrow edge `2 * frontW - rearW` is shorter than two chamfers,
        the even fold's outline crosses itself: its top-left point lies right of its top-right
        point. */
    lemma OnePairCrossedOutline(xCenter: real)
      requires numFolds == 2 && 2.0 * frontW - rearW < 2.0 * chamfer
      ensures CreateTrapezoid(0, xCenter)[1].x < CreateTrapezoid(0, xCenter)[0].x
    {
      OnePairWidths();
    }

    /** Trapezoids alternate orientation by parity when the taper widens toward the rear: even
        folds are narrow on top and wide at the bottom, odd folds the other way round. */
    lemma TrapezoidOrientation(i: int)
      requires numFolds % 2 == 0 && 0 <= i < numFolds && frontW <= rearW
      ensures i % 2 == 0 ==> TrapezoidWidths(i).top <= TrapezoidWidths(i).bottom
      ensures i % 2 == 1 ==> TrapezoidWidths(i).bottom <= TrapezoidWidths(i).top
    {
      var k := FloorDiv(i, 2);
      var numPairs := FloorDiv(numFolds, 2);
      if numFolds == 2 {
        OnePairWidths();
      } else if k == numPairs - 1 {
        assert Between(TrapezoidWidths((numPairs - 2) * 2).top, frontW, rearW);
      } else {
        PairMonotone(i, (k + 1) * 2, frontW, rearW);
      }
    }

    /** The next fold's stiffener starts exactly one gap below where this fold's ends. */
    lemma ConsecutiveFolds(i: int)
      requires Valid()
      ensures FoldTop(i + 1) == FoldBottom(i) + gapHeight
    {
      NextMultiple(i, foldCycle);
    }

    /** With a taper that widens toward the rear and a chamfer of at most half the front
        dimension of the shape, every path lies in the band of the rear width (trapezoids) or of
        the rear height (rectangles) around its centre. With a single pair the narrow trapezoid
        edge is `2 * frontW - rearW`, which is narrower than the front but still inside the band. */
    lemma PathWithinBand(shape: Shape, i: int, xCenter: real)
      requires numFolds % 2 == 0 && 0 <= i < numFolds && 0.0 <= chamfer
      requires shape == Trapezoid ==> frontW <= rearW && 2.0 * chamfer <= frontW
      requires shape == Rectangle ==> frontH <= rearH && 2.0 * chamfer <= frontH
      ensures var band := if shape == Trapezoid then rearW else rearH;
              WithinBand(FacePath(shape, i, xCenter), xCenter - band / 2.0, xCenter + band / 2.0)
    {
      if shape == Trapezoid && numFolds == 2 {
        OnePairWidths();
      }
    }

    // ---- Layout of the combined sheet ----

    /** The horizontal room each face gets on the combined sheet: the rear width for the
        trapezoid faces, the rear height for the rectangle faces. */
    function BandWidth(f: Face): real
    {
      match f
      case Top => rearW
      case Right => rearH
      case Bottom => rearW
      case Left => rearH
    }

    /** The room taken on the combined sheet by the faces placed left of `f`. */
    function BandsBefore(f: Face): real
    {
      match f
      case Top => 0.0
      case Right => BandWidth(Top)
      case Bottom => BandWidth(Top) + BandWidth(Right)
      case Left => BandWidth(Top) + BandWidth(Right) + BandWidth(Bottom)
    }

    /** The centre line of each face on the combined sheet, computed one face after the other
        from the left margin. It is the margin, plus the bands of the faces before it and one face
        gap after each of them, plus half its own band. */
    function FaceCenter(f: Face): (x: real)
      ensures x == margin + BandsBefore(f) + FaceOrder(f) as real * faceGap + BandWidth(f) / 2.0
    {
      var x1 := margin + rearW / 2.0;
      var x2 := x1 + rearW / 2.0 + faceGap + rearH / 2.0;
      var x3 := x2 + rearH / 2.0 + faceGap + rearW / 2.0;
      var x4 := x3 + rearW / 2.0 + faceGap + rearH / 2.0;
      match f
      case Top => x1
      case Right => x2
      case Bottom => x3
      case Left => x4
    }

    function FaceShape(f: Face): Shape
    {
      if f == Top || f == Bottom then Trapezoid else Rectangle
    }

    function LeftEdge(f: Face): real { FaceCenter(f) - BandWidth(f) / 2.0 }

    function RightEdge(f: Face): real { FaceCenter(f) + BandWidth(f) / 2.0 }

    /** The position of a face on the combined sheet, counted from the left. */
    function FaceOrder(f: Face): nat
    {
      match f
      case Top => 0
      case Right => 1
      case Bottom => 2
      case Left => 3
    }

    /** The path face `f` emits for fold `i` on the combined sheet. */
    function CombinedPath(f: Face, i: int): Path
    {
      FacePath(FaceShape(f), i, FaceCenter(f))
    }

    /** The bands of the faces follow one another from the left margin, one face gap apart. */
    lemma CombinedBandsAbut()
      ensures LeftEdge(Top) == margin
      ensures RightEdge(Top) + faceGap == LeftEdge(Right)
      ensures RightEdge(Right) + faceGap == LeftEdge(Bottom)
      ensures RightEdge(Bottom) + faceGap == LeftEdge(Left)
    {
    }

    /** With a positive face gap (and the conditions of `PathWithinBand`), every point of a face's
        path lies strictly left of every point of any path of a face placed after it. */
    lemma FacesDoNotOverlap(f: Face, g: Face, i: int, j: int)
      requires FaceOrder(f) < FaceOrder(g)
      requires faceGap > 0.0
      requires numFolds % 2 == 0 && 0 <= i < numFolds && 0 <= j < numFolds
      requires frontW <= rearW && frontH <= rearH
      requires 0.0 <= chamfer && 2.0 * chamfer <= frontW && 2.0 * chamfer <= frontH
      ensures forall a, b :: 0 <= a < 4 && 0 <= b < 4 ==> CombinedPath(f, i)[a].x < CombinedPath(g, j)[b].x
    {
      PathWithinBand(FaceShape(f), i, FaceCenter(f));
      PathWithinBand(FaceShape(g), j, FaceCenter(g));
      CombinedBandsAbut();
      assert RightEdge(f) < LeftEdge(g);
    }

    // ---- Emission ----

    /** The sheet with all four faces side by side (`_generate_combined`): for every fold, in
        order, the top trapezoid, the right rectangle, the bottom trapezoid and the left rectangle.
        The canvas ends one margin after the last face's band and is the folded length plus two
        margins high. */
    method GenerateCombined() returns (sheet: Sheet)
      ensures sheet.width == RightEdge(Left) + margin
      ensures sheet.height == totalLength + 2.0 * margin
      ensures |sheet.paths| == 4 * numFolds
      ensures forall i :: 0 <= i < numFolds ==>
                && sheet.paths[4 * i] == CreateTrapezoid(i, FaceCenter(Top))
                && sheet.paths[4 * i + 1] == CreateRectangle(i, FaceCenter(Right))
                && sheet.paths[4 * i + 2] == CreateTrapezoid(i, FaceCenter(Bottom))
                && sheet.paths[4 * i + 3] == CreateRectangle(i, FaceCenter(Left))
    {
      var xFace1 := FaceCenter(Top);
      var xFace2 := FaceCenter(Right);
      var xFace3 := FaceCenter(Bottom);
      var xFace4 := FaceCenter(Left);
      var totalWidth := rearW * 2.0 + rearH * 2.0 + faceGap * 3.0;
      var canvasWidth := totalWidth + margin * 2.0;
      var canvasHeight := totalLength + margin * 2.0;
      var paths: seq<Path> := [];
      var i := 0;
      while i < numFolds
        invariant 0 <= i <= numFolds
        invariant |paths| == 4 * i
        invariant forall j :: 0 <= j < i ==>
                    && paths[4 * j] == CreateTrapezoid(j, xFace1)
                    && paths[4 * j + 1] == CreateRectangle(j, xFace2)
                    && paths[4 * j + 2] == CreateTrapezoid(j, xFace3)
                    && paths[4 * j + 3] == CreateRectangle(j, xFace4)
      {
        paths := paths + [CreateTrapezoid(i, xFace1), CreateRectangle(i, xFace2),
                          CreateTrapezoid(i, xFace3), CreateRectangle(i, xFace4)];
        i := i + 1;
      }
      sheet := Sheet(canvasWidth, canvasHeight, paths);
    }

    /** The sheet of one face (`_generate_single_face`): one path per fold, all centred on the
        canvas, which is `dimLarge` plus two margins wide and the folded length plus two margins
        high. `dimSmall` is accepted and unused, as in the source. */
    method GenerateSingleFace(shape: Shape, dimSmall: real, dimLarge: real) returns (sheet: Sheet)
      ensures sheet.width == dimLarge + 2.0 * margin
      ensures sheet.height == totalLength + 2.0 * margin
      ensures |sheet.paths| == numFolds
      ensures forall i :: 0 <= i < numFolds ==> sheet.paths[i] == FacePath(shape, i, sheet.width / 2.0)
    {
      var maxWidth := dimLarge;
      var canvasWidth := maxWidth + margin * 2.0;
      var canvasHeight := totalLength + margin * 2.0;
      var xCenter := margin + maxWidth / 2.0;
      var paths: seq<Path> := [];
      var i := 0;
      while i < numFolds
        invariant 0 <= i <= numFolds
        invariant |paths| == i
        invariant forall j :: 0 <= j < i ==> paths[j] == FacePath(shape, j, xCenter)
      {
        var points;
        if shape == Trapezoid {
          points := CreateTrapezoid(i, xCenter);
        } else {
          points := CreateRectangle(i, xCenter);
        }
        paths := paths + [points];
        i := i + 1;
      }
      sheet := Sheet(canvasWidth, canvasHeight, paths);
    }

    /** The four single-face sheets (`_generate_separate_faces`): top, right, bottom, left; the
        trapezoid sheets are as wide as the rear width, the rectangle sheets as the rear height. */
    method GenerateSeparateFaces() returns (sheets: seq<Sheet>)
      ensures |sheets| == 4
      ensures forall j :: 0 <= j < 4 ==>
                && sheets[j].height == totalLength + 2.0 * margin
                && |sheets[j].paths| == numFolds
      ensures sheets[0].width == rearW + 2.0 * margin && sheets[2].width == rearW + 2.0 * margin
      ensures sheets[1].width == rearH + 2.0 * margin && sheets[3].width == rearH + 2.0 * margin
      ensures forall i :: 0 <= i < numFolds ==>
                && sheets[0].paths[i] == CreateTrapezoid(i, margin + rearW / 2.0)
                && sheets[1].paths[i] == CreateRectangle(i, margin + rearH / 2.0)
                && sheets[2].paths[i] == CreateTrapezoid(i, margin + rearW / 2.0)
                && sheets[3].paths[i] == CreateRectangle(i, margin + rearH / 2.0)
    {
      var top := GenerateSingleFace(Trapezoid, frontW, rearW);
      var right := GenerateSingleFace(Rectangle, frontH, rearH);
      var bottom := GenerateSingleFace(Trapezoid, frontW, rearW);
      var left := GenerateSingleFace(Rectangle, frontH, rearH);
      sheets := [top, right, bottom, left];
    }

    /** `generate_svg`: one combined sheet by default, or the four single-face sheets. */
    method GenerateSvg(separateFaces: bool := false) returns (sheets: seq<Sheet>)
      ensures |sheets| == if separateFaces then 4 else 1
      ensures forall j :: 0 <= j < |sheets| ==> sheets[j].height == totalLength + 2.0 * margin
      ensures !separateFaces ==>
                && sheets[0].width == RightEdge(Left) + margin
                && |sheets[0].paths| == 4 * numFolds
                && forall i :: 0 <= i < numFolds ==>
                     && sheets[0].paths[4 * i] == CreateTrapezoid(i, FaceCenter(Top))
                     && sheets[0].paths[4 * i + 1] == CreateRectangle(i, FaceCenter(Right))
                     && sheets[0].paths[4 * i + 2] == CreateTrapezoid(i, FaceCenter(Bottom))
                     && sheets[0].paths[4 * i + 3] == CreateRectangle(i, FaceCenter(Left))
      ensures separateFaces ==>
                && (forall j :: 0 <= j < 4 ==> |sheets[j].paths| == numFolds)
                && sheets[0].width == rearW + 2.0 * margin && sheets[2].width == rearW + 2.0 * margin
                && sheets[1].width == rearH + 2.0 * margin && sheets[3].width == rearH + 2.0 * margin
                && forall i :: 0 <= i < numFolds ==>
                     && sheets[0].paths[i] == CreateTrapezoid(i, margin + rearW / 2.0)
                     && sheets[1].paths[i] == CreateRectangle(i, margin + rearH / 2.0)
                     && sheets[2].paths[i] == CreateTrapezoid(i, margin + rearW / 2.0)
                     && sheets[3].paths[i] == CreateRectangle(i, margin + rearH / 2.0)
    {
      if separateFaces {
        sheets := GenerateSeparateFaces();
      } else {
        var combined := GenerateCombined();
        sheets := [combined];
      }
    }

    /** `split_to_pages`, on A4 unless told otherwise: an unsupported format gives no files; a sheet that fits on one page is
        returned as it is; otherwise the sheet is cut into `rows * cols` page-sized tiles, listed
        row by row, where `cols` and `rows` are the fewest pages that cover its width and height. */
    static method SplitToPages(svgWidth: real, svgHeight: real, pageFormat: string := "A4") returns (pages: seq<Page>)
      ensures pageFormat !in PageSizes() ==> pages == []
      ensures pageFormat in PageSizes() ==>
                var size := PageSizes()[pageFormat];
                var cols := Ceil(svgWidth / size.width as real);
                var rows := Ceil(svgHeight / size.height as real);
                && (cols == 1 && rows == 1 ==> pages == [WholeFile])
                && (!(cols == 1 && rows == 1) ==>
                      && |pages| == Max(rows, 0) * Max(cols, 0)
                      && forall k :: 0 <= k < |pages| ==> IsTile(pages[k], k, cols, size) && pages[k].row < rows)
    {
      if pageFormat !in PageSizes() {
        return [];
      }
      var size := PageSizes()[pageFormat];
      var cols := Ceil(svgWidth / size.width as real);
      var rows := Ceil(svgHeight / size.height as real);
      if cols == 1 && rows == 1 {
        return [WholeFile];
      }
      pages := [];
      var row := 0;
      while row < rows
        invariant 0 <= row <= Max(rows, 0)
        invariant |pages| == row * Max(cols, 0)
        invariant forall k :: 0 <= k < |pages| ==> IsTile(pages[k], k, cols, size) && pages[k].row < row
      {
        var col := 0;
        while col < cols
          invariant 0 <= col <= Max(cols, 0)
          invariant |pages| == row * Max(cols, 0) + col
          invariant forall k :: 0 <= k < |pages| ==> IsTile(pages[k], k, cols, size) && pages[k].row <= row
          invariant forall k :: 0 <= k < row * Max(cols, 0) ==> pages[k].row < row
        {
          var xOffset := col * size.width;
          var yOffset := row * size.height;
          pages := pages + [Tile(row, col, xOffset, yOffset, size)];
          col := col + 1;
        }
        row := row + 1;
      }
    }
  }

  /** A generator built with every default, as the program's default run builds it: 20 folds
      over 290 mm. */
  method DefaultGenerator() returns (g: ConicBellowsGenerator)
    ensures g.Valid() && g.numFolds == 20 && g.totalLength == 290.0
    ensures g.frontW == 96.0 && g.rearW == 145.0 && g.frontH == 96.0 && g.rearH == 145.0
  {
    g := new ConicBellowsGenerator();
    g.DefaultFoldPlan();
  }

  /** Along one axis the grid of `split_to_pages` is just large enough: `n - 1` pages fall short
      of the sheet, `n` pages cover it. */
  lemma GridCoversSheet(extent: real, pageExtent: int)
    requires pageExtent > 0
    ensures var n := Ceil(extent / pageExtent as real);
            (n - 1) as real * pageExtent as real < extent <= n as real * pageExtent as real
  {
    var q := extent / pageExtent as real;
    var n := Ceil(q);
    assert extent == q * pageExtent as real;
    ScaleByPositive((n - 1) as real, q, pageExtent as real);
    ScaleByPositive(q, n as real, pageExtent as real);
    assert (n - 1) as real * pageExtent as real < extent;
    assert extent <= n as real * pageExtent as real;
  }

  /** Every point of a sheet of positive extent falls on a tile of the grid: the tile at its
      floor index, which lies within the grid and spans the point. */
  lemma PointOnSomeTile(x: real, extent: real, pageExtent: int)
    requires pageExtent > 0 && 0.0 <= x < extent
    ensures var c := Trunc(x / pageExtent as real);
            && c < Ceil(extent / pageExtent as real)
            && c as real * pageExtent as real <= x < (c + 1) as real * pageExtent as real
  {
    var p := pageExtent as real;
    var q := x / p;
    var c := Trunc(q);
    assert x == q * p;
    ScaleByPositive(c as real, q, p);
    assert q < (c + 1) as real;
    ScaleByPositive(q, (c + 1) as real, p);
    assert q * p < (c + 1) as real * p;
    assert c as real * p <= x;
    assert x < (c + 1) as real * p;
    GridCoversSheet(extent, pageExtent);
    var n := Ceil(extent / p);
    if c >= n {
      ScaleByPositive(n as real, c as real, p);
      assert false;
    }
  }
}
