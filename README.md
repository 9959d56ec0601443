# Conic bellows pattern generator — a Dafny model

This project models the geometry core of a generator for the flat cutting pattern of a conic
camera bellows. A bellows has four faces (top, right, bottom, left). Each face is a column of
stiffener strips, one per fold, separated by folding gaps. The generator works in three steps:

- **Fold plan.** It fits as many fold cycles (stiffener height plus gap height) into the maximum
  draw as it can, always keeping an even number of folds.
- **Tapered shapes.** The top and bottom faces are trapezoids whose widths change once per pair
  of folds, from the front width to the rear width. The two trapezoids of a pair are mirror
  images. The left and right faces are rectangles whose width changes at every fold, from the
  front height to the rear height.
- **Sheets and pages.** It places the four faces side by side on one sheet, or puts each face on
  its own sheet. It can then tile a sheet over A4 or A3 pages.

The module `BellowsGenerator` holds the class `ConicBellowsGenerator`. Its fields are fixed once
the constructor has computed the fold plan, so they are `const`. `Valid()` is the fold-plan
invariant the constructor establishes. The module `Numeric` models Python's semantics over
unbounded numbers:

- floor division `//` (`FloorDiv`);
- `int()` of a non-negative float (`Trunc`);
- `math.ceil` (`Ceil`);
- `max` (`Max`);
- linear interpolation (`Lerp`).

An SVG path becomes a `Path`, a sequence of four `Point`s. An emitted SVG file becomes a
`Sheet`: canvas width, canvas height and paths in emission order. A page file from the splitter
becomes a `Page`: either the unchanged input file or a tile with its grid position and viewBox
offset.

Three behaviours of the code worth knowing:

- With exactly two folds (one pair), the last-pair rule looks up its previous pair at fold index
  `(1 - 2) * 2 = -2`. Python's floor division resolves that to pair `-1`, so the edge that is not
  the rear width is `2 * front_w - rear_w` (47 mm with the default dimensions), not the front
  width. The model keeps this behaviour as written (`OnePairWidths`). When that edge is shorter
  than two chamfers, the emitted outline crosses itself: its top-left point lies right of its
  top-right point, so the two labelled corners swap (`OnePairCrossedOutline`).
- The top margin is part of every fold's position: `y_top = margin + i * fold_cycle`.
- The constructor does not validate its parameters. The model's constructor requires
  `stiffener_height + gap_height > 0` and `max_draw >= 0`; see "Left out".

## Model

| member | source | states |
|---|---|---|
| BellowsGenerator.FoldCount | bellows_generator.py:64-71 | The fold count is even, and it is the largest even count of whole fold cycles that fits into the maximum draw: `n * cycle <= max_draw < (n + 2) * cycle`. |
| BellowsGenerator.TruncTimesCycle | bellows_generator.py:66 | `int(max_draw / cycle)` whole cycles fit into the draw, and one more cycle would exceed it. |
| BellowsGenerator.FoldCountUnique | bellows_generator.py:64-71 | Exactly one even count satisfies the bracketing of `FoldCount`, so that bracketing fully characterises the fold plan. |
| BellowsGenerator.ShortDrawHasNoFolds | bellows_generator.py:66-69 | A draw shorter than two fold cycles gives zero folds: one whole cycle is an odd count, which the even rule drops. |
| BellowsGenerator.ConicBellowsGenerator.DefaultFoldPlan | bellows_generator.py:27-71 | A generator with the default 12 mm stiffeners and 2.5 mm gaps and a draw of 300 mm has 20 folds and a total length of 290 mm. A draw of 310 mm also gives 20 folds, because the odd count 21 is rounded down. |
| BellowsGenerator.DefaultGenerator | bellows_generator.py:27-71 | The generator built with every default value has 20 folds over 290 mm, front 96 x 96 mm and rear 145 x 145 mm. |
| BellowsGenerator.ConicBellowsGenerator.constructor | bellows_generator.py:27-71 | Stores every dimension. The fold cycle is stiffener plus gap, the count is even, and the total length is `num_folds * fold_cycle`, which lies within two cycles below the maximum draw. |
| BellowsGenerator.ConicBellowsGenerator.GetPairDimension | bellows_generator.py:73-89 | For an index within an even fold plan, the pair dimension lies between the small and large dimensions. |
| BellowsGenerator.ConicBellowsGenerator.PairShared | bellows_generator.py:86-89 | Folds `2k` and `2k+1` get the same pair dimension. |
| BellowsGenerator.ConicBellowsGenerator.PairEnds | bellows_generator.py:86-89 | Pair 0 gets the small dimension. With two pairs or more, the last pair gets the large dimension. |
| BellowsGenerator.ConicBellowsGenerator.PairMonotone | bellows_generator.py:86-89 | The pair dimension rises with the fold index when small ≤ large, and falls when small ≥ large. |
| BellowsGenerator.ConicBellowsGenerator.PairStepped | bellows_generator.py:73-89 | With distinct ends, two folds get equal pair dimensions if and only if they belong to the same pair. |
| BellowsGenerator.ConicBellowsGenerator.GetContinuousDimension | bellows_generator.py:91-105 | For an index within an even fold plan, the continuous dimension lies between the small and large dimensions. |
| BellowsGenerator.ConicBellowsGenerator.ContinuousEnds | bellows_generator.py:104-105 | Fold 0 gets the small dimension. With two folds or more, the last fold gets the large dimension. |
| BellowsGenerator.ConicBellowsGenerator.ContinuousMonotone | bellows_generator.py:104-105 | The continuous dimension rises with the fold index when small ≤ large, and falls when small ≥ large. |
| BellowsGenerator.ConicBellowsGenerator.ContinuousInjective | bellows_generator.py:91-105 | With distinct ends, two folds get equal continuous dimensions if and only if they are the same fold. |
| BellowsGenerator.ConicBellowsGenerator.TrapezoidWidths | bellows_generator.py:122-145 | In an even plan of two pairs or more, both edges of every trapezoid lie between the front and rear widths, whichever of the two is larger. |
| BellowsGenerator.ConicBellowsGenerator.TrapezoidOrientation | bellows_generator.py:109-145 | In an even plan, including the one-pair plan, with front width ≤ rear width, even folds are narrow on top and wide at the bottom (▽), and odd folds are wide on top and narrow at the bottom (△). |
| BellowsGenerator.ConicBellowsGenerator.PairMirroring | bellows_generator.py:127-145 | The odd fold of a pair is the even fold upside down: its top and bottom widths are swapped. |
| BellowsGenerator.ConicBellowsGenerator.SeamWidth | bellows_generator.py:127-145 | The two trapezoids of a pair share the edge where they meet. That edge is the rear width in the last pair, and the next pair's width in every other pair. |
| BellowsGenerator.ConicBellowsGenerator.LastPairRepeatsPrevious | bellows_generator.py:128-136 | With two pairs or more, the last pair has the same widths as the pair before it, and its shared edge is the rear width. |
| BellowsGenerator.ConicBellowsGenerator.OnePairWidths | bellows_generator.py:123-136 | With a single pair, the widths are `(2*front - rear, rear)` and `(rear, 2*front - rear)`. |
| BellowsGenerator.ConicBellowsGenerator.OnePairCrossedOutline | bellows_generator.py:128-161 | With a single pair whose narrow edge `2*front - rear` is shorter than two chamfers, the first fold's top-left point lies right of its top-right point. |
| BellowsGenerator.ConicBellowsGenerator.CreateTrapezoid | bellows_generator.py:147-161 | Four points: a top edge at the fold's top and a bottom edge one stiffener lower. Each edge is symmetric about the centre and is its width minus twice the chamfer long. |
| BellowsGenerator.ConicBellowsGenerator.CreateRectangle | bellows_generator.py:175-186 | The same chamfered quadrilateral, with both edges at the fold's continuous height dimension. |
| BellowsGenerator.ConicBellowsGenerator.FoldTop | bellows_generator.py:148 | Every fold of the plan starts at or below the top margin, and the fold's whole cycle ends within the folded length. |
| BellowsGenerator.ConicBellowsGenerator.FoldBottom | bellows_generator.py:149 | When the gap is not negative, every stiffener of the plan ends within the folded length. |
| BellowsGenerator.ConicBellowsGenerator.FoldFits | bellows_generator.py:148-149 | Fold `i` of the plan occupies the stretch from `i` cycles to `i + 1` cycles, which lies inside the total length. |
| BellowsGenerator.ConicBellowsGenerator.FacePath | bellows_generator.py:288-292 | The path of one fold of a single face is the chamfered quadrilateral at that fold's position. A trapezoid face uses the trapezoid widths; a rectangle face uses the fold's continuous height on both edges. |
| BellowsGenerator.ConicBellowsGenerator.ConsecutiveFolds | bellows_generator.py:148-149 | The next fold's stiffener starts exactly one gap below the end of this fold's stiffener. |
| BellowsGenerator.ConicBellowsGenerator.PathWithinBand | bellows_generator.py:151-161 | Take any fold of an even plan, including the one-pair plan, and a non-negative chamfer. For a trapezoid, suppose front width ≤ rear width and the chamfer is at most half the front width. For a rectangle, suppose front height ≤ rear height and the chamfer is at most half the front height. Then every point of the path lies within the rear width (trapezoids) or rear height (rectangles) around its centre. |
| BellowsGenerator.ConicBellowsGenerator.FaceCenter | bellows_generator.py:216-220 | Each face's centre is the margin, plus the bands of the faces to its left with one face gap after each, plus half its own band. |
| BellowsGenerator.ConicBellowsGenerator.CombinedBandsAbut | bellows_generator.py:216-220 | The first face's band starts at the margin, and each later band starts one face gap after the previous band ends. |
| BellowsGenerator.ConicBellowsGenerator.FacesDoNotOverlap | bellows_generator.py:216-245 | Assume a positive face gap, an even plan and a taper that widens toward the rear. Assume also a chamfer between 0 and half the front dimensions. Then every point of a face's path for any fold lies strictly left of every point of a later face's path for any fold. |
| BellowsGenerator.ConicBellowsGenerator.GenerateCombined | bellows_generator.py:213-253 | The canvas is one margin wider than the last face's band and is the total length plus two margins high. For each fold it holds four paths: top trapezoid, right rectangle, bottom trapezoid, left rectangle, at the face centres. |
| BellowsGenerator.ConicBellowsGenerator.GenerateSingleFace | bellows_generator.py:278-301 | The canvas is the large dimension plus two margins wide. There is one path per fold, centred on the sheet, of the requested shape. |
| BellowsGenerator.ConicBellowsGenerator.GenerateSeparateFaces | bellows_generator.py:255-276 | Four sheets (top, right, bottom, left) with their widths, heights and the paths of each face. |
| BellowsGenerator.ConicBellowsGenerator.GenerateSvg | bellows_generator.py:197-211 | By default it returns one combined sheet: its width, its height and, fold by fold, the top, right, bottom and left paths at the face centres. With separate faces it returns the four single-face sheets, top, right, bottom and left, with their widths, heights and every path. |
| BellowsGenerator.ConicBellowsGenerator.SplitToPages | bellows_generator.py:312-382 | The format is A4 unless another is given. An unknown format gives no pages. A sheet that fits on one page is returned whole. Otherwise there are `rows * cols` tiles in row-major order, each at offset `(col * page_w, row * page_h)`. |
| BellowsGenerator.GridCoversSheet | bellows_generator.py:342-344 | The page count along an axis is the fewest that cover the sheet: `n - 1` pages fall short, and `n` pages reach its edge. |
| BellowsGenerator.PointOnSomeTile | bellows_generator.py:342-360 | Every point of the sheet lies on a tile in the grid, namely the one at its floor index. |
| Numeric.FloorDiv | bellows_generator.py:86-87 | The quotient of Python's `//` for a positive divisor: `b*q <= a < b*q + b`. |
| Numeric.Trunc | bellows_generator.py:66 | `int()` of a non-negative float: the whole number `n` with `n <= x < n + 1`. |
| Numeric.Ceil | bellows_generator.py:343-344 | `math.ceil`: the whole number `n` with `n - 1 < x <= n`. |
| BellowsGenerator.PageSizes | bellows_generator.py:324-327 | Exactly two formats exist: A4 at 210 x 297 mm and A3 at 297 x 420 mm. Both are portrait with positive sides, and A3 is as wide as A4 is high. |
| Numeric.Lerp | bellows_generator.py:89 | The interpolation both dimension rules share: ratio 0 gives the small end and ratio 1 the large end. |
| Numeric.Max | bellows_generator.py:88 | `max` of two integers: at least both, and equal to one of them. |
| Numeric.LerpBetween | bellows_generator.py:89 | For a ratio in `[0, 1]`, the interpolated value lies between the two ends. |
| Numeric.LerpMonotone | bellows_generator.py:105 | Interpolation follows the ratio, in the direction from the small end to the large end. |
| Numeric.LerpInjective | bellows_generator.py:105 | With distinct ends, equal interpolated values mean equal ratios. |

## Left out

- SVG text is not modelled. This covers `points_to_path` with its two-decimal formatting, `_create_svg_header`, the `<g>` group and the page headers. A path is kept as its four points.
- Stroke width and stroke color are not modelled. They affect only the SVG text.
- File writing, `os.path.splitext` and the output file names are not modelled. A written file is a `Sheet` or a `Page` value, and the file order is the order of the returned sequence.
- `split_to_pages` reads the sheet's width and height from its SVG file. In the model they are parameters. The copying of the sheet's content into each page is left out.
- `convert_svg_to_format` is not modelled. It hands the file to external PNG/JPEG/PDF libraries.
- `main` is not modelled. It parses arguments, calls the operations and prints the outcome.
- The messages printed by `split_to_pages` are not modelled.
- Floating point is modelled as exact reals, so rounding error is not captured.
- BellowsGenerator.ConicBellowsGenerator.constructor: requires `stiffener_height + gap_height > 0` and `max_draw >= 0`. The source would raise `ZeroDivisionError` on a zero cycle, and would truncate toward zero for negative values. These cases are not modelled.
- The shape-type string of `_generate_single_face` is the datatype `Shape`. Every string other than `"trapezoid"` produced a rectangle; the two values cover both outcomes.
- BellowsGenerator.ConicBellowsGenerator.GenerateSingleFace: the small dimension is taken but unused, as in the source.
