# Word-cloud layout engine, modelled in Dafny

This project models the layout core of the React word-cloud generator. The core is a greedy,
largest-first packer of axis-aligned rectangles. One layout pass does the following:

- it sizes every word from its value: a clamped linear font scale and a character-count box estimate;
- it sorts the words by descending value;
- it offers each word in turn to one of four candidate searches: circular spiral, archimedean
  spiral, jittered polar grid ("horizontal") or loose random placement;
- it calls that search up to 100 times per word;
- it keeps the words that found a box that collides with no earlier box, and drops the rest.

Modules follow the structure of the program:

- `Geometry` (geometry.dfy): the `Word`, `Position` and `PlacedWord` records and `checkCollision`,
  the padded overlap test.
- `Sizing` (sizing.dfy): `calculateFontSize` and `calculateWordDimensions`, including a model of the
  font-size formula as written with JavaScript's NaN and infinities.
- `Ordering` (ordering.dfy): the `[...words].sort((a, b) => b.value - a.value)` step. This is a
  stable sort, since `Array.prototype.sort` has been stable since ES2019. It also holds the
  subsequence relation used to state what a layout keeps.
- `Placement` (placement.dfy): the four `find*Position` functions.
  - Each is an imperative method with the source's loop.
  - Each is proved equal to `Scan`, the first admissible candidate of an explicit candidate
    sequence.
  - The properties of a search are then proved about `Scan` and about the candidates.
- `Layout` (layout.dfy): the retry loop and `calculateLayout`.
  - The methods `PlaceWord` and `CalculateLayout` keep the source's `while` and `forEach` loops.
  - They are proved equal to the functions `Retry` and `LayoutOf`.
  - The layout-wide properties are proved as lemmas about those functions: no two placed words
    collide, font sizes lie in their bounds, the output is the sorted input less the dropped
    words, and spiral layouts use no randomness. Archimedean and grid boxes lie in the
    container; loose ones do too when the draws lie in [0, 1) and the word fits. Circular boxes
    may not.
- `RealArith` and `Wrappers`: small helpers on reals, and `Option` as the model of `null`.

The platform is passed in as a value `Env`:

- `Math.cos` and `Math.sin` are uninterpreted functions;
- `Math.random()` is a stream of draws: draw `i` is the i-th call, and every call that draws
  takes and returns a cursor into the stream;
- the sort `positions.sort(() => Math.random() - 0.5)` is two functions of the list and of the
  cursor at which its comparator starts drawing: the order it produces, and the number of
  comparator calls (one draw each) it makes. Both depend on the engine's sort algorithm, so
  the model leaves them open. The grid search is charged its jitter draws and then the
  comparator's draws, so a later search starts at the right cursor.

States that the platform is expected to satisfy are predicates used in `requires` of the lemmas
that need them:

- `DrawsInUnitInterval`: draws lie in [0, 1);
- `ShuffleIsPermutation`: the reordering is a permutation;
- `SortComparesAll`: sorting n >= 2 entries calls the comparator at least n - 1 times.

Coordinates and sizes are mathematical reals. Loop variables that the code advances by `+= 0.1`
or `+= gridSize` are taken as exact multiples of the step (`Offset(k, step)`).

Word widths count characters as JavaScript's `text.length` does, in UTF-16 code units: a
character beyond the Basic Multilingual Plane, such as an emoji, counts twice
(`Sizing.Utf16Length`, `Sizing.EmojiCountsTwice`).

Two behaviours of the code are worth knowing:

- **Circular search bounds.** `findCircularPosition`
  (word-cloud-test/src/utils/wordCloudUtils.ts:77-85) checks only for collisions, so circular
  layouts may leave the container. `Placement.CircularIgnoresBounds` proves that a word wider
  than the container, placed into an empty layout, has its left edge outside it. The
  in-container guarantee is proved only for the archimedean and grid searches, and for the loose
  search when the draws lie in [0, 1) and the word fits.
- **Unmatched shape.** A shape string that matches none of the four branches
  (word-cloud-test/src/components/WordCloudCanvas.tsx:61-69) runs no search, so every word is
  dropped. `Shape.Unknown` models that case, and `Layout.LayoutOfUnknownShape` proves that the
  layout is then empty.

## Model

| member | source | states |
|---|---|---|
| Geometry.CheckCollision | word-cloud-test/src/utils/wordCloudUtils.ts:152-160 | the test is true iff some placed word's box overlaps the candidate, under the four strict padded separation comparisons |
| Geometry.Overlaps | word-cloud-test/src/utils/wordCloudUtils.ts:154-159 | a candidate collides with one placed box iff their spans, each grown by the padding at its far end, meet on both axes |
| Geometry.OverlapsIffPaddedBoxesMeet | word-cloud-test/src/utils/wordCloudUtils.ts:154-159 | for boxes of non-negative extent, the negated separation test holds iff the two boxes, each grown by the padding to the right and downwards, share a point |
| Geometry.CollisionSymmetric | word-cloud-test/src/utils/wordCloudUtils.ts:154-159 | swapping candidate and placed word gives the same answer |
| Geometry.GapOfExactlyPaddingCollides | word-cloud-test/src/utils/wordCloudUtils.ts:153-159 | for boxes whose padded vertical spans meet, a horizontal gap of exactly 4 still collides, both ways round, and any larger gap separates them |
| Geometry.NoCollisionWithEmptyLayout | word-cloud-test/src/utils/wordCloudUtils.ts:154 | `some` over an empty list is false: nothing collides with an empty layout |
| Geometry.CollisionWithAppend | word-cloud-test/src/utils/wordCloudUtils.ts:154 | colliding with a concatenation is colliding with one of its parts |
| Geometry.AppendKeepsNonOverlapping | word-cloud-test/src/components/WordCloudCanvas.tsx:73-75 | appending a word that collides with no placed word keeps the layout pairwise non-overlapping |
| Geometry.Place | word-cloud-test/src/components/WordCloudCanvas.tsx:74 | the `{ ...word, ...position, fontSize }` record carries exactly the word, the box and the font size |
| Sizing.MaxValue | word-cloud-test/src/components/WordCloudCanvas.tsx:35 | the result bounds every value and is the value of some word; it is 0 when there are no words |
| Sizing.MaxFrom | word-cloud-test/src/components/WordCloudCanvas.tsx:35 | `Math.max` folded over the values from a start value: at least the start and every value, and equal to one of them |
| Sizing.FontSize | word-cloud-test/src/components/WordCloudCanvas.tsx:38-41 | the font size is never below minFontSize, never above maxFontSize when the bounds are ordered, and a zero maximum gives minFontSize |
| Sizing.Scale | word-cloud-test/src/components/WordCloudCanvas.tsx:39 | the guarded scale `value / maxValue`: 0 for a zero maximum, in [0, 1] for values in [0, maxValue], and 1 at the maximum |
| Sizing.Lerp | word-cloud-test/src/components/WordCloudCanvas.tsx:40 | `min + scale * (max - min)`: min at scale 0 and max at scale 1 |
| Sizing.FontSizeAsWritten | word-cloud-test/src/components/WordCloudCanvas.tsx:38-41 | the formula as written never yields an infinity, since the clamp absorbs it; for a non-zero maximum it is finite, and a finite result is at least minFontSize |
| Sizing.FontSizeMonotone | word-cloud-test/src/components/WordCloudCanvas.tsx:38-41 | with a positive maximum and ordered bounds, a larger value never gets a smaller font |
| Sizing.FontSizeAtMaxValue | word-cloud-test/src/components/WordCloudCanvas.tsx:39-40 | the word of largest value gets maxFontSize |
| Sizing.FontSizeInterpolates | word-cloud-test/src/components/WordCloudCanvas.tsx:38-41 | for values in [0, maxValue] the clamp never triggers: the size is the linear interpolation between the bounds |
| Sizing.Divide | word-cloud-test/src/components/WordCloudCanvas.tsx:39 | JavaScript division of finite numbers yields NaN exactly for 0 / 0 |
| Sizing.Times | word-cloud-test/src/components/WordCloudCanvas.tsx:40 | JavaScript `x * c` for a finite c: finite exactly for a finite x; NaN stays NaN, and an infinity times 0 is NaN |
| Sizing.Plus | word-cloud-test/src/components/WordCloudCanvas.tsx:40 | JavaScript `c + x` for a finite c: finite exactly for a finite x, and otherwise x itself |
| Sizing.MinOf | word-cloud-test/src/components/WordCloudCanvas.tsx:40 | `Math.min(c, x)`: NaN exactly when x is NaN, never +Infinity, and a finite result is at most c |
| Sizing.MaxOf | word-cloud-test/src/components/WordCloudCanvas.tsx:40 | `Math.max(c, x)`: NaN exactly when x is NaN, never -Infinity, and a finite result is at least c |
| Sizing.FontSizeAgreesAsWritten | word-cloud-test/src/components/WordCloudCanvas.tsx:38-41 | for a non-zero maximum the guarded font size equals the formula as written, evaluated with JavaScript's NaN and infinities |
| Sizing.ZeroMaximumGivesNaN | word-cloud-test/src/components/WordCloudCanvas.tsx:39 | with a zero maximum the formula as written gives NaN for a word of value 0, while the guarded size is minFontSize |
| Sizing.Utf16Length | word-cloud-test/src/components/WordCloudCanvas.tsx:45 | `text.length` counts between one and two UTF-16 code units per character |
| Sizing.Utf16LengthAppend | word-cloud-test/src/components/WordCloudCanvas.tsx:45 | the code-unit count of a concatenation is the sum of the parts' counts |
| Sizing.Utf16LengthOfBmp | word-cloud-test/src/components/WordCloudCanvas.tsx:45 | text within the Basic Multilingual Plane has one code unit per character |
| Sizing.EmojiCountsTwice | word-cloud-test/src/components/WordCloudCanvas.tsx:45-46 | the emoji U+1F600 has length 2, so at font size 10 it is estimated 11.4 wide |
| Sizing.UnitsWidthAddsUp | word-cloud-test/src/components/WordCloudCanvas.tsx:45 | the width estimate adds up over code units |
| Sizing.WordDimensions | word-cloud-test/src/components/WordCloudCanvas.tsx:43-48 | a non-negative font gives a box of non-negative extent, a positive font a positive height, and an empty text zero width; the width counts UTF-16 code units as `text.length` does |
| Sizing.WidthAddsUp | word-cloud-test/src/components/WordCloudCanvas.tsx:45-46 | the width estimate adds up over concatenated texts; the height does not depend on the text |
| Sizing.DimensionsMonotone | word-cloud-test/src/components/WordCloudCanvas.tsx:45-46 | a larger font gives a box at least as large on both axes |
| Ordering.InsertByValue | word-cloud-test/src/components/WordCloudCanvas.tsx:50 | inserting into a descending sequence keeps it descending and adds one element |
| Ordering.InsertAddsOne | word-cloud-test/src/components/WordCloudCanvas.tsx:50 | the insertion adds exactly the inserted word to the multiset of words |
| Ordering.SortByValueDesc | word-cloud-test/src/components/WordCloudCanvas.tsx:50 | the sort's result has values in descending order and is a permutation of its input |
| Ordering.InsertWithValue | word-cloud-test/src/components/WordCloudCanvas.tsx:50 | an inserted word comes first among the words of its value |
| Ordering.SortIsStable | word-cloud-test/src/components/WordCloudCanvas.tsx:50 | the sort is stable: the words of each value keep their input order |
| Ordering.SubsequenceSorted | word-cloud-test/src/components/WordCloudCanvas.tsx:50-52 | dropping words from a descending sequence keeps it descending |
| Ordering.SubsequenceMultiset | word-cloud-test/src/components/WordCloudCanvas.tsx:50-52 | dropping words takes each word at most as often as it occurs |
| Ordering.SubsequenceWithValue | word-cloud-test/src/components/WordCloudCanvas.tsx:50-52 | dropping words keeps the relative order of the words of each value |
| Placement.StepCount | word-cloud-test/src/utils/wordCloudUtils.ts:106-107 | `for (v = 0; v < limit; v += step)` makes exactly the iterations k whose value k * step is below the limit |
| Placement.AngleCount | word-cloud-test/src/utils/wordCloudUtils.ts:106 | the grid has exactly 63 angles, 0, 0.1, ..., 6.2, below 2 Pi |
| Placement.RadiusCount | word-cloud-test/src/utils/wordCloudUtils.ts:107 | the grid has no radius exactly when the smaller container side is not positive |
| Placement.FirstAdmissible | word-cloud-test/src/utils/wordCloudUtils.ts:120-124 | the index returned is the first admissible candidate, or the length when none is |
| Placement.Scan | word-cloud-test/src/utils/wordCloudUtils.ts:120-126 | a scan returns a candidate that is admissible and preceded only by inadmissible ones, and returns null iff no candidate is admissible |
| Placement.Examined | word-cloud-test/src/utils/wordCloudUtils.ts:138-147 | a scan looks at no more than all candidates, stops right at the box it returns, and looks at all of them when it fails |
| Placement.ScanKeepsSize | word-cloud-test/src/utils/wordCloudUtils.ts:47-56 | a search over candidates of the word's extent returns a box of that extent |
| Placement.CircularCandidates | word-cloud-test/src/utils/wordCloudUtils.ts:72-89 | the circular spiral has one candidate per step of radius below min(centerX, centerY), all of the word's extent |
| Placement.CircularBudget | word-cloud-test/src/utils/wordCloudUtils.ts:72-77 | the circular spiral ends: no candidates when min(centerX, centerY) is not positive, otherwise fewer than 10 * min + 1 |
| Placement.SpiralPoint | word-cloud-test/src/utils/wordCloudUtils.ts:44-45 | definition: x = centerX + r cos(angle) - w/2 and y = centerY + r sin(angle) - h/2 (the same formula as lines 78-79); the box keeps the word's extent, and radius 0 gives the box centred on the centre |
| Placement.CircularCandidate | word-cloud-test/src/utils/wordCloudUtils.ts:72-81 | step k of the circular loop, with angle and radius both k * 0.1; it keeps the word's extent, and step 0 is the centred box |
| Placement.CircularStartsAtCentre | word-cloud-test/src/utils/wordCloudUtils.ts:72-85 | into an empty layout with a positive maximum radius the circular search returns the box centred on the centre |
| Placement.CircularIgnoresBounds | word-cloud-test/src/utils/wordCloudUtils.ts:77-85 | the circular search checks no bounds: into an empty layout it places a word wider than the container partly outside it |
| Placement.CircularCandidateAt | word-cloud-test/src/utils/wordCloudUtils.ts:77-81 | while the radius is below the maximum, the point at step k is candidate k of the spiral |
| Placement.FindCircularPosition | word-cloud-test/src/utils/wordCloudUtils.ts:65-92 | the loop returns exactly the first non-colliding point of the circular spiral, or null |
| Placement.ArchimedeanCandidate | word-cloud-test/src/utils/wordCloudUtils.ts:40-45 | step k of the archimedean loop, with angle k * 0.1 and radius 15 * angle; it keeps the word's extent, and step 0 is the centred box |
| Placement.ArchimedeanCandidates | word-cloud-test/src/utils/wordCloudUtils.ts:36-47 | the archimedean spiral has exactly 2000 candidates, all of the word's extent |
| Placement.FindArchimedeanPosition | word-cloud-test/src/utils/wordCloudUtils.ts:29-63 | the loop returns exactly the first of the 2000 spiral points that lies in [0, 2 centerX] x [0, 2 centerY] and collides with nothing, or null |
| Placement.JitteredPoint | word-cloud-test/src/utils/wordCloudUtils.ts:107-110 | a jittered grid point keeps the word's extent, and with all three draws at 0.5 it is the unjittered point at that angle and radius, with the vertical radius halved |
| Placement.GridRow | word-cloud-test/src/utils/wordCloudUtils.ts:106-114 | one angle contributes at most one point per radius |
| Placement.GridPoints | word-cloud-test/src/utils/wordCloudUtils.ts:106-116 | the grid holds at most one point per angle and radius |
| Placement.HorizontalCandidates | word-cloud-test/src/utils/wordCloudUtils.ts:104-116 | the list built before the sort has at most one entry per grid point |
| Placement.GridRowInside | word-cloud-test/src/utils/wordCloudUtils.ts:107-114 | a row of the grid keeps only points inside the container, all of the word's extent |
| Placement.GridPointsInside | word-cloud-test/src/utils/wordCloudUtils.ts:106-116 | the whole grid has only points inside the container, all of the word's extent |
| Placement.ShuffledCandidatesInside | word-cloud-test/src/utils/wordCloudUtils.ts:112-118 | after a permutation every grid candidate is still inside the container and of the word's extent |
| Placement.SortDrawsAtLeast | word-cloud-test/src/utils/wordCloudUtils.ts:118 | restates the comparator assumption `SortComparesAll` for the grid: if the sort compares every entry, a grid of n >= 2 points costs at least n - 1 comparator draws beyond the jitter's; it is an assumption, not a property the model derives |
| Placement.GridRowNext | word-cloud-test/src/utils/wordCloudUtils.ts:107-114 | one more radius appends that jittered point to the row exactly when it lies in the container |
| Placement.PushRow | word-cloud-test/src/utils/wordCloudUtils.ts:107-115 | the inner loop appends the in-container points of one angle to the list and uses three draws per radius |
| Placement.BuildGrid | word-cloud-test/src/utils/wordCloudUtils.ts:104-116 | the nested loops build exactly the in-container grid points, in push order, and use three draws per grid point |
| Placement.GridDraws | word-cloud-test/src/utils/wordCloudUtils.ts:106-110 | the jitter takes 189 draws per radius: three for each of the 63 angles |
| Placement.ShuffledCandidates | word-cloud-test/src/utils/wordCloudUtils.ts:118 | the sorted grid, whose comparator starts drawing after the jitter; given a permuting sort it holds exactly the grid's entries |
| Placement.HorizontalDraws | word-cloud-test/src/utils/wordCloudUtils.ts:106-118 | the draws of one grid search: at least the jitter's, plus the comparator's |
| Placement.FirstFree | word-cloud-test/src/utils/wordCloudUtils.ts:120-126 | the final loop returns exactly the first non-colliding listed position, or null |
| Placement.FindHorizontalPosition | word-cloud-test/src/utils/wordCloudUtils.ts:94-127 | the search returns exactly the first non-colliding entry of the sorted grid, or null; it uses three draws per grid point for the jitter and then the comparator's draws, which the sort starts at the cursor the jitter leaves |
| Placement.LooseCandidates | word-cloud-test/src/utils/wordCloudUtils.ts:136-142 | the loose search has exactly 100 candidates, all of the word's extent |
| Placement.LooseCandidate | word-cloud-test/src/utils/wordCloudUtils.ts:139-142 | candidate k draws x with draw 2k and y with draw 2k + 1, and keeps the word's extent |
| Placement.Portion | word-cloud-test/src/utils/wordCloudUtils.ts:139-140 | `Math.random() * span` is non-negative for a non-negative draw and span, and 0 for a zero draw |
| Placement.PortionBetween | word-cloud-test/src/utils/wordCloudUtils.ts:139-140 | a draw in [0, 1) scales a non-negative span to a point of [0, span] |
| Placement.LooseCandidateInside | word-cloud-test/src/utils/wordCloudUtils.ts:139-142 | with draws in [0, 1) and a word that fits, a loose candidate has 0 <= x <= containerWidth - width and 0 <= y <= containerHeight - height |
| Placement.FindLoosePosition | word-cloud-test/src/utils/wordCloudUtils.ts:129-150 | the loop returns exactly the first non-colliding of the 100 drawn boxes, or null, and uses two draws per box it looks at |
| Layout.CircularSearch | word-cloud-test/src/components/WordCloudCanvas.tsx:61-62 | a circular call returns a box that collides with no placed word and uses no draws |
| Layout.ArchimedeanSearch | word-cloud-test/src/components/WordCloudCanvas.tsx:67-68 | an archimedean call returns a box that collides with no placed word and uses no draws |
| Layout.HorizontalSearch | word-cloud-test/src/components/WordCloudCanvas.tsx:63-64 | a grid call returns a box that collides with no placed word and uses at least the three jitter draws per grid point, plus the comparator's |
| Layout.LooseSearch | word-cloud-test/src/components/WordCloudCanvas.tsx:65-66 | a loose call returns a box that collides with no placed word and uses at most 200 draws |
| Layout.Search | word-cloud-test/src/components/WordCloudCanvas.tsx:60-69 | whatever the shape, a box found collides with no placed word, the draw cursor never moves back, and an unmatched shape finds nothing |
| Layout.SearchMeets | word-cloud-test/src/components/WordCloudCanvas.tsx:60-69 | whatever the shape, a box found collides with no placed word; the draw cursor never moves back, and the spirals and an unknown shape leave it in place |
| Layout.HorizontalSearchLands | word-cloud-test/src/utils/wordCloudUtils.ts:112-124 | given a permuting reorder, a grid box has the word's extent and lies in the container |
| Layout.LooseSearchLands | word-cloud-test/src/utils/wordCloudUtils.ts:136-146 | a loose box has the word's extent, and lies in the container when draws are in [0, 1) and the word fits |
| Layout.SearchLands | word-cloud-test/src/components/WordCloudCanvas.tsx:60-69 | every box found has the word's extent and lies where its shape promises |
| Layout.SearchIgnoresDraws | word-cloud-test/src/components/WordCloudCanvas.tsx:60-69 | the spirals, and an unknown shape, return the same result whatever the state of the random source |
| Layout.Retry | word-cloud-test/src/components/WordCloudCanvas.tsx:56-71 | the retry loop makes between 1 and 100 calls, makes all 100 when it finds nothing, and a box it finds collides with no placed word |
| Layout.RetryLands | word-cloud-test/src/components/WordCloudCanvas.tsx:56-71 | a box the retry loop finds has the word's extent and lies where its shape promises |
| Layout.RetryOfDeterministicSearch | word-cloud-test/src/components/WordCloudCanvas.tsx:56-71 | for the spirals the loop either takes the first call's box or spends all calls in vain: retrying changes nothing |
| Layout.RetryOfUnknownShape | word-cloud-test/src/components/WordCloudCanvas.tsx:60-71 | with an unknown shape the loop spends all 100 calls and finds nothing |
| Layout.SearchOnce | word-cloud-test/src/components/WordCloudCanvas.tsx:61-69 | the if-else chain calls exactly the search of the selected shape, with the centre for the spirals and the container for the others |
| Layout.Attempt | word-cloud-test/src/components/WordCloudCanvas.tsx:61-70 | one search call and the count update leave what the loop ends with unchanged |
| Layout.ResumeStep | word-cloud-test/src/components/WordCloudCanvas.tsx:60-71 | one turn of the `while` loop leaves what the loop ends with unchanged |
| Layout.ResumeStart | word-cloud-test/src/components/WordCloudCanvas.tsx:56-60 | in its initial state the loop ends with what the whole retry gives |
| Layout.ResumeDone | word-cloud-test/src/components/WordCloudCanvas.tsx:60 | once a box is found or the budget is spent, the loop ends in its current state |
| Layout.PlaceWord | word-cloud-test/src/components/WordCloudCanvas.tsx:56-71 | the `while` loop for one word ends with exactly the box, draw cursor and call count of the retry |
| Layout.Step | word-cloud-test/src/components/WordCloudCanvas.tsx:53-75 | handling one word never moves the draw cursor back |
| Layout.FontSizeOf | word-cloud-test/src/components/WordCloudCanvas.tsx:53 | the size a word gets is at least minFontSize, and at most maxFontSize when the bounds are ordered |
| Layout.StepTakesFirstFind | word-cloud-test/src/components/WordCloudCanvas.tsx:56-75 | a word whose first search call finds a box is placed, with that very box and its font size |
| Layout.PlaceAll | word-cloud-test/src/components/WordCloudCanvas.tsx:52-76 | the pass places at most one word per word offered and never moves the draw cursor back |
| Layout.LayoutOf | word-cloud-test/src/components/WordCloudCanvas.tsx:30-79 | no layout is made (no callback) iff a container side is 0; otherwise at most one placed word per input word |
| Layout.CalculateLayout | word-cloud-test/src/components/WordCloudCanvas.tsx:30-79 | the method returns exactly the layout and draw cursor of the pass, or nothing (draws untouched) on the early return |
| Layout.StepAppends | word-cloud-test/src/components/WordCloudCanvas.tsx:73-75 | one word keeps the placed list or appends that very word |
| Layout.StepExtends | word-cloud-test/src/components/WordCloudCanvas.tsx:73-75 | one word keeps the earlier placements in place and adds at most one |
| Layout.PlaceAllExtends | word-cloud-test/src/components/WordCloudCanvas.tsx:52-76 | the pass only appends: earlier placements are kept in place |
| Layout.PlaceAllNonOverlapping | word-cloud-test/src/components/WordCloudCanvas.tsx:52-76 | the pass keeps the placed list pairwise non-overlapping |
| Layout.StepSubsequence | word-cloud-test/src/components/WordCloudCanvas.tsx:52-75 | after one word the placed words are still a subsequence of the words offered |
| Layout.PlaceAllSubsequence | word-cloud-test/src/components/WordCloudCanvas.tsx:52-76 | the placed words are the offered words less the dropped ones, in order |
| Layout.PlaceAllFontSized | word-cloud-test/src/components/WordCloudCanvas.tsx:52-76 | every placed word carries the font size of its value |
| Layout.AppendLanded | word-cloud-test/src/components/WordCloudCanvas.tsx:73-75 | appending a word whose box is its estimate, at a place its shape promises, keeps that true of every placed word |
| Layout.StepLanded | word-cloud-test/src/components/WordCloudCanvas.tsx:53-75 | the word one step places has the estimated box of its font size, at a place its shape promises |
| Layout.PlaceAllLanded | word-cloud-test/src/components/WordCloudCanvas.tsx:52-76 | every placed word has the estimated box of its font size and lies where its shape promises |
| Layout.PlaceAllDeterministic | word-cloud-test/src/components/WordCloudCanvas.tsx:52-76 | with the spirals the pass uses no draws and places the same words whatever the draw cursor |
| Layout.PlaceAllUnknownShape | word-cloud-test/src/components/WordCloudCanvas.tsx:52-76 | with an unknown shape the pass places nothing |
| Layout.LayoutNonOverlapping | word-cloud-test/src/components/WordCloudCanvas.tsx:52-78 | no two words of a layout collide |
| Layout.LayoutIsSubsequenceOfSorted | word-cloud-test/src/components/WordCloudCanvas.tsx:50-76 | the words of a layout are the sorted words less the ones that found no box |
| Layout.LayoutFollowsSortedOrder | word-cloud-test/src/components/WordCloudCanvas.tsx:50-76 | a layout's values never increase, and a layout holds each input word at most as often as it was given |
| Layout.LayoutKeepsTieOrder | word-cloud-test/src/components/WordCloudCanvas.tsx:50-76 | words of equal value appear in a layout in their input order |
| Layout.LayoutFontSizes | word-cloud-test/src/components/WordCloudCanvas.tsx:38-75 | every word of a layout has the font size of its value, at least minFontSize, and at most maxFontSize when minFontSize <= maxFontSize |
| Layout.LayoutBoxes | word-cloud-test/src/components/WordCloudCanvas.tsx:43-75 | every word of a layout has the box estimated for its text and font size |
| Layout.LayoutFontSizesDescend | word-cloud-test/src/components/WordCloudCanvas.tsx:38-75 | with a positive maximum, font sizes never grow along a layout |
| Layout.LayoutOfZeroValues | word-cloud-test/src/components/WordCloudCanvas.tsx:35-41 | when every value is 0, every placed word gets minFontSize |
| Layout.LayoutInContainer | word-cloud-test/src/components/WordCloudCanvas.tsx:60-75 | words placed by the archimedean spiral or the grid lie in the container; loose words do when draws are in [0, 1) and the word fits |
| Layout.LayoutOfUnknownShape | word-cloud-test/src/components/WordCloudCanvas.tsx:60-78 | an unrecognised shape gives an empty layout |
| Layout.LayoutOfNoWords | word-cloud-test/src/components/WordCloudCanvas.tsx:31-78 | no words give an empty layout in a non-degenerate container |
| Layout.LayoutDeterministic | word-cloud-test/src/components/WordCloudCanvas.tsx:52-78 | with the spirals a layout uses no draws, and equal inputs give equal layouts whatever the random source's state |
| Layout.SortedHeadIsLargest | word-cloud-test/src/components/WordCloudCanvas.tsx:35-50 | the first word of the sort has the largest value |
| Layout.CircularFirstStep | word-cloud-test/src/components/WordCloudCanvas.tsx:33-75 | with the circular spiral, a word offered to an empty layout is placed centred on the container's centre |
| Layout.PlaceAllFirstCentred | word-cloud-test/src/components/WordCloudCanvas.tsx:52-75 | with the circular spiral, the first word of a pass is placed first, centred on the container's centre |
| Layout.LargestWordGetsLargestFont | word-cloud-test/src/components/WordCloudCanvas.tsx:38-50 | with a non-zero maximum the first word of the sort gets maxFontSize |
| Layout.LargestWordCentred | word-cloud-test/src/components/WordCloudCanvas.tsx:33-76 | with the circular spiral the first word of the sort has the largest value and is placed first, centred on the container's centre |

## Left out

- Floating point: coordinates, sizes and step accumulations are exact reals. `angle += 0.1` is
  taken as `k * 0.1`, so rounding that could add or remove a last loop iteration is not modelled.
  The one IEEE-754 effect that matters, NaN from a zero maximum, is modelled separately
  (`Sizing.FontSizeAsWritten`).
- Layout.LayoutOf and Layout.CalculateLayout: words are sized with the guarded `Sizing.FontSize`,
  so when the largest value is 0 the model's layout departs from the source's. In the source (read,
  not run), every word of value 0 then gets a NaN font size and a NaN box. The circular and loose
  searches place the first such word at NaN coordinates, since nothing is placed yet to collide
  with. Every later word is then dropped: each comparison with NaN is false, so `checkCollision`
  reports a collision with the NaN box. The archimedean and horizontal searches place no NaN word,
  because `x >= 0` fails. The model instead gives those words minFontSize (`Layout.LayoutOfZeroValues`).
- `Math.cos`, `Math.sin` and `Math.random` are uninterpreted parameters. No property depends on
  their values, except what `DrawsInUnitInterval` states about the draws. Properties of the
  spiral's shape or of the random distributions are not modelled.
- The sort with the comparator `Math.random() - 0.5` is left open: its order and its number of
  comparator calls are arbitrary functions of the list and of the cursor at which the comparator
  starts drawing. That the order is a permutation, and that a sort of n >= 2 entries compares at
  least n - 1 times, are `requires` of the lemmas that need them (`ShuffleIsPermutation`,
  `SortComparesAll`), not consequences of the comparator.
- Placement.FindHorizontalPosition: its draw count states the comparator's draws as
  `env.sortDraws` of the unsorted grid, not as a number, since that depends on the engine's sort
  algorithm.
- Layout.HorizontalSearch: promises only a lower bound on the draws it uses (the jitter's); the
  comparator's share is `env.sortDraws`, left open as above.
- React plumbing: `useCallback`, `useEffect` and the call `onWordsPlaced(newPlacedWords)`.
  `CalculateLayout` returns the list it would hand to the callback, or `None` when the source
  returns early without calling it.
- The UI files: word-cloud-test/src/ReactWordCloud.tsx, word-cloud-test/src/components/WordCloudTooltip.tsx
  and word-cloud-test/src/App.tsx. Rendering, colours, hit-testing and resizing are not part of
  this model.
- Sizing.MaxValue: `Math.max(...[])` is `-Infinity` for an empty word list; the model uses 0
  there. The value is never used, because no word is sized.
- Sizing.Utf16Length: a JavaScript string may hold an unpaired surrogate, which a Dafny string of
  Unicode scalar values cannot; such text is not modelled.
- Layout.SearchLands: the circular case promises only the word's extent and no collision, not
  containment, because the source does no bounds check there (see `Placement.CircularIgnoresBounds`).
- Layout.LayoutInContainer: loose containment is stated only for draws in [0, 1) and for a word
  no larger than the container; for a larger word the source's `Math.random() * (containerWidth - width)`
  is negative.
- Placement.FindCircularPosition, Placement.FindArchimedeanPosition, Placement.FindHorizontalPosition
  and Placement.FindLoosePosition: each states only its equality with `Scan` over its candidates
  (and its draw use). Freedom from collision, extent and containment are proved as lemmas about `Scan` and the
  candidate sequences (`Scan`, `ScanKeepsSize`, `SearchLands`, `GridPointsInside`, `LooseCandidateInside`).
- Placement.FindHorizontalPosition: the in-place `positions.sort(...)` is modelled as
  reassignment of the list with the reordered copy.

## Findings

| source | as written | input that shows it | evidently intended | confidence | as-written member | corrected member |
|---|---|---|---|---|---|---|
| word-cloud-test/src/components/WordCloudCanvas.tsx:39 | `scale = value / maxValue` with no guard, so a zero maximum gives `0 / 0 = NaN`. `Math.min` and `Math.max` pass the NaN through as the font size, and the box estimate becomes NaN too. The circular and loose searches then place the first word at NaN coordinates and drop every later word, because the NaN box collides with everything; the archimedean and horizontal searches place nothing, because `x >= 0` fails | words whose values are all 0, e.g. `[{text: "a", value: 0}]` in a 200 x 200 container | a zero maximum gives every word minFontSize | not executed | Sizing.FontSizeAsWritten, Sizing.ZeroMaximumGivesNaN | Sizing.FontSize |
