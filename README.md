# ARKanji marker tracking, modelled in Dafny

ARKanji finds printed square markers in a camera frame. Each marker carries one kanji (a
"monji"). For every detected marker the program estimates a pose and renders a 3D model on it.
When two detected monji spell a two-kanji word (a "tango"), it draws a line between them and
renders a virtual marker half-way between the two.

This project models the arithmetic and bookkeeping of that pipeline:

- `basics.dfy` (module `Basics`): the shared vocabulary.
  - points, the 4x4 pose matrix and the four-corner quad;
  - the C++ behaviour the code relies on: `(int)` truncation, truncating `/` and `%`,
    `cvRound` (half to even) and `std::string::find`.
- `tracker_helpers.dfy` (module `TrackerHelpers`): the helpers of `Tracker.h`.
  - `subpixSampleSafe`, the fixed-point bilinear sampler with its out-of-bounds value 127;
  - `MyStrip` and `calculate_Stripe`;
  - `getCenterOfCorners`.
- `edge_refinement.dfy` (module `EdgeRefinement`): the sub-pixel edge search of `Tracker::track`.
  - the 3 x L strip fill, the integer Sobel pass and the running argmax;
  - the parabola-vertex offset as a double quotient, with its `isnan` test;
  - the refined edge point with the tracker's row shift, and the six samples along one edge;
  - the corrected offset test and row shift of the two findings below, related to the code by
    lemmas.
- `tracking.dfy` (module `Tracking`): the rest of `Tracker::track` and the class `Tracker`.
  - the size filter, the edge loop writing `lineParams`, and the Cramer corner loop with its
    parallel guard;
  - the flood-fill test, the rotation loop and the last-match kanji classification;
  - the corner reorder, the shift to camera coordinates, and the two result maps with their
    getters and `cleanDetectedMarkers`.
- `metadata.dfy` (module `MetaData`): the `MetaManager` dictionary lookups. Each is a
  first-match linear search with a sentinel result, plus the negative-id guard of
  `getModelById`.
- `application.dfy` (module `Application`): the glue in `Main.cpp`.
  - `drawLines`, which pairs the detected markers' centres in `std::map` key order, orders each
    pair left/right and appends every pair that spells a tango to the global
    `monjiCombinations`;
  - the 4x4 transpose loops and the virtual-marker midpoint shift;
  - the end-of-frame clearing of both tracker maps and of the combinations.

## Foreign calls

The OpenCV and Tesseract calls are the fields of the datatype `Tracking.Vision`. Each is an
uninterpreted function of what the tracker hands it:

- `sqrt`, `boundingRect` and `fitLine`;
- the flood-fill mean of the unwarped marker;
- the mean of the bottom-left 20x20 region after r quarter turns;
- the OCR text;
- the pose estimator.

The frame is given as a grey image together with its approximated contours. Geometry is over
`real`. Pixel, Sobel and strip-length arithmetic is over `int`, with the `>> 8` shifts written as
floor division by 256.

## Behaviour worth knowing

- **Parallel lines:** a parallel pair of adjacent lines leaves only that corner unwritten. The
  candidate is not discarded (`Tracker.cpp:299-302`).
- **Recorded corners:** the corners stored in `detectedMarkerCorners` are the image-space corners
  from before the reorder and the camera shift (`Tracker.cpp:412`).
- **Peak search:** the peak is the first maximum of the signed Sobel values above -1. A negative
  response never becomes the peak (`Tracker.cpp:159-168`).
- **Edge points:** a sample is dropped only when `pos` is NaN. An infinite `pos` is kept and
  written as a non-finite edge point, and every kept point is shifted by
  `maxIntensityIndex - (stripeLength >> 1)` rows (`Tracker.cpp:188-209`).
- **Strip length:** the strip length truncates 0.8 times the edge-step length. Only then is it
  raised to 5 and made odd (`Tracker.h:92-98`).

## Model

| member | source | states |
|---|---|---|
| `Basics.TruncToInt` | Tracker.h:92 | The C++ cast `(int)` of a double truncates toward zero: the result lies within one unit below a non-negative argument, and within one unit above a negative one. |
| `Basics.RoundHalfEven` | Main.cpp:44-47 | `cvRound`: the integer is within one half of the argument, and an exact tie goes to the even neighbour. |
| `Basics.TruncDiv` | MetaManager.h:70 | C++ integer `/`, the quotient truncated toward zero. `Basics.TruncDivMod10` proves the division identity with `TruncMod` and the sign of the quotient for the divisor 10. |
| `Basics.TruncMod` | MetaManager.h:70 | C++ integer `%`, the remainder that goes with `TruncDiv`. `Basics.TruncDivMod10` proves it lies in [0, 10) for non-negative ids and in (-10, 0] for negative ones. |
| `Basics.TruncDivMod10` | MetaManager.h:70 | C++ `/ 10` and `% 10` satisfy the division identity. The remainder lies in [0, 10) for non-negative ids and in (-10, 0] for negative ones. |
| `Basics.Find` | Tracker.cpp:400 | `std::string::find`: the result is an occurrence with no earlier occurrence, and `npos` means the pattern occurs nowhere. |
| `TrackerHelpers.SubpixSampleSafe` | Tracker.h:62-85 | The result is exactly 127 when floor(x) or floor(y) falls outside [0, cols-1) or [0, rows-1). Otherwise it lies between the smallest and the largest of the four neighbouring pixels, and so always in [0, 255]. |
| `TrackerHelpers.BlendBetween` | Tracker.h:79-84 | One fixed-point interpolation step with a weight in [0, 256) stays between its two end points. |
| `TrackerHelpers.SampleAtWholePixel` | Tracker.h:72-84 | At integer coordinates inside the image, the sampler returns exactly the pixel at (fy, fx). |
| `TrackerHelpers.StripeLength` | Tracker.h:92-98 | The strip length is odd and at least 5. It is the least odd number not below max((int)(0.8 d), 5). |
| `TrackerHelpers.StripFor` | Tracker.h:101-103 | Every strip `calculate_Stripe` builds is well formed: odd length of at least 5, `nStop` = L >> 1 and `nStart` = -`nStop`. |
| `TrackerHelpers.CalculateStripe` | Tracker.h:87-121 | The out-parameter strip has the clamped odd length, the normalised edge direction as x axis and its quarter turn as y axis. The returned buffer is a fresh 3 x L array. |
| `TrackerHelpers.StripAxesOrthonormal` | Tracker.h:112-117 | `stripeVecY` is perpendicular to `stripeVecX`, has its length, and `stripeVecX` has unit length when d is the Euclidean length of (dx, dy). |
| `TrackerHelpers.CenterIsBalancePoint` | Tracker.h:57-59 | A point is the centre of the four corners if and only if the four corner offsets from it sum to zero. |
| `TrackerHelpers.Translated` | Main.cpp:164-166 | Every corner of the shifted quad is the original corner plus the offset. |
| `TrackerHelpers.CenterFollowsTranslation` | Tracker.h:57-59 | Moving all four corners by an offset moves their centre by the same offset. |
| `MetaData.IndexOfKanjiIsFirstMatch` | MetaManager.h:32-39 | The shared search of `getIdByKanji` finds the first monji whose kanji occurs in the text, or -1 when none occurs. |
| `MetaData.IndexOfIdIsFirstMatch` | MetaManager.h:41-48 | The shared search of the by-id lookups finds the first monji with that id, or -1 when none has it. |
| `MetaData.IndexOfTangoIsFirstMatch` | MetaManager.h:67-75 | The search of `getTangoId` finds the first tango whose truncated `/ 10` and `% 10` give the two ids, or -1. |
| `MetaData.GetIdByKanji` | MetaManager.h:32-39 | `getIdByKanji`: the id of the first monji whose kanji occurs in the text, or -1. `MetaData.GetIdByKanjiFindsFirstMatch` proves both directions. |
| `MetaData.GetKanjiById` | MetaManager.h:41-48 | `getKanjiById`: the kanji of the first monji with the id, or "". `MetaData.ByIdLookupsFindFirstMatch` proves both cases. |
| `MetaData.GetOnyomiById` | MetaManager.h:78-85 | `getOnyomiById`: the on-reading of the first monji with the id, or "". `MetaData.ByIdLookupsFindFirstMatch` proves both cases. |
| `MetaData.GetKunyomiById` | MetaManager.h:88-95 | `getKunyomiById`: the kun-reading of the first monji with the id, or "". `MetaData.ByIdLookupsFindFirstMatch` proves both cases. |
| `MetaData.GetTangoId` | MetaManager.h:67-75 | `getTangoId`: the id of the first tango whose truncated `/ 10` and `% 10` give the pair, or -1. `MetaData.GetTangoIdFindsFirstMatch`, `MetaData.TangoIdIsPairCode` and `MetaData.EncodedTangoIsFound` characterise it. |
| `MetaData.GetModelByKanji` | MetaManager.h:61-64 | `getModelByKanji`: `getModelById` of the id `getIdByKanji` finds. `MetaData.UnknownKanjiHasNoModel` proves that a text with no dictionary kanji raises `invalid_argument`; otherwise the result is the three cases of `MetaData.GetModelById` for the first matching monji's id. |
| `MetaData.GetIdByKanjiFindsFirstMatch` | MetaManager.h:32-39 | `getIdByKanji` returns -1 when no monji kanji occurs in the argument, and otherwise the id of the first monji whose kanji does. |
| `MetaData.ByIdLookupsFindFirstMatch` | MetaManager.h:78-95 | `getKanjiById`, `getOnyomiById` and `getKunyomiById` all return "" when no monji has the id. Otherwise they return the kanji, onyomi and kunyomi of the first monji that has it. |
| `MetaData.GetModelById` | MetaManager.h:50-55 | A negative id raises `invalid_argument` before any lookup. Otherwise the result is the stored model, or `out_of_range` for an id the map does not hold. |
| `MetaData.UnknownKanjiHasNoModel` | MetaManager.h:61-64 | `getModelByKanji` on a text that holds no dictionary kanji raises `invalid_argument`, because the id it looks up is -1. |
| `MetaData.GetTangoIdFindsFirstMatch` | MetaManager.h:67-75 | `getTangoId` returns -1 when no tango encodes the pair, and otherwise the id of the first tango that does. |
| `MetaData.TangoIdIsPairCode` | MetaManager.h:70 | A result other than -1 equals 10 * id1 + id2, and it encodes the pair under C++ truncating division. |
| `MetaData.NoTangoForWideSecondId` | MetaManager.h:70 | With non-negative tango ids, a second id outside [0, 9] never finds a tango. |
| `MetaData.EncodedTangoIsFound` | MetaManager.h:67-75 | With id1 >= 0 and id2 a digit, a stored tango 10 * id1 + id2 is found and returned. |
| `EdgeRefinement.StripeValues` | Tracker.cpp:95-128 | The filled strip has exactly 3 x L cells. |
| `EdgeRefinement.StripCellsBijective` | Tracker.cpp:120-127 | The cell index (n + nStop) * 3 + (m + 1) maps the offsets m in [-1, 1] and n in [nStart, nStop] one-to-one onto the 3 x L cells, so every cell is written exactly once per sample. |
| `EdgeRefinement.FillStripe` | Tracker.cpp:95-128 | After the two strip loops, every cell holds the safe sub-pixel sample at its strip position. |
| `EdgeRefinement.RowWeight` | Tracker.cpp:146-152 | The (1, 2, 1)-weighted sum of one strip row lies in [0, 1020]. |
| `EdgeRefinement.SobelAt` | Tracker.cpp:138-157 | Each Sobel value is row n+1 minus row n-1 of the weighted strip, and lies in [-1020, 1020]. |
| `EdgeRefinement.SobelValues` | Tracker.cpp:138-157 | The Sobel profile has L - 2 entries, each in [-1020, 1020]. |
| `EdgeRefinement.SobelProfile` | Tracker.cpp:138-157 | The Sobel loop writes exactly the Sobel profile of the strip into a fresh array. |
| `EdgeRefinement.RunningMaxIsFirstMax` | Tracker.cpp:159-168 | The running argmax with initial maximum -1 ends on the first index of the maximum when some value exceeds -1. When none does, the index stays 0. |
| `EdgeRefinement.PeakIndex` | Tracker.cpp:159-168 | `maxIntensityIndex` is the first index of the maximum among values above -1, and 0 when no value exceeds -1. |
| `EdgeRefinement.PeakNeighbours` | Tracker.cpp:171-180 | y1 is the peak value. y0 and y2 are its neighbours, taken as 0 at index 0 and at the last index respectively. |
| `EdgeRefinement.IeeeDivide` | Tracker.cpp:188 | Double division: the exact quotient for a non-zero denominator. For a zero denominator, NaN exactly when the numerator is 0, and otherwise an infinity of the numerator's sign. |
| `EdgeRefinement.SubpixelOffset` | Tracker.cpp:188-193 | The corrected offset is missing exactly when the curvature 4 y1 - 2 y0 - 2 y2 is zero. Otherwise it is the vertex of the parabola through the three values. |
| `EdgeRefinement.OffsetWithinHalfRow` | Tracker.cpp:188 | When y1 is at least both neighbours, the vertex offset lies in [-1/2, 1/2]. |
| `EdgeRefinement.PeakOffsetWithinHalfRow` | Tracker.cpp:159-188 | At a peak above -1, the neighbours do not exceed the peak, so the offset stays within half a row. |
| `EdgeRefinement.AsWrittenAgreesAtRealPeak` | Tracker.cpp:188-193 | At a peak above -1, the as-written NaN test and the corrected zero-curvature test drop the same samples and keep the same offsets. |
| `EdgeRefinement.EdgeCenterIsPeakRow` | Tracker.cpp:199-203 | With zero offset, the corrected edge point is the strip point of the peak's centre row idx + 1. The as-written point is the strip point of row idx. |
| `EdgeRefinement.ShiftedPointIsStripPoint` | Tracker.cpp:202-203 | Moving p by an integer number n of `stripeVecY` steps gives the strip point of row offset n. |
| `EdgeRefinement.SampleAt` | Tracker.cpp:95-209 | One sample as the tracker computes it: strip, Sobel profile, first peak above -1, the IEEE quotient `pos`, none when `pos` is NaN, a non-finite point when it is infinite, otherwise the point shifted by `maxIntensityIndex - (stripeLength >> 1) + pos` rows. `EdgeRefinement.RefineSample` is proved equal to it, and `EdgeRefinement.SampleAtAgainstCorrected` relates it to the corrected sample. |
| `EdgeRefinement.CorrectedSampleAt` | Tracker.cpp:188-203 | The sample with both findings corrected: dropped exactly on zero curvature, and shifted to the peak's centre row idx + 1. `EdgeRefinement.SubpixelOffset` and `EdgeRefinement.EdgeCenterIsPeakRow` state its two parts; `EdgeRefinement.SampleAtAgainstCorrected` relates it to `SampleAt`. |
| `EdgeRefinement.EdgeSamples` | Tracker.cpp:84-91 | Each edge yields six sample slots. Slot j - 1 is the tracker's refined sample at the truncated interior position a + j * (b - a) / 7, for j = 1..6. |
| `EdgeRefinement.SampleEdge` | Tracker.cpp:84-209 | Slot j - 1 of `edgePointCenters` holds sample j as the code computes it: the point shifted by `maxIntensityIndex - (stripeLength >> 1)` rows plus `pos`, a non-finite point when `pos` is infinite, or unwritten when `pos` is NaN. |
| `EdgeRefinement.RefineSampleAt` | Tracker.cpp:86-209 | One iteration of the sample loop refines the sample at the truncated position a + j * (dx, dy) as written (point, non-finite point, or none on NaN). It writes a kept sample to slot j - 1 and skips the write on NaN; nothing else changes. |
| `EdgeRefinement.RefineSample` | Tracker.cpp:95-209 | Strip fill, Sobel, peak, the double quotient `pos` and the as-written shift give that sample's point. The result is none exactly when `pos` is NaN, and a non-finite point when `pos` is infinite. |
| `EdgeRefinement.RefineEdge` | Tracker.cpp:73-209 | For edge (a, b), the strip is the one `calculate_Stripe` builds for the step (b - a) / 7. The six slots are that edge's as-written samples. |
| `EdgeRefinement.SampleAtAgainstCorrected` | Tracker.cpp:188-203 | When some Sobel value exceeds -1, the as-written sample is dropped exactly when the corrected one is. A kept as-written point is finite and lies exactly one `stripeVecY` step before the corrected point. |
| `EdgeRefinement.OneRowApart` | Tracker.cpp:199-203 | For any peak index and offset, the as-written edge point plus one `stripeVecY` step is the corrected edge point. |
| `EdgeRefinement.InfiniteOffsetPassesNanTest` | Tracker.cpp:188-193 | For rows 8, 7, 7, 5, 5 the as-written offset is -infinity, which the NaN test lets through. The corrected offset drops the sample. |
| `EdgeRefinement.EdgeShiftOffByOneRow` | Tracker.cpp:199-203 | For rows 0, 0, 128, 255, 255 the as-written shift is -511/510 rows, one row from the true edge at -1/510. |
| `Tracking.Mod4` | Tracker.cpp:256 | The corner index (i + 1) % 4 is a corner index. |
| `Tracking.TooSmallOrTooLarge` | Tracker.cpp:50 | The size filter: a bounding box under 20 pixels in width or height, or wider than cols - 10 or taller than rows - 10, is discarded. `Tracking.CandidateResult` proves that such a contour yields nothing. |
| `Tracking.FitLines` | Tracker.cpp:66-230 | Column i of `lineParams` holds the line `fitLine` returns for the six as-written samples of edge i, from vertex i to vertex i + 1 (mod 4). |
| `Tracking.Intersect` | Tracker.cpp:293-307 | The corner of two lines is skipped exactly when the determinant v1 u0 - v0 u1 has magnitude below 0.001. |
| `Tracking.CornerOnBothLines` | Tracker.cpp:293-307 | A corner that passes the guard, (a/c, b/c), lies on both lines, at the parameters Cramer's rule gives. |
| `Tracking.CornerSkippedIffParallel` | Tracker.cpp:299-302 | A corner slot stays unwritten exactly when its two adjacent lines are (nearly) parallel. Only that slot is affected. |
| `Tracking.CornersLieOnAdjacentLines` | Tracker.cpp:254-312 | Every written corner i lies on line i and on line i + 1 (mod 4). |
| `Tracking.CornersOf` | Tracker.cpp:250-319 | Four corner slots, slot i the guarded intersection of lines i and i + 1 (mod 4). `Tracking.CornerSkippedIffParallel` and `Tracking.CornersLieOnAdjacentLines` characterise each slot. |
| `Tracking.CopyCorners` | Tracker.cpp:251-312 | `copyCorners` holds each written corner, and the origin where the corner was skipped. |
| `Tracking.ComputeCorners` | Tracker.cpp:250-319 | After the corner loop, slot k holds the intersection of columns k and k + 1 (mod 4), or stays unwritten. `copyCorners` mirrors every slot. |
| `Tracking.Corner` | Tracker.cpp:263-312 | One iteration of the corner loop computes the guarded Cramer intersection of its two columns. |
| `Tracking.FloodAccepts` | Tracker.cpp:361-364 | The flood test keeps a candidate exactly when its flood mean lies strictly between 128 and 240. `Tracking.Decide` proves every accepted candidate passed it. |
| `Tracking.FirstDarkRotation` | Tracker.cpp:370-383 | The counter is at most 4. Every quarter turn before it leaves the bottom-left region brighter than 128, and a counter below 4 makes it at most 128. |
| `Tracking.RotationCounter` | Tracker.cpp:370-380 | The rotation loop stops at the first dark turn, or at 4 after four bright turns. |
| `Tracking.LastKanjiIndex` | Tracker.cpp:398-404 | The result is the last index whose kanji occurs in the OCR text, or -1 when none does. |
| `Tracking.ClassifyKanji` | Tracker.cpp:398-404 | The classification loop yields the last whitelist index whose kanji occurs in `outText`, or -1. |
| `Tracking.LabelAgreesWithDictionary` | Tracker.cpp:398-404 | When exactly one whitelist kanji occurs in the text, the tracker's last-match label and `getIdByKanji`'s first match give the same id. |
| `Tracking.Rotated` | Tracker.cpp:418 | Corner i moves to slot (counter + i) % 4. A counter of 0 leaves the corners as they are. |
| `Tracking.RotatedIsPermutation` | Tracker.cpp:415-421 | The reorder is a permutation of the four corners. |
| `Tracking.CenterUnchangedByRotation` | Tracker.cpp:415-421 | The reorder does not move the corners' centre. |
| `Tracking.RotatedCopy` | Tracker.cpp:416-418 | The first reorder loop fills `corrected_corners` with the rotated corners. |
| `Tracking.ReorderCorners` | Tracker.cpp:415-421 | After the reorder step, the corner array holds its old corners rotated by `counter`. |
| `Tracking.ToCamera` | Tracker.cpp:424-430 | The camera shift (x, y) to (x - 320, 240 - y) is undone by its inverse. |
| `Tracking.CameraCorners` | Tracker.cpp:424-430 | Every written corner is moved to camera coordinates, and unwritten slots stay unwritten. |
| `Tracking.ShiftToCamera` | Tracker.cpp:424-430 | After the shift loop, the corner array holds the camera coordinates of its old corners. |
| `Tracking.Decide` | Tracker.cpp:361-444 | An accepted candidate has a flood mean strictly between 128 and 240. Its rotation counter is below 4, with only the final turn dark, and its id is that of the last kanji in the OCR text. Its corners are the image-space corners. Its pose is estimated from the rotated, camera-shifted corners. A rejection fails one of these tests. |
| `Tracking.CandidateResult` | Tracker.cpp:39-444 | A contour is accepted only with exactly 4 vertices and a bounding box with 20 <= width <= cols - 10 and 20 <= height <= rows - 10. A contour the size filter rejects yields none. One it passes yields the decision on the corners of the lines fitted through its as-written samples. |
| `Tracking.ProcessCandidate` | Tracker.cpp:39-444 | The body of the contour loop for one contour yields that contour's detection, or none when a test skips it. |
| `Tracking.FindCorners` | Tracker.cpp:66-319 | The edge loop and the corner loop give the corners of the lines fitted through the as-written samples, and `copyCorners` mirrors them. |
| `Tracking.AcceptCandidate` | Tracker.cpp:361-444 | The flood test, rotation loop, classification, reorder, shift and pose produce the decision on the candidate's corners. |
| `Tracking.LastDetectionIndex` | Tracker.cpp:412 | The result is the index of the last detection carrying the id, or -1 when none does. |
| `Tracking.Outcomes` | Tracker.cpp:28-445 | The outcomes of the first n contours in loop order, one per contour, each `CandidateResult`. `Tracking.Tracker.Track` is proved to write exactly these into the maps. |
| `Tracking.Recorded` | Tracker.cpp:412-444 | The map after `m[d.id] = field(d)` for each detection in order. `Tracking.RecordedNext` gives one step and `Tracking.LastDetectionWins` the resulting entry of every id. |
| `Tracking.RecordedNext` | Tracker.cpp:444 | One more candidate either overwrites its id's entry or leaves the map unchanged. |
| `Tracking.LastDetectionWins` | Tracker.cpp:412-444 | After a frame, an id holds the value of its last detection. An id no detection names keeps its earlier entry or stays absent, so no other key appears. |
| `Tracking.Tracker.constructor` | Tracker.cpp:3-6 | A new tracker holds the whitelist, and its two maps start empty. |
| `Tracking.Tracker.Track` | Tracker.cpp:28-445 | `track` writes each accepted candidate's pose and corners under its id, in contour order, without clearing the maps first. Candidates are decided on the as-written samples. |
| `Tracking.Tracker.CleanDetectedMarkers` | Tracker.cpp:457-461 | Both maps are empty afterwards. |
| `Tracking.Tracker.GetDetectedMarkerCenter` | Tracker.cpp:463-473 | The result has the same ids as the corner map, each mapped to the centre of its corners. |
| `Tracking.Tracker.GetMarkerPoseById` | Tracker.cpp:479-481 | The stored pose of a known id. None, where `map::at` throws, for an unknown one. |
| `Tracking.Tracker.GetMarkerCenterById` | Tracker.cpp:483-485 | The centre of a known id's corners. None for an unknown id. |
| `Tracking.Tracker.GetMarkerCornersById` | Tracker.cpp:487-489 | The stored corners of a known id. None for an unknown id. |
| `Application.SortedKeys` | Main.cpp:45-47 | The `std::map` iteration order lists exactly the keys. |
| `Application.SortedKeysMembers` | Main.cpp:45-47 | A key is in the map if and only if it appears in the iteration order. |
| `Application.SortedKeysAscending` | Main.cpp:45-47 | The iteration order is strictly ascending. |
| `Application.CenterMap` | Tracker.cpp:463-473 | The centre map has the same ids as the corner map. |
| `Application.CentersOf` | Main.cpp:44-47 | The `centers` vector has one entry per detected marker. |
| `Application.CentersInKeyOrder` | Main.cpp:44-47 | The loop over the centre map builds the `centers` vector in key order, each centre rounded to a `cv::Point`. |
| `Application.LeftRightOrder` | Main.cpp:59-66 | The left centre has the smaller or equal x. On strictly smaller x `centers[i]` is left, otherwise `centers[j]` is. The pair is the same two centres. |
| `Application.RowMembership` | Main.cpp:53-73 | A combination is in what the inner loop appends for row i if and only if some pair (i, k) with k < j produced it. |
| `Application.RowsMembership` | Main.cpp:52-73 | A combination is in what the outer loop appends if and only if some pair (i, k) with i < n produced it. |
| `Application.CombinationsArePairs` | Main.cpp:52-73 | A combination is recorded if and only if some pair i < j of centres produces it. |
| `Application.CombinationFacts` | Main.cpp:59-73 | Every recorded combination joins the ids of two distinct centres, with tango id 10 * left + right encoding the pair. |
| `Application.NoPairsBelowTwo` | Main.cpp:43 | With fewer than two centres, nothing is recorded. |
| `Application.Combinations` | Main.cpp:52-80 | What the pair loops of `drawLines` append, row by row. `Application.CombinationsArePairs` proves a combination is in it if and only if some pair i < j produces it, and `Application.CombinationFacts` what each one holds. |
| `Application.DrawnCombinations` | Main.cpp:39-82 | What `drawLines` appends for a centre map: the combinations of its centres in key order, or nothing with fewer than two markers. `Application.App.DrawLines` is proved to append exactly this. |
| `Application.App.constructor` | Main.cpp:6 | `monjiCombinations` starts empty. |
| `Application.App.AppendPair` | Main.cpp:54-73 | One pair appends its (left, right, tangoId) tuple when `getTangoId` is not -1, and otherwise nothing. |
| `Application.App.AppendRow` | Main.cpp:53-79 | The inner loop appends the combinations of every pair (i, j) with j > i, in order. |
| `Application.App.AppendCombinations` | Main.cpp:52-80 | The nested loops append the combinations of every pair i < j, in order, and nothing else. |
| `Application.App.DrawLines` | Main.cpp:39-82 | `drawLines` appends exactly the combinations of the detected centres, and nothing with fewer than two. |
| `Application.App.Frame` | Main.cpp:286-307 | One pass of the main loop records the combinations of the markers `track` found from the as-written samples. It ends with both tracker maps and `monjiCombinations` empty. |
| `Application.Transposed` | Main.cpp:96-100 | Entry x * 4 + y of the transpose is entry y * 4 + x of the pose. |
| `Application.TransposeInvolution` | Main.cpp:174-178 | Transposing twice gives back the pose. |
| `Application.TransposedByEntries` | Main.cpp:96-98 | A 16-entry buffer written entry by entry as the loop writes it is the transpose. |
| `Application.Transpose` | Main.cpp:95-100 | The transpose loops write entry y * 4 + x of the pose into slot x * 4 + y, for all x and y in [0, 4). |
| `Application.ShiftCorners` | Main.cpp:164-166 | The shift loop moves each of marker 1's corners by the offset. |
| `Application.MidpointOffset` | Main.cpp:161 | The offset (c2 - c1) / 2 that moves marker 1 half-way to marker 2. `Application.VirtualMarkerAtMidpoint` proves the shifted quad is centred at (c1 + c2) / 2. |
| `Application.VirtualMarkerAtMidpoint` | Main.cpp:159-166 | After marker 1's corners move by (c2 - c1) / 2, their centre is the midpoint (c1 + c2) / 2. |
| `Application.VirtualMarker` | Main.cpp:156-166 | For a combination whose two markers are both known, the virtual marker is marker 1's quad shifted to the midpoint. It is None, where `map::at` throws, otherwise. |

## Left out

- **OpenCV and Tesseract** are the uninterpreted fields of `Tracking.Vision`, because they are
  foreign library calls. This covers thresholding, `findContours` with `approxPolyDP` (the
  contours are given already approximated), `boundingRect`, `fitLine`, the perspective warp,
  threshold, erosion and flood fills behind the two means, `cv::rotate`, and OCR.
- **`estimateSquarePose`** is an oracle of the corners it is handed; its implementation is not
  part of this model.
- **`getVirtualPose`** is not modelled. Util.h is not part of this model; only the corners it is
  given (`Application.VirtualMarker`) are.
- **Drawing and display** are left out, because they only draw: `cv::circle`, `cv::line`,
  `polylines`, `imshow` and the debugging lines through `lineParams`. The centre drawn at
  `Tracker.cpp:322` is left out for the same reason.
- **Rendering** is left out because it is GPU and font output. This covers GL rendering in
  `renderObjs`/`renderCombis` other than the transpose and the midpoint shift, `renderBackground`,
  the per-marker text, and the `getTangoById` call (`getTangoById` is not part of this model).
- **`getModelById(std::string)`** with `std::stoi`, `getModelTunningMatrix` and the
  `MetaManager` constructor are left out. They are parsing, float matrices and model loading.
- **The Tesseract whitelist setup** (`Main.cpp:260-263`, built with `getMonjisSize`) and `mat8ToPix` are left out.
- **Camera capture, the window loop and the threshold slider** are left out. The frame and its
  contours are inputs.
- **`getDetectedMarkerPose` and `getDetectedMarkerCorners`** return the fields as they are, so they
  are not modelled separately. `detectedMarkerRotated` is never written.
- **Floating point:** points and lines are over `real`, with no `float` rounding. The division
  `pos` (`Tracker.cpp:188`) is the one that models IEEE zero division (`IeeeDivide`), and the
  sample pipeline uses it.
- `EdgeRefinement.SampleAt`, `EdgeRefinement.RefineSample`, `EdgeRefinement.SampleEdge`: an
  infinite `pos` makes the written edge point `NonFinite`, because `real` has no infinity or NaN.
  Its infinite or NaN coordinates are not modelled; `fitLine` receives the slot as `NonFinite`.
- **Unwritten slots:** a default-constructed `cv::Point2f` is (0, 0). A dropped sample or a
  skipped corner is kept as an unwritten slot, which `fitLine`, the means and the pose estimator
  receive as such. `copyCorners` uses the origin, as its value initialisation does.
- `Basics.Find`: `std::string::find` compares UTF-8 bytes; the model searches a `string` of
  characters. Only found versus not found is used, and on valid UTF-8 the two agree on that; the
  byte position itself is not modelled.
- **32-bit `int` overflow** is not modelled: pixel and Sobel values are bounded well inside
  `int`. A tango id 10 * id1 + id2 that overflows is out of scope.
- `Tracking.Tracker.Track`: requires every edge of every 4-vertex contour that passes the size
  filter to have a positive length (`Refinable`). Contours the filter rejects are unconstrained. For a zero-length edge the source divides by zero
  (`Tracker.h:112-113`) and carries NaN through the strip, which the model does not follow.
  `Tracking.ProcessCandidate`, `Tracking.CandidateResult` and `Application.App.Frame` carry the
  same precondition. `Tracking.FindCorners`, `Tracking.FitLines` and `EdgeRefinement.RefineEdge`,
  which run only after the filter, require it of their contour or edge.
- `TrackerHelpers.CalculateStripe`: requires a positive edge length, for the same reason. The
  returned `cv::Mat` is modelled as a fresh byte array of the strip's size.
- `Application.Transpose`: its `ensures` states the transpose entry by entry. That this is
  `Transposed(resultMatrix)` follows from `Application.TransposedByEntries`.
- `Application.App.DrawLines`: the `centers` vector is built from the centres rounded to whole
  pixels (`cvRound`), as `std::pair<int, cv::Point>` does. Its x comparisons are on those rounded
  values.

## Findings

| source | as written | input that shows it | evidently intended | confidence | as-written member | corrected member |
|---|---|---|---|---|---|---|
| Tracker.cpp:188-193 | `pos` is a double quotient of two ints, tested only with `isnan`. A zero denominator with a non-zero numerator gives an infinity that passes the test. | A strip whose five rows weigh 8, 7, 7, 5, 5 gives Sobel values -4, -8, -8. The peak stays at 0 with neighbours (0, -4, -8), so `pos` = -8 / 0 = -infinity, and the edge point becomes infinite. | Drop the sample whenever the parabola is degenerate, i.e. the curvature 4 y1 - 2 y0 - 2 y2 is zero. | not executed | `EdgeRefinement.InfiniteOffsetPassesNanTest` | `EdgeRefinement.SubpixelOffset` |
| Tracker.cpp:199-203 | The edge point is shifted by `maxIntensityIndex - (stripeLength >> 1)` rows. Sobel entry idx is centred on strip row idx + 1. | A 5-row strip with rows 0, 0, 128, 255, 255 has its edge at row offset -1/510. The as-written shift puts it at -511/510, one row away. | Shift by `maxIntensityIndex + 1 - (stripeLength >> 1)`, the offset of the peak's centre row. | not executed | `EdgeRefinement.EdgeShiftOffByOneRow` | `EdgeRefinement.EdgeCenterIsPeakRow` |
