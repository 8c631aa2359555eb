# aicam composition engine, modelled in Dafny

aicam is an iOS camera assistant. The user picks a reference photo, and the
app tells them how to match its framing. Between the Vision detectors and the
SwiftUI screens sits a small deterministic engine, `ImageAnalysisService`. This
project models that engine and proves properties about it:

- The body box is computed from pose keypoints. Points with confidence above
  0.3 are kept, their extent is padded by 0.1 and clamped to the unit square.
  With no qualifying point, or an unreadable point set, the box is the
  default (0.25, 0.25, 0.5, 0.5).
- The box centre is placed on a 3×3 grid with strict thresholds at 0.33
  and 0.67.
- The shooting angle and the head-to-body ratio come from the head cluster
  (nose, eyes) and the body cluster (neck, root). The angle uses a ±0.1
  deadband, and the fallback is (unknown, 1.0).
- The placeholder shadow estimate always returns one rectangle derived from
  the face box.
- Lighting direction comes from the first shadow's offset to the face centre.
  Lighting quality is a step function of total shadow area over face area.
- The guidance list compares a live analysis with an optional reference.
- The enum display strings and error descriptions are modelled.
- `AnalysisOverlayView.strokeColor`, the outline colour that grades the live
  analysis against the reference, is modelled too.

Module layout, one file each:

- `Results` (Option, Result)
- `Numeric` (abs, min/max, sums, averages, truncation to an integer)
- `Geometry` (`Rect` with CoreGraphics semantics: standardized width and
  height, `MidX = MinX + Width / 2`)
- `Categories` (the five enums and their strings)
- `Decimal` (integer formatting for the percentage line)
- `Position`, `PoseBox`, `BodyProportions`, `PersonDetection`
- `FaceLighting`, `Guidance`, `Overlay`

Three operations that the source builds step by step are imperative methods.
Each is proved equal to a specification function whose properties are proved
as lemmas:

- `FaceLighting.AnalyzeFaceShadows` (a local list with one append)
- `FaceLighting.AnalyzeLighting` (a `direction` variable assigned in branches)
- `Guidance.GenerateCameraSuggestions` (appends, then an emptiness check)

Guidance is modelled in two layers. `Advice` gives the suggestions as typed
values. `Render` turns each one into the app's exact string. `Render` is proved
injective, so statements about the typed list carry over to the strings.

The overlay and the guidance use different size tests. The overlay calls a size
a match when the difference is < 0.1. The guidance stays silent while the
difference is ≤ 0.1. At a difference of exactly 0.1 the two disagree. For
example, 0.2 against 0.1 is exactly 0.1 in binary floating point as well. With
zone and angle matching, that pair gives the "ready to shoot" message under an
orange outline. With the zones differing, it gives a red outline whose only
message is about position. Both cases are proved.

A pose with no point above the confidence threshold is not a detection failure.
It yields the default box, a body ratio of 0.25 and the centre zone.

## Model

| member | source | states |
|---|---|---|
| Numeric.AverageBounds | aicam/ImageAnalysisService.swift:327-328 | the average of values that all lie in [lo, hi] lies in [lo, hi] |
| Numeric.AverageBetween | aicam/ImageAnalysisService.swift:327-328 | the average of a non-empty list of y values lies between its minimum and its maximum |
| Numeric.TruncateToInt | aicam/ImageAnalysisService.swift:431 | `Int(_:)` truncates toward zero: for x ≥ 0 the result n has n ≤ x < n + 1; for x < 0 it has n − 1 < x ≤ n |
| Geometry.Rect.MidX | aicam/ImageAnalysisService.swift:256 | midX is the standardized minimum x plus half the standardized width |
| Geometry.Rect.MidY | aicam/ImageAnalysisService.swift:257 | midY is the standardized minimum y plus half the standardized height |
| Geometry.Rect.Area | aicam/ImageAnalysisService.swift:167 | width × height of a rectangle is never negative, because both are standardized |
| Categories.PersonPosition.Description | aicam/ImageAnalysisService.swift:32-44 | every zone label is two characters long |
| Categories.ShootingAngle.Description | aicam/ImageAnalysisService.swift:53-60 | every angle label is four characters long |
| Categories.PositionDescriptionInjective | aicam/ImageAnalysisService.swift:32-44 | distinct zones have distinct labels |
| Categories.AngleDescriptionInjective | aicam/ImageAnalysisService.swift:53-60 | distinct angles have distinct labels |
| Categories.DirectionDescriptionInjective | aicam/ImageAnalysisService.swift:68-82 | distinct lighting directions have distinct labels |
| Categories.LightingDirection.Description | aicam/ImageAnalysisService.swift:68-82 | every direction label ends in 光 (light) except the one for an unknown direction; injectivity is DirectionDescriptionInjective |
| Categories.LightingQuality.Description | aicam/ImageAnalysisService.swift:88-95 | every quality label is four characters and starts with 光线; injectivity is QualityDescriptionInjective |
| Categories.AnalysisError.ErrorDescription | aicam/ImageAnalysisService.swift:449-460 | the two detection failures, and only they, are described as 未检测到 (not detected); injectivity is ErrorDescriptionInjective |
| Categories.QualityDescriptionInjective | aicam/ImageAnalysisService.swift:88-95 | distinct lighting qualities have distinct labels |
| Categories.ErrorDescriptionInjective | aicam/ImageAnalysisService.swift:449-460 | distinct analysis errors have distinct descriptions |
| Decimal.IntToString | aicam/ImageAnalysisService.swift:431 | the interpolated integer is non-empty and starts with '-' exactly when it is negative |
| Decimal.ParseNatToString | aicam/ImageAnalysisService.swift:431 | reading back the decimal digits of a natural number gives that number |
| Decimal.ParseIntToString | aicam/ImageAnalysisService.swift:431 | the rendered integer is well formed and reads back as the same integer |
| Decimal.IntToStringInjective | aicam/ImageAnalysisService.swift:431 | distinct percentages print differently |
| Position.BandOf | aicam/ImageAnalysisService.swift:259-262 | a coordinate is low iff < 0.33, high iff > 0.67, and middle iff it lies in [0.33, 0.67] |
| Position.ZoneAt | aicam/ImageAnalysisService.swift:28-30 | every (row, column) pair of bands names a zone with exactly that row and column |
| Position.GridCoversEveryZone | aicam/ImageAnalysisService.swift:28-30 | the nine zones are exactly the nine grid cells |
| Position.DeterminePersonPosition | aicam/ImageAnalysisService.swift:255-289 | the zone's row is the band of midY and its column the band of midX |
| Position.BoundaryCentreIsMiddle | aicam/ImageAnalysisService.swift:264-286 | a centre coordinate exactly at 0.33 or 0.67 lands in the middle band |
| Position.PositionDependsOnlyOnCentre | aicam/ImageAnalysisService.swift:256-257 | boxes with the same centre get the same zone |
| PoseBox.ValidPoints | aicam/ImageAnalysisService.swift:191-194 | a point is kept iff it is in the input and its confidence is > 0.3 |
| PoseBox.ValidPointsAppend | aicam/ImageAnalysisService.swift:191-194 | the confidence filter distributes over concatenation |
| PoseBox.NoQualifyingPoint | aicam/ImageAnalysisService.swift:196 | with no point above 0.3 the filtered list is empty |
| PoseBox.PaddedExtent | aicam/ImageAnalysisService.swift:200-218 | the padded, clamped extent of a non-empty point list has its left and top edges at 0 or more and its right and bottom edges at 1 or less, and it encloses every point of the list inside the unit square (its exact edges are PaddedExtentIsTight) |
| PoseBox.PaddedExtentIsTight | aicam/ImageAnalysisService.swift:200-218 | each near edge is at or before every point's max(0, coordinate − 0.1) and equals it for some point; each far edge is at or after every point's min(1, coordinate + 0.1) and equals it for some point |
| PoseBox.BoundingBoxFromPose | aicam/ImageAnalysisService.swift:185-219 | an unreadable point set gives the default box; in every case the box starts at 0 or more and ends at 1 or less, and it encloses every qualifying point inside the unit square (the default-box case is NoValidPointGivesDefaultBox, the exact edges PoseBoxIsTight, the filter LowConfidencePointIgnored) |
| PoseBox.PoseBoxIsTight | aicam/ImageAnalysisService.swift:191-218 | with a qualifying point, the box edges are exactly the extremes of the qualifying points padded by 0.1 and clamped to [0, 1] |
| PoseBox.NoValidPointGivesDefaultBox | aicam/ImageAnalysisService.swift:186-198 | with no point above 0.3 the box is exactly (0.25, 0.25, 0.5, 0.5) |
| PoseBox.LowConfidencePointFiltered | aicam/ImageAnalysisService.swift:192 | inserting a point at or below 0.3 anywhere leaves the qualifying points unchanged |
| PoseBox.LowConfidencePointIgnored | aicam/ImageAnalysisService.swift:191-218 | inserting a point at or below 0.3 anywhere leaves the box unchanged |
| PoseBox.CoordinateBounds | aicam/ImageAnalysisService.swift:201-204 | every qualifying point lies between the extreme x and y values |
| PoseBox.ExtremesInUnit | aicam/ImageAnalysisService.swift:201-204 | if the points lie in the unit square, so do their extremes |
| PoseBox.BoxEnclosesValidPoints | aicam/ImageAnalysisService.swift:200-218 | if the qualifying points lie in the unit square, the box does too, has non-negative width and height, and encloses each of them |
| PoseBox.UnitBoxArea | aicam/ImageAnalysisService.swift:167 | a box inside the unit square has an area in [0, 1] |
| PoseBox.OutOfRangePointGivesInvertedBox | aicam/ImageAnalysisService.swift:208-218 | a qualifying point at x = 5 yields a box of negative stored width, because only the far edge is clamped |
| BodyProportions.Lookup | aicam/ImageAnalysisService.swift:299-308 | a joint's entry, when present, is a point of that joint; it is absent iff no point has that joint |
| BodyProportions.Present | aicam/ImageAnalysisService.swift:299-308 | `compactMap` keeps exactly the present entries and never lengthens the list (order and multiplicity are PresentAppend) |
| BodyProportions.PresentAppend | aicam/ImageAnalysisService.swift:299-308 | `compactMap` distributes over concatenation, so it keeps each present entry once and in slot order |
| BodyProportions.PresentDistinctJoints | aicam/ImageAnalysisService.swift:299-308 | slots whose entries carry distinct joints give a list with no joint twice |
| BodyProportions.ClusterMembership | aicam/ImageAnalysisService.swift:299-308 | the head cluster holds only nose and eye points, at most three, and holds the entry of every reported head joint; the body cluster likewise for neck and root, at most two; no joint appears twice in a cluster; a cluster is empty iff none of its joints is reported |
| BodyProportions.ClusterJointsDistinct | aicam/ImageAnalysisService.swift:299-308 | each cluster holds at most one entry per joint, so each reported joint counts once in the averages |
| BodyProportions.AnalyzeBodyProportions | aicam/ImageAnalysisService.swift:292-323 | a missing point set or an empty cluster gives (unknown, 1.0), and the angle is unknown only then; the ratio is never negative (its exact value is HeadBodyRatioIsSpan) |
| BodyProportions.DetermineShootingAngle | aicam/ImageAnalysisService.swift:325-339 | with d the average head y minus the average body y: overhead iff d > 0.1, low angle iff d < −0.1, eye level iff −0.1 ≤ d ≤ 0.1; never unknown |
| BodyProportions.AngleFollowsDeadband | aicam/ImageAnalysisService.swift:310-320 | with both clusters present, the analysed angle follows the same deadband on the clusters read from the point set |
| BodyProportions.HeadBodyRatioIsSpan | aicam/ImageAnalysisService.swift:315-317 | the ratio is the absolute value of the greatest body y minus the least head y, so it is never negative |
| BodyProportions.HeadBodyRatioAtMostOne | aicam/ImageAnalysisService.swift:315-317 | when the head and body points lie in the unit square, the ratio is at most 1 |
| BodyProportions.LowAngleImpliesTallProfile | aicam/ImageAnalysisService.swift:315-339 | a low-angle verdict forces a head-to-body ratio above 0.1 |
| PersonDetection.DetectPersonInImage | aicam/ImageAnalysisService.swift:146-182 | an unreadable image gives invalidImage; no observation gives noPersonDetected; otherwise the first observation is analysed |
| PersonDetection.AnalyzePose | aicam/ImageAnalysisService.swift:164-181 | the analysis keeps the pose box, reports its non-negative area as the body ratio, places the zone by the box centre, and takes the angle and a non-negative head-to-body ratio from the same point set |
| PersonDetection.NoValidPointGivesCentredDefault | aicam/ImageAnalysisService.swift:186-198 | without a qualifying or readable point the person is still detected, with the default box, body ratio 0.25 and the centre zone |
| PersonDetection.NormalizedPointsGiveNormalizedAnalysis | aicam/ImageAnalysisService.swift:164-170 | with normalized qualifying points, the analysed box lies in the unit square and encloses them, and the body ratio lies in [0, 1] |
| FaceLighting.FaceShadows | aicam/ImageAnalysisService.swift:342-356 | exactly one shadow, 0.3 × the face width by 0.4 × the face height, so 0.12 × the face area |
| FaceLighting.AnalyzeFaceShadows | aicam/ImageAnalysisService.swift:342-356 | the appended list is the placeholder estimate and has one element |
| FaceLighting.LightDirection | aicam/ImageAnalysisService.swift:365-377 | a shadow always gives one of left, right, top or bottom |
| FaceLighting.TotalArea | aicam/ImageAnalysisService.swift:379 | the folded shadow area is never negative |
| FaceLighting.QualityFor | aicam/ImageAnalysisService.swift:381-390 | excellent iff ratio < 0.1, good iff in [0.1, 0.2), fair iff in [0.2, 0.4), poor iff ≥ 0.4 (monotonicity is QualityMonotone) |
| FaceLighting.QualityOf | aicam/ImageAnalysisService.swift:379-390 | a zero-area face is rated poor; for positive face area A the quality thresholds read shadow area < 0.1·A, < 0.2·A and < 0.4·A |
| FaceLighting.Lighting | aicam/ImageAnalysisService.swift:359-393 | (front, excellent) for no shadow, and front only then; otherwise the cardinal direction of the first shadow and the quality of the total shadow area (see DirectionFromFirstShadowOnly, DirectionCases, ExtraShadowNeverImproves) |
| FaceLighting.AnalyzeLighting | aicam/ImageAnalysisService.swift:359-393 | the step-by-step assignment yields the specified direction and quality; with a shadow the direction is one of the four cardinal ones |
| FaceLighting.AnalyzeFaceInImage | aicam/ImageAnalysisService.swift:222-252 | an unreadable image gives invalidImage; no face gives noFaceDetected; otherwise the first face's box is kept, its shadows are the placeholder estimate for that box, and direction and quality are the lighting of those shadows on that box |
| FaceLighting.NoShadowIsFrontExcellent | aicam/ImageAnalysisService.swift:360-362 | an empty shadow list gives (front, excellent) whatever the face box |
| FaceLighting.DirectionFromFirstShadowOnly | aicam/ImageAnalysisService.swift:365-377 | the direction depends only on the first shadow and is always cardinal |
| FaceLighting.DirectionCases | aicam/ImageAnalysisService.swift:368-377 | left iff abs(dx) > abs(dy) and dx > 0; right iff abs(dx) > abs(dy) and dx < 0; top iff abs(dx) ≤ abs(dy) and dy > 0; bottom iff abs(dx) ≤ abs(dy) and dy ≤ 0; a zero offset gives bottom |
| FaceLighting.QualityThresholds | aicam/ImageAnalysisService.swift:379-390 | for a face of positive area: excellent iff ratio < 0.1, good iff in [0.1, 0.2), fair iff in [0.2, 0.4), poor iff ≥ 0.4 |
| FaceLighting.QualityMonotone | aicam/ImageAnalysisService.swift:381-390 | a larger shadow ratio never gives a better quality |
| FaceLighting.MoreShadowNeverBetter | aicam/ImageAnalysisService.swift:379-390 | on one face, more shadow area never gives a better quality |
| FaceLighting.ExtraShadowNeverImproves | aicam/ImageAnalysisService.swift:365-390 | reporting one more shadow region keeps the direction and never improves the quality |
| FaceLighting.PlaceholderShadowRatesGood | aicam/ImageAnalysisService.swift:342-390 | with the placeholder estimate, a face of positive area is always rated good and a face of zero area poor |
| FaceLighting.FaceAnalysisFromPlaceholder | aicam/ImageAnalysisService.swift:237-252 | a face analysis has one shadow, a cardinal direction, and quality good (poor for a zero-area face) |
| Guidance.RenderAll | aicam/ImageAnalysisService.swift:396-439 | one string per suggestion, in order, each the suggestion's rendering |
| Guidance.Percent | aicam/ImageAnalysisService.swift:431 | the percentage is the hundredfold ratio truncated toward zero; a body ratio in [0, 1] prints as 0..100 |
| Guidance.Suggestion.Render | aicam/ImageAnalysisService.swift:400-435 | every rendering opens with its kind's four-character head, so kinds are told apart by their first four characters (injectivity is RenderInjective) |
| Guidance.Advice | aicam/ImageAnalysisService.swift:396-439 | never empty, at most three entries, in strictly increasing category order: size, then position, then angle, at most one each |
| Guidance.GenerateCameraSuggestions | aicam/ImageAnalysisService.swift:396-439 | the appended strings are the rendering of the specified advice, and there are 1 to 3 of them |
| Guidance.SubjectMissingExactlyWithoutSubject | aicam/ImageAnalysisService.swift:399-402 | the no-subject message appears iff there is no live analysis, and then alone |
| Guidance.InformationalWithoutReference | aicam/ImageAnalysisService.swift:428-432 | without a reference: exactly position, angle and percentage, in that order, none corrective |
| Guidance.SizeAdviceExactly | aicam/ImageAnalysisService.swift:408-416 | "too small" iff abs(Δ) > 0.1 and live < reference; "too large" iff abs(Δ) > 0.1 and live > reference |
| Guidance.ToleranceBoundaryGivesNoSizeAdvice | aicam/ImageAnalysisService.swift:409 | a difference of exactly 0.1 gives no size message |
| Guidance.PositionAdviceExactly | aicam/ImageAnalysisService.swift:418-421 | a reposition message appears iff the zones differ; it names the reference zone as target and the live zone as current |
| Guidance.AngleAdviceExactly | aicam/ImageAnalysisService.swift:423-426 | an angle message appears iff the angles differ; it names the reference angle |
| Guidance.ReadyExactlyWhenNothingToFix | aicam/ImageAnalysisService.swift:404-436 | against a reference, the output is exactly the affirmation iff no check fires; otherwise every entry is corrective |
| Guidance.RenderInjective | aicam/ImageAnalysisService.swift:399-436 | distinct suggestions are shown as distinct strings |
| Guidance.RenderAllInjective | aicam/ImageAnalysisService.swift:396-439 | the list of strings determines the list of suggestions |
| Guidance.NoSubjectText | aicam/ImageAnalysisService.swift:399-402 | with no live analysis the output is exactly ["未检测到人体，请调整相机角度"] |
| Guidance.TooSmallScenario | aicam/ImageAnalysisService.swift:408-413 | 0.10 against 0.25, zone and angle equal, gives exactly ["人物太小，请靠近一些或放大画面"] |
| Guidance.LeftOfCentreScenario | aicam/ImageAnalysisService.swift:418-421 | a live subject on the left of a centred reference, otherwise matching, gives exactly ["调整位置：目标位置为居中，当前为偏左"] |
| Overlay.StrokeColor | aicam/SmartCameraView.swift:336-353 | yellow iff the current or the reference analysis is absent (the other colours are ColourCases) |
| Overlay.ColourCases | aicam/SmartCameraView.swift:342-352 | green iff size (strict < 0.1), zone and angle all match; orange iff not green and size or zone matches; red iff neither size nor zone matches, whatever the angle |
| Overlay.GreenMeansReady | aicam/SmartCameraView.swift:342-347 | a green outline comes with exactly the affirmative message |
| Overlay.ReadyMeansGreenOffBoundary | aicam/SmartCameraView.swift:342-347 | the affirmative message comes with green whenever the size difference is not exactly 0.1 |
| Overlay.BoundaryReadyButOrange | aicam/SmartCameraView.swift:342-349 | 0.2 against 0.1 with zone and angle equal gives the affirmative message under an orange outline |
| Overlay.RedMeansZoneAndSizeAdvice | aicam/SmartCameraView.swift:348-352 | red always comes with the reposition message, and with a size message unless the difference is exactly 0.1 |
| Overlay.BoundaryRedWithoutSizeAdvice | aicam/SmartCameraView.swift:342-352 | 0.2 against 0.1 in different zones gives red with only the reposition message |

## Left out

- The Vision and CoreML requests (`VNDetectHumanBodyPoseRequest`, `VNDetectFace*Request`, `VNImageRequestHandler`) are foreign inference. Their outcome is an input: `PoseRequest` and `FaceRequest` (unreadable image, or the list of observations).
- An error thrown by `handler.perform` propagates unchanged. It is not modelled, because it comes from the detector.
- The face landmarks request is performed but its result is never used, so it is not modelled.
- `recognizedPoints(.all)` returns a dictionary keyed by joint. It is modelled as a sequence of keypoints, each carrying its joint, and a joint lookup returns the first entry. A sequence may repeat a joint, which a dictionary cannot. The box depends only on the set of points, so order does not matter there.
- The async wrappers `analyzeReferenceImage` and `analyzeRealtimeFrame` are dispatch-queue plumbing and are not modelled. This covers their error mapping, including the "人体检测失败" message and the reference analysis failing when no face is found.
- The realtime `Timer` loop, the camera controllers, the pickers and all SwiftUI layout are UI and concurrency, not engine logic.
- `LightingQuality.color` is presentation only.
- Floating point is not modelled: `CGFloat` and `Float` values are reals, so rounding and the `Float(...)` conversions are not captured. `Int(bodyRatio * 100)` is truncation toward zero of a real. Swift's trap on NaN or out-of-range values is not modelled.
- BodyProportions.DetermineShootingAngle: requires both clusters to be non-empty. Its only caller checks this first; for an empty cluster the source would divide by zero.
- The `?? 0.25`, `?? 0.75`, `?? 0` and `?? 1` defaults after `min()` and `max()` are not modelled. They cannot be reached, because the lists are non-empty there.
- FaceLighting.QualityOf: a face of zero area is rated poor. The source divides by zero there and gets infinity or NaN, and every `<` test fails on either. This is the one case where the placeholder estimate does not rate good.
- `analyzeFaceShadows` takes the image as a parameter but never reads it, so the model takes only the face box.
