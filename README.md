# droneMap core, modelled in Dafny

droneMap is a Next.js 3D scene in which a drone flies over a small harbour
city while the camera follows it. This project models the logic parts of
the scene and proves properties about them:

- **The seeded placeholder-building generator of the embed page.** It walks
  candidate grids with per-batch linear congruential streams, draws
  footprints and one to three sub-parts per building, and rejects cells on
  the water, in exclusion circles or near the logo. A final map/filter
  drops off-map and on-water buildings and moves far-back ones to z = -4
  without testing the zones again (see Findings).
- **The drone controls.** Each version includes a follow camera.
  - The embed page version smooths the heading, detects mobile devices,
    handles touch moves, throttles pointer input to one update per 16 ms and
    flies only while the follow camera is on. The page publishes the pose
    at most once per 100 ms.
  - The home page version has none of these: no smoothing, no mobile
    detection, no touch-move handler, no pointer throttle, and it flies
    whether or not the camera follows. It publishes the pose on every frame.
  - One shared prototype version is copied into eight prototype pages:
    with-controls, perfect-drone, manual-rotors, last-try, blender-drone,
    animated, animate-all and debug. It publishes nothing.
- **The intro sequence.**
  - The logo overlay, with its polling completion check.
  - The one-shot camera tween.
  - The timed hand-over from the tween to the follow camera.
  - The camera-bookmark tween.
- **The proximity info panel.** It picks the first building whose sphere
  contains the drone.
- **The overlay mappings.** Screen position, tilt and the container style.
- **The rotor animations and model traversals of the prototype pages.**
  Name-based rotor detection, uniform, alternating and every-fourth spins,
  and the debug page's material summary.
- **The middleware.** It rewrites the framing headers of `/embed` responses.

The modules follow the source files:

| module | file |
|---|---|
| `Lcg` | lcg.dfy |
| `Text` | text.dfy |
| `Geometry` | geometry.dfy |
| `EmbedPlacement` | placement.dfy |
| `EmbedControls` | embed_controls.dfy |
| `CameraTween` | camera_animation.dfy |
| `BuildingInfoPanel` | building_info.dfy |
| `Home` | home.dfy |
| `Intro` | intro_animation.dfy |
| `Overlay` | drone_overlay.dfy |
| `PrototypeControls` | prototype_controls.dfy |
| `Rotors` | rotors.dfy |
| one module per prototype page | page_*.dfy |
| `Middleware` | middleware.dfy |

The code works in three styles, and the model keeps each one:

- **Pure computation** becomes functions and lemmas: the generator's
  specification, the easing curves, the mappings and the header rewrite.
- **Component state updated in place** becomes classes with `modifies`
  clauses: React state and refs, the drone and camera objects, the
  generator's random closure, the rotor ref lists and the response headers.
- **Loops** become methods with loop invariants, each proved equal to the
  functional specification: the generator's batch loops, the rotor spin,
  the traversal collection and the bookmark tween.

Modelling conventions:

- **Clock readings, pointer headings, window sizes and frame deltas are
  parameters.**
- **Headings are given by their two horizontal components.** The library
  normalises them.
- **Quaternion orientation is symbolic.** `Slerped(o, dir, rate)` records
  one slerp step.
- **A camera `lookAt` is recorded as the camera's target point.**
- **A React state setter takes effect before the next event is handled.**
- **Numbers are exact reals.** The generator's stream is exact integer
  arithmetic: every intermediate value is below 2^53.

## Model

| member | source | states |
|---|---|---|
| Lcg.JsRem | app/embed/page.tsx:581 | JavaScript `%` on a non-negative dividend is the Euclidean remainder in [0, b); on a negative one it lies in (-b, 0] |
| Lcg.StepExact | app/embed/page.tsx:581 | seed·9301 + 49297 stays below 2^53 for every seed in [0, 233280), so the double arithmetic is exact |
| Lcg.Step | app/embed/page.tsx:581 | a step maps any seed in [0, 233280) back into [0, 233280), as (s·9301 + 49297) mod 233280 |
| Lcg.Value | app/embed/page.tsx:582 | the drawn value lies in [0, 1) and times 233280 gives back the seed |
| Lcg.Stream | app/embed/page.tsx:579-583 | n draws give n values |
| Lcg.StreamAt | app/embed/page.tsx:579-583 | the i-th draw of a stream is the value of the seed after i+1 steps, so equal seeds give equal sequences |
| Lcg.StreamSplit | app/embed/page.tsx:579-583 | drawing m then n values is the same as drawing m+n values from the same seed |
| Lcg.Rng.constructor | app/embed/page.tsx:579 | a closure starts at its batch's seed |
| Lcg.Rng.Next | app/embed/page.tsx:580-583 | one `random()` call advances the seed by exactly one step and returns the new seed's value |
| Text.LowerChar | app/page-last-try.tsx:46 | an ASCII capital is mapped to its lower-case letter, 32 code points up; every other character is kept |
| Text.Lower | app/page-last-try.tsx:46 | lower-casing keeps the length and lower-cases each character in place |
| Text.ContainsAt | app/page-last-try.tsx:46-50 | `includes` holds exactly when the needle occurs at some index of the haystack |
| Text.ContainsPrefix | app/page-last-try.tsx:46-50 | a string containing t also contains every prefix of t |
| Geometry.LerpGap | app/page.tsx:155-167 | a lerp toward b at rate t leaves (1-t) of the gap to b; rates 0 and 1 give the ends |
| Geometry.Fly | app/page.tsx:142-149 | horizontal flight keeps the height and moves x and z by the heading times the distance |
| Geometry.FollowGap | app/page.tsx:155-167 | the follow camera closes its gap to drone + offset by the follow rate, and a camera already at the target stays there |
| Geometry.Camera.constructor | app/page.tsx:757-762 | a camera starts at the given position, looking at the given point |
| Geometry.Drone.constructor | app/page.tsx:711 | a drone starts at the given position with the identity rotation |
| Geometry.Node.constructor | app/page-last-try.tsx:42-43 | a scene node has a name, a type and a rotation about the vertical axis |
| Geometry.SquareLess | app/components/BuildingInfo.tsx:40-42 | squaring is strictly increasing on non-negative reals |
| Geometry.SqrtLess | app/components/BuildingInfo.tsx:40-42 | `sqrt(v) < r` holds exactly when r is positive and v < r² |
| EmbedPlacement.WithinIsDistanceTest | app/embed/page.tsx:592 | the squared-distance test of a circle is the `sqrt` distance test |
| EmbedPlacement.WithinMonotone | app/embed/page.tsx:508-515 | a point inside a circle is inside every larger concentric circle |
| EmbedPlacement.PositionFreeMeaning | app/embed/page.tsx:484-516 | a water position is never free; otherwise free exactly when every occupied area's centre is at least area radius + radius + margin away, with margin 0.3 in front of building 1 and 1 elsewhere |
| EmbedPlacement.PositionFreeMonotone | app/embed/page.tsx:501-516 | a position free for a radius is free for every smaller radius |
| EmbedPlacement.AcceptedMonotone | app/embed/page.tsx:600 | a batch's acceptance test that passes for a radius passes for every smaller radius |
| EmbedPlacement.InSpan | app/embed/page.tsx:595-597 | a draw in [0, 1) scaled into a span lies within that span |
| EmbedPlacement.Shifted | app/embed/page.tsx:534-535 | a jittered coordinate stays within half the jitter amplitude of the grid point |
| EmbedPlacement.Position | app/embed/page.tsx:532-537 | an exact cell is kept and consumes no draw; a jittered cell consumes two draws and moves at most half the amplitude on each axis |
| EmbedPlacement.BaseFootprint | app/embed/page.tsx:594-598 | the base draws consume three values and give width, depth and height within the batch's spans, with radius max(w, d)/2 at least the batch's smallest |
| EmbedPlacement.PartCount | app/embed/page.tsx:602 | the part count is 2 exactly when the first draw exceeds 0.5 (one draw used); otherwise a second draw picks 3 above 0.3 and 1 otherwise |
| EmbedPlacement.SizeFactor | app/embed/page.tsx:606-607 | a part's width or depth factor lies in [0.7, 1.3) of the base |
| EmbedPlacement.HeightFactor | app/embed/page.tsx:608 | a part's height factor lies in [0.8, 1.2) of the base |
| EmbedPlacement.OffsetFactor | app/embed/page.tsx:609-610 | a part's offset lies within a quarter of the base dimension |
| EmbedPlacement.PartWidthFits | app/embed/page.tsx:606 | part width lies in [0.7, 1.3) × base width |
| EmbedPlacement.PartDepthFits | app/embed/page.tsx:607 | part depth lies in [0.7, 1.3) × base depth |
| EmbedPlacement.PartHeightFits | app/embed/page.tsx:608 | part height lies in [0.8, 1.2) × base height |
| EmbedPlacement.PartOffsetXFits | app/embed/page.tsx:609 | part x offset lies within ±base width / 4 |
| EmbedPlacement.PartOffsetZFits | app/embed/page.tsx:610 | part z offset lies within ±base depth / 4 |
| EmbedPlacement.PartOfFits | app/embed/page.tsx:605-619 | a part built from five draws in [0, 1) fits its base in all five dimensions |
| EmbedPlacement.DrawPart | app/embed/page.tsx:606-610 | a part consumes exactly five draws and fits a positive base |
| EmbedPlacement.DrawPartsLength | app/embed/page.tsx:605-619 | n parts are n parts long and consume exactly 5n draws |
| EmbedPlacement.DrawPartsFit | app/embed/page.tsx:605-619 | every drawn part fits its base |
| EmbedPlacement.BuildPartsShape | app/embed/page.tsx:602-620 | a random-parts building has 1 to 3 parts, a whole-base building 1 and a two-part building 2, each fitting its base |
| EmbedPlacement.PlaceCellSound | app/embed/page.tsx:585-622 | a placed building has a base footprint drawn from the batch's spans such that it passed the batch's acceptance test at that footprint's own radius max(w, d)/2 and its parts fit that footprint |
| EmbedPlacement.SoundAtFloor | app/embed/page.tsx:594-600 | a sound building also passes its batch's test at the batch's smallest radius |
| EmbedPlacement.SegmentStep | app/embed/page.tsx:585-622 | placing one more cell appends that cell's building, if any, and continues the stream |
| EmbedPlacement.SegmentSound | app/embed/page.tsx:585-622 | a batch loop places at most one building per cell, each sound for some visited cell |
| EmbedPlacement.BatchSound | app/embed/page.tsx:525-1336 | every building of a multi-loop batch comes from a cell of one of its loops and is sound for that loop, so it passed that loop's acceptance test at its own drawn radius |
| EmbedPlacement.BatchPlaced | app/embed/page.tsx:525-1336 | every building of a multi-loop batch is clear of the logo and has 1 to 3 parts |
| EmbedPlacement.GridCells | app/embed/page.tsx:585-586 | every cell of a nested grid loop pairs an outer coordinate with an inner one |
| EmbedPlacement.GridStep | app/embed/page.tsx:585-586 | one more outer iteration appends one inner row to the visited cells |
| EmbedPlacement.Row | app/embed/page.tsx:586 | an inner loop visits one cell per inner coordinate |
| EmbedPlacement.Grid | app/embed/page.tsx:585-586 | a nested loop visits outer × inner cells |
| EmbedPlacement.Relocate | app/embed/page.tsx:1372-1379 | a building right of the harbour with z < -10 moves to z = -4; x and parts are never changed, and every other building is kept as is |
| EmbedPlacement.RelocateKeepsLogoClear | app/embed/page.tsx:1374-1377 | the z = -4 move never brings a building within 2.5 of the logo |
| EmbedPlacement.FinalFilterSound | app/embed/page.tsx:1352-1380 | the output is no longer than the input, each entry is a relocated input entry that was kept, and each lies within the 12-unit map and off the closed water rectangle |
| EmbedPlacement.FinalFilterKeeps | app/embed/page.tsx:1352-1380 | every input entry the filter does not drop appears, relocated, in the output |
| EmbedPlacement.FinalFilterAppend | app/embed/page.tsx:1352-1380 | the filter works entry by entry, so it preserves relative order across concatenation |
| EmbedPlacement.LayoutSound | app/embed/page.tsx:474-1383 | every building of the generated layout lies on the map, off the water, clear of the logo and has 1 to 3 parts (clearance of the exclusion zones is not promised; see Findings) |
| EmbedPlacement.SegmentPrefix | app/embed/page.tsx:585-622 | later cells of a batch loop never remove a building that earlier cells placed |
| EmbedPlacement.SegmentHas | app/embed/page.tsx:585-622 | the building a cell yields on the seed the earlier cells leave is part of the loop's output |
| EmbedPlacement.GridAt | app/embed/page.tsx:585-586 | with m inner values, outer turn i and inner turn j visit cell i·m + j of the grid |
| EmbedPlacement.GridSegmentHas | app/embed/page.tsx:585-622 | a grid cell that is accepted in place on every seed yields a building of the loop's output standing on that cell |
| EmbedPlacement.MainCellAccepted | app/embed/page.tsx:585-622 | the main grid accepts cell (-2, -12) in place whatever the seed |
| EmbedPlacement.MainBatchHas | app/embed/page.tsx:585-622 | the main batch places a building at (-2, -12) |
| EmbedPlacement.RelocationTarget | app/embed/page.tsx:484-516 | (-2, -12) is free at radius 0.85, and (-2, -4) is free at no radius, lying 2 from the container slot at (-2, -2) |
| EmbedPlacement.RelocatedIntoZone | app/embed/page.tsx:1352-1380 | a building at (-2, -12) survives the final filter and is moved to (-2, -4), where it is not free; the checked relocation keeps it in place |
| EmbedPlacement.RelocationBreaksZones | app/embed/page.tsx:1372-1379 | the generated layout holds a building the relocation moved from a free position into an exclusion zone |
| EmbedPlacement.RelocateCheckedKeepsFree | app/embed/page.tsx:1372-1379 | the relocation that re-tests the target never moves a building free for a radius up to its reach into a position not free for it, and changes nothing but z |
| EmbedPlacement.NextPart | app/embed/page.tsx:605-619 | one iteration of the parts loop draws exactly the part the specification gives and advances the closure's seed the same way |
| EmbedPlacement.NextParts | app/embed/page.tsx:605-619 | the parts loop yields the specified parts and seed |
| EmbedPlacement.PlaceAt | app/embed/page.tsx:588-622 | the body of a batch loop places exactly what the specification places at a cell and leaves the seed where it does |
| EmbedPlacement.PlaceAll | app/embed/page.tsx:933-1012 | a loop over a list of cells places exactly the specified segment |
| EmbedPlacement.SegmentAppend | app/embed/page.tsx:525-1336 | two loops run back to back on one closure place the concatenation of their segments, the second starting from the seed the first leaves |
| EmbedPlacement.PlaceRow | app/embed/page.tsx:586-622 | an inner grid loop places exactly the specified segment for its row |
| EmbedPlacement.PlaceGrid | app/embed/page.tsx:585-622 | a nested grid loop places exactly the specified segment for its grid |
| EmbedPlacement.PlaceholderBuildings | app/embed/page.tsx:474-1383 | the imperative generator returns exactly the specified layout, which LayoutSound shows is on the map, off the water and clear of the logo |
| EmbedPlacement.BatchOfOne | app/embed/page.tsx:579-622 | a single-loop batch places its one segment |
| EmbedPlacement.BatchOfThree | app/embed/page.tsx:920-1012 | a three-loop batch places its segments in order on one continuing stream |
| EmbedControls.SmoothingConverges | app/embed/page.tsx:237-249 | each frame the smoothed heading moves 15% of the way toward the target, and a settled heading stays put |
| EmbedControls.SmoothingStaysLevel | app/embed/page.tsx:237-249 | smoothing horizontal headings gives a horizontal heading |
| EmbedControls.Controls.constructor | app/embed/page.tsx:61-66 | the controls start heading (0, 0, -1), smoothed the same, not flying, not pressed, not mobile, with no pointer update yet |
| EmbedControls.Controls.CheckMobile | app/embed/page.tsx:69-76 | the device is mobile exactly when the window is narrower than 768 or has touch; nothing else changes |
| EmbedControls.Controls.MouseMove | app/embed/page.tsx:79-103 | on mobile, or within 16 ms of the last accepted move, nothing changes; otherwise the heading follows the pointer, flying becomes the pressed flag and the parent is notified |
| EmbedControls.Controls.MouseDown | app/embed/page.tsx:105-113 | a left press on desktop sets pressed and flying together and notifies; any other button or a mobile device changes nothing |
| EmbedControls.Controls.MouseUp | app/embed/page.tsx:115-122 | a left release on desktop clears pressed and flying together and notifies; any other button or a mobile device changes nothing |
| EmbedControls.Controls.TouchStart | app/embed/page.tsx:125-132 | on mobile a touch sets pressed and flying and notifies; on desktop nothing changes |
| EmbedControls.Controls.TouchEnd | app/embed/page.tsx:134-150 | on mobile ending or cancelling a touch clears pressed and flying and notifies; on desktop nothing changes |
| EmbedControls.Controls.TouchMove | app/embed/page.tsx:153-197 | on mobile a move with no touches clears flying; with touches it is throttled at 16 ms like the mouse and then sets the heading; on desktop nothing changes |
| EmbedControls.Controls.Frame | app/embed/page.tsx:229-279 | a frame smooths the heading, turns toward it, flies level only when flying and follow is enabled, publishes the pose, and moves the camera 5% toward drone + (0, 3, 8) looking at drone + (0, 0.5, 0) unless follow is disabled |
| EmbedControls.PoseState.constructor | app/embed/page.tsx:1995-1997 | the published pose starts at the drone start with no publication yet |
| EmbedControls.PoseState.HandlePositionUpdate | app/embed/page.tsx:2048-2055 | a pose is published only when more than 100 ms have passed since the last publication, and then the publication time becomes now |
| CameraTween.Progress | app/components/CameraAnimation.tsx:51-53 | progress lies in [0, 1] for non-negative elapsed time, reaches 1 exactly at 2500 ms and is elapsed/2500 before that |
| CameraTween.EaseUpperForm | app/components/CameraAnimation.tsx:55-58 | the upper ease branch is 1 - 2(1-p)², the mirror of the lower one |
| CameraTween.EaseEnds | app/components/CameraAnimation.tsx:55-58 | ease(0) = 0, ease(1) = 1, and both branches give 0.5 at p = 0.5 |
| CameraTween.HalfSquare | app/components/CameraAnimation.tsx:57 | the square of a value in [0, 0.5] lies in [0, 0.25] |
| CameraTween.SquareMonotone | app/components/CameraAnimation.tsx:57 | squaring is nondecreasing on non-negative reals |
| CameraTween.EaseRange | app/components/CameraAnimation.tsx:55-58 | on [0, 1] the ease stays in [0, 1], below 0.5 before the midpoint and at least 0.5 after it |
| CameraTween.EaseMonotone | app/components/CameraAnimation.tsx:55-58 | the ease is nondecreasing on [0, 1] |
| CameraTween.EaseSymmetric | app/components/CameraAnimation.tsx:55-58 | the ease is point-symmetric about (0.5, 0.5) |
| CameraTween.TweenEnds | app/components/CameraAnimation.tsx:17-61 | the tween starts at (0, 30, 20) and ends at the end pose |
| CameraTween.CameraAnimation.constructor | app/components/CameraAnimation.tsx:14-27 | the component starts idle with end pose drone start + (0, 7, 12) |
| CameraTween.CameraAnimation.Effect | app/components/CameraAnimation.tsx:29-44 | the effect starts the tween only if asked and not started before; once started it never restarts |
| CameraTween.CameraAnimation.Frame | app/components/CameraAnimation.tsx:46-81 | without the flag or a running tween a frame does nothing; otherwise the camera is at the eased pose looking at drone start + (0, 1, 0), snapping to the end pose and stopping at progress 1 |
| BuildingInfoPanel.InRangeIsDistanceTest | app/components/BuildingInfo.tsx:37-42 | the squared-distance test is the full 3D `sqrt` distance test |
| BuildingInfoPanel.FindFirst | app/components/BuildingInfo.tsx:36-47 | the search finds nothing exactly when no entry is in range, and otherwise returns the first entry in range |
| BuildingInfoPanel.FindFirstAt | app/components/BuildingInfo.tsx:36-47 | when entry i is the first in range, the search returns entry i |
| BuildingInfoPanel.WeightedAxisGap | app/components/BuildingInfo.tsx:37-40 | on one axis, r1·r2 times the squared gap between two centres is at most the radius-weighted squared gaps from any point to each |
| BuildingInfoPanel.SumOfGaps | app/components/BuildingInfo.tsx:37-40 | the same weighted bound holds for full 3D squared distances |
| BuildingInfoPanel.WeightedBound | app/components/BuildingInfo.tsx:40-42 | a point strictly within r1 of one centre and strictly within r2 of another puts the centres strictly within r1 + r2 |
| BuildingInfoPanel.DisjointSpheres | app/components/BuildingInfo.tsx:36-47 | no drone position is in range of two entries whose centres are at least the sum of their radii apart |
| BuildingInfoPanel.OrderImmaterial | app/components/BuildingInfo.tsx:36-47 | for two such entries, the first match is the same whichever order they are searched in |
| BuildingInfoPanel.ShippedApart | app/components/BuildingInfo.tsx:13-28 | the shipped table has exactly two entries whose centres are 140.29 apart squared, more than (3 + 8)², so the two lemmas above apply to it |
| BuildingInfoPanel.Panel.constructor | app/components/BuildingInfo.tsx:31 | the panel starts with nothing visible |
| BuildingInfoPanel.Panel.Effect | app/components/BuildingInfo.tsx:33-53 | after the effect, the visible info is the first shipped entry in range, or nothing; `alwaysShow` plays no part |
| BuildingInfoPanel.Panel.Render | app/components/BuildingInfo.tsx:56-73 | nothing is rendered without visible info; otherwise that info is shown, on the right exactly when `alwaysShow` holds |
| Home.Handoff | app/page.tsx:155-769 | the initial camera is the tween start, and the tween end (0, 9, 19) is the follow target of the drone start, so the first follow step does not move the camera |
| Home.Controls.constructor | app/page.tsx:34-45 | the controls start heading (0, 0, -1), not flying and not pressed |
| Home.Controls.MouseMove | app/page.tsx:46-65 | a move sets the heading, sets flying to the pressed flag and notifies the parent |
| Home.Controls.MouseDown | app/page.tsx:67-75 | a left press sets pressed and flying together and notifies; any other button changes nothing |
| Home.Controls.MouseUp | app/page.tsx:77-84 | a left release clears pressed and flying together and notifies; any other button changes nothing |
| Home.Controls.TouchStart | app/page.tsx:87-94 | a touch sets pressed and flying, with no button check |
| Home.Controls.TouchEnd | app/page.tsx:96-103 | ending a touch clears pressed and flying |
| Home.Controls.Frame | app/page.tsx:120-168 | a frame turns toward the heading, flies level whenever flying (follow or not), publishes the pose, and, unless follow is disabled, moves the camera 5% toward drone + (0, 7, 12) looking at drone + (0, 1, 0) |
| Home.IntroSequence.constructor | app/page.tsx:717-719 | the sequence starts with no tween, no completion and no camera mark pending |
| Home.IntroSequence.HandleIntroComplete | app/page.tsx:731-769 | the completion handler starts the tween and schedules completion 3000 ms later; the tween and the follow camera are never both active |
| Home.IntroSequence.Fire | app/page.tsx:731-822 | firing the earliest timer marks completion and schedules the camera mark 100 ms later, or sets the camera mark; the tween and the follow camera are never both active |
| Home.BookmarkFraction | app/page.tsx:904 | the bookmark fraction lies in [0, 1] and reaches 1 exactly at 1.2 s |
| Home.NonnegativeProduct | app/page.tsx:905 | the product of non-negative reals is non-negative |
| Home.EaseOutRange | app/page.tsx:905 | easeOutQuad maps [0, 1] into [0, 1], fixing both ends |
| Home.EaseOutMonotone | app/page.tsx:905 | easeOutQuad is nondecreasing on [0, 1] |
| Home.BookmarkTween.constructor | app/page.tsx:893-899 | a bookmark tween starts at t = 0 between the camera's position and the bookmark |
| Home.BookmarkTween.Step | app/page.tsx:902-911 | a frame advances t by 0.016, puts the camera on the eased lerp and asks for another frame exactly while the fraction is below 1 |
| Home.BookmarkTween.Play | app/page.tsx:899-912 | the bookmark closure alone runs exactly 75 frames and leaves the camera at the bookmark (other writers of the camera are not modelled) |
| Intro.TickCompletes | app/components/IntroAnimation.tsx:19-22 | a tick completes exactly when 3500 ms have elapsed |
| Intro.LoadingProgress | app/components/IntroAnimation.tsx:43-45 | loading progress is elapsed/3500, non-negative, unclamped and above 1 exactly after 3500 ms |
| Intro.IntroAnimation.constructor | app/components/IntroAnimation.tsx:10-13 | the overlay starts opaque, shown, at zero progress, with the mount time as start |
| Intro.IntroAnimation.Tick | app/components/IntroAnimation.tsx:18-27 | a tick calls `onComplete` and hides the logo exactly when 3500 ms have elapsed, never earlier and again on every later tick |
| Intro.IntroAnimation.FadeOut | app/components/IntroAnimation.tsx:30-32 | the fade timer sets the opacity to 0 and nothing else |
| Intro.IntroAnimation.LoadingTick | app/components/IntroAnimation.tsx:42-46 | the loading tick sets the progress from the clock and nothing else |
| Intro.IntroAnimation.Render | app/components/IntroAnimation.tsx:51-55 | the overlay renders exactly while the logo is shown, at its opacity |
| Overlay.ScreenPosition | app/components/DroneOverlay.tsx:138-156 | without a window the position is (0, 0); otherwise it is 50·x right of and 50·z above the window centre |
| Overlay.ScreenPositionInverse | app/components/DroneOverlay.tsx:138-156 | the drone's x and z can be read back from the screen position, and two drones share a position exactly when their x and z agree |
| Overlay.TiltMultiplier | app/components/DroneOverlay.tsx:167 | the multiplier is 1 exactly when flying is true, and 0.4 otherwise, including when the flag is absent |
| Overlay.RotationStyle | app/components/DroneOverlay.tsx:161-179 | the style has no tilt exactly when there is no heading; otherwise rotateZ is 25 × multiplier × heading x and rotateX is -20 × multiplier × heading z, so the x heading rolls and the z heading pitches |
| Overlay.TiltBounds | app/components/DroneOverlay.tsx:167-176 | headings in [-1, 1] keep the roll within 25° and the pitch within 20°, and the ground tilt is 0.4 of the flight tilt |
| Overlay.ContainerStyle | app/components/DroneOverlay.tsx:181-192 | the container sits at 50% / 70% whatever the drone position, with the heading's transform |
| Overlay.ModelSource.constructor | app/components/DroneOverlay.tsx:37 | the model source starts as '/last-try.glb' |
| Overlay.ModelSource.ProbeResult | app/components/DroneOverlay.tsx:50-58 | a successful probe sets '/last-try.glb' again and a failed one changes nothing |
| Overlay.ProbeKeepsSource | app/components/DroneOverlay.tsx:37-58 | the model source is '/last-try.glb' whatever the probe reports |
| PrototypeControls.Controls.constructor | app/page-with-controls.tsx:124-127 | the shared controls start heading (0, 0, -1), not flying and with the mouse up |
| PrototypeControls.Controls.MouseMove | app/page-with-controls.tsx:137-154 | a move with the mouse up changes nothing; with it down it sets the heading and flying |
| PrototypeControls.Controls.MouseDown | app/page-with-controls.tsx:132-135 | a press sets the flag and is handled as a move at once, so the drone flies |
| PrototypeControls.Controls.MouseUp | app/page-with-controls.tsx:156-164 | releasing or leaving clears the mouse flag and flying |
| PrototypeControls.Controls.Resize | app/page-with-controls.tsx:129-177 | re-running the handler effect on a size change clears the closure's mouse flag but keeps the flying state |
| PrototypeControls.Controls.Frame | app/page-with-controls.tsx:179-210 | only while flying the drone turns (slerp 0.05) and moves by heading × 3 × delta at constant height; every frame the camera moves 5% toward drone + offset, looking at drone + (0, 1, 0) |
| PrototypeControls.FlightIsLevel | app/page-with-controls.tsx:146-196 | moving along a horizontal heading is the level flight of the home page |
| Rotors.RadPerSec | app/page-with-controls.tsx:18-20 | rpm·360/60·π/180 is rpm·π/30 rad/s |
| Rotors.Increment | app/page-with-controls.tsx:22-27 | the angle a rotor gets in a frame: the same for all under a uniform rule, the sign alternating by index parity, or only every fourth index |
| Rotors.AlternatingOpposite | app/page-with-controls.tsx:24 | neighbouring rotors of an alternating rule turn by opposite angles |
| Rotors.ReceivedOnce | app/page-with-controls.tsx:22-28 | in a list without repeats, a node receives its own index's increment |
| Rotors.ReceivedNone | app/page-with-controls.tsx:22-28 | a node of a list without repeats receives nothing from earlier entries |
| Rotors.Spin | app/page-with-controls.tsx:22-28 | a frame adds to each listed node the increments of every index at which it is listed, and skips null entries |
| Rotors.SpinDistinct | app/page-with-controls.tsx:22-28 | when no node is listed twice, each listed node turns by its own index's increment |
| Rotors.UniformSpinAt | app/page-perfect-drone.tsx:12-19 | under the uniform rule, every rotor turns by the same angle |
| Rotors.EveryFourthSpinAt | app/page-animate-all.tsx:32-41 | under the every-fourth rule, exactly the nodes at indices divisible by 4 turn |
| Rotors.RpmFrame | app/page-with-controls.tsx:16-30 | while spinning, rotors alternate at rpm converted to rad/s; otherwise no rotor moves |
| Rotors.RpmSpinAt | app/page-with-controls.tsx:16-30 | under the rpm rule, rotor i turns by ±rpm·π/30·delta, + at even and - at odd indices |
| Rotors.RotorNameFourWords | app/page-last-try.tsx:46-50 | the five-word rotor test equals the test without 'propeller', since 'propeller' begins with 'prop' |
| Rotors.Filter | app/page-last-try.tsx:42-54 | a filtered traversal is no longer than the traversal, holds only selected nodes, and holds every selected node |
| Rotors.FilterAppend | app/page-last-try.tsx:42-54 | filtering keeps traversal order: the filter of a concatenation is the concatenation of the filters |
| Rotors.FilterStep | app/page-last-try.tsx:42-54 | one more visited node extends the filtered list by that node exactly when it is selected |
| Rotors.NodeList.constructor | app/page-last-try.tsx:13 | a ref list starts with its initial entries |
| Rotors.NodeList.Collect | app/page-last-try.tsx:42-54 | a traversal appends exactly the selected nodes, in traversal order |
| WithControlsPage.PageState.constructor | app/page-with-controls.tsx:225-226 | the page state starts at 2000 rpm, spinning |
| WithControlsPage.PageState.ToggleSpinning | app/page-with-controls.tsx:243 | the button flips spinning and keeps the rpm |
| WithControlsPage.PageState.SetRpm | app/page-with-controls.tsx:263 | the slider sets the rpm and keeps spinning |
| WithControlsPage.Mount | app/page-with-controls.tsx:121-200 | the page's controls follow at (0, 8, 15) and start idle |
| WithControlsPage.RotorFrame | app/page-with-controls.tsx:126-226 | the rotors spin by the controls' own 2000 rpm, whatever the page's slider and pause state |
| PerfectDronePage.Mount | app/page-perfect-drone.tsx:176-206 | the page's controls follow at (0, 8, 15) and start idle |
| PerfectDronePage.RotorFrame | app/page-perfect-drone.tsx:12-19 | every rotor turns by 4π·delta in the same direction |
| ManualRotorsPage.Mount | app/page-manual-rotors.tsx:142-172 | the page's controls follow at (0, 8, 15) and start idle |
| ManualRotorsPage.RotorFrame | app/page-manual-rotors.tsx:16-23 | every rotor turns by 4π·delta in the same direction |
| LastTryPage.Mount | app/page-last-try.tsx:181-211 | the page's controls follow at (0, 6, 12) and start idle |
| LastTryPage.FindRotors | app/page-last-try.tsx:42-54 | the traversal appends exactly the rotor-named nodes, in order |
| LastTryPage.RotorFrame | app/page-last-try.tsx:14-32 | the rotors alternate at 2000 rpm converted to rad/s |
| BlenderDronePage.Mount | app/page-blender-drone.tsx:175-205 | the page's controls follow at (0, 8, 15) and start idle |
| BlenderDronePage.FindRotors | app/page-blender-drone.tsx:36-48 | the traversal appends exactly the rotor-named nodes, in order |
| BlenderDronePage.RotorFrame | app/page-blender-drone.tsx:19-27 | the rotors alternate at 4π rad/s |
| AnimatedPage.Mount | app/page-animated.tsx:116-146 | the page's controls follow at (0, 8, 15) and start idle |
| AnimateAllPage.Mount | app/page-animate-all.tsx:110-140 | the page's controls follow at (0, 8, 15) and start idle |
| AnimateAllPage.CollectObjects | app/page-animate-all.tsx:20-25 | only 'Mesh' and 'Group' nodes are collected, in traversal order |
| AnimateAllPage.RotateFrame | app/page-animate-all.tsx:32-41 | exactly the collected objects at indices divisible by 4 turn, by 4π·delta |
| DebugPage.MaterialSummary | app/page-debug.tsx:46-53 | 'none' for a non-mesh or a mesh without material, the type of a single material, the first element's type for an array whose first entry is set, and 'array' otherwise |
| DebugPage.SummaryOrigin | app/page-debug.tsx:46-53 | a summary is 'none', 'array' or a type that occurs in the object's materials, and a non-mesh's summary ignores its material |
| DebugPage.Analyse | app/page-debug.tsx:38-74 | the logged `objects` array summarises each object's material in traversal order; the stored debug info counts exactly that array's entries, collects the type of every single material and records `undefined` for every material array, and holds no type absent from the scene, and has animations exactly when the clip list is non-empty |
| DebugPage.Mount | app/page-debug.tsx:172-202 | the page's controls follow at (0, 8, 15) and start idle |
| Middleware.RewrittenKeys | middleware.ts:10-16 | the three rewritten header names are looked up case-insensitively under their lower-case keys |
| Middleware.EmbedHeaders | middleware.ts:8-16 | for an '/embed…' path, X-Frame-Options is absent, CSP is "frame-ancestors *" and Permissions-Policy is 'display-capture=*, fullscreen=*' |
| Middleware.OtherHeadersKept | middleware.ts:7-17 | no other header is touched, and a path without the prefix leaves the headers unchanged |
| Middleware.MatcherNarrowsPrefix | middleware.ts:8-24 | every path the matcher accepts passes the prefix test, but '/embedded' passes the prefix test and not the matcher |
| Middleware.Headers.constructor | middleware.ts:5 | a response starts with the given headers |
| Middleware.Headers.Delete | middleware.ts:10 | deleting removes the name's key and nothing else |
| Middleware.Headers.Set | middleware.ts:13 | setting maps the name's key to the value and keeps the rest |
| Middleware.Handle | middleware.ts:4-20 | the middleware leaves the response headers equal to the specified rewrite |

## Findings

| source | as written | input that shows it | evidently intended | confidence | as-written member | corrected member |
|---|---|---|---|---|---|---|
| app/embed/page.tsx:1372-1379 | buildings with x > -8 and z < -10 move to z = -4 with no new `isPositionFree` test | the main grid's building at cell (-2, -12), placed on every seed, moves to (-2, -4), which is 2 from the container slot at (-2, -2) and so not free at any radius | the move happens only when the new position is free for the building's reach, so no placement lands in an exclusion zone | high (proved; not executed) | EmbedPlacement.RelocationBreaksZones | EmbedPlacement.RelocateCheckedKeepsFree |

`Layout` and `PlaceholderBuildings` keep the relocation as written, since they model the page's output. `RelocateChecked` is the corrected relocation, and `RelocateCheckedKeepsFree` proves the intended property about it.

## Left out

- Scene-graph construction, materials, lights, the canvas configuration and GLTF loading (the city, boat, bridge, containers and roads): these are calls into three.js and drei.
- Quaternion `slerp`, `Matrix4.lookAt` and `Vector3.normalize` are library code. Orientation is the symbolic `Slerped`, a `lookAt` is the camera's target point, and headings are given already normalised. How `normalize` treats a zero vector is left to the library.
- The bookmark tween's quaternion slerp toward the look-at target (app/page.tsx:907-909) is not modelled. Only the camera position is.
- Trigonometric cosmetics, such as the pulsing markers and dash-offset animation of app/embed/page.tsx, are float trigonometry used only for looks.
- Loops with fractional steps accumulate rounding in doubles. Their cells are given as exact-real axes whose counts are those of the double loops. Accumulated rounding of the coordinates themselves is not modelled.
- Browser plumbing is replaced by inputs: event registration, `setTimeout`/`setInterval`/`requestAnimationFrame` scheduling, the clock, the window size and touch detection.
- The `model-viewer` script injection and the HEAD fetch of DroneOverlay.tsx are not modelled. Only the probe's outcome is, as a boolean.
- The fallback rotor geometry of the GLTF pages and their ref callbacks are not modelled. The rotor ref lists are given as inputs.
- The animation mixers of the animated and debug pages, the debug page's bounding box and its console logging are not modelled.
- Props that reach nothing are not modelled: `onComplete`/`onPhaseChange` on the embed page's camera animation, `showAfterDrone`, `onAnimationComplete`, and the never-called `handleCameraAnimationComplete`.
- Since `handleCameraAnimationComplete` is never called, `introDroneAnimation` and `introCompleted` keep their initial values on the embed page (app/embed/page.tsx:2000-2004), so it never mounts `DroneControls`, `DroneOverlay` or `BuildingInfo` (app/embed/page.tsx:2253-2275). `EmbedControls` models those controls as written, but nothing in the shipped pages runs them; the overlay and the info panel do run on the home page (app/page.tsx:828-837).
- InstructionsOverlay.tsx, debug-drone.js, the model-viewer type declarations and next.config.ts hold no logic and are not part of this model.
- The `null` checks on the drone ref are not modelled. The drone object is always present.
- The middleware's headers object is case-insensitive. It is modelled as a map keyed by lower-cased names.
- Lower-casing is ASCII only. Non-ASCII case mappings of `toLowerCase` are not modelled, which can matter for node names.
- Home.BookmarkTween.Play: only the bookmark closure is modelled. On the page, the follow camera of the home controls (app/page.tsx:155-167) moves the same camera 5% toward drone + (0, 7, 12) on every frame once the intro hand-over is done, and before it the camera tween (app/components/CameraAnimation.tsx:61-70) writes the camera too. The bookmark view is therefore not held after the last frame, and the contract says nothing about those other writers.
- Intro.IntroAnimation.FadeOut: the 3000 ms schedule is not modelled, so no contract ties the fade to the clock. On the home page `handleIntroComplete` is a new closure on every render (app/page.tsx:731), and the page re-renders on every frame through `setDronePosition` (app/page.tsx:722-725). So the `[onComplete]` effect (app/components/IntroAnimation.tsx:15-38) clears and re-arms the fade timeout and the 16 ms completion interval on every frame, before the timeout can fire. When each timer fires is taken as an input.
- Lcg.JsRem: for a negative dividend the contract gives only the range (-b, 0], not the exact truncated remainder. Seeds are never negative.
- EmbedPlacement.Position: states the jitter bound, not the exact jittered coordinate.
