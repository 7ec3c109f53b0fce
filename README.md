# PlaneObject of dump1090's web map, in Dafny

This project models one tracked aircraft of the dump1090 web map, the
`PlaneObject` of `public_html/planeObject.js`. It covers three parts.

- **The track-segmentation rule (`updateTrack`).** It keeps the ordered list
  of track segments, called `track_linesegs`. Each segment holds its points
  and the flags `estimated`, `ground` and `altitude`. It also keeps the
  bookkeeping fields `head_update`, `tail_update`, `tail_track` and
  `history_size`.
  - The module `Track` states one call of `updateTrack` as the pure function
    `Track.Step`, built from one function per branch.
  - The method `Track.Advance` runs the same code imperatively, on local
    copies of the fields, and is proved equal to `Step`.
  - The invariants are proved about `Step`: segments are only appended,
    only the newest segment gains points, and `history_size` counts exactly
    the points retained. So are the five behaviours: bootstrap, estimated
    segment, reopen, split and thinning.
- **The marker colour (`getMarkerColor`).** Module `ColorModel`. The
  `ColorByAlt` and `SpecialSquawks` tables are parameters. The result is an
  override colour or the quantised `hsl` components.
- **The object itself.** Module `Plane`, class `Plane.PlaneObject`. It
  contains:
  - the telemetry merge `updateData`, with its mlat scan;
  - the periodic `updateTick`, which hides a silent plane and otherwise
    extends the track, redraws the lines and places the marker;
  - `clearLines`, `clearMarker`, `updateMarker`, `updateLines` and
    `destroy`.

  The track fields are fields of the class. Its methods update them in
  place, and its object invariant `Valid()` is that `history_size` equals
  the number of retained points, that no segment is empty, and that every
  handle a segment holds is below the feature counter.

Render objects are abstract:
- a line feature is an opaque handle (`Track.Handle`), handed out by a
  counter;
- the marker is a flag;
- the global `SelectedPlane` is a `Plane.Selection` object shared between
  planes;
- the map projection `ol.proj.fromLonLat` is a function parameter `proj`.

JavaScript's coercions are written out:
- `null` altitude reads as 0 and `"ground"` as NaN in the altitude-step
  test;
- a heading of 0 is falsy, so the heading change is -1;
- estimated segments carry altitude 0 and no `ground` field (falsy);
- point comparisons look at the x coordinate or longitude only;
- `%` truncates toward zero;
- `toFixed(0)` rounds halves away from zero;
- a null squawk is looked up as the property name `"null"`.

Four behaviours of the code that a reader might not expect are modelled as
written:
- A position 20 s after the first one, with batches 1 s apart, is stale by
  the code (time difference 19 > 6). The track therefore becomes a solid
  `[A]` followed by an estimated `[A, B]` (`Track.TwentySecondGapScenario`).
- The stale check runs before the ground and altitude checks. An airborne
  plane at 10000 ft that reports "ground" 30 s later, with batches 1 s
  apart, therefore gets no new segment: the track becomes a solid `[A]`
  followed by an estimated `[A, B]` whose ground flag is false
  (`Track.StaleGroundFlipScenario`). On a timely update the same report
  splits the track (`Track.LandingScenario`).
- The wrapped hue lies in [0, 360], not [0, 360). A hue of -360 wraps to
  360, and a hue of 358 is quantised to 360
  (`ColorModel.NegativeTurnWrapsTo360`, `ColorModel.HueCanQuantizeTo360`).
- The bootstrap branch of `updateTrack` returns `undefined`. `updateTick`
  reads that as false, and the model returns `false`.

## Model

| member | source | states |
|---|---|---|
| Track.Advance | public_html/planeObject.js:70-213 | The imperative updateTrack (early returns, projection of here/prev, bootstrap, staleness test, head_update) returns exactly the new state and return value of the specification `Step` |
| Track.ExtendEstimated | public_html/planeObject.js:123-148 | The stale branch, run on a copy of the segment list, equals `Estimate`: close the gap on a solid segment and push one estimated `[prev, here]`, or append `here` to the open estimated segment |
| Track.ExtendSolid | public_html/planeObject.js:150-212 | The fresh-data branch equals `Fresh`: reopen after an estimated segment, then split on a ground flip or 1000 ft step, otherwise thin |
| Track.StepNoOp | public_html/planeObject.js:71-74 | With no position, or the same longitude as the previous position, nothing changes and the result is false |
| Track.StepBootstrap | public_html/planeObject.js:86-99 | On an empty track, exactly one solid segment holding only the current point, ground flag iff altitude is "ground"; head and tail update set to the position time; history_size + 1; result falsy |
| Track.StepRecordsHead | public_html/planeObject.js:107-119 | Every moving, non-bootstrap update sets head_update to the position time and returns true, whichever branch follows |
| Track.TenSecondGapBySource | public_html/planeObject.js:107-116 | The staleness timeout is 6 s for ADS-B and 15 s for MLAT: the same 10 s gap is stale for one and not for the other |
| Track.StepEntersEstimated | public_html/planeObject.js:123-139 | Stale after a solid segment: prev is appended to it only when its last x differs, and exactly one estimated segment [prev, here] is pushed; tail_update/tail_track set |
| Track.StepContinuesEstimated | public_html/planeObject.js:139-147 | Stale while estimating: only here is appended, no segment is added, history_size + 1, tail fields set |
| Track.StepReopens | public_html/planeObject.js:150-212 | Fresh data after an estimated segment keeps it and pushes one solid segment [prev] tagged with the current altitude (so no split follows); here joins it, tail_update and tail_track move to the current values, and history_size grows by 2, exactly when the thinning rule keeps the point, else history_size grows by 1 and the tail fields stay |
| Track.StepSplits | public_html/planeObject.js:166-186 | A ground flip or a 1000 ft step appends here to the open segment and pushes one segment [here] with the new tags; history_size + 2 |
| Track.StepThins | public_html/planeObject.js:188-212 | Ordinary continuation adds no segment; here is kept iff one of the five thinning conditions holds, preceded by prev on a turn when the last x differs; otherwise only head_update and prev_position change |
| Track.HeldHeadingWaitsSixteenSeconds | public_html/planeObject.js:192-196 | With an unchanged heading and no MLAT, a point is kept iff more than 16 s passed |
| Track.ZeroHeadingIsUnknown | public_html/planeObject.js:190-196 | A heading of 0 makes track_change -1, so the 5 s rule applies |
| Track.GroundHasNoAltitudeStep | public_html/planeObject.js:167-168 | The altitude-step test is false whenever either side is "ground" (NaN subtraction) |
| Track.TwentySecondGapScenario | public_html/planeObject.js:86-147 | A second position 20 s after the first, batches 1 s apart, produces solid [A] then estimated [A, B], history_size 3 |
| Track.StaleGroundFlipScenario | public_html/planeObject.js:86-186 | The same "ground" report 30 s late, batches 1 s apart, does not split: the track becomes solid [A] at 10000 ft then an estimated [A, B] not tagged as ground |
| Track.LandingScenario | public_html/planeObject.js:86-186 | An airborne plane reporting "ground" on a timely update gets [A, B] at 10000 ft followed by a ground segment [B] |
| Track.StepGrows | public_html/planeObject.js:70-213 | One update only appends segments or extends the last one, never shrinks history_size, and leaves no segment empty |
| Track.StepKeepsHistoryCount | public_html/planeObject.js:70-213 | history_size grows by exactly the number of points the update adds |
| Track.StepKeepsConsistent | public_html/planeObject.js:70-213 | From a consistent state (history_size = retained points, no empty segment) an update yields a consistent state that grows the old one |
| Track.ReplayGrows | public_html/planeObject.js:70-213 | Over any run of updates the segment list only grows at its end, history_size never shrinks and its offset from the point count is kept |
| Track.ReplayFromInitial | public_html/planeObject.js:25-27 | From a new plane, after any run of updates, history_size equals the number of retained points and no segment is empty |
| Track.ClearFeatures | public_html/planeObject.js:216-224 | The clearLines loop, last segment first, leaves every point and flag as it was, nulls every feature, and hands back the drawn handles from last to first |
| Track.DrawFeatures | public_html/planeObject.js:531-546 | The updateLines loop gives every segment without a feature the next handle in index order and counts them |
| Track.StepKeepsHandlesBelow | public_html/planeObject.js:70-213 | updateTrack keeps every handle a segment holds below the counter: old features are kept and pushed segments have none |
| Track.StepPreserves | public_html/planeObject.js:70-213 | One updateTrack keeps the plane's invariant: consistent bookkeeping, a growing track, and every handle below the counter |
| Track.DrawKeepsHandlesBelow | public_html/planeObject.js:531-546 | After drawing, every handle is below the advanced counter, and each newly drawn handle differs from every handle the segments held before |
| Track.DrawProperties | public_html/planeObject.js:531-546 | After drawing, every segment has a feature, existing features are kept, new handles are numbered from the counter value in [next, next + number undrawn) and strictly increase with the index, and only features changed |
| Track.FeaturesKeepConsistent | public_html/planeObject.js:216-224 | Changing features alone keeps history_size equal to the point count |
| ColorModel.MarkerColor | public_html/planeObject.js:226-295 | A squawk in the override table yields that colour; otherwise an hsl colour whose hue is in [0, 360] and whose saturation and lightness are in [5, 95], all multiples of 5 |
| ColorModel.OverrideIgnoresState | public_html/planeObject.js:227-229 | An override squawk gives the same colour whatever the altitude, age, selection or position source |
| ColorModel.AirHue | public_html/planeObject.js:247-258 | The airborne hue lies between the lowest and highest hue of the table |
| ColorModel.AirHueAtOrBelowBottom | public_html/planeObject.js:247-258 | At or below the lowest control point the hue is hpoints[0].val |
| ColorModel.AirHueAboveTop | public_html/planeObject.js:249-253 | Above the top control point the hue is the top point's |
| ColorModel.AirHueInterpolates | public_html/planeObject.js:249-256 | Between neighbouring control points the hue is their linear interpolation |
| ColorModel.Lerp | public_html/planeObject.js:254 | The interpolated hue lies between the two control hues |
| ColorModel.SelectionIsAdditive | public_html/planeObject.js:261-280 | Selection adds the selected adjustment to h, s and l and nothing else |
| ColorModel.WrapHue | public_html/planeObject.js:282-286 | The wrapped hue lies in [0, 360], is the same angle, is kept when already in [0, 360), is above 0 when wrapped from below and below 360 when wrapped from above |
| ColorModel.NegativeTurnWrapsTo360 | public_html/planeObject.js:282-283 | A hue of -360 wraps to 360, not 0 |
| ColorModel.HueCanQuantizeTo360 | public_html/planeObject.js:282-294 | A hue of 358 yields hsl(360, ...) |
| ColorModel.Clamp | public_html/planeObject.js:288-292 | s and l are set to exactly 5 below 5 and exactly 95 above 95, and kept when in [5, 95] |
| ColorModel.ToFixed0 | public_html/planeObject.js:294 | toFixed(0) is the nearest integer, with halves rounded away from zero |
| ColorModel.Quantize | public_html/planeObject.js:294 | Each component becomes the nearest multiple of 5, an exact half-step going away from zero |
| Plane.ScanMlat | public_html/planeObject.js:406-414 | The mlat scan is true iff the list names "lat" or "lon" |
| Plane.PlaneObject.constructor | public_html/planeObject.js:3-39 | A new plane has empty track, null telemetry, is visible, unselected and has no marker; the invariant holds |
| Plane.PlaneObject.UpdateTrack | public_html/planeObject.js:70-213 | The fields change in place exactly as `Step` says and the result is its return value; the invariant is kept, segments only grow, history_size never shrinks |
| Plane.PlaneObject.ClearLines | public_html/planeObject.js:216-224 | Every feature is nulled, points and flags unchanged, the removed handles are returned; the invariant is kept |
| Plane.PlaneObject.UpdateLines | public_html/planeObject.js:489-547 | A selected plane's segments become `Draw` of the old ones and the counter moves past the handles handed out; an unselected one is untouched; the invariant, including "every held handle is below the counter", is kept |
| Plane.PlaneObject.ClearMarker | public_html/planeObject.js:453-460 | Afterwards there is no marker |
| Plane.PlaneObject.UpdateMarker | public_html/planeObject.js:463-486 | The marker is present iff the plane is visible and has a position |
| Plane.PlaneObject.MergePosition | public_html/planeObject.js:397-415 | A record with a position sets it and its time and makes the MLAT flag true iff the mlat list names "lat" or "lon" (false without a list); a record without one changes none of the three |
| Plane.PlaneObject.UpdateData | public_html/planeObject.js:383-422 | messages, rssi and the message time are always set; altitude, rate, speed, track, flight, squawk and category keep their value when absent; position, its time and the mlat flag change only with a position |
| Plane.PlaneObject.UpdateTick | public_html/planeObject.js:424-451 | seen and seen_pos recomputed; after more than 58 s a visible plane is hidden, loses its marker and releases the selection it held; otherwise it is visible, and it is tracked iff it has a position and is selected or seen_pos < 60 (null as 0), in which case the track and handles follow `Follow` and the marker is shown, else the marker is cleared and nothing else changes |
| Plane.PlaneObject.Age | public_html/planeObject.js:425-427 | seen becomes the receiver time minus the message time (null as 0); seen_pos is null without a position time, else the receiver time minus it |
| Plane.PlaneObject.Expire | public_html/planeObject.js:430-437 | The hiding branch: a visible plane loses its marker and releases the selection if it held it; an invisible one changes nothing else |
| Plane.PlaneObject.Refresh | public_html/planeObject.js:438-450 | The visible branch: a tracked plane follows `Follow` and shows its marker; an untracked one clears its marker and keeps its track |
| Plane.PlaneObject.FollowTrack | public_html/planeObject.js:440-446 | updateTrack, then updateLines when it moved, then updateMarker: track and handles are `Follow` of the old ones, and the marker is shown |
| Plane.PlaneObject.RedrawAndMark | public_html/planeObject.js:441-446 | The track and next handle become `Redraw` of the update's outcome: after a move a selected plane's undrawn segments get handles, otherwise nothing changes; the marker is shown |
| Plane.PlaneObject.Destroy | public_html/planeObject.js:549-552 | Lines cleared, handles returned, marker removed |

## Left out

- ColorModel.MarkerColor (and `ColorModel.Base`) requires a non-empty airborne hue table for a numeric altitude: with an empty `ColorByAlt.air.h` the program throws a TypeError at `hpoints[0].val`, and that exception is not modelled.
- OpenLayers geometry and styling are not modelled. `ol.proj.fromLonLat` is an arbitrary function parameter, a line feature is an opaque handle, and the styles chosen for estimated, ground and air segments are not recorded.
- `updateIcon` and the SVG marker (`getBaseMarker`) are not modelled. `updateMarker` keeps only a marker-present flag, so its `moved` argument, which only re-sets the marker's geometry, has no effect in the model.
- The latest-position line that `updateLines` draws from the last fixed point to the current position is not modelled. It is a render feature outside the segment list.
- The asynchronous metadata fetch in the constructor (`getAircraftData`), `findICAORange` and `registration_from_hexid` are foreign calls that never touch the track. They are not modelled.
- The site distance (`haversineDistance`) is floating-point geodesy in a foreign library and is not modelled.
- `selectPlaneByHex` is not part of this model. Releasing the selection is modelled as clearing the selected hex, and the rest of that function (deselecting the plane, refreshing the page) is not.
- Arithmetic is over mathematical reals and integers. JavaScript's double rounding, NaN beyond the altitude test, and string-typed telemetry are not modelled.
- `head_update`, `tail_update` and `tail_track` start undefined in the program. The model starts them at 0, 0 and null; the bootstrap branch sets the first two before any read, and an undefined heading is falsy like null.
- Segments are values: the model replaces the last element of the list, where the program mutates the segment object it shares with `lastseg`. Aliasing of segment objects is not modelled.
