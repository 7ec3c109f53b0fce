// The track-segmentation rule of planeObject.js (updateTrack), stated as a
// pure step function over the bookkeeping it owns, with the invariants the
// rule keeps: segments are only appended, only the newest segment gains
// points, and history_size counts exactly the retained points.

module Track {
  import opened Basics

  /** An opaque reference to a line feature drawn by the renderer. */
  type Handle = nat

  /** One element of track_linesegs: its points (the LineString), the drawn
      feature if any, and the flags it was created with. */
  datatype Segment = Segment(points: seq<Point>, feature: Option<Handle>, estimated: bool, ground: bool, altitude: Altitude)

  /** The fields updateTrack reads and writes besides the plane's telemetry. */
  datatype TrackState = TrackState(
    segs: seq<Segment>,
    historySize: nat,
    headUpdate: real,
    tailUpdate: real,
    tailTrack: Heading,
    prevPosition: Option<Position>)

  /** The plane's current telemetry as updateTrack reads it. */
  datatype Fix = Fix(position: Option<Position>, altitude: Altitude, track: Heading, mlat: bool, positionTime: real)

  /** The receiver timestamp of this tick and of the previous batch. */
  datatype Clock = Clock(now: real, lastBatch: real)

  /** The new state and the value updateTrack returns. */
  datatype Outcome = Outcome(state: TrackState, moved: bool)

  /** The state of a plane that has never been tracked. */
  const Initial := TrackState([], 0, 0.0, 0.0, None, None)

  function Last(segs: seq<Segment>): Segment
    requires |segs| > 0
  {
    segs[|segs| - 1]
  }

  /** The x coordinate of a segment's last point (None when it has none). */
  function LastX(seg: Segment): Option<real> {
    if |seg.points| == 0 then None else Some(seg.points[|seg.points| - 1].x)
  }

  function AppendToLast(segs: seq<Segment>, p: Point): seq<Segment>
    requires |segs| > 0
  {
    segs[|segs| - 1 := Last(segs).(points := Last(segs).points + [p])]
  }

  /** A solid segment opened at p, tagged with the altitude it starts at. */
  function SolidSegment(p: Point, alt: Altitude): Segment {
    Segment([p], None, false, alt == Ground, alt)
  }

  /** An estimated segment: altitude 0 and no ground field (falsy). */
  function EstimatedSegment(prev: Point, here: Point): Segment {
    Segment([prev, here], None, true, false, Feet(0))
  }

  /** MLAT positions are given more leeway. */
  function StaleTimeout(mlat: bool): real {
    if mlat then 15.0 else 6.0
  }

  /** The position is stale when the gap since the previous position exceeds
      the receiver's batching interval by more than the timeout, or when it
      was already older than the timeout on arrival. */
  predicate IsStale(headUpdate: real, f: Fix, c: Clock) {
    var timeDifference := (f.positionTime - headUpdate) - (c.now - c.lastBatch);
    timeDifference > StaleTimeout(f.mlat) || c.now - f.positionTime > StaleTimeout(f.mlat)
  }

  /** Math.abs(altitude - segment altitude) >= 1000; false as soon as either
      side is "ground" (NaN), with null read as 0. */
  predicate AltitudeStep(a: Altitude, b: Altitude) {
    match (AsNumber(a), AsNumber(b))
    case (Some(x), Some(y)) => x - y >= 1000 || y - x >= 1000
    case _ => false
  }

  /** The ground flag flips or the altitude moved by 1000 ft or more. */
  predicate StartsNewSegment(seg: Segment, alt: Altitude) {
    (seg.ground && alt != Ground) || (!seg.ground && alt == Ground) || AltitudeStep(alt, seg.altitude)
  }

  /** Heading change since the last retained point, or -1 when either
      heading is falsy (null, undefined or 0). */
  function TrackChange(tailTrack: Heading, track: Heading): real {
    if Truthy(tailTrack) && Truthy(track) then Abs(tailTrack.value - track.value) else -1.0
  }

  /** The thinning rule: when an ordinary update is kept. */
  predicate Retains(change: real, sinceUpdate: real, mlat: bool) {
    || sinceUpdate > 16.0
    || (change > 1.0 && sinceUpdate > 3.0)
    || (change > 0.25 && sinceUpdate > 8.0)
    || (mlat && sinceUpdate > 8.0)
    || (change == -1.0 && sinceUpdate > 5.0)
  }

  /** Whether the update is more than a repeat of the previous longitude. */
  predicate Moves(st: TrackState, f: Fix) {
    f.position.Some? && !(st.prevPosition.Some? && f.position.value.lon == st.prevPosition.value.lon)
  }

  function Here(f: Fix, proj: Position -> Point): Point
    requires f.position.Some?
  {
    proj(f.position.value)
  }

  /** The previous position projected, or the current one on the first call. */
  function Prev(st: TrackState, f: Fix, proj: Position -> Point): Point
    requires f.position.Some?
  {
    if st.prevPosition.None? then Here(f, proj) else proj(st.prevPosition.value)
  }

  function Bootstrap(s: TrackState, here: Point, f: Fix): TrackState {
    s.(segs := s.segs + [SolidSegment(here, f.altitude)],
       headUpdate := f.positionTime, tailUpdate := f.positionTime,
       historySize := s.historySize + 1)
  }

  /** A stale update: open an estimated segment (closing the gap on the
      solid one first) or extend the estimated segment already open. */
  function Estimate(s: TrackState, prev: Point, here: Point, f: Fix): TrackState
    requires |s.segs| > 0
  {
    if !Last(s.segs).estimated then
      var close := LastX(Last(s.segs)) != Some(prev.x);
      var segs := if close then AppendToLast(s.segs, prev) else s.segs;
      s.(segs := segs + [EstimatedSegment(prev, here)],
         tailUpdate := f.positionTime, tailTrack := f.track,
         historySize := s.historySize + (if close then 1 else 0) + 2)
    else
      s.(segs := AppendToLast(s.segs, here),
         tailUpdate := f.positionTime, tailTrack := f.track,
         historySize := s.historySize + 1)
  }

  /** Good data after an estimated stretch: a solid segment starting at the
      previous point. */
  function Reopen(s: TrackState, prev: Point, f: Fix): TrackState
    requires |s.segs| > 0
  {
    if Last(s.segs).estimated then
      s.(segs := s.segs + [SolidSegment(prev, f.altitude)], historySize := s.historySize + 1)
    else
      s
  }

  function Split(s: TrackState, here: Point, f: Fix): TrackState
    requires |s.segs| > 0
  {
    s.(segs := AppendToLast(s.segs, here) + [SolidSegment(here, f.altitude)],
       tailUpdate := f.positionTime, tailTrack := f.track,
       historySize := s.historySize + 2)
  }

  /** Whether a retained turn also keeps the previous point as its corner. */
  predicate Corner(s: TrackState, prev: Point, f: Fix)
    requires |s.segs| > 0
  {
    var since := f.positionTime - s.tailUpdate;
    TrackChange(s.tailTrack, f.track) > 1.0 && since > 3.0 && LastX(Last(s.segs)) != Some(prev.x)
  }

  function Thin(s: TrackState, prev: Point, here: Point, f: Fix): TrackState
    requires |s.segs| > 0
  {
    if !Retains(TrackChange(s.tailTrack, f.track), f.positionTime - s.tailUpdate, f.mlat) then
      s
    else
      var corner := Corner(s, prev, f);
      var segs := if corner then AppendToLast(s.segs, prev) else s.segs;
      s.(segs := AppendToLast(segs, here),
         tailUpdate := f.positionTime, tailTrack := f.track,
         historySize := s.historySize + (if corner then 2 else 1))
  }

  /** Fresh data on an existing track: reopen after an estimated stretch,
      then split on a ground/altitude change or thin. */
  function Fresh(s: TrackState, prev: Point, here: Point, f: Fix): TrackState
    requires |s.segs| > 0
  {
    var s' := Reopen(s, prev, f);
    if StartsNewSegment(Last(s'.segs), f.altitude) then Split(s', here, f) else Thin(s', prev, here, f)
  }

  /** One call of updateTrack. */
  function Step(st: TrackState, f: Fix, proj: Position -> Point, c: Clock): Outcome {
    if !Moves(st, f) then
      Outcome(st, false)
    else
      var here := Here(f, proj);
      var prev := Prev(st, f, proj);
      var s := st.(prevPosition := f.position);
      if |st.segs| == 0 then
        Outcome(Bootstrap(s, here, f), false)
      else if IsStale(st.headUpdate, f, c) then
        Outcome(Estimate(s.(headUpdate := f.positionTime), prev, here, f), true)
      else
        Outcome(Fresh(s.(headUpdate := f.positionTime), prev, here, f), true)
  }

  /** updateTrack as the program runs it, on local copies of the fields:
      the early returns, the first point, and the staleness test choosing
      between the two ways of extending an existing track. */
  method Advance(st: TrackState, f: Fix, proj: Position -> Point, c: Clock) returns (r: TrackState, moved: bool)
    ensures Outcome(r, moved) == Step(st, f, proj, c)
  {
    r, moved := st, false;
    if f.position.None? || (st.prevPosition.Some? && f.position.value.lon == st.prevPosition.value.lon) {
      return;
    }
    var projHere := proj(f.position.value);
    var projPrev := if st.prevPosition.None? then projHere else proj(st.prevPosition.value);
    var positionTime := f.positionTime;
    r := r.(prevPosition := f.position);

    if |r.segs| == 0 {
      r := r.(segs := [Segment([projHere], None, false, f.altitude == Ground, f.altitude)],
              headUpdate := positionTime, tailUpdate := positionTime, historySize := r.historySize + 1);
      return;
    }

    var timeDifference := (positionTime - r.headUpdate) - (c.now - c.lastBatch);
    var staleTimeout := if f.mlat then 15.0 else 6.0;
    var estTrack := timeDifference > staleTimeout;
    estTrack := estTrack || (c.now - positionTime) > staleTimeout;
    r := r.(headUpdate := positionTime);
    moved := true;
    if estTrack {
      r := ExtendEstimated(r, projPrev, projHere, f);
    } else {
      r := ExtendSolid(r, projPrev, projHere, f);
    }
  }

  /** The stale branch of updateTrack: close the gap on the solid segment
      and open an estimated one, or extend the estimated one already open. */
  method ExtendEstimated(s: TrackState, projPrev: Point, projHere: Point, f: Fix) returns (r: TrackState)
    requires |s.segs| > 0
    ensures r == Estimate(s, projPrev, projHere, f)
  {
    var lines, size := s.segs, s.historySize;
    var lastseg := lines[|lines| - 1];
    if !lastseg.estimated {
      if LastX(lastseg) != Some(projPrev.x) {
        lines, size := AppendToLast(lines, projPrev), size + 1;
      }
      lines, size := lines + [Segment([projPrev, projHere], None, true, false, Feet(0))], size + 2;
    } else {
      lines, size := AppendToLast(lines, projHere), size + 1;
    }
    r := s.(segs := lines, historySize := size, tailUpdate := f.positionTime, tailTrack := f.track);
  }

  /** The fresh-data branch of updateTrack: reopen a solid segment after an
      estimated one, split on a ground or altitude change, else thin. */
  method ExtendSolid(s: TrackState, projPrev: Point, projHere: Point, f: Fix) returns (r: TrackState)
    requires |s.segs| > 0
    ensures r == Fresh(s, projPrev, projHere, f)
  {
    var lines, size := s.segs, s.historySize;
    var lastseg := lines[|lines| - 1];
    if lastseg.estimated {
      lastseg := Segment([projPrev], None, false, f.altitude == Ground, f.altitude);
      lines, size := lines + [lastseg], size + 1;
    }
    ghost var s' := Reopen(s, projPrev, f);
    assert s.(segs := lines, historySize := size) == s' && lastseg == Last(s'.segs);
    var positionTime := f.positionTime;
    var sinceUpdate := positionTime - s.tailUpdate;
    if (lastseg.ground && f.altitude != Ground) || (!lastseg.ground && f.altitude == Ground)
       || AltitudeStep(f.altitude, lastseg.altitude)
    {
      lines := AppendToLast(lines, projHere);
      lines, size := lines + [Segment([projHere], None, false, f.altitude == Ground, f.altitude)], size + 2;
      r := s.(segs := lines, historySize := size, tailUpdate := positionTime, tailTrack := f.track);
      return;
    }
    var trackChange := if Truthy(s.tailTrack) && Truthy(f.track) then Abs(s.tailTrack.value - f.track.value) else -1.0;
    r := s.(segs := lines, historySize := size);
    if || sinceUpdate > 16.0
       || (trackChange > 1.0 && sinceUpdate > 3.0)
       || (trackChange > 0.25 && sinceUpdate > 8.0)
       || (f.mlat && sinceUpdate > 8.0)
       || (trackChange == -1.0 && sinceUpdate > 5.0)
    {
      if trackChange > 1.0 && sinceUpdate > 3.0 && LastX(lines[|lines| - 1]) != Some(projPrev.x) {
        lines, size := AppendToLast(lines, projPrev), size + 1;
      }
      lines, size := AppendToLast(lines, projHere), size + 1;
      r := s.(segs := lines, historySize := size, tailUpdate := positionTime, tailTrack := f.track);
    }
  }

  /** A tick on a tracked plane: the step, then, when the plane moved while
      selected, a handle for every undrawn segment. Returns the new state
      and the next free handle. */
  function Follow(st: TrackState, next: nat, f: Fix, proj: Position -> Point, c: Clock, selected: bool): (TrackState, nat) {
    Redraw(Step(st, f, proj, c), next, selected)
  }

  /** The track and the next free handle once the lines of an outcome have
      been redrawn (only a selected plane that moved draws anything). */
  function Redraw(o: Outcome, next: nat, selected: bool): (TrackState, nat) {
    if o.moved && selected then (o.state.(segs := Draw(o.state.segs, next)), next + Undrawn(o.state.segs))
    else (o.state, next)
  }

  // ---------------------------------------------------------------------
  // Invariants of the segment list

  /** b is a with possibly more points at the end and nothing else changed. */
  predicate Extends(a: Segment, b: Segment) {
    b == a.(points := b.points) && a.points <= b.points
  }

  /** after is before with the last segment extended and segments appended:
      nothing removed, nothing reordered, no earlier segment touched. */
  predicate Grows(before: seq<Segment>, after: seq<Segment>) {
    && |before| <= |after|
    && (forall i :: 0 <= i < |before| - 1 ==> after[i] == before[i])
    && (|before| > 0 ==> Extends(before[|before| - 1], after[|before| - 1]))
  }

  predicate NonEmptySegments(segs: seq<Segment>) {
    forall i :: 0 <= i < |segs| ==> |segs[i].points| > 0
  }

  /** The number of points held by all segments. */
  function TotalPoints(segs: seq<Segment>): nat {
    if segs == [] then 0 else TotalPoints(segs[..|segs| - 1]) + |Last(segs).points|
  }

  lemma GrowsTransitive(a: seq<Segment>, b: seq<Segment>, c: seq<Segment>)
    requires Grows(a, b) && Grows(b, c)
    ensures Grows(a, c)
  {
    if |a| > 0 {
      var k := |a| - 1;
      if |b| == |a| {
        assert Extends(b[k], c[k]);
      } else {
        assert c[k] == b[k];
      }
    }
  }

  lemma GrowsByAppendToLast(segs: seq<Segment>, p: Point)
    requires |segs| > 0
    ensures Grows(segs, AppendToLast(segs, p))
  {
  }

  lemma GrowsByPush(segs: seq<Segment>, s: Segment)
    ensures Grows(segs, segs + [s])
  {
  }

  lemma TotalPointsPush(segs: seq<Segment>, s: Segment)
    ensures TotalPoints(segs + [s]) == TotalPoints(segs) + |s.points|
  {
    assert (segs + [s])[..|segs|] == segs;
  }

  lemma TotalPointsAppendToLast(segs: seq<Segment>, p: Point)
    requires |segs| > 0
    ensures TotalPoints(AppendToLast(segs, p)) == TotalPoints(segs) + 1
  {
    assert AppendToLast(segs, p)[..|segs| - 1] == segs[..|segs| - 1];
  }

  lemma EstimateGrows(s: TrackState, prev: Point, here: Point, f: Fix)
    requires |s.segs| > 0
    ensures var r := Estimate(s, prev, here, f);
      Grows(s.segs, r.segs) && s.historySize <= r.historySize
      && (NonEmptySegments(s.segs) ==> NonEmptySegments(r.segs))
  {
    if !Last(s.segs).estimated && LastX(Last(s.segs)) != Some(prev.x) {
      var segs := AppendToLast(s.segs, prev);
      GrowsByAppendToLast(s.segs, prev);
      GrowsTransitive(s.segs, segs, segs + [EstimatedSegment(prev, here)]);
    }
  }

  lemma SplitGrows(s: TrackState, here: Point, f: Fix)
    requires |s.segs| > 0
    ensures var r := Split(s, here, f);
      Grows(s.segs, r.segs) && s.historySize <= r.historySize
      && (NonEmptySegments(s.segs) ==> NonEmptySegments(r.segs))
  {
    var segs := AppendToLast(s.segs, here);
    GrowsByAppendToLast(s.segs, here);
    GrowsTransitive(s.segs, segs, segs + [SolidSegment(here, f.altitude)]);
  }

  lemma ThinGrows(s: TrackState, prev: Point, here: Point, f: Fix)
    requires |s.segs| > 0
    ensures var r := Thin(s, prev, here, f);
      Grows(s.segs, r.segs) && s.historySize <= r.historySize
      && (NonEmptySegments(s.segs) ==> NonEmptySegments(r.segs))
  {
    if Retains(TrackChange(s.tailTrack, f.track), f.positionTime - s.tailUpdate, f.mlat) {
      var segs := if Corner(s, prev, f) then AppendToLast(s.segs, prev) else s.segs;
      GrowsByAppendToLast(s.segs, prev);
      GrowsByAppendToLast(segs, here);
      GrowsTransitive(s.segs, segs, AppendToLast(segs, here));
    }
  }

  /** Segments are only pushed or extended at the end, history_size never
      shrinks, and no step leaves a segment without points. */
  lemma StepGrows(st: TrackState, f: Fix, proj: Position -> Point, c: Clock)
    ensures var r := Step(st, f, proj, c).state;
      && Grows(st.segs, r.segs)
      && st.historySize <= r.historySize
      && (NonEmptySegments(st.segs) ==> NonEmptySegments(r.segs))
  {
    if Moves(st, f) && |st.segs| > 0 {
      var here, prev := Here(f, proj), Prev(st, f, proj);
      var s := st.(prevPosition := f.position, headUpdate := f.positionTime);
      if IsStale(st.headUpdate, f, c) {
        EstimateGrows(s, prev, here, f);
      } else {
        var s' := Reopen(s, prev, f);
        assert Grows(s.segs, s'.segs);
        if StartsNewSegment(Last(s'.segs), f.altitude) {
          SplitGrows(s', here, f);
          GrowsTransitive(s.segs, s'.segs, Split(s', here, f).segs);
        } else {
          ThinGrows(s', prev, here, f);
          GrowsTransitive(s.segs, s'.segs, Thin(s', prev, here, f).segs);
        }
      }
    }
  }

  /** How far history_size is from the number of retained points. */
  function Drift(s: TrackState): int {
    s.historySize - TotalPoints(s.segs)
  }

  lemma EstimateKeepsDrift(s: TrackState, prev: Point, here: Point, f: Fix)
    requires |s.segs| > 0
    ensures Drift(Estimate(s, prev, here, f)) == Drift(s)
  {
    if !Last(s.segs).estimated {
      var segs := if LastX(Last(s.segs)) != Some(prev.x) then AppendToLast(s.segs, prev) else s.segs;
      TotalPointsAppendToLast(s.segs, prev);
      TotalPointsPush(segs, EstimatedSegment(prev, here));
    } else {
      TotalPointsAppendToLast(s.segs, here);
    }
  }

  lemma ReopenKeepsDrift(s: TrackState, prev: Point, f: Fix)
    requires |s.segs| > 0
    ensures Drift(Reopen(s, prev, f)) == Drift(s)
  {
    TotalPointsPush(s.segs, SolidSegment(prev, f.altitude));
  }

  lemma SplitKeepsDrift(s: TrackState, here: Point, f: Fix)
    requires |s.segs| > 0
    ensures Drift(Split(s, here, f)) == Drift(s)
  {
    TotalPointsAppendToLast(s.segs, here);
    TotalPointsPush(AppendToLast(s.segs, here), SolidSegment(here, f.altitude));
  }

  lemma ThinKeepsDrift(s: TrackState, prev: Point, here: Point, f: Fix)
    requires |s.segs| > 0
    ensures Drift(Thin(s, prev, here, f)) == Drift(s)
  {
    var segs := if Corner(s, prev, f) then AppendToLast(s.segs, prev) else s.segs;
    TotalPointsAppendToLast(s.segs, prev);
    TotalPointsAppendToLast(segs, here);
  }

  /** history_size grows by exactly the number of points the step adds, so
      it keeps counting every retained point. */
  lemma StepKeepsHistoryCount(st: TrackState, f: Fix, proj: Position -> Point, c: Clock)
    ensures Drift(Step(st, f, proj, c).state) == Drift(st)
  {
    if Moves(st, f) {
      var here, prev := Here(f, proj), Prev(st, f, proj);
      if |st.segs| == 0 {
        TotalPointsPush(st.segs, SolidSegment(here, f.altitude));
      } else {
        var s := st.(prevPosition := f.position, headUpdate := f.positionTime);
        if IsStale(st.headUpdate, f, c) {
          EstimateKeepsDrift(s, prev, here, f);
        } else {
          var s' := Reopen(s, prev, f);
          ReopenKeepsDrift(s, prev, f);
          if StartsNewSegment(Last(s'.segs), f.altitude) {
            SplitKeepsDrift(s', here, f);
          } else {
            ThinKeepsDrift(s', prev, here, f);
          }
        }
      }
    }
  }

  /** The bookkeeping invariant of a plane: history_size counts the
      retained points and no segment is empty. */
  predicate Consistent(st: TrackState) {
    st.historySize == TotalPoints(st.segs) && NonEmptySegments(st.segs)
  }

  /** One updateTrack keeps the bookkeeping consistent and only grows the
      track. */
  lemma StepKeepsConsistent(st: TrackState, f: Fix, proj: Position -> Point, c: Clock)
    requires Consistent(st)
    ensures var r := Step(st, f, proj, c).state;
      Consistent(r) && Grows(st.segs, r.segs) && st.historySize <= r.historySize
  {
    StepGrows(st, f, proj, c);
    StepKeepsHistoryCount(st, f, proj, c);
  }

  /** A sequence of updateTrack calls, one per tick. */
  datatype Tick = Tick(fix: Fix, clock: Clock)

  function Replay(st: TrackState, ticks: seq<Tick>, proj: Position -> Point): TrackState
    decreases |ticks|
  {
    if ticks == [] then st else Replay(Step(st, ticks[0].fix, proj, ticks[0].clock).state, ticks[1..], proj)
  }

  /** Over any run of updates the segment list only grows at its end,
      history_size never shrinks and keeps counting the retained points. */
  lemma {:induction false} ReplayGrows(st: TrackState, ticks: seq<Tick>, proj: Position -> Point)
    ensures var r := Replay(st, ticks, proj);
      && Grows(st.segs, r.segs)
      && st.historySize <= r.historySize
      && Drift(r) == Drift(st)
      && (NonEmptySegments(st.segs) ==> NonEmptySegments(r.segs))
    decreases |ticks|
  {
    if ticks != [] {
      var mid := Step(st, ticks[0].fix, proj, ticks[0].clock).state;
      StepGrows(st, ticks[0].fix, proj, ticks[0].clock);
      StepKeepsHistoryCount(st, ticks[0].fix, proj, ticks[0].clock);
      ReplayGrows(mid, ticks[1..], proj);
      GrowsTransitive(st.segs, mid.segs, Replay(mid, ticks[1..], proj).segs);
    }
  }

  /** From a fresh plane, history_size is always the number of retained
      points and every segment holds at least one point. */
  lemma ReplayFromInitial(ticks: seq<Tick>, proj: Position -> Point)
    ensures var r := Replay(Initial, ticks, proj);
      r.historySize == TotalPoints(r.segs) && NonEmptySegments(r.segs)
  {
    ReplayGrows(Initial, ticks, proj);
  }

  // ---------------------------------------------------------------------
  // The five behaviours of updateTrack

  /** No position, or the same longitude as last time: nothing changes. */
  lemma StepNoOp(st: TrackState, f: Fix, proj: Position -> Point, c: Clock)
    requires f.position.None? || (st.prevPosition.Some? && f.position.value.lon == st.prevPosition.value.lon)
    ensures Step(st, f, proj, c) == Outcome(st, false)
  {
  }

  /** The first position opens one solid segment holding just that point. */
  lemma StepBootstrap(st: TrackState, f: Fix, proj: Position -> Point, c: Clock)
    requires Moves(st, f) && st.segs == []
    ensures var r := Step(st, f, proj, c);
      && !r.moved
      && r.state.segs == [Segment([Here(f, proj)], None, false, f.altitude == Ground, f.altitude)]
      && r.state.headUpdate == f.positionTime && r.state.tailUpdate == f.positionTime
      && r.state.historySize == st.historySize + 1
      && r.state.tailTrack == st.tailTrack && r.state.prevPosition == f.position
  {
  }

  /** Every moving update after the first records its position time as
      head_update, whichever branch it takes. */
  lemma StepRecordsHead(st: TrackState, f: Fix, proj: Position -> Point, c: Clock)
    requires Moves(st, f) && st.segs != []
    ensures Step(st, f, proj, c).state.headUpdate == f.positionTime
    ensures Step(st, f, proj, c).state.prevPosition == f.position
    ensures Step(st, f, proj, c).moved
  {
  }

  /** Stale after a solid segment: the gap is closed on the solid segment
      (unless it already ends at the previous x) and exactly one estimated
      segment [prev, here] is pushed. */
  lemma StepEntersEstimated(st: TrackState, f: Fix, proj: Position -> Point, c: Clock)
    requires Moves(st, f) && st.segs != []
    requires IsStale(st.headUpdate, f, c) && !Last(st.segs).estimated
    ensures var r := Step(st, f, proj, c); var n := |st.segs|; var prev := Prev(st, f, proj);
      && r.moved
      && |r.state.segs| == n + 1
      && r.state.segs[..n - 1] == st.segs[..n - 1]
      && r.state.segs[n - 1] == Last(st.segs).(points := Last(st.segs).points +
           (if LastX(Last(st.segs)) != Some(prev.x) then [prev] else []))
      && r.state.segs[n] == EstimatedSegment(prev, Here(f, proj))
      && r.state.tailUpdate == f.positionTime && r.state.tailTrack == f.track
  {
  }

  /** Stale while estimating: only the current point is appended. */
  lemma StepContinuesEstimated(st: TrackState, f: Fix, proj: Position -> Point, c: Clock)
    requires Moves(st, f) && st.segs != []
    requires IsStale(st.headUpdate, f, c) && Last(st.segs).estimated
    ensures var r := Step(st, f, proj, c);
      && r.moved
      && r.state.segs == AppendToLast(st.segs, Here(f, proj))
      && r.state.historySize == st.historySize + 1
      && r.state.tailUpdate == f.positionTime && r.state.tailTrack == f.track
  {
  }

  /** Fresh data after an estimated segment: that segment is left as it is
      and a solid segment starting at the previous point follows it. Its
      tags equal the current altitude, so no split happens on this update;
      the current point joins it, and the tail bookkeeping moves, only if the
      thinning rule keeps the point (a turn never adds the corner again). */
  lemma StepReopens(st: TrackState, f: Fix, proj: Position -> Point, c: Clock)
    requires Moves(st, f) && st.segs != []
    requires !IsStale(st.headUpdate, f, c) && Last(st.segs).estimated
    ensures var r := Step(st, f, proj, c); var prev := Prev(st, f, proj);
      var keep := Retains(TrackChange(st.tailTrack, f.track), f.positionTime - st.tailUpdate, f.mlat);
      && r.moved
      && r.state.segs == st.segs + [SolidSegment(prev, f.altitude).(points := [prev] + (if keep then [Here(f, proj)] else []))]
      && r.state.tailUpdate == (if keep then f.positionTime else st.tailUpdate)
      && r.state.tailTrack == (if keep then f.track else st.tailTrack)
      && r.state.historySize == st.historySize + (if keep then 2 else 1)
  {
    var here, prev := Here(f, proj), Prev(st, f, proj);
    var s := st.(prevPosition := f.position, headUpdate := f.positionTime);
    var s' := Reopen(s, prev, f);
    assert !AltitudeStep(f.altitude, f.altitude);
    assert !StartsNewSegment(Last(s'.segs), f.altitude);
    assert !Corner(s', prev, f);
    assert Step(st, f, proj, c).state == Thin(s', prev, here, f);
    var solid := SolidSegment(prev, f.altitude);
    assert s'.segs == st.segs + [solid];
    if Retains(TrackChange(st.tailTrack, f.track), f.positionTime - st.tailUpdate, f.mlat) {
      assert [prev] + [here] == [prev, here];
      assert AppendToLast(s'.segs, here) == st.segs + [solid.(points := [prev] + [here])];
    } else {
      assert [prev] + [] == [prev];
      assert solid.(points := [prev] + []) == solid;
    }
  }

  /** A ground/air flip or a step of 1000 ft: the current point ends the
      open segment and starts exactly one new segment with the new tags. */
  lemma StepSplits(st: TrackState, f: Fix, proj: Position -> Point, c: Clock)
    requires Moves(st, f) && st.segs != []
    requires !IsStale(st.headUpdate, f, c) && !Last(st.segs).estimated
    requires StartsNewSegment(Last(st.segs), f.altitude)
    ensures var r := Step(st, f, proj, c); var n := |st.segs|; var here := Here(f, proj);
      && r.moved
      && |r.state.segs| == n + 1
      && r.state.segs[..n - 1] == st.segs[..n - 1]
      && r.state.segs[n - 1] == Last(st.segs).(points := Last(st.segs).points + [here])
      && r.state.segs[n] == Segment([here], None, false, f.altitude == Ground, f.altitude)
      && r.state.historySize == st.historySize + 2
      && r.state.tailUpdate == f.positionTime && r.state.tailTrack == f.track
  {
  }

  /** Ordinary continuation: no segment is added; the current point is kept
      iff the thinning rule holds, preceded by the previous point on a turn. */
  lemma StepThins(st: TrackState, f: Fix, proj: Position -> Point, c: Clock)
    requires Moves(st, f) && st.segs != []
    requires !IsStale(st.headUpdate, f, c) && !Last(st.segs).estimated
    requires !StartsNewSegment(Last(st.segs), f.altitude)
    ensures var r := Step(st, f, proj, c); var n := |st.segs|;
      var here, prev := Here(f, proj), Prev(st, f, proj);
      var since := f.positionTime - st.tailUpdate;
      var change := TrackChange(st.tailTrack, f.track);
      && r.moved
      && |r.state.segs| == n
      && r.state.segs[..n - 1] == st.segs[..n - 1]
      && (Retains(change, since, f.mlat) ==>
            && Last(r.state.segs) == Last(st.segs).(points := Last(st.segs).points +
                 (if change > 1.0 && since > 3.0 && LastX(Last(st.segs)) != Some(prev.x) then [prev, here] else [here]))
            && r.state.tailUpdate == f.positionTime && r.state.tailTrack == f.track)
      && (!Retains(change, since, f.mlat) ==>
            r.state == st.(prevPosition := f.position, headUpdate := f.positionTime))
  {
    var s := st.(prevPosition := f.position, headUpdate := f.positionTime);
    if Retains(TrackChange(st.tailTrack, f.track), f.positionTime - st.tailUpdate, f.mlat) {
      var prev := Prev(st, f, proj);
      if Corner(s, prev, f) {
        assert AppendToLast(AppendToLast(s.segs, prev), Here(f, proj))[..|st.segs| - 1] == st.segs[..|st.segs| - 1];
      }
    }
  }

  // ---------------------------------------------------------------------
  // Consequences of the thresholds

  /** With the heading held and no MLAT, a point is kept only once more than
      16 s have passed since the last kept one. */
  lemma HeldHeadingWaitsSixteenSeconds(since: real)
    ensures Retains(0.0, since, false) <==> since > 16.0
  {
  }

  /** A heading of 0 counts as unknown, so the 5 s rule applies to it. */
  lemma ZeroHeadingIsUnknown(tailTrack: Heading, since: real)
    ensures TrackChange(tailTrack, Some(0.0)) == -1.0
    ensures since > 5.0 ==> Retains(TrackChange(tailTrack, Some(0.0)), since, false)
  {
  }

  /** A 10 s gap (on a 1 s batch interval) is stale for an ADS-B position
      but not for an MLAT one. */
  lemma TenSecondGapBySource(head: real, pos: Position, alt: Altitude, track: Heading)
    ensures IsStale(head, Fix(Some(pos), alt, track, false, head + 10.0), Clock(head + 10.0, head + 9.0))
    ensures !IsStale(head, Fix(Some(pos), alt, track, true, head + 10.0), Clock(head + 10.0, head + 9.0))
  {
  }

  /** An altitude step is never seen against "ground": the subtraction is NaN. */
  lemma GroundHasNoAltitudeStep(a: Altitude)
    ensures !AltitudeStep(Ground, a) && !AltitudeStep(a, Ground)
  {
  }

  /** A position 20 s after the first one, with 1 s between batches, is
      stale: the track becomes a solid [A] followed by an estimated [A, B]. */
  lemma TwentySecondGapScenario(proj: Position -> Point, a: Position, b: Position, alt: Altitude, track: Heading)
    requires a.lon != b.lon
    ensures var s1 := Step(Initial, Fix(Some(a), alt, track, false, 0.0), proj, Clock(0.0, -1.0)).state;
      var r := Step(s1, Fix(Some(b), alt, track, false, 20.0), proj, Clock(20.0, 19.0));
      && r.moved
      && r.state.segs == [SolidSegment(proj(a), alt), EstimatedSegment(proj(a), proj(b))]
      && r.state.historySize == 3
  {
  }

  /** An airborne plane that reports "ground" on a timely update: the track
      splits into two segments and the second is tagged as ground. */
  lemma LandingScenario(proj: Position -> Point, a: Position, b: Position, track: Heading)
    requires a.lon != b.lon
    ensures var s1 := Step(Initial, Fix(Some(a), Feet(10000), track, false, 0.0), proj, Clock(0.0, -1.0)).state;
      var r := Step(s1, Fix(Some(b), Ground, track, false, 1.0), proj, Clock(1.0, 0.0));
      && r.moved
      && r.state.segs == [Segment([proj(a), proj(b)], None, false, false, Feet(10000)), SolidSegment(proj(b), Ground)]
      && r.state.segs[1].ground
  {
    var f1 := Fix(Some(a), Feet(10000), track, false, 0.0);
    var s1 := Step(Initial, f1, proj, Clock(0.0, -1.0)).state;
    assert s1.segs == [SolidSegment(proj(a), Feet(10000))];
    assert s1.prevPosition == Some(a);
    var f2 := Fix(Some(b), Ground, track, false, 1.0);
    assert Moves(s1, f2);
    assert !IsStale(s1.headUpdate, f2, Clock(1.0, 0.0));
    assert StartsNewSegment(Last(s1.segs), Ground);
    var s := s1.(prevPosition := f2.position, headUpdate := 1.0);
    assert Reopen(s, proj(a), f2) == s;
    assert [proj(a)] + [proj(b)] == [proj(a), proj(b)];
    assert AppendToLast(s.segs, proj(b))[0] == Segment([proj(a), proj(b)], None, false, false, Feet(10000));
  }

  /** The same "ground" report 30 s late, with 1 s between batches: the stale
      branch runs first, so the track does not split; it gains an estimated
      [A, B] that is not tagged as ground. */
  lemma StaleGroundFlipScenario(proj: Position -> Point, a: Position, b: Position, track: Heading)
    requires a.lon != b.lon
    ensures var s1 := Step(Initial, Fix(Some(a), Feet(10000), track, false, 0.0), proj, Clock(0.0, -1.0)).state;
      var r := Step(s1, Fix(Some(b), Ground, track, false, 30.0), proj, Clock(30.0, 29.0));
      && r.moved
      && r.state.segs == [SolidSegment(proj(a), Feet(10000)), EstimatedSegment(proj(a), proj(b))]
      && !r.state.segs[1].ground
  {
  }

  // ---------------------------------------------------------------------
  // Drawn features of the segments

  /** Number of segments that have no drawn feature. */
  function Undrawn(segs: seq<Segment>): nat {
    if segs == [] then 0 else Undrawn(segs[..|segs| - 1]) + (if Last(segs).feature.None? then 1 else 0)
  }

  /** Every segment without a feature receives the next counter value, in
      index order from next on. */
  function Draw(segs: seq<Segment>, next: nat): seq<Segment> {
    if segs == [] then []
    else
      var front := segs[..|segs| - 1];
      Draw(front, next) +
        [if Last(segs).feature.None? then Last(segs).(feature := Some(next + Undrawn(front))) else Last(segs)]
  }

  /** Handles of the drawn segments from the last segment back to the first. */
  function DrawnHandles(segs: seq<Segment>): seq<Handle> {
    if segs == [] then []
    else DrawnHandles(segs[1..]) + (if segs[0].feature.Some? then [segs[0].feature.value] else [])
  }

  /** Two segment lists that differ in nothing but their features. */
  predicate SamePoints(a: seq<Segment>, b: seq<Segment>) {
    |a| == |b| && forall i :: 0 <= i < |a| ==> b[i] == a[i].(feature := b[i].feature)
  }

  lemma {:induction false} TotalPointsIgnoresFeatures(a: seq<Segment>, b: seq<Segment>)
    requires SamePoints(a, b)
    ensures TotalPoints(a) == TotalPoints(b)
  {
    if a != [] {
      TotalPointsIgnoresFeatures(a[..|a| - 1], b[..|b| - 1]);
    }
  }

  /** Draw gives segment k a new handle exactly when it had none, numbered
      by how many undrawn segments precede it; nothing else changes. */
  lemma {:induction false} DrawAt(segs: seq<Segment>, next: nat, k: nat)
    requires k < |segs|
    ensures |Draw(segs, next)| == |segs|
    ensures Draw(segs, next)[k] ==
      if segs[k].feature.None? then segs[k].(feature := Some(next + Undrawn(segs[..k]))) else segs[k]
  {
    var front := segs[..|segs| - 1];
    if k < |segs| - 1 {
      DrawAt(front, next, k);
      assert front[..k] == segs[..k];
    } else {
      assert front == segs[..k];
      if front != [] {
        DrawAt(front, next, 0);
      }
    }
  }

  /** The loop of clearLines over the segment list, last segment first:
      every feature is forgotten and its handle handed back for removal. */
  method ClearFeatures(segs: seq<Segment>) returns (cleared: seq<Segment>, removed: seq<Handle>)
    ensures SamePoints(segs, cleared)
    ensures forall i :: 0 <= i < |cleared| ==> cleared[i].feature.None?
    ensures removed == DrawnHandles(segs)
  {
    cleared, removed := segs, [];
    var i := |segs| - 1;
    while i >= 0
      invariant -1 <= i < |segs| && |cleared| == |segs|
      invariant forall k :: 0 <= k <= i ==> cleared[k] == segs[k]
      invariant forall k :: i < k < |segs| ==> cleared[k] == segs[k].(feature := None)
      invariant removed == DrawnHandles(segs[i + 1..])
    {
      assert segs[i..][1..] == segs[i + 1..];
      if cleared[i].feature.Some? {
        removed := removed + [cleared[i].feature.value];
        cleared := cleared[i := cleared[i].(feature := None)];
      }
      i := i - 1;
    }
    assert segs[0..] == segs;
  }

  /** The loop of updateLines over the segment list: each segment without a
      feature gets the next handle, in index order. */
  method DrawFeatures(segs: seq<Segment>, first: nat) returns (drawn: seq<Segment>, next: nat)
    ensures drawn == Draw(segs, first) && next == first + Undrawn(segs)
  {
    drawn, next := segs, first;
    var i := 0;
    while i < |segs|
      invariant 0 <= i <= |segs| == |drawn|
      invariant drawn[..i] == Draw(segs[..i], first)
      invariant drawn[i..] == segs[i..]
      invariant next == first + Undrawn(segs[..i])
    {
      assert segs[..i + 1][..i] == segs[..i];
      assert drawn[i] == segs[i];
      if drawn[i].feature.None? {
        drawn := drawn[i := drawn[i].(feature := Some(next))];
        next := next + 1;
      }
      assert drawn[..i + 1] == drawn[..i] + [drawn[i]];
      i := i + 1;
    }
    assert segs[..|segs|] == segs;
    assert drawn[..|drawn|] == drawn;
  }

  /** Changing features alone keeps the bookkeeping consistent. */
  lemma FeaturesKeepConsistent(st: TrackState, segs: seq<Segment>)
    requires Consistent(st) && SamePoints(st.segs, segs)
    ensures Consistent(st.(segs := segs))
  {
    TotalPointsIgnoresFeatures(st.segs, segs);
    assert forall i :: 0 <= i < |segs| ==> segs[i].points == st.segs[i].points;
  }

  /** Draw touches nothing but features. */
  lemma DrawSamePoints(segs: seq<Segment>, next: nat)
    ensures SamePoints(segs, Draw(segs, next))
  {
    forall k | 0 <= k < |segs|
      ensures |Draw(segs, next)| == |segs| && Draw(segs, next)[k] == segs[k].(feature := Draw(segs, next)[k].feature)
    {
      DrawAt(segs, next, k);
    }
  }

  /** Earlier undrawn segments get smaller handles: handles are distinct. */
  lemma {:induction false} UndrawnGrows(segs: seq<Segment>, i: nat, j: nat)
    requires i < j <= |segs| && segs[i].feature.None?
    ensures Undrawn(segs[..i]) < Undrawn(segs[..j])
  {
    var front := segs[..j][..j - 1];
    assert front == segs[..j - 1];
    if i < j - 1 {
      UndrawnGrows(segs, i, j - 1);
    } else {
      assert Last(segs[..j]) == segs[i];
    }
  }

  /** After Draw every segment has a feature, the handles it hands out are
      numbered from the counter and increase with the index, and only
      features changed. */
  lemma DrawProperties(segs: seq<Segment>, next: nat)
    ensures var d := Draw(segs, next);
      && SamePoints(segs, d)
      && (forall k :: 0 <= k < |d| ==> d[k].feature.Some?)
      && (forall k :: 0 <= k < |d| && segs[k].feature.Some? ==> d[k] == segs[k])
      && (forall k :: 0 <= k < |d| && segs[k].feature.None? ==>
            next <= d[k].feature.value < next + Undrawn(segs))
      && (forall i, j :: 0 <= i < j < |d| && segs[i].feature.None? && segs[j].feature.None? ==>
            d[i].feature.value < d[j].feature.value)
  {
    var d := Draw(segs, next);
    forall k | 0 <= k < |segs|
      ensures |d| == |segs| && d[k] == if segs[k].feature.None? then segs[k].(feature := Some(next + Undrawn(segs[..k]))) else segs[k]
    {
      DrawAt(segs, next, k);
    }
    if segs == [] {
    } else {
      forall k | 0 <= k < |d| && segs[k].feature.None?
        ensures next <= d[k].feature.value < next + Undrawn(segs)
      {
        UndrawnGrows(segs, k, |segs|);
        assert segs[..|segs|] == segs;
      }
      forall i, j | 0 <= i < j < |d| && segs[i].feature.None? && segs[j].feature.None?
        ensures d[i].feature.value < d[j].feature.value
      {
        UndrawnGrows(segs, i, j);
      }
    }
  }

  /** Every handle held by a segment was handed out before the counter
      reached next. */
  predicate HandlesBelow(segs: seq<Segment>, next: nat) {
    forall i :: 0 <= i < |segs| && segs[i].feature.Some? ==> segs[i].feature.value < next
  }

  /** Segments that updateTrack pushes carry no feature yet. */
  lemma StepAddsUndrawn(st: TrackState, f: Fix, proj: Position -> Point, c: Clock)
    ensures var r := Step(st, f, proj, c).state;
      forall i :: |st.segs| <= i < |r.segs| ==> r.segs[i].feature.None?
  {
  }

  /** updateTrack keeps every held handle below the counter: it keeps the
      features of the segments it had and pushes segments without one. */
  lemma StepKeepsHandlesBelow(st: TrackState, f: Fix, proj: Position -> Point, c: Clock, next: nat)
    requires HandlesBelow(st.segs, next)
    ensures HandlesBelow(Step(st, f, proj, c).state.segs, next)
  {
    var r := Step(st, f, proj, c).state;
    StepGrows(st, f, proj, c);
    StepAddsUndrawn(st, f, proj, c);
    forall i | 0 <= i < |r.segs| && r.segs[i].feature.Some?
      ensures r.segs[i].feature.value < next
    {
      if i < |st.segs| - 1 {
        assert r.segs[i] == st.segs[i];
      } else if i == |st.segs| - 1 {
        assert Extends(st.segs[i], r.segs[i]);
      }
    }
  }

  /** The object invariant of a plane survives one updateTrack: the
      bookkeeping stays consistent, the track only grows, and every handle
      stays below the feature counter. */
  lemma StepPreserves(st: TrackState, f: Fix, proj: Position -> Point, c: Clock, next: nat, o: Outcome)
    requires Consistent(st) && HandlesBelow(st.segs, next)
    requires o == Step(st, f, proj, c)
    ensures Consistent(o.state) && HandlesBelow(o.state.segs, next)
    ensures Grows(st.segs, o.state.segs) && st.historySize <= o.state.historySize
  {
    StepKeepsConsistent(st, f, proj, c);
    StepKeepsHandlesBelow(st, f, proj, c, next);
  }

  /** Drawing moves the counter past every handle it hands out, and the new
      handles differ from every handle already held. */
  lemma DrawKeepsHandlesBelow(segs: seq<Segment>, next: nat)
    requires HandlesBelow(segs, next)
    ensures HandlesBelow(Draw(segs, next), next + Undrawn(segs))
    ensures var d := Draw(segs, next);
      && |d| == |segs|
      && forall i, j :: 0 <= i < |segs| && 0 <= j < |segs| && segs[i].feature.None? && segs[j].feature.Some? ==>
           d[i].feature != segs[j].feature
  {
    DrawProperties(segs, next);
  }
}
