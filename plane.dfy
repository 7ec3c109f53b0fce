// One tracked aircraft (PlaneObject in planeObject.js): the telemetry merge,
// the per-tick lifecycle, and the in-place track update it drives. Render
// features are abstract: a marker-present flag and optional line handles.
// The global selection is a Selection object shared between planes.

module Plane {
  import opened Basics
  import opened Track

  /** One aircraft record of a receiver update; None marks an absent field. */
  datatype Telemetry = Telemetry(
    messages: Option<int>,
    rssi: Option<real>,
    seen: real,
    altBaro: Option<Altitude>,
    baroRate: Option<int>,
    gs: Option<real>,
    track: Option<real>,
    position: Option<Position>,
    seenPos: real,
    mlat: Option<seq<string>>,
    flight: Option<string>,
    squawk: Option<string>,
    category: Option<string>)

  /** Whether an mlat field list names a position component. */
  predicate NamesPosition(fields: seq<string>) {
    exists i :: 0 <= i < |fields| && (fields[i] == "lat" || fields[i] == "lon")
  }

  /** The scan of data.mlat for "lat" or "lon", stopping at the first hit. */
  method ScanMlat(fields: seq<string>) returns (found: bool)
    ensures found <==> NamesPosition(fields)
  {
    found := false;
    var i := 0;
    while i < |fields|
      invariant 0 <= i <= |fields|
      invariant forall j :: 0 <= j < i ==> fields[j] != "lat" && fields[j] != "lon"
    {
      if fields[i] == "lat" || fields[i] == "lon" {
        found := true;
        break;
      }
      i := i + 1;
    }
  }

  /** The process-wide SelectedPlane: the hex of the selected plane, if any. */
  class Selection {
    var hex: Option<string>

    constructor (hex: Option<string>)
      ensures this.hex == hex
    {
      this.hex := hex;
    }
  }

  class PlaneObject {
    const icao: string

    var flight: Option<string>
    var squawk: Option<string>
    var selected: bool
    var category: Option<string>

    var altitude: Altitude
    var vertRate: Option<int>
    var speed: Option<real>
    var track: Heading
    var prevPosition: Option<Position>
    var position: Option<Position>
    var positionFromMlat: bool

    var messages: Option<int>
    var rssi: Option<real>

    var segs: seq<Segment>
    var historySize: nat
    var headUpdate: real
    var tailUpdate: real
    var tailTrack: Heading

    var lastMessageTime: Option<real>
    var lastPositionTime: Option<real>
    var seen: Option<real>
    var seenPos: Option<real>

    var visible: bool
    var markerPresent: bool
    var nextFeature: nat

    /** The object invariant: history_size counts the retained points, no
        segment is empty, and every handle held is below the feature counter,
        so the handles the counter hands out next are new. */
    ghost predicate Valid()
      reads this`segs, this`historySize, this`headUpdate, this`tailUpdate, this`tailTrack, this`prevPosition,
        this`nextFeature
    {
      Consistent(TrackOf()) && HandlesBelow(segs, nextFeature)
    }

    /** The fields updateTrack owns. */
    function TrackOf(): TrackState
      reads this`segs, this`historySize, this`headUpdate, this`tailUpdate, this`tailTrack, this`prevPosition
    {
      TrackState(segs, historySize, headUpdate, tailUpdate, tailTrack, prevPosition)
    }

    /** The telemetry updateTrack reads (a null time reads as 0). */
    function FixOf(): Fix
      reads this`position, this`altitude, this`track, this`positionFromMlat, this`lastPositionTime
    {
      Fix(position, altitude, track, positionFromMlat, OrZero(lastPositionTime))
    }

    constructor (icao: string)
      ensures Valid()
      ensures this.icao == icao && TrackOf() == Initial
      ensures flight.None? && squawk.None? && !selected && category.None?
      ensures altitude == Unknown && vertRate.None? && speed.None? && track.None?
      ensures position.None? && !positionFromMlat && messages.None? && rssi.None?
      ensures lastMessageTime.None? && lastPositionTime.None? && seen.None? && seenPos.None?
      ensures visible && !markerPresent && nextFeature == 0
    {
      this.icao := icao;
      flight, squawk, selected, category := None, None, false, None;
      altitude, vertRate, speed, track := Unknown, None, None, None;
      prevPosition, position, positionFromMlat := None, None, false;
      messages, rssi := None, None;
      segs, historySize := [], 0;
      headUpdate, tailUpdate, tailTrack := 0.0, 0.0, None;
      lastMessageTime, lastPositionTime, seen, seenPos := None, None, None, None;
      visible, markerPresent, nextFeature := true, false, 0;
    }

    /** Extends the track with the current position; returns whether the
        caller should redraw the lines. */
    method UpdateTrack(proj: Position -> Point, receiverTimestamp: real, lastTimestamp: real) returns (moved: bool)
      requires Valid()
      modifies this`segs, this`historySize, this`headUpdate, this`tailUpdate, this`tailTrack, this`prevPosition
      ensures Valid()
      ensures Outcome(TrackOf(), moved) == Step(old(TrackOf()), old(FixOf()), proj, Clock(receiverTimestamp, lastTimestamp))
      ensures Grows(old(segs), segs) && old(historySize) <= historySize
    {
      ghost var st, f, c := TrackOf(), FixOf(), Clock(receiverTimestamp, lastTimestamp);
      var next;
      next, moved := Advance(TrackOf(), FixOf(), proj, Clock(receiverTimestamp, lastTimestamp));
      StepPreserves(st, f, proj, c, nextFeature, Outcome(next, moved));
      segs, historySize, headUpdate, tailUpdate, tailTrack, prevPosition :=
        next.segs, next.historySize, next.headUpdate, next.tailUpdate, next.tailTrack, next.prevPosition;
      assert TrackOf() == next;
    }

    /** Forgets every drawn line feature, last segment first; returns the
        handles handed back to the renderer for removal, in that order. */
    method ClearLines() returns (removed: seq<Handle>)
      requires Valid()
      modifies this`segs
      ensures Valid()
      ensures SamePoints(old(segs), segs) && forall i :: 0 <= i < |segs| ==> segs[i].feature.None?
      ensures removed == DrawnHandles(old(segs))
    {
      var cleared;
      cleared, removed := ClearFeatures(segs);
      FeaturesKeepConsistent(TrackOf(), cleared);
      segs := cleared;
    }

    /** Draws a feature for every segment that has none, when the plane is
        selected and has a track. */
    method UpdateLines()
      requires Valid()
      modifies this`segs, this`nextFeature
      ensures Valid()
      ensures if selected
        then segs == Draw(old(segs), old(nextFeature)) && nextFeature == old(nextFeature) + Undrawn(old(segs))
        else segs == old(segs) && nextFeature == old(nextFeature)
    {
      if !selected {
        return;
      }
      if |segs| == 0 {
        return;
      }
      var drawn, next := DrawFeatures(segs, nextFeature);
      DrawSamePoints(segs, nextFeature);
      DrawKeepsHandlesBelow(segs, nextFeature);
      FeaturesKeepConsistent(TrackOf(), drawn);
      segs, nextFeature := drawn, next;
    }

    method ClearMarker()
      modifies this`markerPresent
      ensures !markerPresent
    {
      markerPresent := false;
    }

    /** Shows the marker when the plane is visible and has a position. */
    method UpdateMarker()
      modifies this`markerPresent
      ensures markerPresent == (visible && position.Some?)
    {
      if !visible || position.None? {
        ClearMarker();
        return;
      }
      markerPresent := true;
    }

    /** Merges one telemetry record: messages, rssi and the message time
        always; every other field only when the record carries it. */
    method UpdateData(receiverTimestamp: real, data: Telemetry)
      modifies this`messages, this`rssi, this`lastMessageTime, this`altitude, this`vertRate, this`speed,
               this`track, this`position, this`lastPositionTime, this`positionFromMlat,
               this`flight, this`squawk, this`category
      ensures messages == data.messages && rssi == data.rssi
      ensures lastMessageTime == Some(receiverTimestamp - data.seen)
      ensures altitude == ValueOr(data.altBaro, old(altitude))
      ensures vertRate == Or(data.baroRate, old(vertRate))
      ensures speed == Or(data.gs, old(speed))
      ensures track == Or(data.track, old(track))
      ensures flight == Or(data.flight, old(flight))
      ensures squawk == Or(data.squawk, old(squawk))
      ensures category == Or(data.category, old(category))
      ensures data.position.Some? ==>
        && position == data.position
        && lastPositionTime == Some(receiverTimestamp - data.seenPos)
        && (positionFromMlat <==> data.mlat.Some? && NamesPosition(data.mlat.value))
      ensures data.position.None? ==>
        position == old(position) && lastPositionTime == old(lastPositionTime) && positionFromMlat == old(positionFromMlat)
    {
      messages, rssi, lastMessageTime := data.messages, data.rssi, Some(receiverTimestamp - data.seen);
      altitude, vertRate, speed, track := ValueOr(data.altBaro, altitude), Or(data.baroRate, vertRate), Or(data.gs, speed), Or(data.track, track);
      MergePosition(receiverTimestamp, data);
      flight, squawk, category := Or(data.flight, flight), Or(data.squawk, squawk), Or(data.category, category);
    }

    /** The position part of the merge: a record with a position replaces
        it, stamps its time and recomputes the MLAT flag from scratch. */
    method MergePosition(receiverTimestamp: real, data: Telemetry)
      modifies this`position, this`lastPositionTime, this`positionFromMlat
      ensures data.position.Some? ==>
        && position == data.position
        && lastPositionTime == Some(receiverTimestamp - data.seenPos)
        && (positionFromMlat <==> data.mlat.Some? && NamesPosition(data.mlat.value))
      ensures data.position.None? ==>
        position == old(position) && lastPositionTime == old(lastPositionTime) && positionFromMlat == old(positionFromMlat)
    {
      if data.position.Some? {
        position := data.position;
        lastPositionTime := Some(receiverTimestamp - data.seenPos);
        positionFromMlat := false;
        if data.mlat.Some? {
          positionFromMlat := ScanMlat(data.mlat.value);
        }
      }
    }

    /** Whether this tick extends the track: a position exists and the plane
        is selected or its position is under 60 s old (null reads as 0). */
    predicate Tracked()
      reads this`position, this`selected, this`seenPos
    {
      position.Some? && (selected || OrZero(seenPos) < 60.0)
    }

    /** The periodic tick: ages the plane, hides it after 58 s of silence
        (releasing the selection it held), and otherwise shows it and, when
        it has a usable position, extends its track. */
    method UpdateTick(proj: Position -> Point, receiverTimestamp: real, lastTimestamp: real, selection: Selection)
      requires Valid()
      modifies this`seen, this`seenPos, this`visible, this`markerPresent, this`nextFeature,
               this`segs, this`historySize, this`headUpdate, this`tailUpdate, this`tailTrack, this`prevPosition,
               selection`hex
      ensures Valid()
      ensures seen == Some(receiverTimestamp - OrZero(lastMessageTime))
      ensures seenPos == (if lastPositionTime.None? then None else Some(receiverTimestamp - lastPositionTime.value))
      ensures seen.value > 58.0 ==>
        && !visible
        && TrackOf() == old(TrackOf()) && nextFeature == old(nextFeature)
        && (old(visible) ==>
              !markerPresent && selection.hex == (if old(selection.hex) == Some(icao) then None else old(selection.hex)))
        && (!old(visible) ==> markerPresent == old(markerPresent) && selection.hex == old(selection.hex))
      ensures seen.value <= 58.0 ==> visible && selection.hex == old(selection.hex)
      ensures seen.value <= 58.0 && Tracked() ==>
        markerPresent &&
        (TrackOf(), nextFeature) == Follow(old(TrackOf()), old(nextFeature), old(FixOf()), proj, Clock(receiverTimestamp, lastTimestamp), selected)
      ensures seen.value <= 58.0 && !Tracked() ==>
        !markerPresent && TrackOf() == old(TrackOf()) && nextFeature == old(nextFeature)
    {
      Age(receiverTimestamp);
      if seen.value > 58.0 {
        Expire(selection);
      } else {
        Refresh(proj, receiverTimestamp, lastTimestamp);
      }
    }

    /** Recomputes seen and seen_pos; a null message time reads as 0 and a
        null position time leaves seen_pos null. */
    method Age(receiverTimestamp: real)
      modifies this`seen, this`seenPos
      ensures seen == Some(receiverTimestamp - OrZero(lastMessageTime))
      ensures seenPos == (if lastPositionTime.None? then None else Some(receiverTimestamp - lastPositionTime.value))
    {
      seen := Some(receiverTimestamp - OrZero(lastMessageTime));
      seenPos := if lastPositionTime.None? then None else Some(receiverTimestamp - lastPositionTime.value);
    }

    /** A plane silent for more than 58 s: hide it once, clearing its
        marker and dropping the selection if it held it. */
    method Expire(selection: Selection)
      modifies this`visible, this`markerPresent, selection`hex
      ensures !visible
      ensures old(visible) ==>
        !markerPresent && selection.hex == (if old(selection.hex) == Some(icao) then None else old(selection.hex))
      ensures !old(visible) ==> markerPresent == old(markerPresent) && selection.hex == old(selection.hex)
    {
      if visible {
        ClearMarker();
        visible := false;
        if selection.hex == Some(icao) {
          selection.hex := None;
        }
      }
    }

    /** A plane heard from recently: show it and, when tracked, extend its
        track, redraw its lines after a move, and place its marker. */
    method Refresh(proj: Position -> Point, receiverTimestamp: real, lastTimestamp: real)
      requires Valid()
      modifies this`visible, this`markerPresent, this`nextFeature,
               this`segs, this`historySize, this`headUpdate, this`tailUpdate, this`tailTrack, this`prevPosition
      ensures Valid() && visible
      ensures old(Tracked()) ==>
        markerPresent &&
        (TrackOf(), nextFeature) == Follow(old(TrackOf()), old(nextFeature), old(FixOf()), proj, Clock(receiverTimestamp, lastTimestamp), selected)
      ensures !old(Tracked()) ==> !markerPresent && TrackOf() == old(TrackOf()) && nextFeature == old(nextFeature)
    {
      ghost var before, first, f := TrackOf(), nextFeature, FixOf();
      visible := true;
      if position.Some? && (selected || OrZero(seenPos) < 60.0) {
        assert TrackOf() == before && FixOf() == f;
        FollowTrack(proj, receiverTimestamp, lastTimestamp);
      } else {
        ClearMarker();
      }
    }

    /** The tracked branch of the tick: extend the track, redraw the lines
        if it moved, and place the marker. */
    method FollowTrack(proj: Position -> Point, receiverTimestamp: real, lastTimestamp: real)
      requires Valid() && visible && position.Some?
      modifies this`markerPresent, this`nextFeature,
               this`segs, this`historySize, this`headUpdate, this`tailUpdate, this`tailTrack, this`prevPosition
      ensures Valid() && markerPresent
      ensures (TrackOf(), nextFeature) == Follow(old(TrackOf()), old(nextFeature), old(FixOf()), proj, Clock(receiverTimestamp, lastTimestamp), selected)
    {
      ghost var st, first, f, c := TrackOf(), nextFeature, FixOf(), Clock(receiverTimestamp, lastTimestamp);
      var moved := UpdateTrack(proj, receiverTimestamp, lastTimestamp);
      ghost var mid := TrackOf();
      assert Follow(st, first, f, proj, c, selected) == Redraw(Outcome(mid, moved), first, selected);
      RedrawAndMark(moved);
    }

    /** What follows a track update: the lines are redrawn when the plane
        moved, then the marker is placed. */
    method RedrawAndMark(moved: bool)
      requires Valid() && visible && position.Some?
      modifies this`markerPresent, this`nextFeature, this`segs
      ensures Valid() && markerPresent
      ensures (TrackOf(), nextFeature) == Redraw(Outcome(old(TrackOf()), moved), old(nextFeature), selected)
    {
      ghost var st := TrackOf();
      if moved {
        UpdateLines();
      }
      UpdateMarker();
      assert TrackOf() == st.(segs := segs);
    }

    /** Removes the plane's lines and marker. */
    method Destroy() returns (removed: seq<Handle>)
      requires Valid()
      modifies this`segs, this`markerPresent
      ensures Valid() && !markerPresent
      ensures SamePoints(old(segs), segs) && forall i :: 0 <= i < |segs| ==> segs[i].feature.None?
      ensures removed == DrawnHandles(old(segs))
    {
      removed := ClearLines();
      ClearMarker();
    }
  }
}
