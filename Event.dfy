/** The event service of backend/internal/services/event/event.go: event creation
    with its geofence pre-check, the check-in guard sequence, check-out over the
    `attendances` rows, and the nearby-event filter with its pagination. The tables
    are fields of the service; times are nanoseconds; the clock, the JSON decoder,
    the inside-tests and the distance function are parameters, and a failing
    INSERT is an `Option<string>` error parameter. */
module Event {
  import opened Wrappers
  import Geofence

  datatype Event = Event(
    id: nat, name: string, description: string, location: string,
    geofenceData: string, startTime: int, endTime: int, brandID: nat)

  /** One row of `attendances` as this service writes it. */
  datatype Attendance = Attendance(
    id: nat, userID: nat, eventID: nat, checkInTime: int, checkOutTime: Option<int>,
    latitude: Option<real>, longitude: Option<real>)

  datatype CheckInRequest = CheckInRequest(userID: nat, eventID: nat, latitude: real, longitude: real)

  /** The error CheckIn returns before touching the table, or None when it may insert.
      The checks run in order: the event exists, the clock is inside [start, end],
      and, when the event has geofence data, that data parses and holds the point. */
  function CheckInError(ev: Option<Event>, req: CheckInRequest, now: int,
                        decode: string -> Result<Geofence.GeofenceData>,
                        inCircle: (Geofence.Point, Geofence.CircleData) -> bool,
                        inPolygon: (Geofence.Point, Geofence.PolygonData) -> bool): (err: Option<string>)
    ensures ev.None? ==> err == Some("event not found")
    ensures ev.Some? && now < ev.value.startTime ==> err == Some("event has not started yet")
    ensures ev.Some? && ev.value.startTime <= now && now > ev.value.endTime ==> err == Some("event has already ended")
    ensures err.None? ==> ev.Some? && ev.value.startTime <= now <= ev.value.endTime
    ensures err.None? && ev.value.geofenceData != "" ==>
      var parsed := Geofence.ParseGeofenceData(ev.value.geofenceData, decode);
      parsed.Ok? && Geofence.IsPointInGeofence(Geofence.Point(req.latitude, req.longitude), parsed.value, inCircle, inPolygon)
    ensures ev.Some? && ev.value.startTime <= now <= ev.value.endTime && ev.value.geofenceData == "" ==> err.None?
  {
    if ev.None? then Some("event not found")
    else if now < ev.value.startTime then Some("event has not started yet")
    else if now > ev.value.endTime then Some("event has already ended")
    else if ev.value.geofenceData != "" then
      match Geofence.ParseGeofenceData(ev.value.geofenceData, decode)
      case Err(e) => Some(e)
      case Ok(d) =>
        if !Geofence.IsPointInGeofence(Geofence.Point(req.latitude, req.longitude), d, inCircle, inPolygon)
        then Some("user is not within event geofence")
        else None
    else None
  }

  /** A row CheckOut updates: that user's, at that event, still open. */
  predicate IsOpen(a: Attendance, userID: nat, eventID: nat) {
    a.userID == userID && a.eventID == eventID && a.checkOutTime.None?
  }

  /** The UPDATE's effect on one row: close it, and fill the coordinates only where NULL. */
  function Close(a: Attendance, now: int, latitude: real, longitude: real): Attendance {
    a.(checkOutTime := Some(now),
       latitude := if a.latitude.Some? then a.latitude else Some(latitude),
       longitude := if a.longitude.Some? then a.longitude else Some(longitude))
  }

  function CountOpen(rows: seq<Attendance>, userID: nat, eventID: nat): nat {
    if rows == [] then 0
    else CountOpen(rows[..|rows| - 1], userID, eventID) + (if IsOpen(rows[|rows| - 1], userID, eventID) then 1 else 0)
  }

  /** An event the nearby search keeps: a circle geofence that parses and whose
      centre lies within its radius plus the search radius (kilometres). */
  predicate IsNearby(e: Event, latitude: real, longitude: real, radiusKm: real,
                     decode: string -> Result<Geofence.GeofenceData>,
                     distance: (real, real, real, real) -> real)
  {
    e.geofenceData != "" &&
    var parsed := Geofence.ParseGeofenceData(e.geofenceData, decode);
    parsed.Ok? && parsed.value.typ == Geofence.Circle &&
    var c := parsed.value.circle.value;
    distance(latitude, longitude, c.center.lat, c.center.lng) <= c.radius + radiusKm * 1000.0
  }

  function Nearby(events: seq<Event>, latitude: real, longitude: real, radiusKm: real,
                  decode: string -> Result<Geofence.GeofenceData>,
                  distance: (real, real, real, real) -> real): seq<Event>
  {
    if events == [] then []
    else
      var last := events[|events| - 1];
      Nearby(events[..|events| - 1], latitude, longitude, radiusKm, decode, distance)
        + (if IsNearby(last, latitude, longitude, radiusKm, decode, distance) then [last] else [])
  }

  /** Go's `int` on a 64-bit platform, which strconv.Atoi returns for `?limit=` and
      `?offset=`. */
  const MinInt64: int := -0x8000_0000_0000_0000
  const MaxInt64: int := 0x7FFF_FFFF_FFFF_FFFF
  type Int64 = x: int | MinInt64 <= x <= MaxInt64

  /** Go's `int` addition, which wraps around in two's complement. */
  function Add64(a: Int64, b: Int64): (r: Int64)
    ensures MinInt64 <= a + b <= MaxInt64 ==> r == a + b
    ensures a + b > MaxInt64 ==> r == a + b - 0x1_0000_0000_0000_0000 && r < 0
  {
    var x := a + b;
    if x > MaxInt64 then x - 0x1_0000_0000_0000_0000
    else if x < MinInt64 then x + 0x1_0000_0000_0000_0000
    else x
  }

  /** The runtime panic of a slice expression whose bounds are out of range. */
  const SlicePanic := "runtime error: slice bounds out of range"

  /** The limit/offset window: empty when the offset is at or past the end; otherwise
      `items[offset:end]` with `end = offset + limit` (wrapping) cut down to the length,
      which panics when the offset is negative or `end` falls below it. */
  function Page<T>(items: seq<T>, limit: Int64, offset: Int64): (r: Result<seq<T>>)
    ensures offset >= |items| ==> r == Ok([])
    ensures r.Err? <==> offset < |items| && (offset < 0 || Add64(offset, limit) < offset)
    ensures r.Err? ==> r.error == SlicePanic
    ensures r.Ok? && offset < |items| ==>
      |r.value| == (if Add64(offset, limit) > |items| then |items| else Add64(offset, limit)) - offset
    ensures r.Ok? ==> forall k :: 0 <= k < |r.value| ==> 0 <= offset + k < |items| && r.value[k] == items[offset + k]
  {
    if offset >= |items| then Ok([])
    else
      var end := if Add64(offset, limit) > |items| then |items| else Add64(offset, limit);
      if offset < 0 || end < offset then Err(SlicePanic) else Ok(items[offset..end])
  }

  class EventService {
    var events: map<nat, Event>
    var nextEventID: nat
    var attendances: seq<Attendance>
    var nextAttendanceID: nat

    constructor ()
      ensures events == map[] && attendances == []
    {
      events := map[];
      nextEventID := 1;
      attendances := [];
      nextAttendanceID := 1;
    }

    /** GetByID: a query or scan failure other than no rows (`queryError`) is returned as
        it is; otherwise the stored event, or "event not found". */
    function GetByID(id: nat, queryError: Option<string>): (r: Result<Event>)
      reads this
      ensures queryError.Some? ==> r == Err(queryError.value)
      ensures queryError.None? ==> (r.Ok? <==> id in events)
      ensures queryError.None? && r.Ok? ==> r.value == events[id]
      ensures queryError.None? && r.Err? ==> r.error == "event not found"
    {
      if queryError.Some? then Err(queryError.value)
      else if id in events then Ok(events[id]) else Err("event not found")
    }

    /** Create: non-empty geofence data must parse before anything is inserted. */
    method Create(name: string, description: string, location: string, geofenceData: string,
                  startTime: int, endTime: int, brandID: nat,
                  decode: string -> Result<Geofence.GeofenceData>, insertError: Option<string>)
      returns (r: Result<Event>)
      modifies this
      ensures geofenceData != "" && Geofence.ParseGeofenceData(geofenceData, decode).Err? ==>
        r == Err(Geofence.ParseGeofenceData(geofenceData, decode).error)
      ensures r.Err? ==> events == old(events) && nextEventID == old(nextEventID)
      ensures r.Ok? <==> (geofenceData == "" || Geofence.ParseGeofenceData(geofenceData, decode).Ok?) && insertError.None?
      ensures r.Ok? ==> (r.value == Event(old(nextEventID), name, description, location, geofenceData, startTime, endTime, brandID)
        && events == old(events)[old(nextEventID) := r.value] && nextEventID == old(nextEventID) + 1)
      ensures attendances == old(attendances)
    {
      if geofenceData != "" {
        var parsed := Geofence.ParseGeofenceData(geofenceData, decode);
        if parsed.Err? {
          return Err(parsed.error);
        }
      }
      if insertError.Some? {
        return Err(insertError.value);
      }
      var e := Event(nextEventID, name, description, location, geofenceData, startTime, endTime, brandID);
      events := events[nextEventID := e];
      nextEventID := nextEventID + 1;
      return Ok(e);
    }

    /** CheckIn at `now`: GetByID's failure (`lookupError`) passed on, then the guards of
        CheckInError, then one new open row; the response echoes the request's coordinates. */
    method CheckIn(req: CheckInRequest, now: int, lookupError: Option<string>,
                   decode: string -> Result<Geofence.GeofenceData>,
                   inCircle: (Geofence.Point, Geofence.CircleData) -> bool,
                   inPolygon: (Geofence.Point, Geofence.PolygonData) -> bool,
                   insertError: Option<string>) returns (r: Result<Attendance>)
      modifies this
      ensures lookupError.Some? ==> r == Err(lookupError.value)
      ensures var guard := CheckInError(if req.eventID in old(events) then Some(old(events)[req.eventID]) else None,
                                        req, now, decode, inCircle, inPolygon);
        && (lookupError.None? && guard.Some? ==> r == Err(guard.value))
        && (lookupError.None? && guard.None? && insertError.Some? ==> r == Err(insertError.value))
        && (r.Ok? <==> lookupError.None? && guard.None? && insertError.None?)
      ensures r.Err? ==> attendances == old(attendances) && nextAttendanceID == old(nextAttendanceID)
      ensures r.Ok? ==> (r.value == Attendance(old(nextAttendanceID), req.userID, req.eventID, now, None,
                                               Some(req.latitude), Some(req.longitude))
        && attendances == old(attendances) + [r.value] && nextAttendanceID == old(nextAttendanceID) + 1)
      ensures events == old(events)
    {
      var found := GetByID(req.eventID, lookupError);
      if found.Err? {
        return Err(found.error);
      }
      var ev := found.value;
      if now < ev.startTime {
        return Err("event has not started yet");
      }
      if now > ev.endTime {
        return Err("event has already ended");
      }
      if ev.geofenceData != "" {
        var parsed := Geofence.ParseGeofenceData(ev.geofenceData, decode);
        if parsed.Err? {
          return Err(parsed.error);
        }
        var point := Geofence.Point(req.latitude, req.longitude);
        if !Geofence.IsPointInGeofence(point, parsed.value, inCircle, inPolygon) {
          return Err("user is not within event geofence");
        }
      }
      if insertError.Some? {
        return Err(insertError.value);
      }
      var row := Attendance(nextAttendanceID, req.userID, req.eventID, now, None, Some(req.latitude), Some(req.longitude));
      attendances := attendances + [row];
      nextAttendanceID := nextAttendanceID + 1;
      return Ok(row);
    }

    /** CheckOut at `now`: every open row of the pair is closed, all other rows are
        kept as they were, and no open row at all is an error. */
    method CheckOut(userID: nat, eventID: nat, latitude: real, longitude: real, now: int, execError: Option<string>)
      returns (err: Option<string>)
      modifies this
      ensures execError.Some? ==> err == execError && attendances == old(attendances)
      ensures execError.None? ==> (err.None? <==> CountOpen(old(attendances), userID, eventID) > 0)
      ensures execError.None? && err.Some? ==> err == Some("no active check-in found")
      ensures execError.None? ==> (|attendances| == |old(attendances)|
        && forall k :: 0 <= k < |attendances| ==>
             attendances[k] == if IsOpen(old(attendances)[k], userID, eventID)
                               then Close(old(attendances)[k], now, latitude, longitude)
                               else old(attendances)[k])
      ensures events == old(events) && nextAttendanceID == old(nextAttendanceID)
    {
      if execError.Some? {
        return execError;
      }
      var rows := attendances;
      var updated: seq<Attendance> := [];
      var affected := 0;
      var i := 0;
      while i < |rows|
        invariant 0 <= i <= |rows| && |updated| == i
        invariant forall k :: 0 <= k < i ==>
          updated[k] == if IsOpen(rows[k], userID, eventID) then Close(rows[k], now, latitude, longitude) else rows[k]
        invariant affected == CountOpen(rows[..i], userID, eventID)
      {
        assert rows[..i + 1][..i] == rows[..i];
        var row := rows[i];
        if row.userID == userID && row.eventID == eventID && row.checkOutTime.None? {
          updated := updated + [Close(row, now, latitude, longitude)];
          affected := affected + 1;
        } else {
          updated := updated + [row];
        }
        i := i + 1;
      }
      assert rows[..i] == rows;
      attendances := updated;
      if affected == 0 {
        return Some("no active check-in found");
      }
      return None;
    }

    /** The filter loop of GetNearbyEvents over the listed events. */
    method NearbyEvents(listed: seq<Event>, latitude: real, longitude: real, radiusKm: real,
                        decode: string -> Result<Geofence.GeofenceData>,
                        distance: (real, real, real, real) -> real) returns (nearby: seq<Event>)
      ensures nearby == Nearby(listed, latitude, longitude, radiusKm, decode, distance)
    {
      nearby := [];
      var i := 0;
      while i < |listed|
        invariant 0 <= i <= |listed|
        invariant nearby == Nearby(listed[..i], latitude, longitude, radiusKm, decode, distance)
      {
        assert listed[..i + 1][..i] == listed[..i];
        var e := listed[i];
        if e.geofenceData != "" {
          var parsed := Geofence.ParseGeofenceData(e.geofenceData, decode);
          if parsed.Ok? && parsed.value.typ == Geofence.Circle {
            var c := parsed.value.circle.value;
            if distance(latitude, longitude, c.center.lat, c.center.lng) <= c.radius + radiusKm * 1000.0 {
              nearby := nearby + [e];
            }
          }
        }
        i := i + 1;
      }
      assert listed[..i] == listed;
    }

    /** GetNearbyEvents over the result of `List(100, 0)` (passed in, or its error). */
    method GetNearbyEvents(listed: Result<seq<Event>>, latitude: real, longitude: real, radiusKm: real,
                           limit: Int64, offset: Int64,
                           decode: string -> Result<Geofence.GeofenceData>,
                           distance: (real, real, real, real) -> real) returns (r: Result<seq<Event>>)
      ensures listed.Err? ==> r == Err(listed.error)
      ensures listed.Ok? ==> r == Page(Nearby(listed.value, latitude, longitude, radiusKm, decode, distance), limit, offset)
    {
      if listed.Err? {
        return Err(listed.error);
      }
      var nearby := NearbyEvents(listed.value, latitude, longitude, radiusKm, decode, distance);
      if offset >= |nearby| {
        return Ok([]);
      }
      var end := Add64(offset, limit);
      if end > |nearby| {
        end := |nearby|;
      }
      if offset < 0 || end < offset {
        return Err(SlicePanic);
      }
      return Ok(nearby[offset..end]);
    }
  }

  // ---------------------------------------------------------------------------
  // Properties

  /** A check-in outside the geofence is refused with its own message. */
  lemma OutsideGeofenceRefused(ev: Event, req: CheckInRequest, now: int,
                               decode: string -> Result<Geofence.GeofenceData>,
                               inCircle: (Geofence.Point, Geofence.CircleData) -> bool,
                               inPolygon: (Geofence.Point, Geofence.PolygonData) -> bool)
    requires ev.startTime <= now <= ev.endTime && ev.geofenceData != ""
    requires Geofence.ParseGeofenceData(ev.geofenceData, decode).Ok?
    requires !Geofence.IsPointInGeofence(Geofence.Point(req.latitude, req.longitude),
                                         Geofence.ParseGeofenceData(ev.geofenceData, decode).value, inCircle, inPolygon)
    ensures CheckInError(Some(ev), req, now, decode, inCircle, inPolygon) == Some("user is not within event geofence")
  {
  }

  /** The nearby search returns events of the listing, in listing order, each with a circle geofence. */
  lemma {:induction false} NearbyIsSubsequence(events: seq<Event>, latitude: real, longitude: real, radiusKm: real,
                                               decode: string -> Result<Geofence.GeofenceData>,
                                               distance: (real, real, real, real) -> real, e: Event)
    ensures e in Nearby(events, latitude, longitude, radiusKm, decode, distance)
        <==> e in events && IsNearby(e, latitude, longitude, radiusKm, decode, distance)
    ensures |Nearby(events, latitude, longitude, radiusKm, decode, distance)| <= |events|
  {
    if events != [] {
      NearbyIsSubsequence(events[..|events| - 1], latitude, longitude, radiusKm, decode, distance, e);
      assert events == events[..|events| - 1] + [events[|events| - 1]];
    }
  }

  /** Consecutive pages of size `limit` tile the results: the page at `offset` followed by
      the page at `offset + limit` is the double-size page at `offset`. */
  lemma PagesTile<T>(items: seq<T>, limit: Int64, offset: Int64)
    requires 0 <= limit && 0 <= offset && offset + 2 * limit <= MaxInt64
    ensures Page(items, limit, offset).Ok? && Page(items, limit, offset + limit).Ok?
    ensures Page(items, limit, offset).value + Page(items, limit, offset + limit).value == Page(items, 2 * limit, offset).value
  {
    var a := Page(items, limit, offset).value;
    var b := Page(items, limit, offset + limit).value;
    var c := Page(items, 2 * limit, offset).value;
    assert |a + b| == |c|;
    forall k | 0 <= k < |c| ensures (a + b)[k] == c[k] {
      if k >= |a| {
        assert b[k - |a|] == items[offset + limit + (k - |a|)];
      }
    }
  }

  /** The windows the handler passes on that panic: a negative offset, a negative
      limit, and a limit whose sum with the offset wraps around; a non-negative window
      that does not wrap never does. */
  lemma PagePanics<T>(items: seq<T>, limit: Int64, offset: Int64)
    requires |items| >= 2
    ensures Page(items, 10, -1).Err? && Page(items, -5, 0).Err? && Page(items, MaxInt64, 1).Err?
    ensures 0 <= limit && 0 <= offset && offset + limit <= MaxInt64 ==> Page(items, limit, offset).Ok?
  {
  }

  /** A closed row stays closed: closing keeps the pair and records the check-out instant. */
  lemma CloseClosesRow(a: Attendance, userID: nat, eventID: nat, now: int, latitude: real, longitude: real)
    requires IsOpen(a, userID, eventID)
    ensures !IsOpen(Close(a, now, latitude, longitude), userID, eventID)
    ensures Close(a, now, latitude, longitude).checkInTime == a.checkInTime
    ensures a.latitude.Some? ==> Close(a, now, latitude, longitude).latitude == a.latitude
  {
  }
}
