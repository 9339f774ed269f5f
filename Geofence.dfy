/** Geofence shapes of backend/pkg/geofencing/geofence.go: validation of decoded
    geofence data, the inside-test dispatch and the two constructors. JSON
    decoding is a parameter (`decode`), and the geometric inside-tests (Haversine
    distance, ray casting) are parameters too. Coordinates and radii are reals. */
module Geofence {
  import opened Wrappers

  const Circle := "circle"
  const Polygon := "polygon"

  datatype Point = Point(lat: real, lng: real)
  datatype CircleData = CircleData(center: Point, radius: real)
  datatype PolygonData = PolygonData(points: seq<Point>)

  /** The decoded geofence: a type tag and the optional shape payloads. */
  datatype GeofenceData = GeofenceData(typ: string, circle: Option<CircleData>, polygon: Option<PolygonData>)

  datatype Geofence = Geofence(eventID: nat, name: string, data: GeofenceData)

  /** The shapes ParseGeofenceData accepts. */
  predicate WellFormed(d: GeofenceData) {
    || (d.typ == Circle && d.circle.Some? && d.circle.value.radius > 0.0)
    || (d.typ == Polygon && d.polygon.Some? && |d.polygon.value.points| >= 3)
  }

  /** The validation switch applied after decoding: None when the data is accepted. */
  function Validate(d: GeofenceData): (err: Option<string>)
    ensures err.None? <==> WellFormed(d)
    ensures d.typ != Circle && d.typ != Polygon ==> err == Some("invalid geofence type")
    ensures d.typ == Circle && d.circle.None? ==> err == Some("missing circle data for circle geofence")
    ensures d.typ == Circle && d.circle.Some? && d.circle.value.radius <= 0.0 ==> err == Some("invalid radius for circle geofence")
    ensures d.typ == Polygon && d.polygon.None? ==> err == Some("missing polygon data for polygon geofence")
    ensures d.typ == Polygon && d.polygon.Some? && |d.polygon.value.points| < 3 ==> err == Some("polygon geofence must have at least 3 points")
  {
    if d.typ == Circle then
      if d.circle.None? then Some("missing circle data for circle geofence")
      else if d.circle.value.radius <= 0.0 then Some("invalid radius for circle geofence")
      else None
    else if d.typ == Polygon then
      if d.polygon.None? then Some("missing polygon data for polygon geofence")
      else if |d.polygon.value.points| < 3 then Some("polygon geofence must have at least 3 points")
      else None
    else Some("invalid geofence type")
  }

  /** ParseGeofenceData: the empty string is refused before decoding, a decoding error is
      passed through, and decoded data must pass Validate. */
  function ParseGeofenceData(data: string, decode: string -> Result<GeofenceData>): (r: Result<GeofenceData>)
    ensures data == "" ==> r == Err("empty geofence data")
    ensures data != "" && decode(data).Err? ==> r == decode(data)
    ensures r.Ok? <==> data != "" && decode(data).Ok? && WellFormed(decode(data).value)
    ensures r.Ok? ==> r.value == decode(data).value
  {
    if data == "" then Err("empty geofence data")
    else match decode(data)
      case Err(e) => Err(e)
      case Ok(d) =>
        match Validate(d)
        case Some(e) => Err(e)
        case None => Ok(d)
  }

  /** IsPointInGeofence. The Go code dereferences the payload of the declared type,
      so a circle (polygon) tag without its payload is a caller error. */
  function IsPointInGeofence(point: Point, d: GeofenceData,
                             inCircle: (Point, CircleData) -> bool,
                             inPolygon: (Point, PolygonData) -> bool): (r: bool)
    requires d.typ == Circle ==> d.circle.Some?
    requires d.typ == Polygon ==> d.polygon.Some?
    ensures d.typ == Circle ==> r == inCircle(point, d.circle.value)
    ensures d.typ == Polygon ==> r == inPolygon(point, d.polygon.value)
    ensures d.typ != Circle && d.typ != Polygon ==> !r
  {
    if d.typ == Circle then inCircle(point, d.circle.value)
    else if d.typ == Polygon then inPolygon(point, d.polygon.value)
    else false
  }

  function CreateCircleGeofence(eventID: nat, name: string, center: Point, radius: real): (r: Result<Geofence>)
    ensures r.Err? <==> radius <= 0.0
    ensures r.Err? ==> r.error == "radius must be positive"
    ensures r.Ok? ==> (r.value.eventID == eventID && r.value.name == name
      && r.value.data.typ == Circle && r.value.data.circle == Some(CircleData(center, radius))
      && r.value.data.polygon.None?)
  {
    if radius <= 0.0 then Err("radius must be positive")
    else Ok(Geofence(eventID, name, GeofenceData(Circle, Some(CircleData(center, radius)), None)))
  }

  function CreatePolygonGeofence(eventID: nat, name: string, points: seq<Point>): (r: Result<Geofence>)
    ensures r.Err? <==> |points| < 3
    ensures r.Err? ==> r.error == "polygon must have at least 3 points"
    ensures r.Ok? ==> (r.value.eventID == eventID && r.value.name == name
      && r.value.data.typ == Polygon && r.value.data.polygon == Some(PolygonData(points))
      && r.value.data.circle.None?)
  {
    if |points| < 3 then Err("polygon must have at least 3 points")
    else Ok(Geofence(eventID, name, GeofenceData(Polygon, None, Some(PolygonData(points)))))
  }

  /** Whatever the constructors build passes the checks ParseGeofenceData applies, so a
      created geofence stored in any encoding the decoder reads back parses unchanged. */
  lemma CreatedCircleParses(eventID: nat, name: string, center: Point, radius: real,
                            stored: string, decode: string -> Result<GeofenceData>)
    requires CreateCircleGeofence(eventID, name, center, radius).Ok?
    requires stored != "" && decode(stored) == Ok(CreateCircleGeofence(eventID, name, center, radius).value.data)
    ensures Validate(CreateCircleGeofence(eventID, name, center, radius).value.data).None?
    ensures ParseGeofenceData(stored, decode) == Ok(CreateCircleGeofence(eventID, name, center, radius).value.data)
  {
  }

  lemma CreatedPolygonParses(eventID: nat, name: string, points: seq<Point>,
                             stored: string, decode: string -> Result<GeofenceData>)
    requires CreatePolygonGeofence(eventID, name, points).Ok?
    requires stored != "" && decode(stored) == Ok(CreatePolygonGeofence(eventID, name, points).value.data)
    ensures Validate(CreatePolygonGeofence(eventID, name, points).value.data).None?
    ensures ParseGeofenceData(stored, decode) == Ok(CreatePolygonGeofence(eventID, name, points).value.data)
  {
  }

  /** Data that parses can always be asked about points, and its answer is the inside-test of its shape. */
  lemma ParsedDataIsDispatchable(data: string, decode: string -> Result<GeofenceData>, point: Point,
                                 inCircle: (Point, CircleData) -> bool, inPolygon: (Point, PolygonData) -> bool)
    requires ParseGeofenceData(data, decode).Ok?
    ensures var d := ParseGeofenceData(data, decode).value;
      (d.typ == Circle ==> d.circle.Some?) && (d.typ == Polygon ==> d.polygon.Some?)
      && (IsPointInGeofence(point, d, inCircle, inPolygon) == if d.typ == Circle then inCircle(point, d.circle.value) else inPolygon(point, d.polygon.value))
  {
  }
}
