/**
  The conversion core of qgc2dji: from the items of a QGroundControl
  survey plan to one DJI GO 4 mission row and one waypoint row per
  transect point. Command-line arguments, the clock, the existing mission
  ids, the random draws and the distance function come in as parameters.
 */
module Qgc2Dji {
  import opened Wrappers
  import opened JsonValues
  import opened Search
  import opened Geo
  import opened Dji

  datatype Error =
    | MissingMissionData  // no survey item, or its value is falsy
    | MalformedDocument   // a lookup the script does would raise (KeyError, IndexError, TypeError)
    | IdsExhausted        // every supplied random draw collided with an existing id

  /** The optional command-line arguments that the core reads. */
  datatype Args = Args(altitude: Option<real>, finishAction: int, name: Option<string>, speed: Option<real>)

  /** A transect point's latitude and longitude, as the document holds them. */
  datatype Coord = Coord(latitude: Json, longitude: Json)

  datatype Route = Route(rows: seq<WaypointRow>, distance: real)

  datatype Conversion = Conversion(mission: MissionRow, waypoints: seq<WaypointRow>)

  /** What the scan for a speed-change command found. */
  datatype SpeedLookup = NoSpeedCommand | SpeedParam(value: Json) | BadSpeedCommand

  const SurveyKey: string := "TransectStyleComplexItem"
  const SpeedCommand: real := 178.0
  const DefaultSpeed: real := 3.5
  const NamePrefix: string := "qgc2dji-survey_"

  /** `randrange(10000, 99999)` excludes its upper bound. */
  const MinMissionId: int := 10000
  const MaxMissionId: int := 99999
  type Draw = x: int | MinMissionId <= x < MaxMissionId witness MinMissionId

  // ---------------------------------------------------------------- survey item

  predicate HasSurvey(item: JsonObject) {
    SurveyKey in item
  }

  /** `main_data`: the survey value of the first item that has one, or None (null). */
  function SurveyData(items: seq<JsonObject>): (main: Json)
    ensures (forall i :: 0 <= i < |items| ==> SurveyKey !in items[i]) ==> main == JNull
    ensures forall k :: 0 <= k < |items| ==>
              (SurveyKey in items[k] && (forall j :: 0 <= j < k ==> SurveyKey !in items[j])) ==>
              main == items[k][SurveyKey]
  {
    match First(items, HasSurvey)
    case None => JNull
    case Some(k) => items[k][SurveyKey]
  }

  method FindSurveyData(items: seq<JsonObject>) returns (mainData: Json)
    ensures mainData == SurveyData(items)
  {
    mainData := JNull;
    var i := 0;
    while i < |items|
      invariant 0 <= i <= |items|
      invariant forall j :: 0 <= j < i ==> !HasSurvey(items[j])
    {
      if SurveyKey in items[i] {
        mainData := items[i][SurveyKey];
        break;
      }
      i := i + 1;
    }
  }

  // ---------------------------------------------------------------- altitude

  /** `main_data["CameraCalc"]["DistanceToSurface"]`. */
  function CameraDistance(mainData: Json): Option<Json> {
    match Member(mainData, "CameraCalc")
    case None => None
    case Some(cameraCalc) => Member(cameraCalc, "DistanceToSurface")
  }

  /** The explicit altitude unless it is missing or zero, else the camera's distance to surface. */
  function ResolveAltitude(explicit: Option<real>, mainData: Json): (r: Option<Json>)
    ensures explicit.Some? && explicit.value != 0.0 ==> r == Some(JNum(explicit.value))
    ensures explicit == None || explicit == Some(0.0) ==>
              r == (if mainData.JObj? && "CameraCalc" in mainData.members
                       && mainData.members["CameraCalc"].JObj?
                       && "DistanceToSurface" in mainData.members["CameraCalc"].members
                    then Some(mainData.members["CameraCalc"].members["DistanceToSurface"])
                    else None)
  {
    var given := FromFloatArg(explicit);
    if Truthy(given) then Some(given) else CameraDistance(mainData)
  }

  // ---------------------------------------------------------------- cruise speed

  predicate IsSpeedCommand(item: JsonObject) {
    "command" in item && item["command"] == JNum(SpeedCommand)
  }

  /** `item['params'][1]`, or the failure its lookup raises. */
  function ParamsSpeed(item: JsonObject): SpeedLookup {
    match Member(JObj(item), "params")
    case None => BadSpeedCommand
    case Some(params) =>
      match Index(params, 1)
      case None => BadSpeedCommand
      case Some(v) => SpeedParam(v)
  }

  /** The speed parameter of the first speed-change command (code 178), if any. */
  function SpeedCommandLookup(items: seq<JsonObject>): (r: SpeedLookup)
    ensures r == NoSpeedCommand <==> forall i :: 0 <= i < |items| ==> !IsSpeedCommand(items[i])
    ensures forall k :: 0 <= k < |items| ==>
              (IsSpeedCommand(items[k]) && (forall j :: 0 <= j < k ==> !IsSpeedCommand(items[j]))) ==>
              r == ParamsSpeed(items[k])
  {
    match First(items, IsSpeedCommand)
    case None => NoSpeedCommand
    case Some(k) => ParamsSpeed(items[k])
  }

  method FindSpeedCommand(items: seq<JsonObject>) returns (found: SpeedLookup)
    ensures found == SpeedCommandLookup(items)
  {
    found := NoSpeedCommand;
    var i := 0;
    while i < |items|
      invariant 0 <= i <= |items|
      invariant forall j :: 0 <= j < i ==> !IsSpeedCommand(items[j])
    {
      if "command" in items[i] && items[i]["command"] == JNum(SpeedCommand) {
        found := ParamsSpeed(items[i]);
        break;
      }
      i := i + 1;
    }
  }

  /**
    The cruise speed: the explicit value if truthy; else the speed-change
    command's parameter if there is one and it is truthy; else 3.5. The
    lookup is only consulted when the explicit value is falsy.
   */
  function ResolveSpeed(explicit: Option<real>, lookup: SpeedLookup): (r: Option<Json>)
    ensures r.Some? ==> Truthy(r.value)
    ensures explicit.Some? && explicit.value != 0.0 ==> r == Some(JNum(explicit.value))
    ensures (explicit == None || explicit == Some(0.0)) && lookup.BadSpeedCommand? ==> r == None
    ensures (explicit == None || explicit == Some(0.0)) && lookup.SpeedParam? && Truthy(lookup.value) ==>
              r == Some(lookup.value)
    ensures (explicit == None || explicit == Some(0.0)) &&
            (lookup.NoSpeedCommand? || (lookup.SpeedParam? && !Truthy(lookup.value))) ==>
              r == Some(JNum(3.5))
  {
    var speed := FromFloatArg(explicit);
    if Truthy(speed) then Some(speed)
    else
      match lookup
      case BadSpeedCommand => None
      case NoSpeedCommand => Some(JNum(DefaultSpeed))
      case SpeedParam(v) => if Truthy(v) then Some(v) else Some(JNum(DefaultSpeed))
  }

  // ---------------------------------------------------------------- mission name

  /** The explicit name unless it is missing or empty, else the prefix and the local time string. */
  function ResolveName(explicit: Option<string>, timeStr: string): (r: string)
    ensures r != ""
    ensures explicit.Some? && explicit.value != "" ==> r == explicit.value
    ensures explicit == None || explicit == Some("") ==> r == "qgc2dji-survey_" + timeStr
  {
    if explicit.Some? && explicit.value != "" then explicit.value else NamePrefix + timeStr
  }

  // ---------------------------------------------------------------- mission id

  /**
    Takes draws until one is not an existing id. `draws` stands for the
    successive results of `randrange(10000, 99999)`; running out of them is
    reported as IdsExhausted.
   */
  method GenerateMissionId(existingIds: set<int>, draws: seq<Draw>) returns (r: Result<int, Error>)
    ensures r.Ok? <==> exists k :: 0 <= k < |draws| && draws[k] !in existingIds
    ensures r.Ok? ==> r.value !in existingIds && MinMissionId <= r.value < MaxMissionId
    ensures r.Ok? ==> exists k :: 0 <= k < |draws| && draws[k] == r.value &&
                                  forall j :: 0 <= j < k ==> draws[j] in existingIds
    ensures r.Err? ==> r.error == IdsExhausted
  {
    if |draws| == 0 {
      return Err(IdsExhausted);
    }
    var attempt := 0;
    var missionId: int := draws[0];
    while missionId in existingIds
      invariant 0 <= attempt < |draws|
      invariant missionId == draws[attempt]
      invariant forall j :: 0 <= j < attempt ==> draws[j] in existingIds
      decreases |draws| - attempt
    {
      attempt := attempt + 1;
      if attempt == |draws| {
        return Err(IdsExhausted);
      }
      missionId := draws[attempt];
    }
    return Ok(missionId);
  }

  // ---------------------------------------------------------------- waypoints

  /** `waypoint[0]`, `waypoint[1]`. */
  function PointCoord(waypoint: Json): Option<Coord> {
    match (Index(waypoint, 0), Index(waypoint, 1))
    case (Some(lat), Some(lon)) => Some(Coord(lat, lon))
    case _ => None
  }

  function AsPosition(c: Coord): Option<Position> {
    match (AsNumber(c.latitude), AsNumber(c.longitude))
    case (Some(lat), Some(lon)) => Some(Position(lat, lon))
    case _ => None
  }

  /** `haversine(c1, c2)`: defined when all four coordinates are numbers. */
  function Haversine(c1: Coord, c2: Coord, dist: Metric): Option<real> {
    match (AsPosition(c1), AsPosition(c2))
    case (Some(p1), Some(p2)) => Some(dist(p1, p2))
    case _ => None
  }

  predicate Measurable(waypoint: Json) {
    PointCoord(waypoint).Some? && AsPosition(PointCoord(waypoint).value).Some?
  }

  /**
    The loop over the points completes: every point has two entries, and,
    when there is a leg to measure, all of them are numbers.
   */
  predicate Convertible(points: seq<Json>) {
    && (forall i :: 0 <= i < |points| ==> PointCoord(points[i]).Some?)
    && (|points| >= 2 ==> forall i :: 0 <= i < |points| ==> Measurable(points[i]))
  }

  /** The positions of the points, in order. */
  function Track(points: seq<Json>): (ps: seq<Position>)
    requires forall i :: 0 <= i < |points| ==> Measurable(points[i])
  {
    seq(|points|, i requires 0 <= i < |points| && Measurable(points[i]) =>
                    AsPosition(PointCoord(points[i]).value).value)
  }

  /** Row `index` is made from point `c`, the shared altitude and mission id, and the defaults. */
  predicate RowFor(row: WaypointRow, index: int, c: Coord, altitude: Json, missionId: int) {
    && row.myIndex == index
    && row.latitude == c.latitude
    && row.longitude == c.longitude
    && row.altitude == altitude
    && row.missionId == missionId
    && HasWaypointDefaults(row)
  }

  /** One more point extends the track of the prefix by that point's position. */
  lemma TrackStep(points: seq<Json>, n: nat)
    requires 2 <= n <= |points|
    requires forall i :: 0 <= i < n ==> Measurable(points[i])
    ensures Track(points[..n])[..n - 1] == Track(points[..n - 1])
    ensures Track(points[..n])[n - 2] == AsPosition(PointCoord(points[n - 2]).value).value
    ensures Track(points[..n])[n - 1] == AsPosition(PointCoord(points[n - 1]).value).value
  {
  }

  /**
    Builds the waypoint rows and accumulates the route length, one point
    at a time, as the script's main loop does.
   */
  method BuildWaypoints(points: seq<Json>, altitude: Json, missionId: int, dist: Metric)
    returns (r: Result<Route, Error>)
    ensures r.Ok? <==> Convertible(points)
    ensures r.Err? ==> r.error == MalformedDocument
    ensures r.Ok? ==> |r.value.rows| == |points|
    ensures r.Ok? ==> forall i :: 0 <= i < |points| ==>
                        RowFor(r.value.rows[i], i, PointCoord(points[i]).value, altitude, missionId)
    ensures r.Ok? && |points| < 2 ==> r.value.distance == 0.0
    ensures r.Ok? && |points| >= 2 ==> r.value.distance == PathLength(Track(points), dist)
  {
    var queue: seq<WaypointRow> := [];
    var lastCoord := Coord(JNull, JNull);  // the script's `()`: replaced before it is read
    var accumDistance := 0.0;
    var count := 0;
    while count < |points|
      invariant 0 <= count <= |points|
      invariant |queue| == count
      invariant forall j :: 0 <= j < count ==> PointCoord(points[j]).Some?
      invariant forall j :: 0 <= j < count ==>
                  RowFor(queue[j], j, PointCoord(points[j]).value, altitude, missionId)
      invariant count >= 1 ==> lastCoord == PointCoord(points[count - 1]).value
      invariant count >= 2 ==> forall j :: 0 <= j < count ==> Measurable(points[j])
      invariant count < 2 ==> accumDistance == 0.0
      invariant count >= 2 ==> accumDistance == PathLength(Track(points[..count]), dist)
    {
      var waypoint := points[count];
      var latitude := Index(waypoint, 0);
      var longitude := Index(waypoint, 1);
      if latitude.None? || longitude.None? {
        return Err(MalformedDocument);
      }
      var waypointId := count;
      count := count + 1;
      queue := queue + [WaypointRow(HeadingType, altitude, missionId, PoiIndex, Heading, latitude.value,
                                    Action, Pitch, Radius, WaypointSpeed, longitude.value, waypointId)];
      if count > 1 {
        var currCoord := Coord(latitude.value, longitude.value);
        var leg := Haversine(lastCoord, currCoord, dist);
        if leg.None? {
          return Err(MalformedDocument);
        }
        TrackStep(points, count);
        accumDistance := accumDistance + leg.value;
        lastCoord := currCoord;
      } else {
        lastCoord := Coord(latitude.value, longitude.value);
      }
    }
    assert points[..count] == points;
    return Ok(Route(queue, accumDistance));
  }

  // ---------------------------------------------------------------- whole conversion

  /** `main_data['VisualTransectPoints']`, when it is a list. */
  function TransectPoints(mainData: Json): Option<seq<Json>> {
    match Member(mainData, "VisualTransectPoints")
    case Some(JArr(points)) => Some(points)
    case _ => None
  }

  /**
    The conversion, in the order the script performs it: select the survey
    data, resolve altitude, speed and name, draw a fresh mission id, build
    the waypoint rows with the route length, and assemble the mission row.
   */
  method Convert(items: seq<JsonObject>, args: Args, timeStr: string, updateTime: int,
                 existingIds: set<int>, draws: seq<Draw>, dist: Metric)
    returns (r: Result<Conversion, Error>)
    ensures r == Err(MissingMissionData) <==> !Truthy(SurveyData(items))
    ensures r.Ok? <==>
      && Truthy(SurveyData(items))
      && ResolveAltitude(args.altitude, SurveyData(items)).Some?
      && ResolveSpeed(args.speed, SpeedCommandLookup(items)).Some?
      && (exists k :: 0 <= k < |draws| && draws[k] !in existingIds)
      && TransectPoints(SurveyData(items)).Some?
      && Convertible(TransectPoints(SurveyData(items)).value)
    ensures r == Err(IdsExhausted) ==> forall k :: 0 <= k < |draws| ==> draws[k] in existingIds
    ensures r.Ok? ==> exists k :: 0 <= k < |draws| && draws[k] == r.value.mission.missionId &&
                                  forall j :: 0 <= j < k ==> draws[j] in existingIds
    ensures r.Ok? && (forall p, q :: dist(p, q) >= 0.0) ==> r.value.mission.routDistance >= 0.0
    ensures r.Ok? ==>
      var m := r.value.mission;
      && Linked(m, r.value.waypoints)
      && HasMissionDefaults(m)
      && m.missionId !in existingIds && MinMissionId <= m.missionId < MaxMissionId
      && m.updateTime == updateTime
      && m.finishedAction == args.finishAction
      && m.missionName == ResolveName(args.name, timeStr)
      && ResolveSpeed(args.speed, SpeedCommandLookup(items)) == Some(m.autoFlightSpeed)
    ensures r.Ok? ==>
      var rows := r.value.waypoints;
      && ResolveAltitude(args.altitude, SurveyData(items)).Some?
      && TransectPoints(SurveyData(items)).Some?
      && var points := TransectPoints(SurveyData(items)).value;
      && var altitude := ResolveAltitude(args.altitude, SurveyData(items)).value;
      && Convertible(points)
      && |rows| == |points|
      && (forall i :: 0 <= i < |rows| ==>
            RowFor(rows[i], i, PointCoord(points[i]).value, altitude, r.value.mission.missionId))
      && (|points| < 2 ==> r.value.mission.routDistance == 0.0)
      && (|points| >= 2 ==> r.value.mission.routDistance == PathLength(Track(points), dist))
  {
    var mainData := FindSurveyData(items);
    if !Truthy(mainData) {
      return Err(MissingMissionData);
    }

    var altitude := ResolveAltitude(args.altitude, mainData);
    if altitude.None? {
      return Err(MalformedDocument);
    }

    var lookup := NoSpeedCommand;
    if !Truthy(FromFloatArg(args.speed)) {
      lookup := FindSpeedCommand(items);
    }
    var flightSpeed := ResolveSpeed(args.speed, lookup);
    if flightSpeed.None? {
      return Err(MalformedDocument);
    }

    var missionName := ResolveName(args.name, timeStr);

    var missionId :- GenerateMissionId(existingIds, draws);

    var points := TransectPoints(mainData);
    if points.None? {
      return Err(MalformedDocument);
    }
    var route :- BuildWaypoints(points.value, altitude.value, missionId, dist);

    if |points.value| >= 2 && forall p, q :: dist(p, q) >= 0.0 {
      PathLengthNonNegative(Track(points.value), dist);
    }
    var mission := NewMission(missionId, updateTime, args.finishAction, |points.value|,
                              route.distance, missionName, flightSpeed.value);
    return Ok(Conversion(mission, route.rows));
  }
}
