/**
  The two row shapes of the DJI GO 4 "waypoints 2.0" datastore that the
  converter fills, with the fixed values it writes into them. Fields appear
  in the column order of the INSERT statements.
 */
module Dji {
  import opened JsonValues

  // Per-waypoint defaults: a ground survey with a nadir camera at constant speed.
  const HeadingType: int := 0      // free heading
  const PoiIndex: int := -1        // no point of interest
  const Heading: int := 0          // look ahead
  const Action: int := 0           // no action at the waypoint
  const Pitch: real := -90.0       // camera straight down
  const Radius: real := 2.0
  const WaypointSpeed: real := 0.0 // fly at the mission's autoFlightSpeed

  // Mission defaults.
  const IsUseCustomDirection: int := 0
  const FirstLng: real := 0.0
  const FirstLat: real := 0.0
  const Local: string := ""
  const ExitMissionOnRcSignalLost: int := 0 // keep flying
  const FlightPathMode: int := 0
  const IsCache: int := 0
  const RotateGimbalPitch: int := 1
  const GotoFirstWaypointMode: int := 0
  const RepeatTimes: int := 1              // fly the mission once
  const MaxFlightSpeed: real := 8.3        // m/s
  const HeadingMode: int := 0
  const IsEnableMultiPoi: int := 0

  /** One row of the waypoint table. Altitude and coordinates are stored as the document holds them. */
  datatype WaypointRow = WaypointRow(
    headingType: int, altitude: Json, missionId: int, poiIndex: int, heading: int,
    latitude: Json, action: int, pitch: real, radius: real, speed: real,
    longitude: Json, myIndex: int)

  /** One row of the mission table (the column really is spelled `routDistance`). */
  datatype MissionRow = MissionRow(
    missionId: int, isUseCustomDirection: int, updateTime: int, finishedAction: int,
    firstLng: real, local: string, exitMissionOnRcSignalLost: int, flightPathMode: int,
    isCache: int, rotateGimbalPitch: int, gotoFirstWaypointMode: int, pointCount: int,
    repeatTimes: int, routDistance: real, firstLat: real, missionName: string,
    maxFlightSpeed: real, headingMode: int, autoFlightSpeed: Json, isEnableMultiPoi: int)

  /** The waypoint carries every per-waypoint default. */
  predicate HasWaypointDefaults(w: WaypointRow) {
    && w.headingType == 0
    && w.poiIndex == -1
    && w.heading == 0
    && w.action == 0
    && w.pitch == -90.0
    && w.radius == 2.0
    && w.speed == 0.0
  }

  /** The mission carries every mission default. */
  predicate HasMissionDefaults(m: MissionRow) {
    && m.isUseCustomDirection == 0
    && m.firstLng == 0.0
    && m.firstLat == 0.0
    && m.local == ""
    && m.exitMissionOnRcSignalLost == 0
    && m.flightPathMode == 0
    && m.isCache == 0
    && m.rotateGimbalPitch == 1
    && m.gotoFirstWaypointMode == 0
    && m.repeatTimes == 1
    && m.maxFlightSpeed == 8.3
    && m.headingMode == 0
    && m.isEnableMultiPoi == 0
  }

  /** The mission row and its waypoint rows belong together: count and foreign key agree. */
  predicate Linked(m: MissionRow, rows: seq<WaypointRow>) {
    && m.pointCount == |rows|
    && forall i :: 0 <= i < |rows| ==> rows[i].missionId == m.missionId
  }

  /** The mission row for a converted survey: the fixed defaults plus the derived fields. */
  function NewMission(missionId: int, updateTime: int, finishedAction: int, pointCount: int,
                      routDistance: real, missionName: string, autoFlightSpeed: Json): (m: MissionRow)
    ensures HasMissionDefaults(m)
  {
    MissionRow(missionId, IsUseCustomDirection, updateTime, finishedAction,
               FirstLng, Local, ExitMissionOnRcSignalLost, FlightPathMode,
               IsCache, RotateGimbalPitch, GotoFirstWaypointMode, pointCount,
               RepeatTimes, routDistance, FirstLat, missionName, MaxFlightSpeed,
               HeadingMode, autoFlightSpeed, IsEnableMultiPoi)
  }
}
