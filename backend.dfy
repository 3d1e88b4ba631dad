/**
 * The query layer of the railway backend: one member per endpoint handler.
 * Each handler reads a module-level collection; here that collection is the
 * `trains` or `stations` parameter, and the lemmas in SeedFacts apply the
 * handlers to TRAINS_DATA and STATIONS_DATA.
 */
module Backend {
  import opened Wrappers
  import opened Text
  import opened Numeric
  import opened Collections
  import opened RailwayData

  /**
   * The ways a handler can fail: an unknown id (answered with a 404 body),
   * or a division by zero that Python raises out of the handler and the web
   * framework turns into a 500 response.
   */
  datatype ApiError = NotFound(message: string) | ZeroDivision
  {
    function Status(): int
    {
      if NotFound? then 404 else 500
    }
  }

  /** The seven-field view of a train served by the train list. */
  datatype TrainSummary = TrainSummary(
    id: string,
    name: string,
    route: string,
    currentStation: string,
    status: string,
    delay: int,
    speed: int)

  datatype CurrentLocation = CurrentLocation(
    station: string,
    coordinates: Coordinates,
    signal: string,
    trackCondition: string)

  /** `progressTenths` is the progress percentage in tenths of a percent (249 stands for 24.9). */
  datatype RouteInfo = RouteInfo(
    route: string,
    distanceCovered: int,
    totalDistance: int,
    progressTenths: int)

  datatype OperationalStatus = OperationalStatus(
    speed: int,
    status: string,
    delay: int,
    weather: string)

  /** The nested view of one train served by the track endpoint. */
  datatype TrackInfo = TrackInfo(
    id: string,
    name: string,
    currentLocation: CurrentLocation,
    routeInfo: RouteInfo,
    operationalStatus: OperationalStatus,
    nextStation: string,
    estimatedArrival: string)

  /**
   * The dashboard aggregate; the efficiency and the average speed are in
   * tenths (500 stands for 50.0, 725 for 72.5). The timestamp is not modelled.
   */
  datatype DashboardSummary = DashboardSummary(
    totalTrains: nat,
    onTime: nat,
    delayed: nat,
    operationalEfficiencyTenths: int,
    averageSpeedTenths: int,
    totalPassengers: int)

  function TrainId(t: Train): string { t.id }
  function StationId(s: Station): string { s.id }
  function Speed(t: Train): int { t.speed }
  function Passengers(t: Train): int { t.passengers }
  function Capacity(t: Train): int { t.capacity }

  /** `s` carries exactly the seven listed fields of `t`. */
  predicate Projects(s: TrainSummary, t: Train)
  {
    && s.id == t.id
    && s.name == t.name
    && s.route == t.route
    && s.currentStation == t.currentStation
    && s.status == t.status
    && s.delay == t.delay
    && s.speed == t.speed
  }

  /** The train list: one reduced record per train, built by appending in collection order. */
  method GetAllTrains(trains: seq<Train>) returns (simplified: seq<TrainSummary>)
    ensures |simplified| == |trains|
    ensures forall i :: 0 <= i < |trains| ==> Projects(simplified[i], trains[i])
  {
    simplified := [];
    for k := 0 to |trains|
      invariant |simplified| == k
      invariant forall i :: 0 <= i < k ==> Projects(simplified[i], trains[i])
    {
      var train := trains[k];
      simplified := simplified + [TrainSummary(
        train.id, train.name, train.route, train.currentStation,
        train.status, train.delay, train.speed)];
    }
  }

  /** The full record of the first train whose id is `trainId`. */
  function GetTrainDetails(trains: seq<Train>, trainId: string): (r: Result<Train, ApiError>)
    ensures r.Success? <==> exists i :: 0 <= i < |trains| && trains[i].id == trainId
    ensures r.Success? ==> r.value.id == trainId
    ensures forall i: nat :: FirstMatchAt(trains, TrainId, trainId, i) ==> r == Success(trains[i])
    ensures r.Failure? ==> r.error == NotFound("Train not found") && r.error.Status() == 404
  {
    match FirstIndex(trains, TrainId, trainId)
    case Some(i) => Success(trains[i])
    case None => Failure(NotFound("Train not found"))
  }

  /**
   * The regrouping of one train record into the track view. The progress is
   * distance_covered / total_distance * 100 rounded to one decimal place, and
   * it fails when the total distance is zero.
   */
  function TrackInfoOf(t: Train): (r: Result<TrackInfo, ApiError>)
    ensures r.Failure? <==> t.totalDistance == 0
    ensures r.Failure? ==> r.error == ZeroDivision
    ensures r.Success? ==>
      && r.value.id == t.id
      && r.value.name == t.name
      && r.value.currentLocation == CurrentLocation(t.currentStation, t.coordinates, t.signal, t.trackCondition)
      && r.value.routeInfo.route == t.route
      && r.value.routeInfo.distanceCovered == t.distanceCovered
      && r.value.routeInfo.totalDistance == t.totalDistance
      && r.value.operationalStatus == OperationalStatus(t.speed, t.status, t.delay, t.weather)
      && r.value.nextStation == t.nextStation
      && r.value.estimatedArrival == t.arrivalTime
    // the progress is the tenth of a percent nearest to dc / td * 100, ties to even
    ensures r.Success? ==>
      var p := r.value.routeInfo.progressTenths;
      && 2 * Abs(t.distanceCovered * 1000 - p * t.totalDistance) <= Abs(t.totalDistance)
      && (2 * Abs(t.distanceCovered * 1000 - p * t.totalDistance) == Abs(t.totalDistance) ==> p % 2 == 0)
  {
    if t.totalDistance == 0 then Failure(ZeroDivision)
    else
      var n := if t.totalDistance > 0 then t.distanceCovered * 1000 else -(t.distanceCovered * 1000);
      var p := RoundHalfEven(n, Abs(t.totalDistance));
      SignMovedIntoNumerator(t.distanceCovered * 1000, p, t.totalDistance);
      Success(TrackInfo(
        t.id,
        t.name,
        CurrentLocation(t.currentStation, t.coordinates, t.signal, t.trackCondition),
        RouteInfo(t.route, t.distanceCovered, t.totalDistance, p),
        OperationalStatus(t.speed, t.status, t.delay, t.weather),
        t.nextStation,
        t.arrivalTime))
  }

  /** The track view of the first train whose id is `trainId`; an unknown id is reported before any reshaping. */
  function GetTrainTrackInfo(trains: seq<Train>, trainId: string): (r: Result<TrackInfo, ApiError>)
    ensures NoMatch(trains, TrainId, trainId) ==> r == Failure(NotFound("Train not found"))
    ensures forall i: nat :: FirstMatchAt(trains, TrainId, trainId, i) ==> r == TrackInfoOf(trains[i])
    ensures r.Success? ==> r.value.id == trainId
  {
    match GetTrainDetails(trains, trainId)
    case Failure(e) => Failure(e)
    case Success(train) => TrackInfoOf(train)
  }

  /** The station list is the station collection itself. */
  function GetAllStations(stations: seq<Station>): (r: seq<Station>)
    ensures r == stations
  {
    stations
  }

  /** The full record of the first station whose id is `stationId`. */
  function GetStationDetails(stations: seq<Station>, stationId: string): (r: Result<Station, ApiError>)
    ensures r.Success? <==> exists i :: 0 <= i < |stations| && stations[i].id == stationId
    ensures r.Success? ==> r.value.id == stationId
    ensures forall i: nat :: FirstMatchAt(stations, StationId, stationId, i) ==> r == Success(stations[i])
    ensures r.Failure? ==> r.error == NotFound("Station not found") && r.error.Status() == 404
  {
    match FirstIndex(stations, StationId, stationId)
    case Some(i) => Success(stations[i])
    case None => Failure(NotFound("Station not found"))
  }

  /**
   * A train is delayed when its status contains "Delayed" or "Late",
   * case-sensitively: one of the two patterns occurs at some position.
   */
  predicate IsDelayed(t: Train): (r: bool)
    ensures r <==> exists i: nat :: OccursAt(t.status, "Delayed", i) || OccursAt(t.status, "Late", i)
  {
    ContainsIff(t.status, "Delayed");
    ContainsIff(t.status, "Late");
    Contains(t.status, "Delayed") || Contains(t.status, "Late")
  }

  /** The status "On Time" contains neither "Delayed" nor "Late". */
  lemma OnTimeStatusHasNoPattern()
    ensures !Contains("On Time", "Delayed")
    ensures !Contains("On Time", "Late")
  {
    // each step drops the first character of the scanned string; a window
    // differs from the pattern already in its first character
    assert !Contains("n Time", "Delayed");
    assert "On Time"[..7][0] != "Delayed"[0];
    assert !Contains("On Time", "Delayed");
    assert !Contains("ime", "Late");
    assert "Time"[..4][0] != "Late"[0];
    assert !Contains("Time", "Late");
    assert !Contains(" Time", "Late");
    assert !Contains("n Time", "Late");
    assert !Contains("On Time", "Late");
  }

  /** A train is on time when its status is exactly "On Time"; such a train is never delayed. */
  predicate IsOnTime(t: Train): (r: bool)
    ensures r ==> !IsDelayed(t)
  {
    OnTimeStatusHasNoPattern();
    t.status == "On Time"
  }

  /** The dashboard aggregate over all trains; an empty collection makes the division fail. */
  function GetDashboardSummary(trains: seq<Train>): (r: Result<DashboardSummary, ApiError>)
    ensures r.Failure? <==> |trains| == 0
    ensures r.Failure? ==> r.error == ZeroDivision
    ensures r.Success? ==>
      && r.value.totalTrains == |trains|
      && r.value.onTime == Count(trains, IsOnTime)
      && r.value.delayed == Count(trains, IsDelayed)
      && r.value.onTime + r.value.delayed <= r.value.totalTrains
      && r.value.totalPassengers == Sum(trains, Passengers)
    // efficiency: the tenth nearest to on_time / total * 100
    ensures r.Success? ==>
      var e := r.value.operationalEfficiencyTenths;
      && 2 * Abs(r.value.onTime * 1000 - e * |trains|) <= |trains|
      && (2 * Abs(r.value.onTime * 1000 - e * |trains|) == |trains| ==> e % 2 == 0)
    // average speed: the tenth nearest to the speed sum / total
    ensures r.Success? ==>
      var a := r.value.averageSpeedTenths;
      && 2 * Abs(Sum(trains, Speed) * 10 - a * |trains|) <= |trains|
      && (2 * Abs(Sum(trains, Speed) * 10 - a * |trains|) == |trains| ==> a % 2 == 0)
  {
    var totalTrains := |trains|;
    var onTime := Count(trains, IsOnTime);
    var delayed := Count(trains, IsDelayed);
    if totalTrains == 0 then Failure(ZeroDivision)
    else
      assert forall j :: 0 <= j < |trains| ==> !(IsOnTime(trains[j]) && IsDelayed(trains[j]));
      CountDisjoint(trains, IsOnTime, IsDelayed);
      Success(DashboardSummary(
        totalTrains,
        onTime,
        delayed,
        RoundHalfEven(onTime * 1000, totalTrains),
        RoundHalfEven(Sum(trains, Speed) * 10, totalTrains),
        Sum(trains, Passengers)))
  }

  /** With unique ids, looking up the id of any train returns that train. */
  lemma TrainLookupIsExact(trains: seq<Train>, i: nat)
    requires UniqueKeys(trains, TrainId)
    requires i < |trains|
    ensures GetTrainDetails(trains, trains[i].id) == Success(trains[i])
  {
    FirstIndexOfUnique(trains, TrainId, i);
  }

  /** With unique ids, looking up the id of any station returns that station. */
  lemma StationLookupIsExact(stations: seq<Station>, i: nat)
    requires UniqueKeys(stations, StationId)
    requires i < |stations|
    ensures GetStationDetails(stations, stations[i].id) == Success(stations[i])
  {
    FirstIndexOfUnique(stations, StationId, i);
  }

  /** When no train carries more passengers than its capacity, neither does the dashboard total. */
  lemma PassengersWithinCapacity(trains: seq<Train>)
    requires |trains| > 0
    requires forall j :: 0 <= j < |trains| ==> trains[j].passengers <= trains[j].capacity
    ensures GetDashboardSummary(trains).value.totalPassengers <= Sum(trains, Capacity)
  {
    SumMonotone(trains, Passengers, Capacity);
  }

  /** The dashboard counts no train as on time exactly when none is, and all exactly when all are. */
  lemma OnTimeCountExtremes(trains: seq<Train>)
    requires |trains| > 0
    ensures GetDashboardSummary(trains).value.onTime == 0 <==> forall j :: 0 <= j < |trains| ==> trains[j].status != "On Time"
    ensures GetDashboardSummary(trains).value.onTime == |trains| <==> forall j :: 0 <= j < |trains| ==> trains[j].status == "On Time"
  {
    CountExtremes(trains, IsOnTime);
  }
}
