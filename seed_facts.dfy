/** What the handlers answer for the seeded dataset. */
module SeedFacts {
  import opened Wrappers
  import opened Text
  import opened Numeric
  import opened Collections
  import opened RailwayData
  import opened Backend

  /** Train ids and station ids are unique in the seed, so every lookup is exact. */
  lemma SeedIdsUnique()
    ensures UniqueKeys(TRAINS_DATA, TrainId)
    ensures UniqueKeys(STATIONS_DATA, StationId)
  {
  }

  /** Exactly the second and fourth trains are delayed, the first and third on time. */
  lemma SeedStatuses()
    ensures IsOnTime(TRAINS_DATA[0]) && IsOnTime(TRAINS_DATA[2])
    ensures !IsOnTime(TRAINS_DATA[1]) && !IsOnTime(TRAINS_DATA[3])
    ensures IsDelayed(TRAINS_DATA[1]) && IsDelayed(TRAINS_DATA[3])
    ensures !IsDelayed(TRAINS_DATA[0]) && !IsDelayed(TRAINS_DATA[2])
  {
    assert IsOnTime(TRAINS_DATA[0]) && IsOnTime(TRAINS_DATA[2]);
    assert Contains("Delayed", "Delayed");
    // "Running Late" has "Late" at position 8
    assert OccursAt("Running Late", "Late", 8);
    ContainsIff("Running Late", "Late");
  }

  /** On-time and delayed counts, summed speed and summed passengers of the seed. */
  lemma SeedAggregates()
    ensures Count(TRAINS_DATA, IsOnTime) == 2
    ensures Count(TRAINS_DATA, IsDelayed) == 2
    ensures Sum(TRAINS_DATA, Speed) == 290
    ensures Sum(TRAINS_DATA, Passengers) == 5730
  {
    SeedStatuses();
    var t := TRAINS_DATA;
    var t1, t2, t3 := t[1..], t[2..], t[3..];
    assert t1[1..] == t2 && t2[1..] == t3 && t3[1..] == [];
    assert Count(t3, IsOnTime) == 0 && Count(t3, IsDelayed) == 1;
    assert Count(t2, IsOnTime) == 1 && Count(t2, IsDelayed) == 1;
    assert Count(t1, IsOnTime) == 1 && Count(t1, IsDelayed) == 2;
    assert Sum(t3, Speed) == 95 && Sum(t3, Passengers) == 1950;
    assert Sum(t2, Speed) == 205 && Sum(t2, Passengers) == 2800;
    assert Sum(t1, Speed) == 205 && Sum(t1, Passengers) == 4480;
  }

  /** The dashboard on the seed: 4 trains, 2 on time, 2 delayed, 50.0 efficiency, 72.5 average speed, 5730 passengers. */
  lemma SeedDashboard()
    ensures GetDashboardSummary(TRAINS_DATA) == Success(DashboardSummary(4, 2, 2, 500, 725, 5730))
  {
    SeedAggregates();
    RoundHalfEvenUnique(2000, 4, 500);
    RoundHalfEvenUnique(2900, 4, 725);
  }

  /** The track view of one seed train is the reshaping of that train. */
  lemma SeedTrackOf(i: nat)
    requires i < |TRAINS_DATA|
    ensures GetTrainTrackInfo(TRAINS_DATA, TRAINS_DATA[i].id) == TrackInfoOf(TRAINS_DATA[i])
  {
    SeedIdsUnique();
    TrainLookupIsExact(TRAINS_DATA, i);
  }

  /**
   * A candidate value is the progress of the seed train at position i, in
   * tenths, when it lies strictly within half a tenth of the exact ratio.
   */
  lemma SeedProgressAt(i: nat, tenths: int)
    requires i < |TRAINS_DATA|
    requires 2 * Numeric.Abs(TRAINS_DATA[i].distanceCovered * 1000 - tenths * TRAINS_DATA[i].totalDistance) < TRAINS_DATA[i].totalDistance
    ensures GetTrainTrackInfo(TRAINS_DATA, TRAINS_DATA[i].id).Success?
    ensures GetTrainTrackInfo(TRAINS_DATA, TRAINS_DATA[i].id).value.routeInfo.progressTenths == tenths
  {
    SeedTrackOf(i);
    var t := TRAINS_DATA[i];
    RoundHalfEvenUnique(t.distanceCovered * 1000, t.totalDistance, tenths);
  }

  /** The Rajdhani Express (id 12345) has covered 345 of its 1384 distance units: progress 24.9. */
  lemma RajdhaniProgress()
    ensures GetTrainTrackInfo(TRAINS_DATA, "12345").Success?
    ensures GetTrainTrackInfo(TRAINS_DATA, "12345").value.routeInfo.progressTenths == 249
  {
    SeedProgressAt(0, 249);
  }

  /** Every seed train is found by its id, and its track view exists, since every total distance is positive. */
  lemma SeedTrainsTrackable(i: nat)
    requires i < |TRAINS_DATA|
    ensures GetTrainDetails(TRAINS_DATA, TRAINS_DATA[i].id) == Success(TRAINS_DATA[i])
    ensures GetTrainTrackInfo(TRAINS_DATA, TRAINS_DATA[i].id).Success?
  {
    SeedIdsUnique();
    TrainLookupIsExact(TRAINS_DATA, i);
  }

  /** An id outside the seed is answered with the not-found errors. */
  lemma SeedUnknownIds()
    ensures GetTrainDetails(TRAINS_DATA, "99999") == Failure(NotFound("Train not found"))
    ensures GetTrainTrackInfo(TRAINS_DATA, "99999") == Failure(NotFound("Train not found"))
    ensures GetStationDetails(STATIONS_DATA, "XXXX") == Failure(NotFound("Station not found"))
  {
  }
}
