/**
 * The two record kinds of the railway backend and the fixed collections it
 * serves. Both collections are built once and never changed.
 */
module RailwayData {

  /** Latitude and longitude; the backend only copies them. */
  datatype Coordinates = Coordinates(lat: real, lng: real)

  /** One train record, with every attribute the dataset holds. */
  datatype Train = Train(
    id: string,
    name: string,
    route: string,
    currentStation: string,
    nextStation: string,
    status: string,
    delay: int,
    speed: int,
    departureTime: string,
    arrivalTime: string,
    coaches: int,
    passengers: int,
    capacity: int,
    engineType: string,
    driver: string,
    guard: string,
    distanceCovered: int,
    totalDistance: int,
    coordinates: Coordinates,
    signal: string,
    trackCondition: string,
    weather: string)

  /** One station record; `id` and `code` hold the same code in the dataset. */
  datatype Station = Station(
    id: string,
    name: string,
    code: string,
    platforms: int,
    tracks: int,
    status: string,
    trainsPresent: int,
    passengerCount: int)

  const TRAINS_DATA: seq<Train> := [
    Train("12345", "Rajdhani Express", "New Delhi - Mumbai Central",
          "Gwalior Junction", "Jhansi Junction", "On Time", 0, 85,
          "14:30", "20:45", 18, 1250, 1400, "Electric", "Rajesh Kumar", "Amit Sharma",
          345, 1384, Coordinates(26.2183, 78.1828), "Green", "Good", "Clear"),
    Train("12904", "Goldn Temple Mail", "Mumbai Central - Amritsar",
          "Vadodara Junction", "Anand Junction", "Delayed", 15, 0,
          "21:40", "12:30+1", 20, 1680, 1800, "Electric", "Suresh Patel", "Mohan Singh",
          98, 1928, Coordinates(22.3072, 73.1812), "Red", "Under Maintenance", "Light Rain"),
    Train("12002", "Shatabdi Express", "New Delhi - Bhopal",
          "Agra Cantt", "Gwalior Junction", "On Time", 0, 110,
          "06:00", "14:15", 12, 850, 1000, "Electric", "Pradeep Joshi", "Ramesh Verma",
          232, 707, Coordinates(27.1767, 78.0081), "Green", "Excellent", "Clear"),
    Train("12626", "Kerala Express", "New Delhi - Trivandrum",
          "Nagpur Junction", "Ballarshah Junction", "Running Late", 45, 95,
          "11:55", "11:40+2", 22, 1950, 2200, "Electric", "Anand Kumar", "Vijay Nair",
          1056, 2647, Coordinates(21.1458, 79.0882), "Yellow", "Good", "Cloudy")
  ]

  const STATIONS_DATA: seq<Station> := [
    Station("NDLS", "New Delhi", "NDLS", 16, 8, "Operational", 12, 25000),
    Station("CSTM", "Mumbai Central", "CSTM", 18, 10, "Operational", 15, 32000)
  ]
}
