# Railway backend query layer in Dafny

This project models the read-only query layer of a small railway operations
API (`backend.py`). It holds two fixed collections: four trains and two
stations. Each HTTP handler derives a view from them:

- the reduced train list;
- train, track and station lookups by id, first match or not found;
- the regrouped track view of one train;
- the dashboard aggregate: train count, on-time and delayed counts,
  efficiency, average speed and passenger total.

Layout, one module per concern:

- `wrappers.dfy` (`Wrappers`): `Option` and `Result`.
- `text.dfy` (`Text`): Python's `pat in s` on strings as `Contains`, proved
  equal to "occurs at some position".
- `numeric.dfy` (`Numeric`): `round(x, 1)` over a division, as the nearest
  integer to an exact ratio with ties to even (`RoundHalfEven`), and proof
  that this integer is unique.
- `collections.dfy` (`Collections`): the three list idioms the handlers use:
  first index with a given key (`next(... , None)`), count of matching
  elements (`len([...])`) and `sum([...])`, each with lemmas.
- `railway_data.dfy` (`RailwayData`): the `Train` and `Station` records and
  the constants `TRAINS_DATA` and `STATIONS_DATA`, value for value.
- `backend.dfy` (`Backend`): the handlers. Each one takes the collection it
  reads as a parameter, so its contract holds for any dataset.
  `GetAllTrains` is a method with a loop, because the source builds the list
  by appending in a `for` loop. The other handlers are functions, because the
  source computes them as expressions.
- `seed_facts.dfy` (`SeedFacts`): the handlers applied to the seed data.
  Ids are unique. The dashboard is 4 trains, 2 on time, 2 delayed, 50.0
  efficiency, 72.5 average speed and 5730 passengers. The Rajdhani Express
  shows 24.9 progress. Unknown ids give the not-found errors.

Representation choices:

- Rounded values are kept as integers counting tenths: 249 stands for 24.9,
  500 for 50.0, 725 for 72.5.
- Errors are `ApiError`. `NotFound(message)` carries the 404 body's message.
  `ZeroDivision` stands for the `ZeroDivisionError` that Python raises out of
  a handler, which the web framework answers with status 500.
- Coordinates are `real` values. They are only ever copied.

Two places where the model keeps the code's behaviour over a tidier one:

- On an empty train collection the dashboard divides by zero and fails.
  Answering zeros would be friendlier, but the code raises, so the model
  returns `ZeroDivision`.
- The second train is named "Goldn Temple Mail" in the data, and the model
  keeps that spelling.

## Model

| member | source | states |
|---|---|---|
| `Backend.GetAllTrains` | backend.py:138-151 | one reduced record per train, same length and same order as the collection; each record's id, name, route, current station, status, delay and speed equal the train's, and the record type has no other field |
| `Backend.GetTrainDetails` | backend.py:154-160 | success exactly when some train has the id; the result is the first such train, so its id is the requested one; otherwise NotFound "Train not found" with status 404 |
| `Backend.TrackInfoOf` | backend.py:169-192 | fails with a division by zero exactly when the total distance is 0; otherwise id, name, station, coordinates, signal, track condition, route, both distances, speed, status, delay, weather, next station and arrival time are copied into their groups, and the progress is the tenth of a percent nearest to covered / total * 100, ties to even |
| `Backend.GetTrainTrackInfo` | backend.py:163-194 | an unknown id gives NotFound "Train not found" with no reshaping; otherwise the result is the track view of the first train with that id, whose id is the requested one |
| `Backend.GetAllStations` | backend.py:197-199 | the station list is the station collection unchanged |
| `Backend.GetStationDetails` | backend.py:202-208 | success exactly when some station has the id; the result is the first such station, whose id is the requested one; otherwise NotFound "Station not found" with status 404 |
| `Backend.IsOnTime` | backend.py:214 | the on-time filter: status equal to "On Time" exactly; a train it accepts is never delayed, so the on-time and delayed filters are disjoint |
| `Backend.IsDelayed` | backend.py:215 | the delayed filter: the status contains "Delayed" or "Late" as a case-sensitive substring, i.e. one of the two patterns occurs at some position of the status |
| `Backend.OnTimeStatusHasNoPattern` | backend.py:214-215 | the status "On Time" contains neither "Delayed" nor "Late", which is why no train is both on time and delayed |
| `Backend.GetDashboardSummary` | backend.py:211-225 | fails with a division by zero exactly when there are no trains; otherwise total is the length, on-time is the count of `IsOnTime` trains and delayed the count of `IsDelayed` trains, with on_time + delayed <= total, passengers is the sum, efficiency is the tenth nearest to on_time / total * 100 and average speed the tenth nearest to speed sum / total, ties to even |
| `Backend.TrainLookupIsExact` | backend.py:156 | when train ids are unique, looking up any train's id returns that train |
| `Backend.StationLookupIsExact` | backend.py:204 | when station ids are unique, looking up any station's id returns that station |
| `Backend.PassengersWithinCapacity` | backend.py:223 | if no train carries more passengers than its capacity, the dashboard's passenger total is at most the total capacity |
| `Backend.OnTimeCountExtremes` | backend.py:214 | the on-time count is 0 exactly when no status is "On Time", and equals the train count exactly when every status is |
| `Collections.FirstIndex` | backend.py:156 | the first-match scan returns the first position whose key is the id, and nothing exactly when no element has it |
| `Collections.FirstIndexOfUnique` | backend.py:156 | with unique keys, the scan for element i's key returns i |
| `Collections.Count` | backend.py:214-215 | the length of the filtered list is at most the length of the list |
| `Collections.CountExtremes` | backend.py:214-215 | the count is 0 exactly when no element matches, and is the length exactly when all match |
| `Collections.CountDisjoint` | backend.py:213-215 | two predicates that never hold together have counts summing to at most the length |
| `Collections.Sum` | backend.py:222-223 | `sum([...])` over a list: 0 for the empty list, and non-negative when every term is |
| `Collections.SumMonotone` | backend.py:223 | a sum of terms is at most the sum of pointwise larger terms |
| `Numeric.RoundHalfEven` | backend.py:182 | the result is within half a unit of n / d, and is even on a tie, as Python's `round` does |
| `Numeric.RoundHalfEvenUnique` | backend.py:182 | exactly one integer has both properties of `RoundHalfEven` |
| `Text.Contains` | backend.py:215 | Python's `pat in s`: the empty pattern is found in every string, a string contains itself, and no pattern longer than the string is found |
| `Text.ContainsIff` | backend.py:215 | the substring scan succeeds exactly when the pattern occurs at some position of the string |
| `SeedFacts.SeedIdsUnique` | backend.py:11-131 | train ids and station ids in the seed collections are pairwise distinct |
| `SeedFacts.SeedStatuses` | backend.py:11-108 | the first and third seed trains are on time and not delayed, the second and fourth delayed and not on time |
| `SeedFacts.SeedAggregates` | backend.py:213-223 | on the seed: on-time count 2, delayed count 2, speed sum 290, passenger sum 5730 |
| `SeedFacts.SeedDashboard` | backend.py:211-223 | on the seed the dashboard is 4 trains, 2 on time, 2 delayed, efficiency 50.0, average speed 72.5, 5730 passengers |
| `SeedFacts.SeedTrackOf` | backend.py:165-192 | the track view for each seed train's id is the reshaping of that train |
| `SeedFacts.SeedProgressAt` | backend.py:182 | a value strictly within half a tenth of a seed train's exact progress is the progress shown in its track view |
| `SeedFacts.RajdhaniProgress` | backend.py:182 | train 12345 (345 of 1384 distance units covered) shows progress 24.9 |
| `SeedFacts.SeedTrainsTrackable` | backend.py:156-167 | every seed train is found by its own id and has a track view, since every seed total distance is positive |
| `SeedFacts.SeedUnknownIds` | backend.py:154-208 | an id absent from the seed gives "Train not found" for details and track, and "Station not found" for stations |

## Left out

- The web layer is not modelled: routing, `jsonify`, CORS, the startup
  `print` lines and `app.run` (backend.py:1-8, 227-231). The model keeps only
  the error variant and its status number.
- `health_check` and the dashboard's `last_updated` are not modelled, because
  they read the wall clock (`datetime.now()`).
- Float arithmetic is not modelled. The model rounds the exact ratio, half to
  even. Python rounds the binary float result of the division, which can fall
  on the other side of a tie in the last place. No seed value lies near a tie.
- There is no `GetAllTrains` lemma about the seed data, because a lemma
  cannot call a method. The method's contract holds for every collection,
  the seed included.
- The handlers read the module-level collections. Here each collection is a
  parameter, and `SeedFacts` passes in `TRAINS_DATA` and `STATIONS_DATA`.
- Python's `if not train:` on a found record is not modelled separately. A
  found record is a non-empty dictionary, so the `not train` branch is taken
  only when the scan found nothing.
- The track view shares the train's coordinates dictionary with the
  collection. The model copies the value, so aliasing is not captured; no
  handler mutates it.
- The unused imports `json`, `timedelta` and `random` have no counterpart.
