# AERAS ride ledger in Dafny

The AERAS backend tracks e-rickshaw rides. A ride is requested by a
passenger's device. The puller who owns it moves it along
`pending → accepted → in_progress → completed`, and a dashboard polls the
whole store. The store lives in memory and has three parts: the `rides`
array in creation order, the `pullerPoints` object (puller id → total
points, seeded with `puller_001: 0`), and the `rideCounter` that ride ids
are made from (`ride_1`, `ride_2`, …). Each completed ride earns its
puller the constant `BASE_POINTS_PER_RIDE = 10`.

This project models that store and the six request handlers that act on it.

- `rides.dfy`, module `Rides`: the values. It holds the status type and
  its transition table, the ride record, the decimal rendering of ride ids
  and the proof that it is injective. It also holds `rides.find` as a
  function, the points a puller has earned, and the ledger invariant
  `Consistent`, with the lemmas showing that each kind of update keeps it.
- `ledger.dfy`, module `Ledger`: the store as the class `RideLedger`, with
  fields `rides: seq<Ride>`, `pullerPoints: map<string, int>` and
  `rideCounter: nat`. It has one method per handler; each mutating
  method updates the fields in place as the handler does, and `GetStatus`
  and `ListRides` only read. Each mutating method
  keeps `Valid()` (the ledger invariant) and states the whole new state in
  terms of the old one. Client methods drive the handlers in sequence: a
  request followed by a status poll on any store, and fixed runs through
  the lifecycle, a repeated accept, an early dropoff, a refused request
  and an unknown id.
- `points_as_written.dfy`, module `PointsAsWritten`: the point award run
  on a JavaScript object literal, where a lookup can fall through to
  `Object.prototype`. See "## Findings".

The ledger invariant (`Rides.Consistent`) says five things:

- the counter is one past the number of rides;
- ride `i` (from 0) has id `ride_<i+1>`, so ids are unique and never reused;
- every ride has non-empty fields;
- a ride has `points == 10` if it is completed and `0` otherwise, and it
  has a timestamp for each transition taken;
- a puller has an entry in `pullerPoints` exactly when it is the seeded
  puller or has a completed ride, and the entry is its seed plus the
  points of its completed rides.

A request-body field counts as missing when it is absent or is the empty
string. That is what the handler's `!field` test rejects among string values.

The handler never checks `pickup` or `destination` against the
`locations` table, so the model accepts any non-empty string for them.
A transition answers an unknown id and a ride in the wrong state with the
same 404, so a transition has the single failure `Unable`.

## Model

| member | source | states |
|---|---|---|
| `Rides.Successor` | Backend/server.js:86 | the lifecycle moves one step forward at a time: each status except `completed` has exactly one successor, whose rank is one higher; `completed` has none |
| `Rides.Decimal` | Backend/server.js:82 | the rendering of a counter value is non-empty, has one digit exactly when the value is below 10, and ends in the value's last digit |
| `Rides.DecimalInjective` | Backend/server.js:82 | two counter values with the same decimal rendering are equal |
| `Rides.RideIdInjective` | Backend/server.js:82 | two counter values with the same `ride_<n>` id are equal |
| `Rides.FirstMatch` | Backend/server.js:118 | `rides.find` yields the first ride with the id, or nothing exactly when no ride has it |
| `Rides.Award` | Backend/server.js:180-185 | the award adds 10 to the puller's existing total or creates it at 10, adds only that key, and leaves every other total unchanged |
| `Rides.StepNoRegress` | Backend/server.js:171-172 | moving one ride to a status of no lower rank, keeping its id, leaves every ride's id in place and no status lower than before |
| `Rides.InitialConsistent` | Backend/server.js:26-30 | the start-up store (no rides, `puller_001` at 0, counter 1) satisfies the ledger invariant |
| `Rides.EarnedUpdate` | Backend/server.js:136-137 | replacing one ride changes a puller's earned points and completed count by exactly the difference between the old and new ride's contributions |
| `Rides.EarnedIsAwardPerCompleted` | Backend/server.js:177-178 | when every ride is well formed, a puller's earned points are 10 times its completed rides |
| `Rides.PullerTotal` | Backend/server.js:27-29 | under the invariant, a puller has a total exactly when it is `puller_001` or has a completed ride, and the total is its seed plus 10 per completed ride |
| `Rides.IdsUnique` | Backend/server.js:82 | under the invariant, no two stored rides share an id |
| `Rides.NextIdFresh` | Backend/server.js:82 | under the invariant, the id the counter hands out next belongs to no stored ride |
| `Rides.FirstMatchOfStored` | Backend/server.js:118 | under the invariant, looking up a stored ride's id finds that very ride |
| `Rides.UpdateKeepsConsistent` | Backend/server.js:153-155 | replacing a ride by a well-formed ride with the same id and puller that does not change completion keeps the invariant |
| `Rides.CompleteKeepsConsistent` | Backend/server.js:171-185 | completing an in-progress ride and awarding its puller keeps the invariant |
| `Rides.AppendKeepsConsistent` | Backend/server.js:81-91 | appending a well-formed pending ride with id `ride_<counter>` and advancing the counter keeps the invariant |
| `Ledger.RideLedger.constructor` | Backend/server.js:26-30 | the store starts with no rides, `puller_001` at 0 points and counter 1, and is valid |
| `Ledger.RideLedger.Find` | Backend/server.js:118 | the scan returns the index of the first ride with the id, or nothing, as `FirstMatch` specifies |
| `Ledger.RideLedger.CreateRide` | Backend/server.js:74-99 | fails exactly when a field is missing or empty, and then changes nothing; otherwise appends one pending ride with `points = 0`, the given fields and id `ride_<old counter>`, which no existing ride has. It increments the counter, leaves the totals alone and keeps the invariant |
| `Ledger.RideLedger.ListRides` | Backend/server.js:105-110 | returns the rides and totals as stored; their ids are distinct, a ride's points are non-zero exactly when it is completed, and each total is the seed plus 10 per completed ride |
| `Ledger.RideLedger.GetStatus` | Backend/server.js:116-125 | answers "not found" exactly when no ride has the id, and otherwise the status of the first ride with that id |
| `Ledger.RideLedger.Accept` | Backend/server.js:131-143 | succeeds exactly when the ride found is `pending`. It then sets only that ride to `accepted` with `acceptTime`; otherwise nothing changes. The counter and totals are untouched, no status regresses, and the invariant holds |
| `Ledger.RideLedger.ConfirmPickup` | Backend/server.js:149-161 | succeeds exactly when the ride found is `accepted`. It then sets only that ride to `in_progress` with `pickupTime`; otherwise nothing changes. The counter and totals are untouched, no status regresses, and the invariant holds |
| `Ledger.RideLedger.ConfirmDropoff` | Backend/server.js:167-192 | succeeds exactly when the ride found is `in_progress`. It then sets only that ride to `completed` with `dropoffTime` and `points = 10`, and raises that puller's total by 10 (creating it at 10). Otherwise nothing changes. No status regresses, and the invariant holds |
| `Ledger.CreatedRidePollsPending` | Backend/server.js:74-125 | on any valid store and for any request: the request is accepted exactly when all three fields are non-empty; an accepted request's id belongs to no earlier ride and polls as `pending` at once; a refused request leaves the counter alone and the id it would have received polls as not found |
| `Ledger.RequestThroughPickup` | Backend/server.js:74-161 | a fresh store given one request for `puller_001`, an accept and a pickup polls as pending, accepted, then in progress; it ends valid, holding only that ride, in progress, with the totals as at start-up |
| `Ledger.LifecycleScenario` | Backend/server.js:74-192 | a ride for `puller_001` polls as pending, accepted, in progress, then completed, and its puller ends at 10 points |
| `Ledger.RepeatedAcceptScenario` | Backend/server.js:131-143 | accepting the same ride twice: the first succeeds, the second is refused |
| `Ledger.EarlyDropoffScenario` | Backend/server.js:167-192 | a dropoff before the pickup is refused and the ride still polls as accepted |
| `Ledger.MissingFieldScenario` | Backend/server.js:77-82 | a request with an empty destination is refused without using up an id: the next good request still gets `ride_1` |
| `Ledger.UnknownIdScenario` | Backend/server.js:116-125 | polling a created ride gives `pending`; polling an id no ride has gives "not found" |
| `PointsAsWritten.AwardAsWrittenAgrees` | Backend/server.js:181-185 | for every puller id that is neither an inherited method name nor `__proto__`, the award as written gives exactly the corrected `Award` |
| `PointsAsWritten.InheritedNameBreaksTotal` | Backend/server.js:181-185 | for puller `toString`, the first award as written leaves a string, not the number 10 the corrected award gives |

## Findings

| source | as written | input that shows it | evidently intended | confidence | as-written member | corrected member |
|---|---|---|---|---|---|---|
| Backend/server.js:181-185 | `pullerPoints` is a plain object literal, and "has an entry" is tested as `pullerPoints[id] !== undefined`. For an id that names an `Object.prototype` method, the test sees the inherited function, so `+= 10` concatenates a string | a ride with `pullerId: "toString"` (also `valueOf`, `constructor`, …) reaches `completed`. The total becomes `"function toString() { [native code] }10"` instead of `10` | the first award creates the total at the number 10, and later awards add 10 | high; not executed | `PointsAsWritten.InheritedNameBreaksTotal` | `Rides.Award` |

The ledger in `ledger.dfy` uses the corrected `Rides.Award`: a `map` has
no inherited keys.

## Left out

- HTTP plumbing: the Express app, CORS and JSON middleware, static files,
  the `/`, `/rickshaw.html` and `/admin.html` routes, and `app.listen`.
  These are framework I/O. Status codes and response bodies become the
  outcome datatypes `CreateOutcome`, `StatusOutcome` and `TransitionOutcome`.
- The `console.log` calls. They are logging only.
- The clock. `new Date().toISOString()` is a foreign call, so each
  operation takes the timestamp as a `Time` argument, a string the model
  never inspects.
- The `locations` coordinate table. It holds floating-point data that no
  handler reads.
- Concurrency. Node runs each handler to completion, so every method is
  one atomic step.
- Non-string request values. The body is arbitrary JSON. A truthy number
  or object passes the `!field` test and is stored as it is, and `0`,
  `false` and `null` are rejected. The model takes each field as an
  optional string.
- Number width. `rideCounter` and the totals are JavaScript doubles. The
  model uses unbounded integers, so it does not capture lost precision
  beyond 2^53 or exponent notation in ids beyond 10^21.
- The `__proto__` key. Assigning a string to it is silently ignored. The
  as-written award model covers the ordinary inherited method names but
  not this key.
- Error message texts. The three 404 messages, and the 400 message, are
  not modelled. Only which outcome occurs is modelled.
