/** Values of the ride ledger: rides, their lifecycle, ride ids, and the
    point ledger's specification. The mutable store itself is in module Ledger. */
module Rides {

  datatype Option<+T> = None | Some(value: T)

  /** A timestamp as the request handlers record it (an ISO-8601 string read
      from the wall clock). It is a string the model never inspects; each
      operation receives it as an argument. */
  type Time = string

  /** The lifecycle of a ride: pending -> accepted -> in_progress -> completed. */
  datatype Status = Pending | Accepted | InProgress | Completed

  /** Position of a status along the lifecycle. */
  function Rank(s: Status): nat {
    match s
    case Pending => 0
    case Accepted => 1
    case InProgress => 2
    case Completed => 3
  }

  /** The transition table: the only status a ride may move to from `s`. */
  function Successor(s: Status): (r: Option<Status>)
    ensures r.None? <==> s == Completed
    ensures r.Some? ==> Rank(r.value) == Rank(s) + 1
  {
    match s
    case Pending => Some(Accepted)
    case Accepted => Some(InProgress)
    case InProgress => Some(Completed)
    case Completed => None
  }

  /** Points awarded for one completed ride. */
  const BasePointsPerRide: int := 10

  /** The demo puller the point ledger starts with. */
  const SeedPuller: string := "puller_001"

  /** The point ledger at start-up. */
  const InitialPoints: map<string, int> := map[SeedPuller := 0]

  /** The value of the ride counter at start-up: the first ride is ride_1. */
  const FirstRideNumber: nat := 1

  /** A puller's start-up total: its seeded value, or nothing. */
  function SeedPoints(p: string): int {
    if p in InitialPoints then InitialPoints[p] else 0
  }

  /** One decimal digit. */
  function DigitChar(d: nat): (c: char)
    requires d < 10
    ensures '0' <= c <= '9'
  {
    ('0' as int + d) as char
  }

  /** The decimal rendering of a counter value, as a template literal prints it. */
  function Decimal(n: nat): (s: string)
    ensures |s| >= 1
    ensures |s| == 1 <==> n < 10
    ensures s[|s| - 1] == DigitChar(n % 10)
    decreases n
  {
    if n < 10 then [DigitChar(n)] else Decimal(n / 10) + [DigitChar(n % 10)]
  }

  /** No two counter values render to the same digits. */
  lemma {:induction false} DecimalInjective(m: nat, n: nat)
    requires Decimal(m) == Decimal(n)
    ensures m == n
  {
    var sm, sn := Decimal(m), Decimal(n);
    if m < 10 || n < 10 {
      assert m < 10 && n < 10;
      assert DigitChar(m) == sm[0] == sn[0] == DigitChar(n);
    } else {
      assert sm[..|sm| - 1] == Decimal(m / 10);
      assert sn[..|sn| - 1] == Decimal(n / 10);
      DecimalInjective(m / 10, n / 10);
      assert DigitChar(m % 10) == DigitChar(n % 10);
    }
  }

  /** The id given to the ride created when the counter is `n`: `ride_<n>`. */
  function RideId(n: nat): string {
    "ride_" + Decimal(n)
  }

  /** Distinct counter values give distinct ride ids. */
  lemma RideIdInjective(m: nat, n: nat)
    requires RideId(m) == RideId(n)
    ensures m == n
  {
    assert Decimal(m) == RideId(m)[5..];
    assert Decimal(n) == RideId(n)[5..];
    DecimalInjective(m, n);
  }

  /** One ride record. The timestamps after the request are absent until the
      transition that records them. */
  datatype Ride = Ride(
    id: string,
    pickup: string,
    destination: string,
    pullerId: string,
    status: Status,
    requestTime: Time,
    acceptTime: Option<Time>,
    pickupTime: Option<Time>,
    dropoffTime: Option<Time>,
    points: int)

  /** A request-body field passes the handler's truthiness test: it is
      present and is not the empty string. */
  predicate Provided(field: Option<string>) {
    field.Some? && field.value != ""
  }

  /** What every stored ride satisfies: validated fields, points awarded
      exactly when completed, and one timestamp per transition taken. */
  predicate WellFormed(r: Ride) {
    && r.pickup != "" && r.destination != "" && r.pullerId != ""
    && r.points == (if r.status == Completed then BasePointsPerRide else 0)
    && (r.acceptTime.Some? <==> Rank(r.status) >= 1)
    && (r.pickupTime.Some? <==> Rank(r.status) >= 2)
    && (r.dropoffTime.Some? <==> r.status == Completed)
  }

  /** The index `rides.find` stops at: the first ride with this id. */
  function FirstMatch(rides: seq<Ride>, id: string): (k: Option<nat>)
    ensures k.Some? ==> k.value < |rides| && rides[k.value].id == id
    ensures k.Some? ==> forall j :: 0 <= j < k.value ==> rides[j].id != id
    ensures k.None? <==> forall j :: 0 <= j < |rides| ==> rides[j].id != id
  {
    if rides == [] then None
    else if rides[0].id == id then Some(0)
    else match FirstMatch(rides[1..], id)
      case None => None
      case Some(k) => Some(k + 1)
  }

  /** The ride found for `id` exists and stands exactly at status `from`. */
  predicate Eligible(rides: seq<Ride>, id: string, from: Status) {
    var k := FirstMatch(rides, id);
    k.Some? && rides[k.value].status == from
  }

  /** Points one ride adds to puller `p`'s total. */
  function Contribution(r: Ride, p: string): int {
    if r.pullerId == p && r.status == Completed then r.points else 0
  }

  /** Sum of `points` over puller `p`'s completed rides. */
  function Earned(rides: seq<Ride>, p: string): int {
    if rides == [] then 0
    else Earned(rides[..|rides| - 1], p) + Contribution(rides[|rides| - 1], p)
  }

  /** Number of puller `p`'s completed rides. */
  function CompletedCount(rides: seq<Ride>, p: string): nat {
    if rides == [] then 0
    else CompletedCount(rides[..|rides| - 1], p)
         + (if rides[|rides| - 1].pullerId == p && rides[|rides| - 1].status == Completed then 1 else 0)
  }

  /** The ledger invariant over the store's three parts. */
  ghost predicate Consistent(rides: seq<Ride>, points: map<string, int>, counter: nat) {
    && counter == FirstRideNumber + |rides|
    && (forall i :: 0 <= i < |rides| ==> rides[i].id == RideId(FirstRideNumber + i))
    && (forall i :: 0 <= i < |rides| ==> WellFormed(rides[i]))
    && (forall p :: p in points <==> p in InitialPoints || CompletedCount(rides, p) > 0)
    && (forall p :: p in points ==> points[p] == SeedPoints(p) + Earned(rides, p))
  }

  /** Statuses never move backwards and rides are never removed or renamed. */
  ghost predicate NoRegress(before: seq<Ride>, after: seq<Ride>) {
    && |before| <= |after|
    && forall i :: 0 <= i < |before| ==>
         after[i].id == before[i].id && Rank(before[i].status) <= Rank(after[i].status)
  }

  /** Moving one ride forward, keeping its id, is no regression. */
  lemma StepNoRegress(rides: seq<Ride>, k: nat, r: Ride)
    requires k < |rides|
    requires r.id == rides[k].id && Rank(rides[k].status) <= Rank(r.status)
    ensures NoRegress(rides, rides[k := r])
  {
  }

  /** The award on dropoff: a puller that already has a total gets the base
      award added to it; one without a total gets a new entry at the award. */
  function Award(points: map<string, int>, p: string): (r: map<string, int>)
    ensures r.Keys == points.Keys + {p}
    ensures p in points ==> r[p] == points[p] + BasePointsPerRide
    ensures p !in points ==> r[p] == BasePointsPerRide
    ensures forall q :: q in points && q != p ==> r[q] == points[q]
  {
    points[p := (if p in points then points[p] else 0) + BasePointsPerRide]
  }

  /** The ledger invariant holds of the start-up state. */
  lemma InitialConsistent()
    ensures Consistent([], InitialPoints, FirstRideNumber)
  {
  }

  /** Replacing one ride swaps its contribution for the new one's. */
  lemma {:induction false} EarnedUpdate(rides: seq<Ride>, k: nat, r: Ride, p: string)
    requires k < |rides|
    ensures Earned(rides[k := r], p) == Earned(rides, p) - Contribution(rides[k], p) + Contribution(r, p)
    ensures CompletedCount(rides[k := r], p)
            == CompletedCount(rides, p)
               - (if rides[k].pullerId == p && rides[k].status == Completed then 1 else 0)
               + (if r.pullerId == p && r.status == Completed then 1 else 0)
  {
    var n := |rides|;
    var u := rides[k := r];
    if k == n - 1 {
      assert u[..n - 1] == rides[..n - 1];
    } else {
      assert u[..n - 1] == rides[..n - 1][k := r];
      EarnedUpdate(rides[..n - 1], k, r, p);
    }
  }

  /** When every ride is well formed, a puller has earned the base award
      once per completed ride. */
  lemma {:induction false} EarnedIsAwardPerCompleted(rides: seq<Ride>, p: string)
    requires forall i :: 0 <= i < |rides| ==> WellFormed(rides[i])
    ensures Earned(rides, p) == BasePointsPerRide * CompletedCount(rides, p)
  {
    if rides != [] {
      EarnedIsAwardPerCompleted(rides[..|rides| - 1], p);
    }
  }

  /** Ledger totals: a puller has an entry exactly when it is the seeded
      puller or has a completed ride, and the entry is its seed plus the
      base award per completed ride. */
  lemma PullerTotal(rides: seq<Ride>, points: map<string, int>, counter: nat, p: string)
    requires Consistent(rides, points, counter)
    ensures p in points <==> p == SeedPuller || CompletedCount(rides, p) > 0
    ensures p in points ==> points[p] == SeedPoints(p) + BasePointsPerRide * CompletedCount(rides, p)
  {
    EarnedIsAwardPerCompleted(rides, p);
  }

  /** Ride ids are pairwise distinct. */
  lemma IdsUnique(rides: seq<Ride>, points: map<string, int>, counter: nat)
    requires Consistent(rides, points, counter)
    ensures forall i, j :: 0 <= i < |rides| && 0 <= j < |rides| && rides[i].id == rides[j].id ==> i == j
  {
    forall i, j | 0 <= i < |rides| && 0 <= j < |rides| && rides[i].id == rides[j].id
      ensures i == j
    {
      RideIdInjective(FirstRideNumber + i, FirstRideNumber + j);
    }
  }

  /** The id the counter will hand out next belongs to no stored ride. */
  lemma NextIdFresh(rides: seq<Ride>, points: map<string, int>, counter: nat)
    requires Consistent(rides, points, counter)
    ensures forall i :: 0 <= i < |rides| ==> rides[i].id != RideId(counter)
  {
    forall i | 0 <= i < |rides|
      ensures rides[i].id != RideId(counter)
    {
      if rides[i].id == RideId(counter) {
        RideIdInjective(FirstRideNumber + i, counter);
      }
    }
  }

  /** With unique ids, the first match for a stored ride's id is that ride. */
  lemma FirstMatchOfStored(rides: seq<Ride>, points: map<string, int>, counter: nat, k: nat)
    requires Consistent(rides, points, counter)
    requires k < |rides|
    ensures FirstMatch(rides, rides[k].id) == Some(k)
  {
    IdsUnique(rides, points, counter);
  }

  /** Replacing one ride by a well-formed ride with the same id, puller and
      completion keeps the ledger invariant. */
  lemma UpdateKeepsConsistent(rides: seq<Ride>, points: map<string, int>, counter: nat, k: nat, r: Ride)
    requires Consistent(rides, points, counter)
    requires k < |rides| && WellFormed(r)
    requires r.id == rides[k].id && r.pullerId == rides[k].pullerId
    requires r.status == Completed <==> rides[k].status == Completed
    ensures Consistent(rides[k := r], points, counter)
  {
    forall p | true
      ensures Earned(rides[k := r], p) == Earned(rides, p)
      ensures CompletedCount(rides[k := r], p) == CompletedCount(rides, p)
    {
      EarnedUpdate(rides, k, r, p);
    }
  }

  /** Completing an in-progress ride and awarding its puller keeps the
      ledger invariant. */
  lemma CompleteKeepsConsistent(rides: seq<Ride>, points: map<string, int>, counter: nat, k: nat, r: Ride)
    requires Consistent(rides, points, counter)
    requires k < |rides| && WellFormed(r)
    requires r.id == rides[k].id && r.pullerId == rides[k].pullerId
    requires rides[k].status == InProgress && r.status == Completed
    ensures Consistent(rides[k := r], Award(points, r.pullerId), counter)
  {
    var u := rides[k := r];
    var a := Award(points, r.pullerId);
    forall p | true
      ensures Earned(u, p) == Earned(rides, p) + (if p == r.pullerId then BasePointsPerRide else 0)
      ensures CompletedCount(u, p) == CompletedCount(rides, p) + (if p == r.pullerId then 1 else 0)
    {
      EarnedUpdate(rides, k, r, p);
    }
    var q := r.pullerId;
    if q !in points {
      EarnedIsAwardPerCompleted(rides, q);
    }
    assert a[q] == SeedPoints(q) + Earned(u, q);
  }

  /** Appending a freshly requested ride keeps the ledger invariant. */
  lemma AppendKeepsConsistent(rides: seq<Ride>, points: map<string, int>, counter: nat, r: Ride)
    requires Consistent(rides, points, counter)
    requires WellFormed(r) && r.status == Pending && r.id == RideId(counter)
    ensures Consistent(rides + [r], points, counter + 1)
  {
  }
}
