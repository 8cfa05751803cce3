/** The in-memory ride store and the request handlers that act on it, each
    taken as one atomic operation on the store. */
module Ledger {
  import opened Rides

  /** Reply of the ride-request handler: 201 with the new id, or 400. */
  datatype CreateOutcome = Created(rideId: string) | ValidationError

  /** Reply of the status poll: 200 with the status, or 404. */
  datatype StatusOutcome = Found(status: Status) | RideNotFound

  /** Reply of a transition: 200 with the updated ride, or 404, which covers
      both an unknown id and a ride in the wrong state. */
  datatype TransitionOutcome = Updated(ride: Ride) | Unable

  class RideLedger {
    /** All rides, in creation order. */
    var rides: seq<Ride>
    /** Running point total per puller id. */
    var pullerPoints: map<string, int>
    /** The number the next ride id is made from. */
    var rideCounter: nat

    ghost predicate Valid()
      reads this
    {
      Consistent(rides, pullerPoints, rideCounter)
    }

    /** The store at start-up: no rides, the seeded puller at zero, ride_1 next. */
    constructor ()
      ensures Valid()
      ensures rides == [] && pullerPoints == InitialPoints && rideCounter == FirstRideNumber
    {
      rides := [];
      pullerPoints := InitialPoints;
      rideCounter := FirstRideNumber;
      InitialConsistent();
    }

    /** `rides.find(r => r.id === id)`, as the index of the ride it returns. */
    method Find(id: string) returns (k: Option<nat>)
      ensures k == FirstMatch(rides, id)
    {
      var i := 0;
      while i < |rides|
        invariant 0 <= i <= |rides|
        invariant forall j :: 0 <= j < i ==> rides[j].id != id
      {
        if rides[i].id == id {
          return Some(i);
        }
        i := i + 1;
      }
      return None;
    }

    /** POST /request-ride. */
    method CreateRide(pickup: Option<string>, destination: Option<string>, pullerId: Option<string>, now: Time)
      returns (outcome: CreateOutcome)
      requires Valid()
      modifies this
      ensures Valid()
      ensures outcome.ValidationError? <==> !(Provided(pickup) && Provided(destination) && Provided(pullerId))
      ensures outcome.ValidationError? ==>
        rides == old(rides) && pullerPoints == old(pullerPoints) && rideCounter == old(rideCounter)
      ensures outcome.Created? ==>
        && outcome.rideId == RideId(old(rideCounter))
        && rides == old(rides) + [Ride(outcome.rideId, pickup.value, destination.value, pullerId.value,
                                       Pending, now, None, None, None, 0)]
        && rideCounter == old(rideCounter) + 1
        && pullerPoints == old(pullerPoints)
      ensures outcome.Created? ==> forall i :: 0 <= i < |old(rides)| ==> old(rides)[i].id != outcome.rideId
      ensures NoRegress(old(rides), rides)
    {
      if !Provided(pickup) || !Provided(destination) || !Provided(pullerId) {
        return ValidationError;
      }
      var id := RideId(rideCounter);
      var ride := Ride(id, pickup.value, destination.value, pullerId.value, Pending, now, None, None, None, 0);
      NextIdFresh(rides, pullerPoints, rideCounter);
      AppendKeepsConsistent(rides, pullerPoints, rideCounter, ride);
      rideCounter := rideCounter + 1;
      rides := rides + [ride];
      outcome := Created(id);
    }

    /** GET /rides: the rides in creation order and the point totals. */
    method ListRides() returns (snapshot: seq<Ride>, totals: map<string, int>)
      requires Valid()
      ensures snapshot == rides && totals == pullerPoints
      ensures forall i, j :: 0 <= i < |snapshot| && 0 <= j < |snapshot| && snapshot[i].id == snapshot[j].id ==> i == j
      ensures forall i :: 0 <= i < |snapshot| ==> (snapshot[i].points != 0 <==> snapshot[i].status == Completed)
      ensures forall p :: p in totals ==> totals[p] == SeedPoints(p) + BasePointsPerRide * CompletedCount(snapshot, p)
    {
      snapshot, totals := rides, pullerPoints;
      IdsUnique(rides, pullerPoints, rideCounter);
      forall p | p in totals
        ensures totals[p] == SeedPoints(p) + BasePointsPerRide * CompletedCount(snapshot, p)
      {
        PullerTotal(rides, pullerPoints, rideCounter, p);
      }
    }

    /** GET /ride-status/:id. */
    method GetStatus(id: string) returns (outcome: StatusOutcome)
      ensures outcome == RideNotFound <==> forall i :: 0 <= i < |rides| ==> rides[i].id != id
      ensures outcome.Found? ==> exists i :: 0 <= i < |rides| && rides[i].id == id && rides[i].status == outcome.status
      ensures outcome.Found? ==> outcome.status == rides[FirstMatch(rides, id).value].status
    {
      var k := Find(id);
      if k.Some? {
        outcome := Found(rides[k.value].status);
      } else {
        outcome := RideNotFound;
      }
    }

    /** POST /accept-ride/:id: pending -> accepted. */
    method Accept(id: string, now: Time) returns (outcome: TransitionOutcome)
      requires Valid()
      modifies this
      ensures Valid()
      ensures rideCounter == old(rideCounter) && pullerPoints == old(pullerPoints)
      ensures outcome.Updated? <==> Eligible(old(rides), id, Pending)
      ensures outcome.Updated? ==>
        var k := FirstMatch(old(rides), id).value;
        && outcome.ride == old(rides)[k].(status := Accepted, acceptTime := Some(now))
        && Successor(old(rides)[k].status) == Some(outcome.ride.status)
        && rides == old(rides)[k := outcome.ride]
      ensures outcome.Unable? ==> rides == old(rides)
      ensures NoRegress(old(rides), rides) && |rides| == |old(rides)|
    {
      var k := Find(id);
      if k.Some? && rides[k.value].status == Pending {
        var ride := rides[k.value].(status := Accepted, acceptTime := Some(now));
        StepNoRegress(rides, k.value, ride);
        UpdateKeepsConsistent(rides, pullerPoints, rideCounter, k.value, ride);
        rides := rides[k.value := ride];
        outcome := Updated(ride);
      } else {
        outcome := Unable;
      }
    }

    /** POST /confirm-pickup/:id: accepted -> in_progress. */
    method ConfirmPickup(id: string, now: Time) returns (outcome: TransitionOutcome)
      requires Valid()
      modifies this
      ensures Valid()
      ensures rideCounter == old(rideCounter) && pullerPoints == old(pullerPoints)
      ensures outcome.Updated? <==> Eligible(old(rides), id, Accepted)
      ensures outcome.Updated? ==>
        var k := FirstMatch(old(rides), id).value;
        && outcome.ride == old(rides)[k].(status := InProgress, pickupTime := Some(now))
        && Successor(old(rides)[k].status) == Some(outcome.ride.status)
        && rides == old(rides)[k := outcome.ride]
      ensures outcome.Unable? ==> rides == old(rides)
      ensures NoRegress(old(rides), rides) && |rides| == |old(rides)|
    {
      var k := Find(id);
      if k.Some? && rides[k.value].status == Accepted {
        var ride := rides[k.value].(status := InProgress, pickupTime := Some(now));
        StepNoRegress(rides, k.value, ride);
        UpdateKeepsConsistent(rides, pullerPoints, rideCounter, k.value, ride);
        rides := rides[k.value := ride];
        outcome := Updated(ride);
      } else {
        outcome := Unable;
      }
    }

    /** POST /confirm-dropoff/:id: in_progress -> completed, awarding the
        base points to the ride and to its puller's total. */
    method ConfirmDropoff(id: string, now: Time) returns (outcome: TransitionOutcome)
      requires Valid()
      modifies this
      ensures Valid()
      ensures rideCounter == old(rideCounter)
      ensures outcome.Updated? <==> Eligible(old(rides), id, InProgress)
      ensures outcome.Updated? ==>
        var k := FirstMatch(old(rides), id).value;
        && outcome.ride == old(rides)[k].(status := Completed, dropoffTime := Some(now), points := BasePointsPerRide)
        && Successor(old(rides)[k].status) == Some(outcome.ride.status)
        && rides == old(rides)[k := outcome.ride]
        && pullerPoints == Award(old(pullerPoints), outcome.ride.pullerId)
      ensures outcome.Unable? ==> rides == old(rides) && pullerPoints == old(pullerPoints)
      ensures NoRegress(old(rides), rides) && |rides| == |old(rides)|
    {
      var k := Find(id);
      if k.Some? && rides[k.value].status == InProgress {
        var ride := rides[k.value].(status := Completed, dropoffTime := Some(now), points := BasePointsPerRide);
        StepNoRegress(rides, k.value, ride);
        CompleteKeepsConsistent(rides, pullerPoints, rideCounter, k.value, ride);
        rides := rides[k.value := ride];
        pullerPoints := Award(pullerPoints, ride.pullerId);
        outcome := Updated(ride);
      } else {
        outcome := Unable;
      }
    }
  }

  /** On any valid store and for any request: an accepted request hands out
      an id no earlier ride had, and polling that id at once gives `pending`;
      a refused request leaves the id it would have received unknown. */
  method CreatedRidePollsPending(ledger: RideLedger, pickup: Option<string>, destination: Option<string>,
                                 pullerId: Option<string>, now: Time)
    returns (created: CreateOutcome, polled: StatusOutcome)
    requires ledger.Valid()
    modifies ledger
    ensures ledger.Valid()
    ensures created.Created? <==> Provided(pickup) && Provided(destination) && Provided(pullerId)
    ensures created.Created? ==> forall i :: 0 <= i < |old(ledger.rides)| ==> old(ledger.rides)[i].id != created.rideId
    ensures created.Created? ==> polled == Found(Pending)
    ensures created.ValidationError? ==> polled == RideNotFound && ledger.rideCounter == old(ledger.rideCounter)
  {
    created := ledger.CreateRide(pickup, destination, pullerId, now);
    if created.Created? {
      var last := |ledger.rides| - 1;
      assert ledger.rides[last].id == created.rideId && ledger.rides[last].status == Pending;
      FirstMatchOfStored(ledger.rides, ledger.pullerPoints, ledger.rideCounter, last);
      polled := ledger.GetStatus(created.rideId);
    } else {
      NextIdFresh(ledger.rides, ledger.pullerPoints, ledger.rideCounter);
      polled := ledger.GetStatus(RideId(ledger.rideCounter));
    }
  }

  /** The first half of the lifecycle: a ride for the seeded puller is
      requested, accepted and picked up, with a status poll after each step. */
  method RequestThroughPickup(now: Time) returns (ledger: RideLedger, id: string, seen: seq<StatusOutcome>)
    ensures fresh(ledger) && ledger.Valid()
    ensures |ledger.rides| == 1 && ledger.rides[0].id == id
    ensures ledger.rides[0].status == InProgress && ledger.rides[0].pullerId == SeedPuller
    ensures ledger.pullerPoints == InitialPoints
    ensures seen == [Found(Pending), Found(Accepted), Found(InProgress)]
  {
    ledger := new RideLedger();
    var created := ledger.CreateRide(Some("CUET Campus"), Some("Pahartoli"), Some(SeedPuller), now);
    id := created.rideId;
    assert |ledger.rides| == 1 && ledger.rides[0].id == id;
    FirstMatchOfStored(ledger.rides, ledger.pullerPoints, ledger.rideCounter, 0);
    var s0 := ledger.GetStatus(id);
    assert s0 == Found(Pending);
    var a := ledger.Accept(id, now);
    assert |ledger.rides| == 1 && ledger.rides[0].id == id && ledger.rides[0].status == Accepted;
    FirstMatchOfStored(ledger.rides, ledger.pullerPoints, ledger.rideCounter, 0);
    var s1 := ledger.GetStatus(id);
    assert s1 == Found(Accepted);
    var b := ledger.ConfirmPickup(id, now);
    assert |ledger.rides| == 1 && ledger.rides[0].id == id && ledger.rides[0].status == InProgress;
    FirstMatchOfStored(ledger.rides, ledger.pullerPoints, ledger.rideCounter, 0);
    var s2 := ledger.GetStatus(id);
    seen := [s0, s1, s2];
  }

  /** A ride for the seeded puller taken through its whole lifecycle: the
      status poll sees each state in turn and the puller ends with one award. */
  method LifecycleScenario(now: Time) returns (seen: seq<StatusOutcome>, total: int)
    ensures seen == [Found(Pending), Found(Accepted), Found(InProgress), Found(Completed)]
    ensures total == BasePointsPerRide
  {
    var ledger, id, first := RequestThroughPickup(now);
    FirstMatchOfStored(ledger.rides, ledger.pullerPoints, ledger.rideCounter, 0);
    var c := ledger.ConfirmDropoff(id, now);
    assert c.Updated? && c.ride.pullerId == SeedPuller;
    assert ledger.pullerPoints == Award(InitialPoints, SeedPuller);
    FirstMatchOfStored(ledger.rides, ledger.pullerPoints, ledger.rideCounter, 0);
    var last := ledger.GetStatus(id);
    seen := first + [last];
    total := ledger.pullerPoints[SeedPuller];
  }

  /** Accepting the same ride twice: the second attempt is refused. */
  method RepeatedAcceptScenario(now: Time) returns (first: TransitionOutcome, second: TransitionOutcome)
    ensures first.Updated? && first.ride.status == Accepted
    ensures second == Unable
  {
    var ledger := new RideLedger();
    var created := ledger.CreateRide(Some("CUET Campus"), Some("Pahartoli"), Some(SeedPuller), now);
    first := ledger.Accept(created.rideId, now);
    second := ledger.Accept(created.rideId, now);
  }

  /** A dropoff confirmed before the pickup is refused and the ride stays accepted. */
  method EarlyDropoffScenario(now: Time) returns (dropoff: TransitionOutcome, after: StatusOutcome)
    ensures dropoff == Unable
    ensures after == Found(Accepted)
  {
    var ledger := new RideLedger();
    var created := ledger.CreateRide(Some("CUET Campus"), Some("Pahartoli"), Some(SeedPuller), now);
    var accepted := ledger.Accept(created.rideId, now);
    dropoff := ledger.ConfirmDropoff(created.rideId, now);
    after := ledger.GetStatus(created.rideId);
  }

  /** A request with an empty field is refused and the next good request
      still receives ride_1. */
  method MissingFieldScenario(now: Time) returns (refused: CreateOutcome, accepted: CreateOutcome)
    ensures refused == ValidationError
    ensures accepted == Created(RideId(FirstRideNumber))
  {
    var ledger := new RideLedger();
    refused := ledger.CreateRide(Some("CUET Campus"), Some(""), Some(SeedPuller), now);
    accepted := ledger.CreateRide(Some("CUET Campus"), Some("Pahartoli"), Some(SeedPuller), now);
  }

  /** Polling an id no ride has is answered "not found". */
  method UnknownIdScenario(now: Time) returns (known: StatusOutcome, unknown: StatusOutcome)
    ensures known == Found(Pending)
    ensures unknown == RideNotFound
  {
    var ledger := new RideLedger();
    var created := ledger.CreateRide(Some("CUET Campus"), Some("Pahartoli"), Some(SeedPuller), now);
    FirstMatchOfStored(ledger.rides, ledger.pullerPoints, ledger.rideCounter, 0);
    known := ledger.GetStatus(created.rideId);
    NextIdFresh(ledger.rides, ledger.pullerPoints, ledger.rideCounter);
    unknown := ledger.GetStatus(RideId(FirstRideNumber + 1));
  }
}
