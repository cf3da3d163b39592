/** Which driver is on which truck, over every run. */
module Fleet {
  import opened Base
  import opened Trips
  import TruckSwaps

  /** No driver is on two trucks. */
  ghost predicate OneTruckEach(trucks: seq<Truck>) {
    forall i, j :: 0 <= i < j < |trucks| && trucks[i].driver.Some? ==> trucks[i].driver != trucks[j].driver
  }

  /** No two trucks of a company have the same plate. */
  ghost predicate OnePlateEach(trucks: seq<Truck>) {
    forall i, j :: 0 <= i < j < |trucks| && trucks[i].company == trucks[j].company ==> trucks[i].plate != trucks[j].plate
  }

  /** Every trip is on a truck of its own company. */
  ghost predicate OnOwnTrucks(s: State) {
    forall i :: 0 <= i < |s.trips| ==> IsOnOwn(s.trips[i], s.trucks)
  }

  predicate IsOnOwn(row: Trip, trucks: seq<Truck>) {
    row.truck < |trucks| && trucks[row.truck].company == row.company
  }

  ghost predicate SameDrivers(a: seq<Truck>, b: seq<Truck>) {
    SameNumbers(a, b) && forall i :: 0 <= i < |a| ==> a[i].driver == b[i].driver
  }

  ghost predicate SameNumbers(a: seq<Truck>, b: seq<Truck>) {
    |a| == |b| && forall i :: 0 <= i < |a| ==> a[i].company == b[i].company && a[i].plate == b[i].plate
  }

  ghost predicate SameTrucks(a: seq<Trip>, b: seq<Trip>) {
    |a| == |b| && forall i :: 0 <= i < |a| ==> a[i].truck == b[i].truck && a[i].company == b[i].company
  }

  lemma FromTheTruckCard(trucks: seq<Truck>, truck: TruckId, driver: Option<UserId>)
    requires OneTruckEach(trucks) && truck < |trucks|
    ensures OneTruckEach(PutDriverOnTruck(trucks, truck, driver))
    ensures PutDriverOnTruck(trucks, truck, driver)[truck].driver == driver
    ensures SameNumbers(trucks, PutDriverOnTruck(trucks, truck, driver))
  {
    var r := PutDriverOnTruck(trucks, truck, driver);
    if driver.Some? && driver != trucks[truck].driver {
      var previous := TruckWith(trucks, driver.value, truck, |trucks|);
      forall i | 0 <= i < |trucks| && i != truck ensures r[i].driver != driver {
        if previous.Some? && i != previous.value {
          assert previous.value < i || i < previous.value;
        }
      }
    }
  }

  lemma FromTheDriverCard(trucks: seq<Truck>, driver: UserId, truck: Option<TruckId>)
    requires OneTruckEach(trucks) && (truck.Some? ==> truck.value < |trucks|)
    ensures OneTruckEach(PutTruckOnDriver(trucks, driver, truck)) && OneTruckEach(Release(trucks, driver))
    ensures SameNumbers(trucks, PutTruckOnDriver(trucks, driver, truck)) && SameNumbers(trucks, Release(trucks, driver))
  {
  }

  /** Main result: from every reachable assignment the truck card and the driver card do the same:
      putting a driver on a truck, and clearing a truck or its driver. */
  lemma CardsAgree(trucks: seq<Truck>, truck: TruckId, driver: UserId)
    requires OneTruckEach(trucks) && truck < |trucks|
    ensures PutDriverOnTruck(trucks, truck, Some(driver)) == PutTruckOnDriver(trucks, driver, Some(truck))
    ensures trucks[truck].driver == Some(driver) ==> PutDriverOnTruck(trucks, truck, None) == PutTruckOnDriver(trucks, driver, None)
  {
    var freed := Release(trucks, driver);
    var previous := TruckWith(trucks, driver, truck, |trucks|);
    forall i | 0 <= i < |trucks| && i != truck && !(previous.Some? && i == previous.value) ensures trucks[i].driver != Some(driver) {
      if previous.Some? {
        assert previous.value < i || i < previous.value;
      }
    }
  }

  // ----- over runs

  ghost predicate Sound(s: State) {
    OneTruckEach(s.trucks) && OnePlateEach(s.trucks) && OnOwnTrucks(s)
  }

  lemma SoundAfter(s: State, t: State)
    requires Sound(s) && SameDrivers(s.trucks, t.trucks) && SameTrucks(s.trips, t.trips)
    ensures Sound(t)
  {
    forall i | 0 <= i < |t.trips| ensures IsOnOwn(t.trips[i], t.trucks) {
      assert IsOnOwn(s.trips[i], s.trucks);
    }
  }

  lemma TripsSound(s: State, op: TripOp, now: Time)
    requires Sound(s)
    ensures Sound(TripsEffect(s, op, now).state)
  {
    hide InCompany, FindActive, AssignTruck, IsOnOwn, OneTruckEach;
    match op
    case Create(company, manager, driver, truck) => CreateSound(s, company, manager, driver, truck, now);
    case GiveToTruck(trip, company, truck, strategy, actor) => TruckChangeSound(s, trip, company, truck, strategy, actor, now);
    case _ => SoundAfter(s, TripsEffect(s, op, now).state);
  }

  lemma CreateSound(s: State, company: CompanyId, manager: UserId, driver: UserId, truck: TruckId, now: Time)
    requires Sound(s)
    ensures Sound(CreateTrip(s, company, manager, driver, truck, now).state)
  {
  }

  lemma TruckChangeSound(s: State, trip: TripId, company: Option<CompanyId>, truck: TruckId, strategy: Option<Strategy>,
                         actor: UserId, now: Time)
    requires Sound(s)
    ensures Sound(AssignTruck(s, trip, company, truck, strategy, actor, now).state)
  {
    if TruckSwaps.Moves(s, trip, company, truck, strategy, actor, now) {
      TruckSwaps.MovesMeans(s, trip, company, truck, strategy, actor, now);
      MovedSound(s, trip, truck, strategy, actor, now);
    } else {
      hide Resettle, NewestOpen, Sound;
    }
  }

  lemma MovedSound(s: State, trip: TripId, truck: TruckId, strategy: Option<Strategy>, actor: UserId, now: Time)
    requires Sound(s)
    requires trip < |s.trips| && s.trips[trip].truck < |s.trucks| && truck < |s.trucks| && s.trucks[truck].driver.Some?
    requires truck != s.trips[trip].truck && s.trucks[truck].company == s.trips[trip].company
    requires Blocking(s, trip, truck).Some? ==> strategy.Some?
    requires Blocking(s, trip, truck).Some? && strategy == Some(Swap) ==> s.trucks[s.trips[trip].truck].driver.Some?
    ensures Sound(Resettle(s, trip, truck, Blocking(s, trip, truck), strategy, actor, now))
  {
    var row, blocking := s.trips[trip], Blocking(s, trip, truck);
    hide Settled, SyncOwnership, NewestOpen;
    TruckSwaps.SettledTrips(s, trip, truck, blocking, strategy, actor, now);
    var settled := Settled(s, trip, truck, blocking, strategy, actor, now);
    assert Sound(settled) by {
      forall i | 0 <= i < |settled.trips| ensures IsOnOwn(settled.trips[i], settled.trucks) {
        assert IsOnOwn(s.trips[i], s.trucks) && IsOnOwn(s.trips[trip], s.trucks);
      }
    }
    var sourceManager :=
      if blocking.Some? && strategy == Some(Swap) then Some(s.trips[blocking.value].manager) else s.trucks[truck].manager;
    TruckSwaps.SyncTrucks(settled, row.company, truck, row.manager, row.truck, sourceManager, actor, now);
    SoundAfter(settled, SyncOwnership(settled, row.company, truck, row.manager, row.truck, sourceManager, actor, now));
  }

  lemma {:induction false} CascadeSound(s: State, truck: TruckId, manager: UserId, actor: UserId, now: Time, n: nat)
    requires n <= |s.trips|
    ensures var t := Cascade(s, truck, manager, actor, now, n); t.trucks == s.trucks && SameTrucks(s.trips, t.trips)
  {
    hide FollowsTruck, FindActive;
    if n > 0 {
      CascadeSound(s, truck, manager, actor, now, n - 1);
    }
  }

  lemma TrucksSound(s: State, op: TruckOp, now: Time)
    requires Sound(s)
    ensures Sound(TrucksEffect(s, op, now).state)
  {
    hide InCompany, UpdateTruck, AddTruck, PutTruckOnDriver, IsOnOwn;
    match op
    case EditTruck(truck, company, plate, driver, manager, actor) => EditSound(s, truck, company, plate, driver, manager, actor, now);
    case NewTruck(company, plate, driver, manager) => NewTruckSound(s, company, plate, driver, manager);
    case EditDriver(driver, truck) =>
      if truck.Some? ==> truck.value < |s.trucks| {
        FromTheDriverCard(s.trucks, driver, truck);
        CompaniesKeepTrips(s, PutTruckOnDriver(s.trucks, driver, truck));
      }
    case FreeDriver(driver) =>
      FromTheDriverCard(s.trucks, driver, None);
      CompaniesKeepTrips(s, Release(s.trucks, driver));
  }

  lemma NewTruckSound(s: State, company: CompanyId, plate: Plate, driver: Option<UserId>, manager: Option<UserId>)
    requires Sound(s)
    ensures Sound(AddTruck(s, company, plate, driver, manager).state)
  {
    var t := AddTruck(s, company, plate, driver, manager).state;
    forall i | 0 <= i < |t.trips| ensures IsOnOwn(t.trips[i], t.trucks) {
      assert IsOnOwn(s.trips[i], s.trucks);
    }
  }

  lemma CompaniesKeepTrips(s: State, trucks: seq<Truck>)
    requires OnOwnTrucks(s) && OnePlateEach(s.trucks) && SameNumbers(s.trucks, trucks)
    ensures OnOwnTrucks(s.(trucks := trucks)) && OnePlateEach(trucks)
  {
    forall i | 0 <= i < |s.trips| ensures IsOnOwn(s.trips[i], trucks) {
      assert IsOnOwn(s.trips[i], s.trucks);
    }
  }

  /** An edit gives the truck a free plate, moves the driver as the truck card does, and leaves other trucks' plates. */
  lemma EditRowSound(s: State, truck: TruckId, plate: Option<Plate>, driver: Patch<UserId>, manager: Patch<UserId>)
    requires Sound(s) && truck < |s.trucks|
    requires plate.Some? ==> PlateOwner(s.trucks, s.trucks[truck].company, plate.value, Some(truck), |s.trucks|).None?
    ensures Sound(s.(trucks := EditRow(s.trucks, truck, plate, driver, manager)))
  {
    hide PutDriverOnTruck, IsOnOwn, PlateOwner;
    var driven := if driver.Put? then PutDriverOnTruck(s.trucks, truck, driver.value) else s.trucks;
    if driver.Put? { FromTheTruckCard(s.trucks, truck, driver.value); }
    CompaniesKeepTrips(s, driven);
    var trucks := EditRow(s.trucks, truck, plate, driver, manager);
    forall i | 0 <= i < |s.trips| ensures IsOnOwn(s.trips[i], trucks) {
      OwnAfterEdit(s.trips[i], driven, trucks);
    }
  }

  lemma OwnAfterEdit(row: Trip, a: seq<Truck>, b: seq<Truck>)
    requires IsOnOwn(row, a) && |a| == |b| && forall i :: 0 <= i < |a| ==> a[i].company == b[i].company
    ensures IsOnOwn(row, b)
  {
  }

  lemma EditSound(s: State, truck: TruckId, company: CompanyId, plate: Option<Plate>, driver: Patch<UserId>, manager: Patch<UserId>,
                  actor: UserId, now: Time)
    requires Sound(s)
    ensures Sound(UpdateTruck(s, truck, company, plate, driver, manager, actor, now).state)
  {
    hide InCompany, Cascade, EditRow, Sound, PlateOwner;
    if UpdateTruck(s, truck, company, plate, driver, manager, actor, now).answer.Done? {
      EditRowSound(s, truck, plate, driver, manager);
      var s1 := s.(trucks := EditRow(s.trucks, truck, plate, driver, manager));
      if manager.Put? && manager.value.Some? {
        CascadeSound(s1, truck, manager.value.value, actor, now, |s1.trips|);
        var t := Cascade(s1, truck, manager.value.value, actor, now, |s1.trips|);
        assert SameDrivers(s1.trucks, t.trucks);
        SoundAfter(s1, t);
      }
    }
  }

  lemma EffectSound(s: State, op: Op, now: Time)
    requires Sound(s)
    ensures Sound(Effect(s, op, now).state)
  {
    hide TripsEffect, TrucksEffect, Broadcast, FindActive, OneTruckEach, ReadsMessage;
    match op
    case OnTrips(op) => TripsSound(s, op, now);
    case OnTrucks(op) => TrucksSound(s, op, now);
    case OnChat(_) =>
    case SetPeople(_) =>
  }

  /** Main result: in every state of every run no driver is on two trucks, no two trucks of a company share a plate, and
      every trip is on a truck of its company. */
  lemma {:induction false} SoundAlways(s: State, calls: seq<Call>)
    requires Sound(s)
    ensures Sound(Final(s, calls))
    decreases |calls|
  {
    hide Effect;
    if calls != [] {
      EffectSound(s, calls[0].op, calls[0].at);
      SoundAlways(Step(s, calls[0]).state, calls[1..]);
    }
  }

  /** So from every reachable state both cards leave the same trucks. */
  lemma CardsAlwaysAgree(calls: seq<Call>, truck: TruckId, company: CompanyId, driver: UserId, actor: UserId, now: Time)
    requires var s := Final(Empty(), calls);
      truck < |s.trucks| && s.trucks[truck].company == company && InCompany(s, driver, company, true)
    ensures var s := Final(Empty(), calls);
      UpdateTruck(s, truck, company, None, Put(Some(driver)), Leave, actor, now) == AssignFromDriverCard(s, driver, Some(truck))
  {
    SoundAlways(Empty(), calls);
    CardsAgree(Final(Empty(), calls).trucks, truck, driver);
    hide Final, PutDriverOnTruck, PutTruckOnDriver, OneTruckEach, OnePlateEach;
  }
}
