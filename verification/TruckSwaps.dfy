/** Moving a trip to another truck: what a swap does, when swapping back undoes it, and who is left managing a truck. */
module TruckSwaps {
  import opened Base
  import opened Trips

  /** The call moves the trip to a truck it is not on. */
  ghost predicate Moves(s: State, trip: TripId, company: Option<CompanyId>, truck: TruckId, strategy: Option<Strategy>,
                        actor: UserId, now: Time)
  {
    AssignTruck(s, trip, company, truck, strategy, actor, now).answer.Done? && s.trips[trip].truck != truck
  }

  lemma MovesMeans(s: State, trip: TripId, company: Option<CompanyId>, truck: TruckId, strategy: Option<Strategy>,
                   actor: UserId, now: Time)
    requires Moves(s, trip, company, truck, strategy, actor, now)
    ensures trip < |s.trips| && s.trips[trip].truck < |s.trucks| && truck < |s.trucks| && s.trucks[truck].driver.Some?
    ensures !s.trips[trip].deleted && s.trucks[truck].company == s.trips[trip].company
    ensures var blocking := Blocking(s, trip, truck);
      && (blocking.Some? ==> strategy.Some?)
      && (blocking.Some? && strategy == Some(Swap) ==> s.trucks[s.trips[trip].truck].driver.Some?)
      && AssignTruck(s, trip, company, truck, strategy, actor, now).state == Resettle(s, trip, truck, blocking, strategy, actor, now)
  {
    hide Resettle, NewestOpen;
  }

  /** A trip on a truck: it has the truck's driver and must be accepted again. */
  function Placed(row: Trip, truck: TruckId, driver: UserId): Trip {
    row.(truck := truck, driver := driver, status := Assigned)
  }

  lemma SettledTrips(s: State, trip: TripId, truck: TruckId, blocking: Option<TripId>, strategy: Option<Strategy>,
                     actor: UserId, now: Time)
    requires trip < |s.trips| && s.trips[trip].truck < |s.trucks| && truck < |s.trucks| && s.trucks[truck].driver.Some?
    requires blocking.Some? ==> blocking.value < |s.trips| && strategy.Some? && blocking.value != trip
    requires blocking.Some? && strategy == Some(Swap) ==> s.trucks[s.trips[trip].truck].driver.Some?
    ensures var t, row := Settled(s, trip, truck, blocking, strategy, actor, now), s.trips[trip];
      var moved := s.trips[trip := Placed(row, truck, s.trucks[truck].driver.value)];
      && t.trucks == s.trucks
      && t.trips == (if blocking.None? then moved
                     else if strategy == Some(Swap) then moved[blocking.value := Placed(s.trips[blocking.value], row.truck, s.trucks[row.truck].driver.value)]
                     else moved[blocking.value := s.trips[blocking.value].(status := Delivered)])
  {
    hide FindActive;
  }

  lemma SyncTrucks(s: State, company: CompanyId, target: TruckId, targetManager: UserId,
                   source: TruckId, sourceManager: Option<UserId>, actor: UserId, now: Time)
    requires target < |s.trucks| && source < |s.trucks| && target != source
    ensures var t := SyncOwnership(s, company, target, targetManager, source, sourceManager, actor, now);
      && t.trips == s.trips
      && t.trucks == s.trucks[target := s.trucks[target].(manager := Some(targetManager))]
                             [source := s.trucks[source].(manager := if sourceManager.Some? then sourceManager else s.trucks[source].manager)]
  {
    hide FindActive, NewestOpen;
    var targetChanged := s.trucks[target].manager != Some(targetManager);
    assert !targetChanged ==> s.trucks == s.trucks[target := s.trucks[target].(manager := Some(targetManager))];
    assert sourceManager.None? ==>
      s.trucks[target := s.trucks[target].(manager := Some(targetManager))]
      == s.trucks[target := s.trucks[target].(manager := Some(targetManager))][source := s.trucks[source].(manager := s.trucks[source].manager)];
  }

  /** What a swap of a and b between the two trucks writes. */
  ghost predicate Swapped(s: State, t: State, a: TripId, b: TripId, source: TruckId, truck: TruckId) {
    && a < |s.trips| && b < |s.trips| && a != b && source < |s.trucks| && truck < |s.trucks| && source != truck
    && s.trucks[source].driver.Some? && s.trucks[truck].driver.Some? && s.trips[a].truck == source
    && t.trips == s.trips[a := Placed(s.trips[a], truck, s.trucks[truck].driver.value)]
                         [b := Placed(s.trips[b], source, s.trucks[source].driver.value)]
    && t.trucks == s.trucks[truck := s.trucks[truck].(manager := Some(s.trips[a].manager))]
                           [source := s.trucks[source].(manager := Some(s.trips[b].manager))]
  }

  /** Main result: a swap exchanges the two trips' trucks, gives each trip the driver of the truck it is now on,
      keeps both trips' managers, hands each truck to the manager of the trip now on it, and touches no other
      trip and no other truck. */
  lemma SwapExchanges(s: State, a: TripId, b: TripId, company: Option<CompanyId>, truck: TruckId, actor: UserId, now: Time)
    requires Moves(s, a, company, truck, Some(Swap), actor, now)
    requires a < |s.trips| && Blocking(s, a, truck) == Some(b)
    ensures s.trips[a].truck != truck && Swapped(s, AssignTruck(s, a, company, truck, Some(Swap), actor, now).state, a, b, s.trips[a].truck, truck)
    ensures b < |s.trips| && s.trips[b].truck == truck && s.trips[b].company == s.trips[a].company && IsOpen(s.trips[b])
  {
    MovesMeans(s, a, company, truck, Some(Swap), actor, now);
    hide AssignTruck, Moves, Settled, SyncOwnership;
    SettledTrips(s, a, truck, Some(b), Some(Swap), actor, now);
    var settled := Settled(s, a, truck, Some(b), Some(Swap), actor, now);
    SyncTrucks(settled, s.trips[a].company, truck, s.trips[a].manager, s.trips[a].truck, Some(s.trips[b].manager), actor, now);
  }

  // ----- swapping back

  /** Trips on the same trucks with the same people, and trucks with the same people. */
  ghost predicate SamePlacement(s: State, t: State) {
    && t.trucks == s.trucks && |t.trips| == |s.trips|
    && forall i :: 0 <= i < |s.trips| ==>
         t.trips[i].truck == s.trips[i].truck && t.trips[i].driver == s.trips[i].driver && t.trips[i].manager == s.trips[i].manager
  }

  /** The trip's driver is its truck's, and its manager the truck's. */
  predicate IsAligned(s: State, trip: TripId)
    requires trip < |s.trips|
  {
    var row := s.trips[trip];
    row.truck < |s.trucks| && s.trucks[row.truck].driver == Some(row.driver) && s.trucks[row.truck].manager == Some(row.manager)
  }

  /** No open trip newer than b stands on the truck, a aside. */
  ghost predicate NewestOn(s: State, a: TripId, b: TripId, truck: TruckId, company: CompanyId) {
    forall i :: b < i < |s.trips| && i != a && s.trips[i].truck == truck && s.trips[i].company == company ==> !IsOpen(s.trips[i])
  }

  lemma SwappedInTheWay(s: State, t: State, a: TripId, b: TripId, truck: TruckId, now: Time)
    requires a < |s.trips| && b < |s.trips| && a != b && s.trips[a].truck != truck && s.trips[b].truck == truck
    requires s.trips[a].company == s.trips[b].company && IsOpen(s.trips[b])
    requires Swapped(s, t, a, b, s.trips[a].truck, truck)
    ensures Blocking(t, a, s.trips[a].truck).Some?
    ensures var c := Blocking(t, a, s.trips[a].truck).value;
      c == b <==> NewestOn(s, a, b, s.trips[a].truck, s.trips[a].company)
  {
    assert forall i :: 0 <= i < |s.trips| && i != a && i != b ==> t.trips[i] == s.trips[i];
    assert IsOpen(t.trips[b]) && t.trips[b].truck == s.trips[a].truck;
    hide IsOpen;
    var found := Blocking(t, a, s.trips[a].truck);
    if found.Some? && found.value == b {
      forall i | b < i < |s.trips| && i != a && s.trips[i].truck == s.trips[a].truck && s.trips[i].company == s.trips[a].company
        ensures !IsOpen(s.trips[i])
      {
        assert !IsOpen(t.trips[i]);
      }
    }
  }

  /** Main result: swapping there and back restores every trip's and truck's people exactly when both trips were
      aligned with their trucks before, and the trip swapped away is the newest open one on the truck it went to. */
  lemma SwapBackRestores(s: State, a: TripId, b: TripId, company: Option<CompanyId>, truck: TruckId,
                         actor: UserId, now: Time, actor2: UserId, later: Time)
    requires Moves(s, a, company, truck, Some(Swap), actor, now)
    requires a < |s.trips| && Blocking(s, a, truck) == Some(b)
    requires var t := AssignTruck(s, a, company, truck, Some(Swap), actor, now).state;
      Moves(t, a, company, s.trips[a].truck, Some(Swap), actor2, later)
    ensures b < |s.trips|
    ensures var t := AssignTruck(s, a, company, truck, Some(Swap), actor, now).state;
      var u := AssignTruck(t, a, company, s.trips[a].truck, Some(Swap), actor2, later).state;
      SamePlacement(s, u) <==>
        IsAligned(s, a) && IsAligned(s, b) && NewestOn(s, a, b, s.trips[a].truck, s.trips[a].company)
  {
    var source := s.trips[a].truck;
    var t := AssignTruck(s, a, company, truck, Some(Swap), actor, now).state;
    var u := AssignTruck(t, a, company, source, Some(Swap), actor2, later).state;
    SwapExchanges(s, a, b, company, truck, actor, now);
    hide AssignTruck, Moves;
    SwappedInTheWay(s, t, a, b, truck, now);
    var c := Blocking(t, a, source).value;
    SwapExchanges(t, a, c, company, source, actor2, later);
    hide Blocking, IsAligned, NewestOn, SamePlacement, Placed, IsOpen;
    if c == b {
      ThereAndBack(s, t, u, a, b, source, truck);
    } else {
      StaysAway(s, t, u, a, b, c, source, truck);
    }
  }

  lemma ThereAndBack(s: State, t: State, u: State, a: TripId, b: TripId, source: TruckId, truck: TruckId)
    requires Swapped(s, t, a, b, source, truck) && Swapped(t, u, a, b, truck, source) && s.trips[b].truck == truck
    ensures SamePlacement(s, u) <==> IsAligned(s, a) && IsAligned(s, b)
  {
    assert u.trips == s.trips[a := Placed(s.trips[a], source, s.trucks[source].driver.value)]
                             [b := Placed(s.trips[b], truck, s.trucks[truck].driver.value)];
    assert u.trucks == s.trucks[truck := s.trucks[truck].(manager := Some(s.trips[b].manager))]
                               [source := s.trucks[source].(manager := Some(s.trips[a].manager))];
    if SamePlacement(s, u) {
      assert u.trips[a].driver == s.trips[a].driver && u.trips[b].driver == s.trips[b].driver;
      assert u.trucks[source].manager == s.trucks[source].manager && u.trucks[truck].manager == s.trucks[truck].manager;
    }
  }

  lemma StaysAway(s: State, t: State, u: State, a: TripId, b: TripId, c: TripId, source: TruckId, truck: TruckId)
    requires Swapped(s, t, a, b, source, truck) && Swapped(t, u, a, c, truck, source) && s.trips[b].truck == truck && c != b
    ensures !SamePlacement(s, u)
  {
    assert u.trips[b].truck == source;
  }

  /** Trips that share no truck with another open trip always swap back. */
  lemma OneTripPerTruckSwapsBack(s: State, a: TripId, b: TripId, company: Option<CompanyId>, truck: TruckId,
                                 actor: UserId, now: Time, actor2: UserId, later: Time)
    requires Moves(s, a, company, truck, Some(Swap), actor, now)
    requires a < |s.trips| && Blocking(s, a, truck) == Some(b) && b < |s.trips| && IsAligned(s, a) && IsAligned(s, b)
    requires s.trucks[s.trips[a].truck].company == s.trips[a].company
    requires forall i :: 0 <= i < |s.trips| && IsOpen(s.trips[i]) && s.trips[i].truck == s.trips[a].truck ==> i == a
    ensures var t := AssignTruck(s, a, company, truck, Some(Swap), actor, now).state;
      Moves(t, a, company, s.trips[a].truck, Some(Swap), actor2, later)
      && SamePlacement(s, AssignTruck(t, a, company, s.trips[a].truck, Some(Swap), actor2, later).state)
  {
    SwapCanReturn(s, a, b, company, truck, actor, now, actor2, later);
    hide AssignTruck, Moves, IsOpen;
    SwapBackRestores(s, a, b, company, truck, actor, now, actor2, later);
  }

  lemma SwapCanReturn(s: State, a: TripId, b: TripId, company: Option<CompanyId>, truck: TruckId,
                      actor: UserId, now: Time, actor2: UserId, later: Time)
    requires Moves(s, a, company, truck, Some(Swap), actor, now)
    requires a < |s.trips| && Blocking(s, a, truck) == Some(b) && IsAligned(s, a) && s.trucks[s.trips[a].truck].company == s.trips[a].company
    ensures var t := AssignTruck(s, a, company, truck, Some(Swap), actor, now).state;
      Moves(t, a, company, s.trips[a].truck, Some(Swap), actor2, later)
  {
    SwapExchanges(s, a, b, company, truck, actor, now);
    MovesMeans(s, a, company, truck, Some(Swap), actor, now);
    hide Resettle, NewestOpen;
  }

  // ----- who manages the trucks

  function ManagersOf(trucks: seq<Truck>): seq<Option<UserId>> {
    seq(|trucks|, i requires 0 <= i < |trucks| => trucks[i].manager)
  }

  lemma Replaced<T>(xs: seq<T>, i: nat, x: T)
    requires i < |xs|
    ensures multiset(xs[i := x]) + multiset{xs[i]} == multiset(xs) + multiset{x}
  {
    assert xs == xs[..i] + [xs[i]] + xs[i + 1..];
    assert xs[i := x] == xs[..i] + [x] + xs[i + 1..];
  }

  lemma Cancel<T(!new)>(a: multiset<T>, b: multiset<T>, x: multiset<T>, y: multiset<T>)
    requires a + x == b + y
    ensures a == b <==> x == y
  {
    assert forall e :: a[e] + x[e] == (a + x)[e] && b[e] + y[e] == (b + y)[e];
    if x == y {
      assert forall e :: a[e] == b[e];
    }
    if a == b {
      assert forall e :: x[e] == y[e];
    }
  }

  lemma HandingOver(trucks: seq<Truck>, i: TruckId, j: TruckId, m: Option<UserId>, n: Option<UserId>)
    requires i < |trucks| && j < |trucks| && i != j
    ensures var after := trucks[i := trucks[i].(manager := m)][j := trucks[j].(manager := n)];
      multiset(ManagersOf(after)) == multiset(ManagersOf(trucks)) <==>
        multiset{m, n} == multiset{trucks[i].manager, trucks[j].manager}
  {
    var before := ManagersOf(trucks);
    var after := trucks[i := trucks[i].(manager := m)][j := trucks[j].(manager := n)];
    assert ManagersOf(after) == before[i := m][j := n];
    HandingOverManagers(before, i, j, m, n);
  }

  lemma HandingOverManagers(xs: seq<Option<UserId>>, i: nat, j: nat, m: Option<UserId>, n: Option<UserId>)
    requires i < |xs| && j < |xs| && i != j
    ensures multiset(xs[i := m][j := n]) == multiset(xs) <==> multiset{m, n} == multiset{xs[i], xs[j]}
  {
    var once := xs[i := m];
    var twice := once[j := n];
    var (a, b, c) := (multiset(twice), multiset(once), multiset(xs));
    assert a + multiset{xs[j]} == b + multiset{n} by { Replaced(once, j, n); }
    assert b + multiset{xs[i]} == c + multiset{m} by { Replaced(xs, i, m); }
    TwoReplacements(a, b, c, xs[j], n, xs[i], m);
  }

  lemma TwoReplacements<T(!new)>(a: multiset<T>, b: multiset<T>, c: multiset<T>, y: T, n: T, x: T, m: T)
    requires a + multiset{y} == b + multiset{n} && b + multiset{x} == c + multiset{m}
    ensures a == c <==> multiset{m, n} == multiset{x, y}
  {
    assert multiset{x, y} == multiset{y} + multiset{x} && multiset{m, n} == multiset{m} + multiset{n};
    assert a + multiset{x, y} == (a + multiset{y}) + multiset{x};
    assert c + multiset{m, n} == (c + multiset{m}) + multiset{n};
    assert (b + multiset{n}) + multiset{x} == (b + multiset{x}) + multiset{n};
    Cancel(a, c, multiset{x, y}, multiset{m, n});
  }

  /** Main result: a truck change leaves the managers of the fleet the same, counted with repetition, exactly when
      – without a swap – the trip's manager managed its old truck and the new truck had a manager;
      – with a swap – the two trips' managers are the two trucks' managers. */
  lemma ManagersConserved(s: State, trip: TripId, company: Option<CompanyId>, truck: TruckId, strategy: Option<Strategy>,
                          actor: UserId, now: Time)
    requires trip < |s.trips| && Moves(s, trip, company, truck, strategy, actor, now)
    ensures s.trips[trip].truck < |s.trucks| && truck < |s.trucks|
    ensures var t, row, blocking := AssignTruck(s, trip, company, truck, strategy, actor, now).state, s.trips[trip], Blocking(s, trip, truck);
      multiset(ManagersOf(t.trucks)) == multiset(ManagersOf(s.trucks)) <==>
        if blocking.Some? && strategy == Some(Swap)
        then multiset{Some(row.manager), Some(s.trips[blocking.value].manager)} == multiset{s.trucks[truck].manager, s.trucks[row.truck].manager}
        else s.trucks[row.truck].manager == Some(row.manager) && s.trucks[truck].manager.Some?
  {
    MovesMeans(s, trip, company, truck, strategy, actor, now);
    hide AssignTruck, Moves, Settled, SyncOwnership, ManagersOf;
    var row, blocking := s.trips[trip], Blocking(s, trip, truck);
    SettledTrips(s, trip, truck, blocking, strategy, actor, now);
    var settled := Settled(s, trip, truck, blocking, strategy, actor, now);
    var sourceManager :=
      if blocking.Some? && strategy == Some(Swap) then Some(s.trips[blocking.value].manager) else s.trucks[truck].manager;
    SyncTrucks(settled, row.company, truck, row.manager, row.truck, sourceManager, actor, now);
    var n := if sourceManager.Some? then sourceManager else s.trucks[row.truck].manager;
    HandingOver(s.trucks, truck, row.truck, Some(row.manager), n);
    PairsAgree(Some(row.manager), n, s.trucks[truck].manager, s.trucks[row.truck].manager);
  }

  lemma PairsAgree<T>(m: T, n: T, x: T, y: T)
    ensures multiset{m, n} == multiset{x, y} <==> (m == x && n == y) || (m == y && n == x)
  {
    if multiset{m, n} == multiset{x, y} {
      assert multiset{m, n}[m] == multiset{x, y}[m] && multiset{m, n}[n] == multiset{x, y}[n];
    }
  }
}
