/** What the calls on trucks leave in the rows, and when they refuse: cards, edits, and moving a trip to another truck. */
module TruckCalls {
  import opened Base
  import opened Trips
  import opened TripWrites
  import ChatRuns
  import TruckSwaps

  // ----- chats of several trips

  /** The trip's chat is with this pair, since now. */
  ghost predicate HasNewChat(sessions: seq<Session>, trip: TripId, driver: UserId, manager: UserId, now: Time) {
    exists i: nat :: IsChat(sessions, trip, i) && sessions[i] == Session(trip, driver, manager, now, None)
  }

  /** The trip has the same chat as before, or none as before. */
  ghost predicate KeepsChat(a: seq<Session>, b: seq<Session>, trip: TripId) {
    forall i: nat :: IsChat(b, trip, i) || IsChat(a, trip, i) ==> IsChat(b, trip, i) && IsChat(a, trip, i) && b[i] == a[i]
  }

  lemma KeepsTwice(a: seq<Session>, b: seq<Session>, c: seq<Session>, trip: TripId)
    requires KeepsChat(a, b, trip) && KeepsChat(b, c, trip)
    ensures KeepsChat(a, c, trip)
  {
  }

  lemma NewChatStays(a: seq<Session>, b: seq<Session>, trip: TripId, driver: UserId, manager: UserId, now: Time)
    requires HasNewChat(a, trip, driver, manager, now) && KeepsChat(a, b, trip)
    ensures HasNewChat(b, trip, driver, manager, now)
  {
    var i: nat :| IsChat(a, trip, i) && a[i] == Session(trip, driver, manager, now, None);
    assert IsChat(b, trip, i);
  }

  lemma PassingIsLocal(a: seq<Session>, b: seq<Session>, trip: TripId, driver: UserId, manager: UserId, now: Time, other: TripId)
    requires ChatPasses(a, b, trip, driver, manager, now)
    ensures HasNewChat(b, trip, driver, manager, now)
    ensures other != trip ==> KeepsChat(a, b, other)
  {
    assert IsChat(b, trip, |a|);
    if other != trip {
      forall i: nat | i < |a| && a[i].trip == other ensures b[i] == a[i] {
        assert b[..|a|][i] == b[i];
      }
      forall i: nat | i < |a| && b[i].trip == other ensures b[i] == a[i] {
        assert b[..|a|][i] == b[i];
      }
    }
  }

  /** Only lines of the system, by this actor and now, were added. */
  ghost predicate AddsLines(a: seq<Message>, b: seq<Message>, actor: UserId, now: Time) {
    a <= b && forall i :: |a| <= i < |b| ==> b[i] == Message(b[i].trip, b[i].session, actor, now, true, false, None, None)
  }

  // ----- editing trucks

  /** The trip after the truck went to this manager, among the first n: an open trip of another manager on the truck
      has the new one, and a new chat; any other trip and its chat are as they were. */
  ghost predicate GoesAlong(s: State, t: State, k: TripId, truck: TruckId, manager: UserId, now: Time, n: nat) {
    && k < |s.trips| == |t.trips|
    && var row := s.trips[k];
       if k < n && row.truck == truck && !row.status.Delivered? && !row.deleted && row.manager != manager
       then t.trips[k] == row.(manager := manager) && HasNewChat(t.sessions, k, row.driver, manager, now)
       else t.trips[k] == row && KeepsChat(s.sessions, t.sessions, k)
  }

  /** One more trip goes along, or does not; the others stay as they were. */
  lemma GoesFurther(s: State, before: State, t: State, k: TripId, truck: TruckId, manager: UserId, now: Time, n: nat)
    requires n < |s.trips| && GoesAlong(s, before, k, truck, manager, now, n)
    requires if FollowsTruck(s.trips[n], truck, manager)
      then t.trips == before.trips[n := s.trips[n].(manager := manager)]
           && ChatPasses(before.sessions, t.sessions, n, s.trips[n].driver, manager, now)
      else t == before
    ensures GoesAlong(s, t, k, truck, manager, now, n + 1)
  {
    if FollowsTruck(s.trips[n], truck, manager) {
      PassingIsLocal(before.sessions, t.sessions, n, s.trips[n].driver, manager, now, k);
      hide ChatPasses, IsChat;
      var row := s.trips[k];
      if k < n && FollowsTruck(row, truck, manager) {
        NewChatStays(before.sessions, t.sessions, k, row.driver, manager, now);
      } else if k != n {
        KeepsTwice(s.sessions, before.sessions, t.sessions, k);
      }
    }
  }

  lemma {:induction false} CascadeOnRows(s: State, truck: TruckId, manager: UserId, actor: UserId, now: Time, n: nat)
    requires n <= |s.trips|
    ensures var t := Cascade(s, truck, manager, actor, now, n);
      && t == s.(trips := t.trips, sessions := t.sessions, messages := t.messages)
      && (forall k: nat :: k < |s.trips| ==> GoesAlong(s, t, k, truck, manager, now, n))
      && AddsLines(s.messages, t.messages, actor, now)
  {
    if n > 0 {
      CascadeOnRows(s, truck, manager, actor, now, n - 1);
      var before, t := Cascade(s, truck, manager, actor, now, n - 1), Cascade(s, truck, manager, actor, now, n);
      ReopenOnRows(before, n - 1, s.trips[n - 1].(manager := manager), actor, now);
      hide Reopen, GoesAlong, FollowsTruck;
      forall k: nat | k < |s.trips| ensures GoesAlong(s, t, k, truck, manager, now, n) {
        GoesFurther(s, before, t, k, truck, manager, now, n - 1);
      }
    }
  }

  /** Another truck of the company has the plate, and none before it does. */
  ghost predicate IsPlateOwner(trucks: seq<Truck>, company: CompanyId, plate: Plate, except: Option<TruckId>, i: nat) {
    && i < |trucks| && Some(i) != except && trucks[i].company == company && trucks[i].plate == plate
    && forall j: nat :: j < i && Some(j) != except && trucks[j].company == company ==> trucks[j].plate != plate
  }

  lemma {:induction false} PlateOwnerOnRows(trucks: seq<Truck>, company: CompanyId, plate: Plate, except: Option<TruckId>, n: nat)
    requires n <= |trucks|
    ensures var found := PlateOwner(trucks, company, plate, except, n);
      if found.Some? then found.value < n && IsPlateOwner(trucks, company, plate, except, found.value)
      else forall i: nat :: i < n && Some(i) != except && trucks[i].company == company ==> trucks[i].plate != plate
  {
    if n > 0 { PlateOwnerOnRows(trucks, company, plate, except, n - 1); }
  }

  /** An edit is refused if the company has no such truck, if the new driver is not one of its drivers or the new manager
      one of its other people, or if another of its trucks has the plate, whose number is told; otherwise it is made. */
  lemma TruckEditAnswers(s: State, truck: TruckId, company: CompanyId, plate: Option<Plate>, driver: Patch<UserId>, manager: Patch<UserId>,
                         actor: UserId, now: Time)
    ensures var r := UpdateTruck(s, truck, company, plate, driver, manager, actor, now);
      if truck >= |s.trucks| || s.trucks[truck].company != company then r == Outcome(s, TruckNotFound)
      else if driver.Put? && driver.value.Some? && !(driver.value.value in s.people && s.people[driver.value.value].company == company
              && s.people[driver.value.value].role.Driver? && !s.people[driver.value.value].deleted)
      then r == Outcome(s, UserNotFound)
      else if manager.Put? && manager.value.Some? && !(manager.value.value in s.people && s.people[manager.value.value].company == company
              && !s.people[manager.value.value].role.Driver? && !s.people[manager.value.value].deleted)
      then r == Outcome(s, UserNotFound)
      else if plate.Some? && exists i: nat :: IsPlateOwner(s.trucks, company, plate.value, Some(truck), i)
      then exists i: nat :: IsPlateOwner(s.trucks, company, plate.value, Some(truck), i) && r == Outcome(s, PlateTaken(i))
      else r.answer.Done?
  {
    if plate.Some? { PlateOwnerOnRows(s.trucks, company, plate.value, Some(truck), |s.trucks|); }
    hide EditRow, Cascade;
  }

  /** The driver leaves the truck: it is the first other one they are on. */
  ghost predicate Leaves(trucks: seq<Truck>, truck: TruckId, driver: Option<UserId>, k: TruckId) {
    && truck < |trucks| && k < |trucks| && k != truck && driver.Some? && driver != trucks[truck].driver && trucks[k].driver == driver
    && forall j: nat :: j < k && j != truck ==> trucks[j].driver != driver
  }

  lemma {:induction false} TruckWithOnRows(trucks: seq<Truck>, driver: UserId, except: TruckId, n: nat)
    requires n <= |trucks|
    ensures var found := TruckWith(trucks, driver, except, n);
      if found.Some? then found.value < n && found.value != except && trucks[found.value].driver == Some(driver)
                          && forall j: nat :: j < found.value && j != except ==> trucks[j].driver != Some(driver)
      else forall j: nat :: j < n && j != except ==> trucks[j].driver != Some(driver)
  {
    if n > 0 { TruckWithOnRows(trucks, driver, except, n - 1); }
  }

  /** The truck has what the edit names and keeps the rest; another one that its new driver leaves has none. */
  ghost predicate IsEdited(a: seq<Truck>, b: seq<Truck>, truck: TruckId, plate: Option<Plate>, driver: Patch<UserId>, manager: Patch<UserId>, k: nat) {
    && k < |a| == |b|
    && var row := a[k];
       b[k] ==
         if k == truck then Truck(row.company, if plate.Some? then plate.value else row.plate,
                                  if driver.Put? then driver.value else row.driver, if manager.Put? then manager.value else row.manager)
         else if driver.Put? && Leaves(a, truck, driver.value, k) then row.(driver := None)
         else row
  }

  lemma EditedRows(trucks: seq<Truck>, truck: TruckId, plate: Option<Plate>, driver: Patch<UserId>, manager: Patch<UserId>)
    requires truck < |trucks|
    ensures forall k: nat :: k < |trucks| ==> IsEdited(trucks, EditRow(trucks, truck, plate, driver, manager), truck, plate, driver, manager, k)
  {
    if driver.Put? && driver.value.Some? { TruckWithOnRows(trucks, driver.value.value, truck, |trucks|); }
    hide TruckWith;
  }

  /** An edit that is made rewrites the trucks as named; if it puts another manager on the truck, the truck's open trips
      go along, and otherwise no trip and no chat changes. */
  lemma TruckHandover(s: State, truck: TruckId, company: CompanyId, plate: Option<Plate>, driver: Patch<UserId>, manager: Patch<UserId>,
                      actor: UserId, now: Time)
    requires UpdateTruck(s, truck, company, plate, driver, manager, actor, now).answer.Done?
    ensures var t := UpdateTruck(s, truck, company, plate, driver, manager, actor, now).state;
      && truck < |s.trucks|
      && (forall k: nat :: k < |s.trucks| ==> IsEdited(s.trucks, t.trucks, truck, plate, driver, manager, k))
      && if manager.Put? && manager.value.Some? && manager.value != s.trucks[truck].manager
         then (forall k: nat :: k < |s.trips| ==> GoesAlong(s, t, k, truck, manager.value.value, now, |s.trips|))
              && AddsLines(s.messages, t.messages, actor, now)
         else t == s.(trucks := t.trucks)
  {
    EditedRows(s.trucks, truck, plate, driver, manager);
    hide EditRow, Cascade, PlateOwner, IsEdited, HasNewChat, KeepsChat, AddsLines;
    if manager.Put? && manager.value.Some? {
      var s1, to := s.(trucks := EditRow(s.trucks, truck, plate, driver, manager)), manager.value.value;
      CascadeOnRows(s1, truck, to, actor, now, |s.trips|);
      var t := Cascade(s1, truck, to, actor, now, |s.trips|);
      forall k: nat | k < |s.trips| ensures GoesAlong(s, t, k, truck, to, now, |s.trips|) {
        assert GoesAlong(s1, t, k, truck, to, now, |s.trips|);
      }
    }
  }

  /** A new truck needs a plate no other truck of the company has, a driver and a manager of the company if any, and a
      driver who is on no truck. */
  lemma NewTruckOnRows(s: State, company: CompanyId, plate: Plate, driver: Option<UserId>, manager: Option<UserId>)
    ensures var r := AddTruck(s, company, plate, driver, manager);
      if exists i: nat :: IsPlateOwner(s.trucks, company, plate, None, i)
      then exists i: nat :: IsPlateOwner(s.trucks, company, plate, None, i) && r == Outcome(s, PlateTaken(i))
      else if driver.Some? && !(driver.value in s.people && s.people[driver.value].company == company && s.people[driver.value].role.Driver?
              && !s.people[driver.value].deleted) then r == Outcome(s, UserNotFound)
      else if manager.Some? && !(manager.value in s.people && s.people[manager.value].company == company && !s.people[manager.value].role.Driver?
              && !s.people[manager.value].deleted) then r == Outcome(s, UserNotFound)
      else if driver.Some? && exists i :: 0 <= i < |s.trucks| && s.trucks[i].driver == driver then r == Outcome(s, DriverTaken)
      else r == Outcome(s.(trucks := s.trucks + [Truck(company, plate, driver, manager)]), Done)
  {
    PlateOwnerOnRows(s.trucks, company, plate, None, |s.trucks|);
    hide PlateOwner;
  }

  /** From the driver card a driver goes to a truck of their company and leaves every other, or just leaves; a release
      takes them off every truck. No other driver and nothing else changes. */
  lemma DriverCardOnRows(s: State, driver: UserId, truck: Option<TruckId>, now: Time)
    ensures var r := AssignFromDriverCard(s, driver, truck);
      if driver !in s.people then r == Outcome(s, UserNotFound)
      else if truck.Some? && (truck.value >= |s.trucks| || s.trucks[truck.value].company != s.people[driver].company) then r == Outcome(s, TruckNotFound)
      else
        && r.answer.Done? && r.state == s.(trucks := r.state.trucks) && |r.state.trucks| == |s.trucks|
        && forall k :: 0 <= k < |s.trucks| ==> r.state.trucks[k] == s.trucks[k].(driver :=
             if truck == Some(k) then Some(driver) else if s.trucks[k].driver == Some(driver) then None else s.trucks[k].driver)
    ensures var r := TrucksEffect(s, FreeDriver(driver), now);
      && r.answer.Done? && r.state == s.(trucks := r.state.trucks) && |r.state.trucks| == |s.trucks|
      && forall k :: 0 <= k < |s.trucks| ==> r.state.trucks[k] == s.trucks[k].(driver :=
           if s.trucks[k].driver == Some(driver) then None else s.trucks[k].driver)
  {
  }

  // ----- moving a trip to another truck

  /** An open trip of the company on the truck, other than the one to move. */
  ghost predicate IsInTheWay(trips: seq<Trip>, trip: TripId, truck: TruckId, i: nat) {
    && trip < |trips| && i < |trips| && i != trip
    && trips[i].truck == truck && trips[i].company == trips[trip].company && !trips[i].status.Delivered? && !trips[i].deleted
  }

  /** The newest of them. */
  ghost predicate IsNewestInTheWay(trips: seq<Trip>, trip: TripId, truck: TruckId, i: nat) {
    IsInTheWay(trips, trip, truck, i) && forall j: nat :: j > i ==> !IsInTheWay(trips, trip, truck, j)
  }

  lemma BlockingIsInTheWay(s: State, trip: TripId, truck: TruckId)
    requires trip < |s.trips|
    ensures var found := Blocking(s, trip, truck);
      if found.Some? then IsNewestInTheWay(s.trips, trip, truck, found.value) else forall i: nat :: !IsInTheWay(s.trips, trip, truck, i)
  {
    hide NewestOpen;
  }

  /** When a truck change goes through, and why it is refused. */
  lemma TruckChangeAnswers(s: State, trip: TripId, scope: Option<CompanyId>, truck: TruckId, strategy: Option<Strategy>, actor: UserId, now: Time)
    ensures var r := AssignTruck(s, trip, scope, truck, strategy, actor, now);
      if !(trip < |s.trips| && !s.trips[trip].deleted && s.trips[trip].truck < |s.trucks| && (scope.Some? ==> s.trips[trip].company == scope.value))
      then r == Outcome(s, TripNotFound)
      else if s.trips[trip].truck == truck then r == Outcome(s, Done)
      else if truck >= |s.trucks| || s.trucks[truck].company != s.trips[trip].company then r == Outcome(s, TruckNotFound)
      else if s.trucks[truck].driver.None? then r == Outcome(s, TruckHasNoDriver)
      else if forall i: nat :: !IsInTheWay(s.trips, trip, truck, i) then r.answer.Done?
      else if strategy.None? then exists i: nat :: IsNewestInTheWay(s.trips, trip, truck, i) && r == Outcome(s, TargetTruckBusy(i))
      else if strategy == Some(Swap) && s.trucks[s.trips[trip].truck].driver.None? then r == Outcome(s, TruckHasNoDriver)
      else r.answer.Done?
  {
    if trip < |s.trips| { BlockingIsInTheWay(s, trip, truck); }
    hide NewestOpen, Resettle;
  }

  // ----- telling the drivers

  /** The newest open trip of the company on the truck. */
  ghost predicate IsNewestOn(trips: seq<Trip>, truck: TruckId, company: CompanyId, k: nat) {
    && k < |trips| && trips[k].truck == truck && trips[k].company == company && !trips[k].status.Delivered? && !trips[k].deleted
    && forall j :: k < j < |trips| && trips[j].truck == truck && trips[j].company == company ==> trips[j].status.Delivered? || trips[j].deleted
  }

  ghost predicate IsToldIn(s: State, truck: TruckId, company: CompanyId, k: nat, i: nat) {
    truck < |s.trucks| && s.trucks[truck].driver.Some? && IsNewestOn(s.trips, truck, company, k) && IsChat(s.sessions, k, i)
  }

  /** One line more, in the chat of the truck's newest open trip, if the truck has a driver and there is such a chat. */
  ghost predicate IsTold(s: State, truck: TruckId, company: CompanyId, actor: UserId, now: Time, a: seq<Message>, b: seq<Message>) {
    if exists k: nat, i: nat :: IsToldIn(s, truck, company, k, i)
    then exists k: nat, i: nat :: IsToldIn(s, truck, company, k, i) && b == a + [Message(k, i, actor, now, true, false, None, None)]
    else b == a
  }

  ghost predicate IsToldIf(news: bool, s: State, truck: TruckId, company: CompanyId, actor: UserId, now: Time, a: seq<Message>, b: seq<Message>) {
    if news then IsTold(s, truck, company, actor, now, a, b) else b == a
  }

  lemma NewestOpenOnRows(trips: seq<Trip>, truck: TruckId, company: CompanyId)
    ensures var found := NewestOpen(trips, truck, company, None, |trips|);
      if found.Some? then IsNewestOn(trips, truck, company, found.value) else forall k: nat :: !IsNewestOn(trips, truck, company, k)
  {
    var found := NewestOpen(trips, truck, company, None, |trips|);
    hide NewestOpen;
    if found.Some? {
      forall j | found.value < j < |trips| && trips[j].truck == truck && trips[j].company == company
        ensures trips[j].status.Delivered? || trips[j].deleted
      {
        assert !IsOpen(trips[j]);
      }
    } else {
      forall k: nat | k < |trips| && trips[k].truck == truck && trips[k].company == company
        ensures trips[k].status.Delivered? || trips[k].deleted
      {
        assert !IsOpen(trips[k]);
      }
    }
  }

  lemma OneNewest(trips: seq<Trip>, truck: TruckId, company: CompanyId, j: nat, k: nat)
    requires IsNewestOn(trips, truck, company, j) && IsNewestOn(trips, truck, company, k)
    ensures j == k
  {
  }

  lemma AnnounceOnRows(s: State, truck: TruckId, company: CompanyId, actor: UserId, now: Time)
    ensures var t := Announce(s, truck, company, actor, now);
      t == s.(messages := t.messages) && IsTold(s, truck, company, actor, now, s.messages, t.messages)
  {
    NewestOpenOnRows(s.trips, truck, company);
    var found := NewestOpen(s.trips, truck, company, None, |s.trips|);
    if found.Some? {
      PostOnRows(s, found.value, actor, now);
      ActiveIsTheChat(s, found.value);
      forall k: nat, i: nat | IsToldIn(s, truck, company, k, i) ensures k == found.value && IsChat(s.sessions, found.value, i) {
        OneNewest(s.trips, truck, company, k, found.value);
      }
    }
    hide NewestOpen, IsNewestOn, IsChat, FindActive;
    if found.Some? && Active(s, found.value).Some? && truck < |s.trucks| && s.trucks[truck].driver.Some? {
      assert IsToldIn(s, truck, company, found.value, Active(s, found.value).value);
    }
  }

  lemma ToldAlike(s: State, t: State, truck: TruckId, company: CompanyId, actor: UserId, now: Time, a: seq<Message>, b: seq<Message>)
    requires IsTold(s, truck, company, actor, now, a, b)
    requires t.trips == s.trips && t.sessions == s.sessions && |t.trucks| == |s.trucks|
    requires truck < |s.trucks| ==> t.trucks[truck].driver == s.trucks[truck].driver
    ensures IsTold(t, truck, company, actor, now, a, b)
  {
    hide IsNewestOn, IsChat;
    forall k: nat, i: nat ensures IsToldIn(t, truck, company, k, i) == IsToldIn(s, truck, company, k, i) {
    }
    hide IsToldIn;
  }

  /** Both trucks go to the managers named, the second only if one is, and each driver is told if that is news. */
  ghost predicate IsSynced(s: State, t: State, company: CompanyId, target: TruckId, targetManager: UserId,
                           source: TruckId, sourceManager: Option<UserId>, actor: UserId, now: Time)
  {
    && target < |s.trucks| && source < |s.trucks| && target != source
    && t == s.(trucks := t.trucks, messages := t.messages)
    && t.trucks == s.trucks[target := s.trucks[target].(manager := Some(targetManager))]
                           [source := s.trucks[source].(manager := if sourceManager.Some? then sourceManager else s.trucks[source].manager)]
    && exists mid ::
         && IsToldIf(s.trucks[target].manager != Some(targetManager), t, target, company, actor, now, s.messages, mid)
         && IsToldIf(sourceManager.Some?, t, source, company, actor, now, mid, t.messages)
  }

  lemma SyncOnRows(s: State, company: CompanyId, target: TruckId, targetManager: UserId,
                   source: TruckId, sourceManager: Option<UserId>, actor: UserId, now: Time)
    requires target < |s.trucks| && source < |s.trucks| && target != source
    ensures IsSynced(s, SyncOwnership(s, company, target, targetManager, source, sourceManager, actor, now),
                     company, target, targetManager, source, sourceManager, actor, now)
  {
    TruckSwaps.SyncTrucks(s, company, target, targetManager, source, sourceManager, actor, now);
    var t := SyncOwnership(s, company, target, targetManager, source, sourceManager, actor, now);
    var targetChanged := s.trucks[target].manager != Some(targetManager);
    var trucks := if targetChanged then SetManager(s.trucks, target, Some(targetManager)) else s.trucks;
    var s1 := s.(trucks := if sourceManager.Some? then SetManager(trucks, source, sourceManager) else trucks);
    var s2 := if targetChanged then Announce(s1, target, company, actor, now) else s1;
    AnnounceOnRows(s1, target, company, actor, now);
    AnnounceOnRows(s2, source, company, actor, now);
    hide Announce, IsTold, SetManager;
    assert t == if sourceManager.Some? then Announce(s2, source, company, actor, now) else s2;
    assert IsToldIf(targetChanged, t, target, company, actor, now, s.messages, s2.messages) by {
      if targetChanged { ToldAlike(s1, t, target, company, actor, now, s.messages, s2.messages); }
    }
    assert IsToldIf(sourceManager.Some?, t, source, company, actor, now, s2.messages, t.messages) by {
      if sourceManager.Some? { ToldAlike(s2, t, source, company, actor, now, s2.messages, t.messages); }
    }
  }

  // ----- what a truck change leaves

  /** The trip stands on the truck, with its driver and to be accepted, and has a new chat with its manager. */
  ghost predicate IsMoved(s: State, t: State, trip: TripId, truck: TruckId, driver: UserId, actor: UserId, now: Time) {
    && trip < |s.trips|
    && t == s.(trips := s.trips[trip := s.trips[trip].(truck := truck, driver := driver, status := Assigned)], sessions := t.sessions,
               messages := s.messages + [Message(trip, |s.sessions|, actor, now, true, false, None, None)])
    && ChatPasses(s.sessions, t.sessions, trip, driver, s.trips[trip].manager, now)
  }

  /** The trip is delivered and its chat is over. */
  ghost predicate IsCompleted(s: State, t: State, trip: TripId, now: Time) {
    && trip < |s.trips|
    && t == s.(trips := s.trips[trip := s.trips[trip].(status := Delivered)], sessions := t.sessions)
    && ChatEnds(s.sessions, t.sessions, trip, now)
  }

  lemma MoveOnRows(s: State, trip: TripId, truck: TruckId, driver: UserId, actor: UserId, now: Time)
    requires trip < |s.trips|
    ensures IsMoved(s, MoveTrip(s, trip, truck, driver, actor, now), trip, truck, driver, actor, now)
  {
    ReopenOnRows(s, trip, s.trips[trip].(truck := truck, driver := driver, status := Assigned), actor, now);
    hide Reopen, ChatPasses;
  }

  lemma CompleteOnRows(s: State, trip: TripId, now: Time)
    requires trip < |s.trips|
    ensures IsCompleted(s, CompleteTrip(s, trip, now), trip, now)
  {
    CloseOnRows(s.(trips := s.trips[trip := s.trips[trip].(status := Delivered)]), trip, now);
    hide Close, ChatEnds;
  }

  /** The trips of a truck change, one after the other: this trip goes to the truck; one in its way goes to the truck it
      left, or is completed. */
  ghost predicate IsSettled(s: State, u: State, trip: TripId, truck: TruckId, other: Option<TripId>, strategy: Option<Strategy>, actor: UserId, now: Time) {
    && trip < |s.trips| && s.trips[trip].truck < |s.trucks| && truck < |s.trucks| && s.trucks[truck].driver.Some?
    && var source := s.trips[trip].truck;
       if other.None? then IsMoved(s, u, trip, truck, s.trucks[truck].driver.value, actor, now)
       else exists mid :: IsMoved(s, mid, trip, truck, s.trucks[truck].driver.value, actor, now)
                          && if strategy == Some(Swap)
                             then s.trucks[source].driver.Some? && IsMoved(mid, u, other.value, source, s.trucks[source].driver.value, actor, now)
                             else IsCompleted(mid, u, other.value, now)
  }

  lemma SettledOnRows(s: State, trip: TripId, truck: TruckId, other: Option<TripId>, strategy: Option<Strategy>, actor: UserId, now: Time)
    requires trip < |s.trips| && s.trips[trip].truck < |s.trucks| && truck < |s.trucks| && s.trucks[truck].driver.Some?
    requires other.Some? ==> other.value < |s.trips| && strategy.Some?
    requires other.Some? && strategy == Some(Swap) ==> s.trucks[s.trips[trip].truck].driver.Some?
    ensures IsSettled(s, Settled(s, trip, truck, other, strategy, actor, now), trip, truck, other, strategy, actor, now)
  {
    var mid := MoveTrip(s, trip, truck, s.trucks[truck].driver.value, actor, now);
    MoveOnRows(s, trip, truck, s.trucks[truck].driver.value, actor, now);
    if other.Some? {
      if strategy == Some(Swap) {
        MoveOnRows(mid, other.value, s.trips[trip].truck, s.trucks[s.trips[trip].truck].driver.value, actor, now);
      } else {
        CompleteOnRows(mid, other.value, now);
      }
    }
    hide IsMoved, IsCompleted, MoveTrip, CompleteTrip;
  }

  /** A truck change that goes through: the trip is on the truck, with its driver, assigned and in a new chat. The newest
      open trip in its way, if any, goes the other way likewise, or is delivered and its chat over. The truck goes to the
      trip's manager, the truck it left to the other trip's on a swap and else to the truck's former one, if it had any.
      Both drivers are told of a new manager. Nothing else changes. */
  lemma TruckChangeOnRows(s: State, trip: TripId, scope: Option<CompanyId>, truck: TruckId, strategy: Option<Strategy>, actor: UserId, now: Time,
                          other: Option<TripId>)
    requires trip < |s.trips| && s.trips[trip].truck != truck && AssignTruck(s, trip, scope, truck, strategy, actor, now).answer.Done?
    requires if other.Some? then IsNewestInTheWay(s.trips, trip, truck, other.value) else forall i: nat :: !IsInTheWay(s.trips, trip, truck, i)
    ensures var t, row := AssignTruck(s, trip, scope, truck, strategy, actor, now).state, s.trips[trip];
      var sourceManager := if other.Some? && strategy == Some(Swap) then Some(s.trips[other.value].manager) else s.trucks[truck].manager;
      && (other.Some? ==> strategy.Some?)
      && exists u :: IsSettled(s, u, trip, truck, other, strategy, actor, now)
                     && IsSynced(u, t, row.company, truck, row.manager, row.truck, sourceManager, actor, now)
  {
    BlockingIsInTheWay(s, trip, truck);
    assert Blocking(s, trip, truck) == other;
    TruckSwaps.MovesMeans(s, trip, scope, truck, strategy, actor, now);
    var row, u := s.trips[trip], Settled(s, trip, truck, other, strategy, actor, now);
    SettledOnRows(s, trip, truck, other, strategy, actor, now);
    TruckSwaps.SettledTrips(s, trip, truck, other, strategy, actor, now);
    var sourceManager := if other.Some? && strategy == Some(Swap) then Some(s.trips[other.value].manager) else s.trucks[truck].manager;
    SyncOnRows(u, row.company, truck, row.manager, row.truck, sourceManager, actor, now);
    hide AssignTruck, Settled, SyncOwnership, NewestOpen, IsSettled, IsSynced, TruckSwaps.Moves;
  }

  /** In particular a trip that is completed to make room has no chat left, where sessions follow one another. */
  lemma CompletingEndsTheOther(s: State, trip: TripId, scope: Option<CompanyId>, truck: TruckId, actor: UserId, now: Time, other: TripId)
    requires ChatRuns.Valid(s, now) && trip < |s.trips| && s.trips[trip].truck != truck
    requires AssignTruck(s, trip, scope, truck, Some(CompleteOther), actor, now).answer.Done? && IsNewestInTheWay(s.trips, trip, truck, other)
    ensures var t := AssignTruck(s, trip, scope, truck, Some(CompleteOther), actor, now).state;
      && other < |s.trips| == |t.trips| && t.trips[other] == s.trips[other].(status := Delivered)
      && forall i :: 0 <= i < |t.sessions| && t.sessions[i].trip == other ==> t.sessions[i].endedAt.Some?
  {
    TruckChangeOnRows(s, trip, scope, truck, Some(CompleteOther), actor, now, Some(other));
    var t, row := AssignTruck(s, trip, scope, truck, Some(CompleteOther), actor, now).state, s.trips[trip];
    hide AssignTruck;
    var u :| IsSettled(s, u, trip, truck, Some(other), Some(CompleteOther), actor, now)
             && IsSynced(u, t, row.company, truck, row.manager, row.truck, s.trucks[truck].manager, actor, now);
    hide IsTold;
    var mid :| IsMoved(s, mid, trip, truck, s.trucks[truck].driver.value, actor, now) && IsCompleted(mid, u, other, now);
    EndsForGood(s, mid.sessions, u.sessions, trip, s.trucks[truck].driver.value, row.manager, other, now);
    hide ChatPasses, ChatEnds;
  }

  lemma EndsForGood(s: State, a: seq<Session>, b: seq<Session>, trip: TripId, driver: UserId, manager: UserId, other: TripId, now: Time)
    requires ChatRuns.Valid(s, now) && other != trip
    requires ChatPasses(s.sessions, a, trip, driver, manager, now) && ChatEnds(a, b, other, now)
    ensures forall i :: 0 <= i < |b| && b[i].trip == other ==> b[i].endedAt.Some?
  {
    forall i: nat | i < |a| && a[i].trip == other ensures i < |s.sessions| && a[i] == s.sessions[i] {
      assert i < |s.sessions| ==> a[..|s.sessions|][i] == a[i];
    }
    forall i: nat, j: nat | i < j < |a| && a[i].trip == other && a[j].trip == other ensures a[i].endedAt.Some? {
      EarlierAreOver(s, i, j, now);
    }
  }

  lemma EarlierAreOver(s: State, i: nat, j: nat, now: Time)
    requires ChatRuns.Valid(s, now) && i < j < |s.sessions| && s.sessions[i].trip == s.sessions[j].trip
    ensures s.sessions[i].endedAt.Some?
  {
    assert ChatRuns.EndsBefore(s.sessions[i], s.sessions[j]);
  }
}
