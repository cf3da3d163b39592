/** The services over the trip tables, as methods that update them in place. */
module TripServices {
  import opened Base
  import opened Trips
  import ChatCalls
  import ChatRuns

  class Store {
    var people: map<UserId, Person>
    var trucks: seq<Truck>
    var trips: seq<Trip>
    var sessions: seq<Session>
    var messages: seq<Message>
    var docs: seq<Doc>
    ghost var clock: Time

    ghost function Snapshot(): State
      reads this
    {
      State(clock, people, trucks, trips, sessions, messages, docs)
    }

    constructor ()
      ensures Snapshot() == Empty()
    {
      people, trucks, trips, sessions, messages, docs, clock := map[], [], [], [], [], [], 0;
    }

    method IsInCompany(user: UserId, company: CompanyId, drivers: bool) returns (ok: bool)
      ensures ok == InCompany(Snapshot(), user, company, drivers)
    {
      ok := user in people && people[user].company == company && !people[user].deleted && people[user].role.Driver? == drivers;
    }

    /** The newest open trip on a truck, other than `except`. */
    method FindNewestOpen(truck: TruckId, company: CompanyId, except: Option<TripId>) returns (found: Option<TripId>)
      ensures found == NewestOpen(trips, truck, company, except, |trips|)
      ensures found.Some? ==> found.value < |trips| && Some(found.value) != except
    {
      var n: nat := |trips|;
      while n > 0
        invariant n <= |trips|
        invariant NewestOpen(trips, truck, company, except, n) == NewestOpen(trips, truck, company, except, |trips|)
      {
        if trips[n - 1].truck == truck && trips[n - 1].company == company && Some(n - 1) != except && IsOpen(trips[n - 1]) {
          return Some(n - 1);
        }
        n := n - 1;
      }
      return None;
    }

    /** The first other truck of a driver. */
    method FindTruckWith(driver: UserId, except: TruckId) returns (found: Option<TruckId>)
      ensures found == TruckWith(trucks, driver, except, |trucks|)
    {
      found := None;
      for n := 0 to |trucks|
        invariant found == TruckWith(trucks, driver, except, n)
      {
        if found.None? && n != except && trucks[n].driver == Some(driver) {
          found := Some(n);
        }
      }
    }
  }

  class TripChatSessionsService {
    const db: Store

    constructor (db: Store)
      ensures this.db == db
    {
      this.db := db;
    }

    method GetActiveSession(trip: TripId) returns (found: Option<SessionId>)
      ensures found == Active(db.Snapshot(), trip)
      ensures found.Some? ==> found.value < |db.sessions| && db.sessions[found.value].trip == trip && db.sessions[found.value].endedAt.None?
    {
      var n: nat := |db.sessions|;
      while n > 0
        invariant n <= |db.sessions|
        invariant FindActive(db.sessions, trip, n) == FindActive(db.sessions, trip, |db.sessions|)
      {
        if db.sessions[n - 1].trip == trip && db.sessions[n - 1].endedAt.None? {
          return Some(n - 1);
        }
        n := n - 1;
      }
      return None;
    }

    /** The sessions the requester's live chat is made of. */
    method GetVisibleSessionIds(trip: TripId, requester: UserId, role: Role) returns (ids: seq<SessionId>)
      ensures forall i: nat :: i in ids <==> i < |db.sessions| && ChatRuns.ShowsSession(db.Snapshot(), trip, requester, role, db.sessions[i])
      ensures forall i, j :: 0 <= i < j < |ids| ==> ids[i] < ids[j]
    {
      ids := [];
      var drives, manages := false, false;
      if !role.Admin? {
        if trip >= |db.trips| || db.trips[trip].deleted {
          return;
        }
        drives, manages := db.trips[trip].driver == requester, db.trips[trip].manager == requester;
        if !drives && !manages {
          return;
        }
      }
      for n := 0 to |db.sessions|
        invariant forall i: nat :: i in ids <==> i < n && ChatRuns.ShowsSession(db.Snapshot(), trip, requester, role, db.sessions[i])
        invariant forall i, j :: 0 <= i < j < |ids| ==> ids[i] < ids[j]
      {
        var x := db.sessions[n];
        if x.trip == trip && (role.Admin? || (drives && x.driver == requester) || (manages && x.manager == requester)) {
          assert forall i :: 0 <= i < |ids| ==> ids[i] in ids;
          ids := ids + [n];
        }
      }
    }

    method OpenInitial(trip: TripId, driver: UserId, manager: UserId, now: Time)
      modifies db`sessions
      ensures db.sessions == old(db.sessions) + [Session(trip, driver, manager, now, None)]
    {
      db.sessions := db.sessions + [Session(trip, driver, manager, now, None)];
    }

    /** Ends the active session, opens one for the new pair, and announces it there. */
    method CloseAndOpenNew(trip: TripId, driver: UserId, manager: UserId, actor: UserId, now: Time)
      modifies db`sessions, db`messages
      ensures db.Snapshot() == CloseAndOpen(old(db.Snapshot()), trip, driver, manager, actor, now)
    {
      hide FindActive;
      CloseActive(trip, now);
      var session := |db.sessions|;
      db.sessions := db.sessions + [Session(trip, driver, manager, now, None)];
      db.messages := db.messages + [Message(trip, session, actor, now, true, false, None, None)];
    }

    method PostSystemMessage(trip: TripId, actor: UserId, now: Time)
      modifies db`messages
      ensures db.Snapshot() == PostSystem(old(db.Snapshot()), trip, actor, now)
    {
      hide FindActive;
      var active := GetActiveSession(trip);
      if active.Some? {
        db.messages := db.messages + [Message(trip, active.value, actor, now, true, false, None, None)];
      }
    }

    method CloseActive(trip: TripId, now: Time)
      modifies db`sessions
      ensures db.Snapshot() == Close(old(db.Snapshot()), trip, now)
    {
      hide FindActive;
      var active := GetActiveSession(trip);
      if active.Some? {
        db.sessions := db.sessions[active.value := db.sessions[active.value].(endedAt := Some(now))];
      }
    }
  }

  class TripsService {
    const db: Store
    const sessions: TripChatSessionsService

    constructor (db: Store, sessions: TripChatSessionsService)
      requires sessions.db == db
      ensures this.db == db && this.sessions == sessions
    {
      this.db, this.sessions := db, sessions;
    }

    method Create(company: CompanyId, manager: UserId, driver: UserId, truck: TruckId, now: Time) returns (answer: Answer)
      requires sessions.db == db
      modifies db`trips, db`sessions
      ensures Outcome(db.Snapshot(), answer) == CreateTrip(old(db.Snapshot()), company, manager, driver, truck, now)
    {
      hide InCompany;
      var ok := db.IsInCompany(driver, company, true);
      if !ok { return UserNotFound; }
      if truck >= |db.trucks| || db.trucks[truck].company != company { return TruckNotFound; }
      var trip := |db.trips|;
      db.trips := db.trips + [Trip(company, truck, driver, manager, Assigned, false)];
      sessions.OpenInitial(trip, driver, manager, now);
      return Done;
    }

    method SetStatus(trip: TripId, company: CompanyId, status: Option<Status>) returns (answer: Answer)
      modifies db`trips
      ensures Outcome(db.Snapshot(), answer) == UpdateStatus(old(db.Snapshot()), trip, company, status)
    {
      if trip >= |db.trips| || db.trips[trip].company != company || db.trips[trip].deleted { return TripNotFound; }
      if status.Some? {
        db.trips := db.trips[trip := db.trips[trip].(status := status.value)];
      }
      assert status.None? ==> db.trips == db.trips[trip := db.trips[trip].(status := db.trips[trip].status)];
      return Done;
    }

    method DriverSetsStatus(trip: TripId, driver: UserId, status: Option<Status>) returns (answer: Answer)
      modifies db`trips
      ensures Outcome(db.Snapshot(), answer) == DriverUpdateStatus(old(db.Snapshot()), trip, driver, status)
    {
      if trip >= |db.trips| || db.trips[trip].driver != driver || db.trips[trip].deleted { return NotAllowed; }
      if driver !in db.people || db.people[driver].company != db.trips[trip].company { return NotAllowed; }
      if status.Some? {
        db.trips := db.trips[trip := db.trips[trip].(status := status.value)];
      }
      assert status.None? ==> db.trips == db.trips[trip := db.trips[trip].(status := db.trips[trip].status)];
      return Done;
    }

    method GiveToDriver(trip: TripId, company: CompanyId, driver: UserId, actor: UserId, now: Time) returns (answer: Answer)
      requires sessions.db == db
      modifies db`trips, db`sessions, db`messages
      ensures Outcome(db.Snapshot(), answer) == AssignDriver(old(db.Snapshot()), trip, company, driver, actor, now)
    {
      hide InCompany, CloseAndOpen;
      if trip >= |db.trips| || db.trips[trip].company != company || db.trips[trip].deleted { return TripNotFound; }
      var ok := db.IsInCompany(driver, company, true);
      if !ok { return UserNotFound; }
      var row := db.trips[trip];
      db.trips := db.trips[trip := row.(driver := driver)];
      if row.driver != driver {
        sessions.CloseAndOpenNew(trip, driver, row.manager, actor, now);
      } else {
        assert db.trips == old(db.trips);
      }
      return Done;
    }

    method GiveToManager(trip: TripId, company: CompanyId, manager: UserId, actor: UserId, now: Time) returns (answer: Answer)
      requires sessions.db == db
      modifies db`trips, db`sessions, db`messages
      ensures Outcome(db.Snapshot(), answer) == AssignManager(old(db.Snapshot()), trip, company, manager, actor, now)
    {
      hide InCompany, CloseAndOpen;
      if trip >= |db.trips| || db.trips[trip].company != company || db.trips[trip].deleted { return TripNotFound; }
      var ok := db.IsInCompany(manager, company, false);
      if !ok { return UserNotFound; }
      var row := db.trips[trip];
      db.trips := db.trips[trip := row.(manager := manager)];
      if row.manager != manager {
        sessions.CloseAndOpenNew(trip, row.driver, manager, actor, now);
      } else {
        assert db.trips == old(db.trips);
      }
      return Done;
    }

    method MoveTripToTruck(trip: TripId, truck: TruckId, driver: UserId, actor: UserId, now: Time)
      requires sessions.db == db && trip < |db.trips|
      modifies db`trips, db`sessions, db`messages
      ensures db.Snapshot() == MoveTrip(old(db.Snapshot()), trip, truck, driver, actor, now)
    {
      hide CloseAndOpen;
      db.trips := db.trips[trip := db.trips[trip].(truck := truck, driver := driver, status := Assigned)];
      sessions.CloseAndOpenNew(trip, driver, db.trips[trip].manager, actor, now);
    }

    method AnnounceTruckManager(truck: TruckId, company: CompanyId, actor: UserId, now: Time)
      requires sessions.db == db
      modifies db`messages
      ensures db.Snapshot() == Announce(old(db.Snapshot()), truck, company, actor, now)
    {
      hide PostSystem, NewestOpen;
      if truck >= |db.trucks| || db.trucks[truck].driver.None? { return; }
      var active := db.FindNewestOpen(truck, company, None);
      if active.Some? {
        sessions.PostSystemMessage(active.value, actor, now);
      }
    }

    method SyncTruckOwnership(company: CompanyId, target: TruckId, targetManager: UserId,
                              source: TruckId, sourceManager: Option<UserId>, actor: UserId, now: Time)
      requires sessions.db == db && target < |db.trucks| && source < |db.trucks|
      modifies db`trucks, db`messages
      ensures db.Snapshot() == SyncOwnership(old(db.Snapshot()), company, target, targetManager, source, sourceManager, actor, now)
    {
      hide Announce;
      var targetChanged := db.trucks[target].manager != Some(targetManager);
      if !targetChanged && sourceManager.None? { return; }
      if targetChanged {
        db.trucks := db.trucks[target := db.trucks[target].(manager := Some(targetManager))];
      }
      if sourceManager.Some? {
        db.trucks := db.trucks[source := db.trucks[source].(manager := sourceManager)];
      }
      if targetChanged { AnnounceTruckManager(target, company, actor, now); }
      if sourceManager.Some? { AnnounceTruckManager(source, company, actor, now); }
    }

    method GiveToTruck(trip: TripId, scope: Option<CompanyId>, truck: TruckId, strategy: Option<Strategy>,
                       actor: UserId, now: Time) returns (answer: Answer)
      requires sessions.db == db
      modifies db`trips, db`trucks, db`sessions, db`messages
      ensures Outcome(db.Snapshot(), answer) == AssignTruck(old(db.Snapshot()), trip, scope, truck, strategy, actor, now)
    {
      hide MoveTrip, CompleteTrip, SyncOwnership, NewestOpen;
      if trip >= |db.trips| || db.trips[trip].deleted || (scope.Some? && scope.value != db.trips[trip].company)
         || db.trips[trip].truck >= |db.trucks| { return TripNotFound; }
      var row := db.trips[trip];
      if row.truck == truck { return Done; }
      if truck >= |db.trucks| || db.trucks[truck].company != row.company { return TruckNotFound; }
      var target := db.trucks[truck];
      if target.driver.None? { return TruckHasNoDriver; }
      var blocking := db.FindNewestOpen(truck, row.company, Some(trip));
      if blocking.Some? && strategy.None? { return TargetTruckBusy(blocking.value); }
      var sourceDriver := db.trucks[row.truck].driver;
      if blocking.Some? && strategy == Some(Swap) && sourceDriver.None? { return TruckHasNoDriver; }
      var sourceManager :=
        if blocking.Some? && strategy == Some(Swap) then Some(db.trips[blocking.value].manager) else target.manager;
      SettleTrips(trip, truck, target.driver.value, row.truck, sourceDriver, blocking, strategy, actor, now);
      SyncTruckOwnership(row.company, truck, row.manager, row.truck, sourceManager, actor, now);
      return Done;
    }

    /** Moves the trip, and the one in its way back or to its end. */
    method SettleTrips(trip: TripId, truck: TruckId, driver: UserId, source: TruckId, sourceDriver: Option<UserId>,
                       blocking: Option<TripId>, strategy: Option<Strategy>, actor: UserId, now: Time)
      requires sessions.db == db && trip < |db.trips| && source == db.trips[trip].truck < |db.trucks| && truck < |db.trucks|
      requires db.trucks[truck].driver == Some(driver) && sourceDriver == db.trucks[source].driver
      requires blocking.Some? ==> blocking.value < |db.trips| && strategy.Some? && (strategy.value.Swap? ==> sourceDriver.Some?)
      modifies db`trips, db`sessions, db`messages
      ensures db.Snapshot() == Settled(old(db.Snapshot()), trip, truck, blocking, strategy, actor, now)
    {
      hide Reopen, FindActive;
      MoveTripToTruck(trip, truck, driver, actor, now);
      if blocking.Some? {
        if strategy == Some(Swap) {
          MoveTripToTruck(blocking.value, source, sourceDriver.value, actor, now);
        } else {
          db.trips := db.trips[blocking.value := db.trips[blocking.value].(status := Delivered)];
          sessions.CloseActive(blocking.value, now);
        }
      }
    }

    method Remove(trip: TripId, company: CompanyId, actor: UserId, plainManager: bool) returns (answer: Answer)
      modifies db`trips
      ensures Outcome(db.Snapshot(), answer) == RemoveTrip(old(db.Snapshot()), trip, company, actor, plainManager)
    {
      if trip >= |db.trips| || db.trips[trip].company != company || db.trips[trip].deleted { return TripNotFound; }
      if plainManager && (db.trips[trip].truck >= |db.trucks| || db.trucks[db.trips[trip].truck].manager != Some(actor)) {
        return NotAllowed;
      }
      db.trips := db.trips[trip := db.trips[trip].(deleted := true)];
      return Done;
    }

    /** Tells how many chats the line reached. */
    method BroadcastToMyTrucks(sender: UserId, company: CompanyId, now: Time) returns (sent: nat)
      requires sessions.db == db
      modifies db`messages
      ensures db.Snapshot() == Broadcast(old(db.Snapshot()), sender, company, now, |old(db.trips)|)
      ensures |db.messages| == |old(db.messages)| + sent
    {
      hide FindActive, IsOpen;
      sent := 0;
      for n := 0 to |db.trips|
        invariant unchanged(db`trips, db`sessions, db`trucks, db`people, db`docs, db`clock)
        invariant db.Snapshot() == Broadcast(old(db.Snapshot()), sender, company, now, n)
        invariant |db.messages| == |old(db.messages)| + sent
      {
        var row := db.trips[n];
        if row.company == company && IsOpen(row) && row.truck < |db.trucks| && db.trucks[row.truck].manager == Some(sender) {
          var session := sessions.GetActiveSession(n);
          if session.Some? {
            db.messages := db.messages + [Message(n, session.value, sender, now, false, false, None, None)];
            sent := sent + 1;
          }
        }
      }
    }
  }

  class TrucksService {
    const db: Store
    const sessions: TripChatSessionsService

    constructor (db: Store, sessions: TripChatSessionsService)
      requires sessions.db == db
      ensures this.db == db && this.sessions == sessions
    {
      this.db, this.sessions := db, sessions;
    }

    /** The truck of the company that has this plate, other than `except`. */
    method FindPlateOwner(company: CompanyId, plate: Plate, except: Option<TruckId>) returns (found: Option<TruckId>)
      ensures found == PlateOwner(db.trucks, company, plate, except, |db.trucks|)
    {
      found := None;
      for n := 0 to |db.trucks|
        invariant found == PlateOwner(db.trucks, company, plate, except, n)
      {
        if found.None? && Some(n) != except && db.trucks[n].company == company && db.trucks[n].plate == plate {
          found := Some(n);
        }
      }
    }

    method Create(company: CompanyId, plate: Plate, driver: Option<UserId>, manager: Option<UserId>) returns (answer: Answer)
      modifies db`trucks
      ensures Outcome(db.Snapshot(), answer) == AddTruck(old(db.Snapshot()), company, plate, driver, manager)
    {
      hide InCompany, PlateOwner;
      var owner := FindPlateOwner(company, plate, None);
      if owner.Some? { return PlateTaken(owner.value); }
      if driver.Some? {
        var ok := db.IsInCompany(driver.value, company, true);
        if !ok { return UserNotFound; }
      }
      if manager.Some? {
        var ok := db.IsInCompany(manager.value, company, false);
        if !ok { return UserNotFound; }
      }
      if driver.Some? && exists i :: 0 <= i < |db.trucks| && db.trucks[i].driver == driver { return DriverTaken; }
      db.trucks := db.trucks + [Truck(company, plate, driver, manager)];
      return Done;
    }

    /** The driver leaves the truck they were on, then takes this one. */
    method Attach(truck: TruckId, driver: Option<UserId>)
      requires truck < |db.trucks|
      modifies db`trucks
      ensures db.trucks == PutDriverOnTruck(old(db.trucks), truck, driver)
    {
      hide TruckWith;
      if driver.Some? && driver != db.trucks[truck].driver {
        var previous := db.FindTruckWith(driver.value, truck);
        if previous.Some? {
          db.trucks := db.trucks[previous.value := db.trucks[previous.value].(driver := None)];
        }
      }
      db.trucks := db.trucks[truck := db.trucks[truck].(driver := driver)];
    }

    method Update(truck: TruckId, company: CompanyId, plate: Option<Plate>, driver: Patch<UserId>, manager: Patch<UserId>,
                  actor: UserId, now: Time) returns (answer: Answer)
      requires sessions.db == db
      modifies db`trucks, db`trips, db`sessions, db`messages
      ensures Outcome(db.Snapshot(), answer) == UpdateTruck(old(db.Snapshot()), truck, company, plate, driver, manager, actor, now)
    {
      hide InCompany, PutDriverOnTruck, Cascade, PlateOwner;
      if truck >= |db.trucks| || db.trucks[truck].company != company { return TruckNotFound; }
      if driver.Put? && driver.value.Some? {
        var ok := db.IsInCompany(driver.value.value, company, true);
        if !ok { return UserNotFound; }
      }
      if manager.Put? && manager.value.Some? {
        var ok := db.IsInCompany(manager.value.value, company, false);
        if !ok { return UserNotFound; }
      }
      if plate.Some? {
        var owner := FindPlateOwner(company, plate.value, Some(truck));
        if owner.Some? { return PlateTaken(owner.value); }
      }
      var oldManager := db.trucks[truck].manager;
      if driver.Put? { Attach(truck, driver.value); }
      var row := db.trucks[truck];
      db.trucks := db.trucks[truck := row.(plate := plate.GetOr(row.plate), manager := if manager.Put? then manager.value else row.manager)];
      if manager.Put? && manager.value.Some? && manager.value != oldManager {
        HandOver(truck, manager.value.value, actor, now);
      }
      return Done;
    }

    /** The truck's new manager takes over its open trips, chat by chat. */
    method HandOver(truck: TruckId, manager: UserId, actor: UserId, now: Time)
      requires sessions.db == db
      modifies db`trips, db`sessions, db`messages
      ensures db.Snapshot() == Cascade(old(db.Snapshot()), truck, manager, actor, now, |old(db.trips)|)
    {
      hide CloseAndOpen, IsOpen;
      var rows := db.trips;
      for n := 0 to |rows|
        invariant unchanged(db`trucks, db`people, db`docs, db`clock)
        invariant rows == old(db.trips) && |db.trips| == |rows|
        invariant db.Snapshot() == Cascade(old(db.Snapshot()), truck, manager, actor, now, n)
      {
        if rows[n].truck == truck && IsOpen(rows[n]) {
          if rows[n].manager != manager {
            db.trips := db.trips[n := rows[n].(manager := manager)];
            sessions.CloseAndOpenNew(n, rows[n].driver, manager, actor, now);
          }
        }
      }
    }
  }

  class UsersService {
    const db: Store

    constructor (db: Store)
      ensures this.db == db
    {
      this.db := db;
    }

    /** The truck branch of editing a driver. */
    method AssignTruckFromCard(driver: UserId, truck: Option<TruckId>) returns (answer: Answer)
      modifies db`trucks
      ensures Outcome(db.Snapshot(), answer) == AssignFromDriverCard(old(db.Snapshot()), driver, truck)
    {
      if driver !in db.people { return UserNotFound; }
      if truck.Some? && (truck.value >= |db.trucks| || db.trucks[truck.value].company != db.people[driver].company) {
        return TruckNotFound;
      }
      ghost var was := db.trucks;
      for n := 0 to |db.trucks|
        invariant |db.trucks| == |was|
        invariant forall i :: 0 <= i < |was| ==> db.trucks[i] == if i < n then Release(was, driver)[i] else was[i]
      {
        if db.trucks[n].driver == Some(driver) {
          db.trucks := db.trucks[n := db.trucks[n].(driver := None)];
        }
      }
      assert db.trucks == Release(was, driver);
      if truck.Some? {
        db.trucks := db.trucks[truck.value := db.trucks[truck.value].(driver := Some(driver))];
      }
      return Done;
    }
  }

  class MessagesService {
    const db: Store
    const sessions: TripChatSessionsService

    constructor (db: Store, sessions: TripChatSessionsService)
      requires sessions.db == db
      ensures this.db == db && this.sessions == sessions
    {
      this.db, this.sessions := db, sessions;
    }

    method Create(sender: UserId, trip: TripId, replyTo: Option<MessageId>, replyDoc: Option<DocId>, now: Time) returns (answer: Answer)
      requires sessions.db == db
      modifies db`messages
      ensures Outcome(db.Snapshot(), answer) == PostMessage(old(db.Snapshot()), sender, trip, replyTo, replyDoc, now)
    {
      hide FindActive;
      if trip >= |db.trips| || db.trips[trip].deleted { return TripNotFound; }
      var row := db.trips[trip];
      if sender != row.driver && sender != row.manager { return NotAllowed; }
      if sender == row.driver && (sender !in db.people || db.people[sender].company != row.company) { return NotAllowed; }
      var session := sessions.GetActiveSession(trip);
      if session.None? { return NoActiveSession; }
      if replyTo.Some? && (replyTo.value >= |db.messages| || db.messages[replyTo.value].trip != trip
                           || db.messages[replyTo.value].session != session.value) { return ReplyNotFound; }
      if replyDoc.Some? && (replyDoc.value >= |db.docs| || db.docs[replyDoc.value].trip != trip) { return ReplyNotFound; }
      db.messages := db.messages + [Message(trip, session.value, sender, now, false, false, replyTo, replyDoc)];
      return Done;
    }

    /** Marks the reader's side of the trip read, and tells which rows were unread until now. */
    method MarkTripRead(trip: TripId, reader: UserId) returns (messageIds: seq<MessageId>, docIds: seq<DocId>)
      modifies db`messages, db`docs
      ensures db.Snapshot() == MarkRead(old(db.Snapshot()), trip, reader)
      ensures forall i: nat :: i in messageIds <==> ChatCalls.IsToRead(old(db.Snapshot()), trip, reader, i)
      ensures forall i: nat :: i in docIds <==> ChatCalls.IsToSee(old(db.Snapshot()), trip, reader, i)
      ensures forall i, j :: 0 <= i < j < |messageIds| ==> messageIds[i] < messageIds[j]
      ensures forall i, j :: 0 <= i < j < |docIds| ==> docIds[i] < docIds[j]
    {
      ghost var s := db.Snapshot();
      ChatCalls.ReadingOnRows(s, trip, reader);
      hide MarkRead;
      messageIds, docIds := [], [];
      for n := 0 to |db.messages|
        invariant unchanged(db`trips, db`sessions, db`trucks, db`people, db`docs, db`clock) && |db.messages| == |s.messages|
        invariant forall i :: 0 <= i < |s.messages| ==> db.messages[i] == if i < n then MarkRead(s, trip, reader).messages[i] else s.messages[i]
        invariant forall i: nat :: i in messageIds <==> i < n && ChatCalls.IsToRead(s, trip, reader, i)
        invariant forall i, j :: 0 <= i < j < |messageIds| ==> messageIds[i] < messageIds[j]
      {
        var m := db.messages[n];
        if m.session < |db.sessions| && db.sessions[m.session].trip == trip && TakesPart(db.sessions[m.session], reader)
           && !m.isRead && m.sender != reader
        {
          assert forall i :: 0 <= i < |messageIds| ==> messageIds[i] in messageIds;
          db.messages := db.messages[n := m.(isRead := true)];
          messageIds := messageIds + [n];
        }
      }
      assert db.messages == MarkRead(s, trip, reader).messages;
      if trip < |db.trips| && IsCurrent(db.trips[trip], reader) {
        docIds := MarkDocsRead(trip, reader);
      } else {
        assert s.docs == MarkRead(s, trip, reader).docs;
      }
    }

    method MarkDocsRead(trip: TripId, reader: UserId) returns (docIds: seq<DocId>)
      requires trip < |db.trips| && IsCurrent(db.trips[trip], reader)
      modifies db`docs
      ensures db.docs == MarkRead(old(db.Snapshot()), trip, reader).docs
      ensures forall i: nat :: i in docIds <==> ChatCalls.IsToSee(old(db.Snapshot()), trip, reader, i)
      ensures forall i, j :: 0 <= i < j < |docIds| ==> docIds[i] < docIds[j]
    {
      ghost var s := db.Snapshot();
      ChatCalls.ReadingOnRows(s, trip, reader);
      hide MarkRead;
      docIds := [];
      for n := 0 to |db.docs|
        invariant |db.docs| == |s.docs|
        invariant forall i :: 0 <= i < |s.docs| ==> db.docs[i] == if i < n then MarkRead(s, trip, reader).docs[i] else s.docs[i]
        invariant forall i: nat :: i in docIds <==> i < n && ChatCalls.IsToSee(s, trip, reader, i)
        invariant forall i, j :: 0 <= i < j < |docIds| ==> docIds[i] < docIds[j]
      {
        var d := db.docs[n];
        if d.trip == trip && !d.isRead && d.uploader != reader {
          assert forall i :: 0 <= i < |docIds| ==> docIds[i] in docIds;
          db.docs := db.docs[n := d.(isRead := true)];
          docIds := docIds + [n];
        }
      }
    }
  }

  class DocumentsService {
    const db: Store
    const sessions: TripChatSessionsService

    constructor (db: Store, sessions: TripChatSessionsService)
      requires sessions.db == db
      ensures this.db == db && this.sessions == sessions
    {
      this.db, this.sessions := db, sessions;
    }

    /** Whether the requester may upload to the trip. */
    method IsOpenTo(who: Requester, trip: TripId) returns (ok: bool)
      ensures ok == MayUpload(db.Snapshot(), who, trip)
    {
      if trip >= |db.trips| || db.trips[trip].deleted { return false; }
      if who.role.Admin? { return true; }
      return db.trips[trip].company == who.company && (!who.role.Driver? || db.trips[trip].driver == who.id);
    }

    /** Several files at once; quoted messages must sit in the active session, if the trip has one. `landed` counts
        the files that got through: unless all did, what was saved is removed again. */
    method UploadMany(who: Requester, trip: TripId, files: nat, landed: nat, replyTo: Option<MessageId>, replyDoc: Option<DocId>)
      returns (answer: Answer)
      requires sessions.db == db && landed <= files
      modifies db`docs
      ensures Outcome(db.Snapshot(), answer) == Upload(old(db.Snapshot()), who, trip, files, landed == files, replyTo, replyDoc)
    {
      hide FindActive, MayUpload;
      if files == 0 { return NoFiles; }
      var ok := IsOpenTo(who, trip);
      if !ok { return TripNotFound; }
      var active := sessions.GetActiveSession(trip);
      if replyTo.Some? && (replyTo.value >= |db.messages| || db.messages[replyTo.value].trip != trip
                           || (active.Some? && db.messages[replyTo.value].session != active.value)) { return ReplyNotFound; }
      if replyDoc.Some? && (replyDoc.value >= |db.docs| || db.docs[replyDoc.value].trip != trip) { return ReplyNotFound; }
      var before := db.docs;
      for n := 0 to landed
        invariant db.docs == before + seq(n, _ => Doc(trip, who.id, false, false, replyTo, replyDoc))
      {
        db.docs := db.docs + [Doc(trip, who.id, false, false, replyTo, replyDoc)];
      }
      if landed < files {
        db.docs := db.docs[..|before|];
        return UploadFailed;
      }
      return Done;
    }

    /** Whether the requester may see the trip's files. */
    method ShowsDocs(who: Requester, trip: TripId) returns (ok: bool)
      ensures ok == MaySeeDocs(db.Snapshot(), who, trip)
    {
      if trip >= |db.trips| { return false; }
      if who.role.Admin? { return true; }
      var row := db.trips[trip];
      if row.company != who.company { return false; }
      if !who.role.Driver? || row.driver == who.id { return true; }
      for n := 0 to |db.sessions|
        invariant forall i :: 0 <= i < n ==> db.sessions[i].trip != trip || db.sessions[i].driver != who.id
      {
        if db.sessions[n].trip == trip && db.sessions[n].driver == who.id { return true; }
      }
      return row.truck < |db.trucks| && db.trucks[row.truck].driver == Some(who.id);
    }

    method Remove(doc: DocId, who: Requester) returns (answer: Answer)
      modifies db`docs
      ensures Outcome(db.Snapshot(), answer) == DeleteDoc(old(db.Snapshot()), doc, who)
    {
      hide MaySeeDocs;
      if doc >= |db.docs| { return DocNotFound; }
      var ok := ShowsDocs(who, db.docs[doc].trip);
      if !ok { return DocNotFound; }
      if who.role.Driver? && db.docs[doc].uploader != who.id { return NotAllowed; }
      if !db.docs[doc].deleted {
        db.docs := db.docs[doc := db.docs[doc].(deleted := true)];
      }
      assert db.docs == old(db.docs)[doc := old(db.docs)[doc].(deleted := true)];
      return Done;
    }
  }
}
