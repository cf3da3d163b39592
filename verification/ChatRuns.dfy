/** One private chat per driver and manager of a trip, over every run of the trip machine. */
module ChatRuns {
  import opened Base
  import opened Trips

  // ----- what every state keeps

  predicate SessionOk(x: Session, trips: seq<Trip>, now: Time) {
    && x.trip < |trips| && x.startedAt <= now
    && (match x.endedAt
        case Some(end) => x.startedAt <= end <= now
        case None => x.driver == trips[x.trip].driver && x.manager == trips[x.trip].manager)
  }

  predicate EndsBefore(x: Session, y: Session) {
    x.endedAt.Some? && x.endedAt.value <= y.startedAt
  }

  /** A trip's sessions follow one another without overlap; one without an end is the last,
      and belongs to the trip's current driver and manager. */
  ghost predicate SessionsOk(sessions: seq<Session>, trips: seq<Trip>, now: Time) {
    && (forall i :: 0 <= i < |sessions| ==> SessionOk(sessions[i], trips, now))
    && (forall i, j :: 0 <= i < j < |sessions| && sessions[i].trip == sessions[j].trip ==> EndsBefore(sessions[i], sessions[j]))
  }

  /** The message sits in a session of its trip, and was posted between that session's start and end. */
  predicate MessageOk(m: Message, sessions: seq<Session>, now: Time) {
    && m.session < |sessions| && sessions[m.session].trip == m.trip
    && sessions[m.session].startedAt <= m.createdAt <= sessions[m.session].endedAt.GetOr(now) && m.createdAt <= now
  }

  ghost predicate MessagesOk(messages: seq<Message>, sessions: seq<Session>, now: Time) {
    forall i :: 0 <= i < |messages| ==> MessageOk(messages[i], sessions, now)
  }

  ghost predicate Valid(s: State, now: Time) {
    SessionsOk(s.sessions, s.trips, now) && MessagesOk(s.messages, s.sessions, now)
  }

  /** From the n-th on, messages sit in sessions that are still open. */
  ghost predicate Posted(s: State, n: nat) {
    forall i :: n <= i < |s.messages| ==>
      s.messages[i].session < |s.sessions| && s.sessions[s.messages[i].session].endedAt.None?
  }

  /** Nothing is lost or rewritten: sessions only end, messages are only marked read. */
  ghost predicate Grew(s: State, t: State) {
    && |s.sessions| <= |t.sessions| && |s.messages| <= |t.messages| && |s.trips| <= |t.trips|
    && (forall i :: 0 <= i < |s.sessions| ==>
          t.sessions[i] == s.sessions[i].(endedAt := t.sessions[i].endedAt)
          && (s.sessions[i].endedAt.Some? ==> t.sessions[i] == s.sessions[i]))
    && (forall i :: 0 <= i < |s.messages| ==> t.messages[i] == s.messages[i].(isRead := t.messages[i].isRead))
  }

  lemma GrewTwice(s: State, t: State, u: State)
    requires Grew(s, t) && Grew(t, u)
    ensures Grew(s, u)
  {
  }

  lemma ValidLater(s: State, now: Time, later: Time)
    requires Valid(s, now) && now <= later
    ensures Valid(s, later)
  {
  }

  // ----- the writes every call is made of

  lemma CloseKeeps(s: State, trip: TripId, now: Time)
    requires Valid(s, now)
    ensures var t := Close(s, trip, now);
            && Valid(t, now) && Grew(s, t) && |t.sessions| == |s.sessions| && t == s.(sessions := t.sessions)
            && (forall i :: 0 <= i < |t.sessions| && t.sessions[i].trip == trip ==> t.sessions[i].endedAt.Some?)
            && (forall i :: 0 <= i < |t.sessions| && t.sessions[i].trip != trip ==> t.sessions[i] == s.sessions[i])
  {
    var found := Active(s, trip);
    if found.Some? {
      var k := found.value;
      forall i | 0 <= i < |s.sessions| && i != k && s.sessions[i].trip == trip ensures s.sessions[i].endedAt.Some? {
        assert i < k ==> EndsBefore(s.sessions[i], s.sessions[k]);
        assert k < i ==> EndsBefore(s.sessions[k], s.sessions[i]);
      }
    }
  }

  /** Rows may change once no open session speaks for them. */
  lemma RowKeeps(s: State, trip: TripId, row: Trip, now: Time)
    requires Valid(s, now) && trip < |s.trips|
    requires (row.driver == s.trips[trip].driver && row.manager == s.trips[trip].manager)
             || forall i :: 0 <= i < |s.sessions| && s.sessions[i].trip == trip ==> s.sessions[i].endedAt.Some?
    ensures Valid(s.(trips := s.trips[trip := row]), now)
  {
  }

  lemma OpenKeeps(s: State, x: Session, now: Time)
    requires Valid(s, now) && x.trip < |s.trips| && x.startedAt == now && x.endedAt.None?
    requires x.driver == s.trips[x.trip].driver && x.manager == s.trips[x.trip].manager
    requires forall i :: 0 <= i < |s.sessions| && s.sessions[i].trip == x.trip ==> s.sessions[i].endedAt.Some?
    ensures var t := s.(sessions := s.sessions + [x]); Valid(t, now) && Grew(s, t)
  {
    var sessions := s.sessions + [x];
    forall i, j | 0 <= i < j < |sessions| && sessions[i].trip == sessions[j].trip ensures EndsBefore(sessions[i], sessions[j]) {
      assert SessionOk(s.sessions[i], s.trips, now);
    }
  }

  lemma PostKeeps(s: State, m: Message, now: Time, n: nat)
    requires Valid(s, now) && Posted(s, n)
    requires m.session < |s.sessions| && s.sessions[m.session].trip == m.trip && s.sessions[m.session].endedAt.None? && m.createdAt == now
    ensures var t := s.(messages := s.messages + [m]); Valid(t, now) && Posted(t, n) && Grew(s, t)
  {
    assert SessionOk(s.sessions[m.session], s.trips, now);
  }

  /** The chat passes to the row's driver and manager: everything said so far stays where it was. */
  lemma ReopenKeeps(s: State, trip: TripId, row: Trip, actor: UserId, now: Time, n: nat)
    requires Valid(s, now) && trip < |s.trips|
    requires Posted(s, n) && forall i :: n <= i < |s.messages| ==> s.messages[i].trip != trip
    ensures var t := Reopen(s, trip, row, actor, now);
            && Valid(t, now) && Posted(t, n) && Grew(s, t)
            && t == s.(trips := s.trips[trip := row], sessions := t.sessions, messages := t.messages)
            && |t.messages| == |s.messages| + 1 && t.messages[..|s.messages|] == s.messages && t.messages[|s.messages|].trip == trip
  {
    var s1 := s.(trips := s.trips[trip := row]);
    var closed := Close(s, trip, now);
    CloseKeeps(s, trip, now);
    assert closed.(trips := s1.trips) == Close(s1, trip, now) by { hide FindActive; }
    var c1 := closed.(trips := s1.trips);
    RowKeeps(closed, trip, row, now);
    var x := Session(trip, row.driver, row.manager, now, None);
    OpenKeeps(c1, x, now);
    var fresher := c1.(sessions := c1.sessions + [x]);
    PostedAfterClose(s, closed, trip, now, n);
    assert Posted(fresher, n);
    var m := SystemMessage(trip, |c1.sessions|, actor, now);
    PostKeeps(fresher, m, now, n);
    assert fresher.(messages := fresher.messages + [m]) == Reopen(s, trip, row, actor, now);
  }

  lemma PostedAfterClose(s: State, closed: State, trip: TripId, now: Time, n: nat)
    requires Valid(s, now) && Posted(s, n) && closed == s.(sessions := closed.sessions) && |closed.sessions| == |s.sessions|
    requires forall i :: 0 <= i < |s.sessions| && s.sessions[i].trip != trip ==> closed.sessions[i] == s.sessions[i]
    requires forall i :: n <= i < |s.messages| ==> s.messages[i].trip != trip
    ensures Posted(closed, n)
  {
    forall i | n <= i < |s.messages| ensures closed.sessions[s.messages[i].session].endedAt.None? {
      assert MessageOk(s.messages[i], s.sessions, now);
    }
  }

  /** What one call does to the chats, whichever it is. */
  ghost predicate Keeps(s: State, t: State, now: Time) {
    Valid(t, now) && Grew(s, t) && Posted(t, |s.messages|)
  }

  lemma CompleteKeeps(s: State, trip: TripId, now: Time, n: nat)
    requires Valid(s, now) && trip < |s.trips|
    requires Posted(s, n) && forall i :: n <= i < |s.messages| ==> s.messages[i].trip != trip
    ensures var t := CompleteTrip(s, trip, now);
            && Valid(t, now) && Posted(t, n) && Grew(s, t)
            && t == s.(trips := t.trips, sessions := t.sessions)
  {
    var row := s.trips[trip].(status := Delivered);
    RowKeeps(s, trip, row, now);
    var s1 := s.(trips := s.trips[trip := row]);
    CloseKeeps(s1, trip, now);
    PostedAfterClose(s1, Close(s1, trip, now), trip, now, n);
  }

  lemma PostSystemKeeps(s: State, trip: TripId, actor: UserId, now: Time, n: nat)
    requires Valid(s, now) && Posted(s, n)
    ensures var t := PostSystem(s, trip, actor, now);
            Valid(t, now) && Posted(t, n) && Grew(s, t) && t == s.(messages := t.messages)
  {
    hide FindActive;
    match Active(s, trip)
    case None =>
    case Some(i) => PostKeeps(s, SystemMessage(trip, i, actor, now), now, n);
  }

  lemma AnnounceKeeps(s: State, truck: TruckId, company: CompanyId, actor: UserId, now: Time, n: nat)
    requires Valid(s, now) && Posted(s, n)
    ensures var t := Announce(s, truck, company, actor, now);
            Valid(t, now) && Posted(t, n) && Grew(s, t) && t == s.(messages := t.messages)
  {
    hide PostSystem, NewestOpen, Valid, Posted;
    if truck < |s.trucks| && s.trucks[truck].driver.Some? {
      match NewestOpen(s.trips, truck, company, None, |s.trips|)
      case None =>
      case Some(t) => PostSystemKeeps(s, t, actor, now, n);
    }
  }

  lemma SyncKeeps(s: State, company: CompanyId, target: TruckId, targetManager: UserId,
                  source: TruckId, sourceManager: Option<UserId>, actor: UserId, now: Time, n: nat)
    requires target < |s.trucks| && source < |s.trucks|
    requires Valid(s, now) && Posted(s, n)
    ensures var t := SyncOwnership(s, company, target, targetManager, source, sourceManager, actor, now);
            Valid(t, now) && Posted(t, n) && Grew(s, t) && t == s.(trucks := t.trucks, messages := t.messages)
  {
    var targetChanged := s.trucks[target].manager != Some(targetManager);
    var trucks := if targetChanged then SetManager(s.trucks, target, Some(targetManager)) else s.trucks;
    var s1 := s.(trucks := if sourceManager.Some? then SetManager(trucks, source, sourceManager) else trucks);
    var s2 := if targetChanged then Announce(s1, target, company, actor, now) else s1;
    assert Valid(s1, now) && Posted(s1, n) && Grew(s, s1);
    hide Announce, Valid, Posted, SetManager;
    if targetChanged { AnnounceKeeps(s1, target, company, actor, now, n); }
    AnnounceKeeps(s2, source, company, actor, now, n);
  }

  lemma SettledKeeps(s: State, trip: TripId, truck: TruckId, blocking: Option<TripId>, strategy: Option<Strategy>,
                     actor: UserId, now: Time)
    requires trip < |s.trips| && s.trips[trip].truck < |s.trucks| && truck < |s.trucks| && s.trucks[truck].driver.Some?
    requires blocking.Some? ==> blocking.value < |s.trips| && strategy.Some? && blocking.value != trip
    requires blocking.Some? && strategy == Some(Swap) ==> s.trucks[s.trips[trip].truck].driver.Some?
    requires Valid(s, now)
    ensures var t := Settled(s, trip, truck, blocking, strategy, actor, now); Keeps(s, t, now) && t.trucks == s.trucks
  {
    NothingYet(s, now);
    hide Valid, Posted, Grew, Reopen, CompleteTrip;
    var row, n := s.trips[trip], |s.messages|;
    var there := row.(truck := truck, driver := s.trucks[truck].driver.value, status := Assigned);
    ReopenKeeps(s, trip, there, actor, now, n);
    if blocking.Some? {
      var moved := Reopen(s, trip, there, actor, now);
      OnlyLast(s, moved, trip, blocking.value);
      if strategy == Some(Swap) {
        var back := moved.trips[blocking.value].(truck := row.truck, driver := s.trucks[row.truck].driver.value, status := Assigned);
        ReopenKeeps(moved, blocking.value, back, actor, now, n);
        GrewTwice(s, moved, Reopen(moved, blocking.value, back, actor, now));
      } else {
        CompleteKeeps(moved, blocking.value, now, n);
        GrewTwice(s, moved, CompleteTrip(moved, blocking.value, now));
      }
    }
  }

  lemma OnlyLast(s: State, moved: State, trip: TripId, other: TripId)
    requires |moved.messages| == |s.messages| + 1 && moved.messages[|s.messages|].trip == trip && trip != other
    ensures forall i :: |s.messages| <= i < |moved.messages| ==> moved.messages[i].trip != other
  {
  }

  lemma ResettleKeeps(s: State, trip: TripId, truck: TruckId, blocking: Option<TripId>, strategy: Option<Strategy>,
                      actor: UserId, now: Time)
    requires trip < |s.trips| && s.trips[trip].truck < |s.trucks| && truck < |s.trucks| && s.trucks[truck].driver.Some?
    requires blocking.Some? ==> blocking.value < |s.trips| && strategy.Some? && blocking.value != trip
    requires blocking.Some? && strategy == Some(Swap) ==> s.trucks[s.trips[trip].truck].driver.Some?
    requires Valid(s, now)
    ensures Keeps(s, Resettle(s, trip, truck, blocking, strategy, actor, now), now)
  {
    hide Valid, Posted, Grew, SyncOwnership, MoveTrip, CompleteTrip;
    var row := s.trips[trip];
    var settled := Settled(s, trip, truck, blocking, strategy, actor, now);
    SettledKeeps(s, trip, truck, blocking, strategy, actor, now);
    var sourceManager :=
      if blocking.Some? && strategy == Some(Swap) then Some(s.trips[blocking.value].manager) else s.trucks[truck].manager;
    SyncKeeps(settled, row.company, truck, row.manager, row.truck, sourceManager, actor, now, |s.messages|);
    GrewTwice(s, settled, SyncOwnership(settled, row.company, truck, row.manager, row.truck, sourceManager, actor, now));
  }

  /** A truck's new manager takes over exactly its open trips of other managers. */
  lemma {:induction false} CascadeRows(s: State, truck: TruckId, manager: UserId, actor: UserId, now: Time, n: nat)
    requires n <= |s.trips|
    ensures var t := Cascade(s, truck, manager, actor, now, n);
            && t == s.(trips := t.trips, sessions := t.sessions, messages := t.messages)
            && (forall k :: 0 <= k < |s.trips| ==>
                  t.trips[k] == if k < n && FollowsTruck(s.trips[k], truck, manager) then s.trips[k].(manager := manager) else s.trips[k])
  {
    hide FollowsTruck, FindActive;
    if n > 0 {
      CascadeRows(s, truck, manager, actor, now, n - 1);
    }
  }

  /** … and only trips among the first n have heard of it. */
  ghost predicate TakenOver(s: State, t: State, now: Time, n: nat) {
    Keeps(s, t, now) && forall i :: |s.messages| <= i < |t.messages| ==> t.messages[i].trip < n
  }

  lemma {:induction false} CascadeKeeps(s: State, truck: TruckId, manager: UserId, actor: UserId, now: Time, n: nat)
    requires Valid(s, now) && n <= |s.trips|
    ensures TakenOver(s, Cascade(s, truck, manager, actor, now, n), now, n)
  {
    hide Reopen, Valid, FollowsTruck, TakenOver;
    if n == 0 {
      NoneTakenOver(s, now);
    } else {
      var before := Cascade(s, truck, manager, actor, now, n - 1);
      CascadeKeeps(s, truck, manager, actor, now, n - 1);
      assert before.trips[n - 1] == s.trips[n - 1] by { CascadeRows(s, truck, manager, actor, now, n - 1); }
      TakeoverKeeps(s, before, n - 1, s.trips[n - 1].(manager := manager), actor, now);
    }
  }

  lemma NoneTakenOver(s: State, now: Time)
    requires Valid(s, now)
    ensures TakenOver(s, s, now, 0)
  {
  }

  lemma TakeoverKeeps(s: State, before: State, trip: TripId, row: Trip, actor: UserId, now: Time)
    requires TakenOver(s, before, now, trip) && trip < |before.trips|
    ensures TakenOver(s, Reopen(before, trip, row, actor, now), now, trip + 1)
    ensures TakenOver(s, before, now, trip + 1)
  {
    var t := Reopen(before, trip, row, actor, now);
    assert |s.messages| <= |before.messages|;
    hide Reopen, Valid, Posted, Grew;
    ReopenKeeps(before, trip, row, actor, now, |s.messages|);
    GrewTwice(s, before, t);
    PrefixThenLast(before.messages, t.messages, |s.messages|, trip + 1);
  }

  lemma PrefixThenLast(a: seq<Message>, b: seq<Message>, m: nat, n: nat)
    requires |b| == |a| + 1 && b[..|a|] == a && b[|a|].trip < n && m <= |a|
    requires forall i :: m <= i < |a| ==> a[i].trip < n
    ensures forall i :: m <= i < |b| ==> b[i].trip < n
  {
    forall i | m <= i < |a| ensures b[i] == a[i] {
      assert b[..|a|][i] == a[i];
    }
  }

  lemma NothingYet(s: State, now: Time)
    requires Valid(s, now)
    ensures Keeps(s, s, now)
  {
  }

  lemma BroadcastKeeps(s: State, sender: UserId, company: CompanyId, now: Time, n: nat)
    requires Valid(s, now) && n <= |s.trips|
    ensures Keeps(s, Broadcast(s, sender, company, now, n), now)
  {
    NothingYet(s, now);
    hide Valid, Posted, FindActive, IsOpen;
    if n > 0 {
      BroadcastKeeps(s, sender, company, now, n - 1);
      var before, session := Broadcast(s, sender, company, now, n - 1), Active(s, n - 1);
      if session.Some? {
        PostKeeps(before, Message(n - 1, session.value, sender, now, false, false, None, None), now, |s.messages|);
      }
    }
  }

  lemma CreateKeeps(s: State, company: CompanyId, manager: UserId, driver: UserId, truck: TruckId, now: Time)
    requires Valid(s, now)
    ensures Keeps(s, CreateTrip(s, company, manager, driver, truck, now).state, now)
  {
    var s1 := s.(trips := s.trips + [Trip(company, truck, driver, manager, Assigned, false)]);
    assert Valid(s1, now);
    forall i | 0 <= i < |s.sessions| ensures s.sessions[i].trip != |s.trips| {
      assert SessionOk(s.sessions[i], s.trips, now);
    }
    OpenKeeps(s1, Session(|s.trips|, driver, manager, now, None), now);
    assert Posted(s, |s.messages|);
  }

  lemma TripsKeep(s: State, op: TripOp, now: Time)
    requires Valid(s, now)
    ensures Keeps(s, TripsEffect(s, op, now).state, now)
  {
    hide Valid, Keeps, InCompany, Reopen, Resettle, CreateTrip;
    NothingYet(s, now);
    match op
    case Create(company, manager, driver, truck) => CreateKeeps(s, company, manager, driver, truck, now);
    case SetStatus(trip, company, status) =>
      if trip < |s.trips| { SamePairKeeps(s, trip, s.trips[trip].(status := status.GetOr(s.trips[trip].status)), now); }
    case DriverSetsStatus(trip, driver, status) =>
      if trip < |s.trips| { SamePairKeeps(s, trip, s.trips[trip].(status := status.GetOr(s.trips[trip].status)), now); }
    case GiveToDriver(trip, company, driver, actor) =>
      if trip < |s.trips| { ReassignKeeps(s, trip, s.trips[trip].(driver := driver), actor, now); }
    case GiveToManager(trip, company, manager, actor) =>
      if trip < |s.trips| { ReassignKeeps(s, trip, s.trips[trip].(manager := manager), actor, now); }
    case GiveToTruck(trip, company, truck, strategy, actor) => TruckChangeKeeps(s, trip, company, truck, strategy, actor, now);
    case Hide(trip, company, actor, plainManager) =>
      if trip < |s.trips| { SamePairKeeps(s, trip, s.trips[trip].(deleted := true), now); }
  }

  lemma SamePairKeeps(s: State, trip: TripId, row: Trip, now: Time)
    requires Valid(s, now) && trip < |s.trips| && row.driver == s.trips[trip].driver && row.manager == s.trips[trip].manager
    ensures Keeps(s, s.(trips := s.trips[trip := row]), now)
  {
    RowKeeps(s, trip, row, now);
  }

  lemma ReassignKeeps(s: State, trip: TripId, row: Trip, actor: UserId, now: Time)
    requires Valid(s, now) && trip < |s.trips|
    ensures Keeps(s, Reopen(s, trip, row, actor, now), now)
  {
    hide Reopen;
    ReopenKeeps(s, trip, row, actor, now, |s.messages|);
  }

  lemma TruckChangeKeeps(s: State, trip: TripId, company: Option<CompanyId>, truck: TruckId, strategy: Option<Strategy>,
                         actor: UserId, now: Time)
    requires Valid(s, now)
    ensures Keeps(s, AssignTruck(s, trip, company, truck, strategy, actor, now).state, now)
  {
    hide Valid, Keeps, Resettle, NewestOpen;
    NothingYet(s, now);
    if trip < |s.trips| && s.trips[trip].truck < |s.trucks| && truck < |s.trucks| && s.trucks[truck].driver.Some? {
      var blocking := Blocking(s, trip, truck);
      if (blocking.Some? ==> strategy.Some?) && (blocking.Some? && strategy == Some(Swap) ==> s.trucks[s.trips[trip].truck].driver.Some?) {
        ResettleKeeps(s, trip, truck, blocking, strategy, actor, now);
      }
    }
  }

  lemma TrucksKeep(s: State, op: TruckOp, now: Time)
    requires Valid(s, now)
    ensures Keeps(s, TrucksEffect(s, op, now).state, now)
  {
    hide Valid, Keeps, InCompany, Cascade, EditRow, PutTruckOnDriver, Release, PlateOwner;
    FleetKeeps(s, now);
    NothingYet(s, now);
    if op.EditTruck? && op.truck < |s.trucks| && op.newManager.Put? && op.newManager.value.Some? {
      var s1 := s.(trucks := EditRow(s.trucks, op.truck, op.plate, op.newDriver, op.newManager));
      assert Valid(s1, now) by { FleetKeeps(s, now); }
      CascadeKeeps(s1, op.truck, op.newManager.value.value, op.actor, now, |s.trips|);
      KeepsFromFleet(s, s1, Cascade(s1, op.truck, op.newManager.value.value, op.actor, now, |s.trips|), now);
    }
  }

  lemma FleetKeeps(s: State, now: Time)
    requires Valid(s, now)
    ensures forall trucks :: Keeps(s, s.(trucks := trucks), now)
    ensures forall trucks :: Valid(s.(trucks := trucks), now)
  {
  }

  lemma KeepsFromFleet(s: State, s1: State, t: State, now: Time)
    requires s1 == s.(trucks := s1.trucks) && Keeps(s1, t, now)
    ensures Keeps(s, t, now)
  {
  }

  lemma ChatKeeps(s: State, op: ChatOp, now: Time)
    requires Valid(s, now)
    ensures Keeps(s, ChatEffect(s, op, now).state, now)
  {
    hide Valid, Keeps, Broadcast, MarkRead, QuotesDoc, QuotesMessage, FindActive, MayUpload, MaySeeDocs;
    NothingYet(s, now);
    match op
    case Say(sender, trip, replyTo, replyDoc) => SayKeeps(s, sender, trip, replyTo, replyDoc, now);
    case SayToAll(sender, company) => BroadcastKeeps(s, sender, company, now, |s.trips|);
    case Read(trip, reader) => ReadKeeps(s, trip, reader, now);
    case Attach(_, _, _, _, _, _) => FilesKeep(s, now);
    case DropDoc(_, _) => FilesKeep(s, now);
  }

  lemma SayKeeps(s: State, sender: UserId, trip: TripId, replyTo: Option<MessageId>, replyDoc: Option<DocId>, now: Time)
    requires Valid(s, now)
    ensures Keeps(s, PostMessage(s, sender, trip, replyTo, replyDoc, now).state, now)
  {
    NothingYet(s, now);
    hide Valid, Posted, QuotesDoc, QuotesMessage, FindActive;
    var session := Active(s, trip);
    if session.Some? {
      PostKeeps(s, Message(trip, session.value, sender, now, false, false, replyTo, replyDoc), now, |s.messages|);
    }
  }

  lemma ReadKeeps(s: State, trip: TripId, reader: UserId, now: Time)
    requires Valid(s, now)
    ensures Keeps(s, MarkRead(s, trip, reader), now)
  {
    hide ReadsMessage, SessionOk;
    var t := MarkRead(s, trip, reader);
    forall i | 0 <= i < |t.messages| ensures MessageOk(t.messages[i], t.sessions, now) {
      assert MessageOk(s.messages[i], s.sessions, now);
    }
  }

  lemma FilesKeep(s: State, now: Time)
    requires Valid(s, now)
    ensures forall docs :: Keeps(s, s.(docs := docs), now)
  {
  }

  lemma StepKeeps(s: State, c: Call)
    requires Valid(s, s.clock) && s.clock < c.at
    ensures Keeps(s, Step(s, c).state, c.at)
  {
    ValidLater(s, s.clock, c.at);
    hide TripsEffect, TrucksEffect, ChatEffect, SessionsOk, MessagesOk;
    match c.op
    case OnTrips(op) => TripsKeep(s, op, c.at);
    case OnTrucks(op) => TrucksKeep(s, op, c.at);
    case OnChat(op) => ChatKeeps(s, op, c.at);
    case SetPeople(_) =>
  }

  // ----- main results

  /** Main result: in every state of every run a trip has at most one open session, which speaks for the trip's
      current driver and manager; its sessions never overlap; and every message falls inside its session. */
  lemma {:induction false} OneChatAlways(s: State, calls: seq<Call>)
    requires Valid(s, s.clock) && IsRun(s, calls)
    ensures var t := Final(s, calls);
      && Valid(t, t.clock) && Grew(s, t)
      && (forall i, j :: 0 <= i < j < |t.sessions| && t.sessions[i].trip == t.sessions[j].trip ==>
            t.sessions[i].endedAt.Some? && t.sessions[i].endedAt.value <= t.sessions[j].startedAt)
      && (forall i :: 0 <= i < |t.sessions| && t.sessions[i].endedAt.None? ==>
            var x := t.sessions[i];
            x.trip < |t.trips| && x.driver == t.trips[x.trip].driver && x.manager == t.trips[x.trip].manager)
    decreases |calls|
  {
    hide Step;
    if calls == [] {
      assert forall i, j :: 0 <= i < j < |s.sessions| && s.sessions[i].trip == s.sessions[j].trip ==> EndsBefore(s.sessions[i], s.sessions[j]);
      assert forall i :: 0 <= i < |s.sessions| ==> SessionOk(s.sessions[i], s.trips, s.clock);
    } else {
      hide Grew, Valid;
      StepKeeps(s, calls[0]);
      var s1 := Step(s, calls[0]).state;
      assert s1.clock == calls[0].at by { StepClock(s, calls[0]); }
      OneChatAlways(s1, calls[1..]);
      GrewTwice(s, s1, Final(s1, calls[1..]));
    }
  }

  lemma StepClock(s: State, c: Call)
    ensures Step(s, c).state.clock == c.at
  {
    hide Effect;
  }

  /** The state right after the call that posted message i. */
  ghost function BornIn(s: State, calls: seq<Call>, i: MessageId): State
    decreases |calls|
  {
    if calls == [] then s
    else
      var s1 := Step(s, calls[0]).state;
      if i < |s1.messages| then s1 else BornIn(s1, calls[1..], i)
  }

  /** A message's session speaks for the pair that had the trip when it was posted. */
  lemma {:induction false} SessionTellsThePair(s: State, calls: seq<Call>, i: MessageId)
    requires Valid(s, s.clock) && IsRun(s, calls) && |s.messages| <= i < |Final(s, calls).messages|
    ensures var t, b := Final(s, calls), BornIn(s, calls, i); var m := t.messages[i];
      && m.session < |t.sessions| && t.sessions[m.session].trip == m.trip && m.trip < |b.trips|
      && t.sessions[m.session].driver == b.trips[m.trip].driver && t.sessions[m.session].manager == b.trips[m.trip].manager
    decreases |calls|
  {
    hide Step;
    var s1 := Step(s, calls[0]).state;
    StepKeeps(s, calls[0]);
    StepClock(s, calls[0]);
    if i < |s1.messages| {
      OneChatAlways(s1, calls[1..]);
      assert MessageOk(s1.messages[i], s1.sessions, s1.clock);
      assert SessionOk(s1.sessions[s1.messages[i].session], s1.trips, s1.clock);
    } else {
      SessionTellsThePair(s1, calls[1..], i);
    }
  }

  /** The sessions of a trip that the live chat shows to the requester. */
  ghost predicate ShowsSession(s: State, trip: TripId, requester: UserId, role: Role, session: Session) {
    && session.trip == trip
    && (role.Admin?
        || (&& trip < |s.trips| && !s.trips[trip].deleted
            && ((s.trips[trip].driver == requester && session.driver == requester)
                || (s.trips[trip].manager == requester && session.manager == requester))))
  }

  ghost predicate ShowsMessage(s: State, trip: TripId, requester: UserId, role: Role, i: MessageId) {
    i < |s.messages| && s.messages[i].session < |s.sessions| && ShowsSession(s, trip, requester, role, s.sessions[s.messages[i].session])
  }

  /** Main result: what the live chat shows is history. A requester who is not an admin sees exactly the
      trip's messages posted while they held, in the trip, the same part they hold now. */
  lemma LiveChatIsHistory(calls: seq<Call>, trip: TripId, requester: UserId, role: Role, i: MessageId)
    requires IsRun(Empty(), calls) && i < |Final(Empty(), calls).messages|
    ensures var t, b := Final(Empty(), calls), BornIn(Empty(), calls, i);
      ShowsMessage(t, trip, requester, role, i) <==>
        && t.messages[i].trip == trip && trip < |b.trips| && trip < |t.trips|
        && (role.Admin?
            || (!t.trips[trip].deleted
                && ((t.trips[trip].driver == requester && b.trips[trip].driver == requester)
                    || (t.trips[trip].manager == requester && b.trips[trip].manager == requester))))
  {
    hide Step, Grew, BornIn;
    OneChatAlways(Empty(), calls);
    SessionTellsThePair(Empty(), calls, i);
    var t := Final(Empty(), calls);
    assert MessageOk(t.messages[i], t.sessions, t.clock);
    assert SessionOk(t.sessions[t.messages[i].session], t.trips, t.clock);
  }

  /** In particular the trip's driver, who is not also its manager, sees exactly what was posted while they drove it. */
  lemma DriverSeesTheirTime(calls: seq<Call>, trip: TripId, driver: UserId, role: Role, i: MessageId)
    requires IsRun(Empty(), calls) && i < |Final(Empty(), calls).messages|
    requires var t := Final(Empty(), calls);
      !role.Admin? && trip < |t.trips| && !t.trips[trip].deleted && t.trips[trip].driver == driver && t.trips[trip].manager != driver
    ensures var t, b := Final(Empty(), calls), BornIn(Empty(), calls, i);
      ShowsMessage(t, trip, driver, role, i) <==> t.messages[i].trip == trip && trip < |b.trips| && b.trips[trip].driver == driver
  {
    hide Step, BornIn, ShowsMessage, IsRun, Final;
    LiveChatIsHistory(calls, trip, driver, role, i);
  }
}
