/** What each call on a trip, a truck or a chat leaves in the rows, and when it refuses. */
module TripWrites {
  import opened Base
  import opened Trips
  import TruckSwaps

  // ----- chats

  /** The trip's chat: its session without an end, the last one if there are several. */
  ghost predicate IsChat(sessions: seq<Session>, trip: TripId, i: nat) {
    && i < |sessions| && sessions[i].trip == trip && sessions[i].endedAt.None?
    && forall j :: i < j < |sessions| && sessions[j].trip == trip ==> sessions[j].endedAt.Some?
  }

  /** The trip's chat, if it has one, ends now and one with this pair begins; no other session changes. */
  ghost predicate ChatPasses(a: seq<Session>, b: seq<Session>, trip: TripId, driver: UserId, manager: UserId, now: Time) {
    && |b| == |a| + 1 && b[|a|] == Session(trip, driver, manager, now, None)
    && ChatEnds(a, b[..|a|], trip, now)
  }

  ghost predicate ChatEnds(a: seq<Session>, b: seq<Session>, trip: TripId, now: Time) {
    |b| == |a| && forall i: nat :: i < |a| ==> b[i] == if IsChat(a, trip, i) then a[i].(endedAt := Some(now)) else a[i]
  }

  lemma {:induction false} FindsTheLast(sessions: seq<Session>, trip: TripId, n: nat)
    requires n <= |sessions|
    ensures var found := FindActive(sessions, trip, n);
      found.Some? ==> forall j :: found.value < j < n && sessions[j].trip == trip ==> sessions[j].endedAt.Some?
  {
    if n > 0 { FindsTheLast(sessions, trip, n - 1); }
  }

  /** Looking for the active session finds the trip's chat. */
  lemma ActiveIsTheChat(s: State, trip: TripId)
    ensures forall i: nat :: Active(s, trip) == Some(i) <==> IsChat(s.sessions, trip, i)
    ensures Active(s, trip).None? ==> forall i: nat :: !IsChat(s.sessions, trip, i)
  {
    FindsTheLast(s.sessions, trip, |s.sessions|);
  }

  lemma CloseOnRows(s: State, trip: TripId, now: Time)
    ensures var t := Close(s, trip, now); t == s.(sessions := t.sessions) && ChatEnds(s.sessions, t.sessions, trip, now)
  {
    ActiveIsTheChat(s, trip);
    hide IsChat, FindActive;
  }

  /** Handing a trip over: its row is rewritten, its chat passes to the row's pair and starts with one line; nothing
      else changes. */
  lemma ReopenOnRows(s: State, trip: TripId, row: Trip, actor: UserId, now: Time)
    requires trip < |s.trips|
    ensures var t := Reopen(s, trip, row, actor, now);
      && t == s.(trips := s.trips[trip := row], sessions := t.sessions,
                 messages := s.messages + [Message(trip, |s.sessions|, actor, now, true, false, None, None)])
      && ChatPasses(s.sessions, t.sessions, trip, row.driver, row.manager, now)
  {
    var s1 := s.(trips := s.trips[trip := row]);
    CloseOnRows(s1, trip, now);
    hide Close, ChatEnds;
    var closed := Close(s1, trip, now);
    assert (closed.sessions + [Session(trip, row.driver, row.manager, now, None)])[..|closed.sessions|] == closed.sessions;
    EndsKeepLength(s.sessions, closed.sessions, trip, now);
  }

  lemma EndsKeepLength(a: seq<Session>, b: seq<Session>, trip: TripId, now: Time)
    requires ChatEnds(a, b, trip, now)
    ensures |a| == |b|
  {
  }

  /** A system line goes into the trip's chat, if it has one. */
  lemma PostOnRows(s: State, trip: TripId, actor: UserId, now: Time)
    ensures var t := PostSystem(s, trip, actor, now);
      && (forall i: nat :: IsChat(s.sessions, trip, i) ==> t == s.(messages := s.messages + [Message(trip, i, actor, now, true, false, None, None)]))
      && ((forall i: nat :: !IsChat(s.sessions, trip, i)) ==> t == s)
  {
    ActiveIsTheChat(s, trip);
    hide IsChat, FindActive;
  }

  // ----- trips

  /** A new trip needs a driver and a truck of the company; it stands last, assigned, and its chat is open. */
  lemma NewTripHasItsChat(s: State, company: CompanyId, manager: UserId, driver: UserId, truck: TruckId, now: Time)
    ensures var r := CreateTrip(s, company, manager, driver, truck, now);
      if !(driver in s.people && s.people[driver].company == company && s.people[driver].role.Driver? && !s.people[driver].deleted)
      then r == Outcome(s, UserNotFound)
      else if truck >= |s.trucks| || s.trucks[truck].company != company then r == Outcome(s, TruckNotFound)
      else
        && r.answer.Done?
        && r.state == s.(trips := s.trips + [Trip(company, truck, driver, manager, Assigned, false)], sessions := r.state.sessions)
        && r.state.sessions == s.sessions + [Session(|s.trips|, driver, manager, now, None)] && IsChat(r.state.sessions, |s.trips|, |s.sessions|)
  {
  }

  /** A status goes to a trip of the company that is not deleted, the driver's own to a trip they drive in the company
      they are in; it is stored as given, and none given leaves the trip as it is. */
  lemma StatusOnRows(s: State, trip: TripId, company: CompanyId, driver: UserId, status: Option<Status>)
    ensures var r := UpdateStatus(s, trip, company, status);
      if trip < |s.trips| && s.trips[trip].company == company && !s.trips[trip].deleted
      then r == Outcome(if status.None? then s else s.(trips := s.trips[trip := s.trips[trip].(status := status.value)]), Done)
      else r == Outcome(s, TripNotFound)
    ensures var r := DriverUpdateStatus(s, trip, driver, status);
      if trip < |s.trips| && !s.trips[trip].deleted && s.trips[trip].driver == driver
         && driver in s.people && s.people[driver].company == s.trips[trip].company
      then r == Outcome(if status.None? then s else s.(trips := s.trips[trip := s.trips[trip].(status := status.value)]), Done)
      else r == Outcome(s, NotAllowed)
  {
    if trip < |s.trips| { assert s.trips[trip := s.trips[trip]] == s.trips; }
  }

  /** Handing a trip to a driver: refused exactly if the company has no such trip or no such driver; otherwise the trip
      has the new driver and, if that is a change, its chat passes to the new driver and its manager. */
  lemma DriverHandover(s: State, trip: TripId, company: CompanyId, driver: UserId, actor: UserId, now: Time)
    ensures var r := AssignDriver(s, trip, company, driver, actor, now);
      if !(trip < |s.trips| && s.trips[trip].company == company && !s.trips[trip].deleted) then r == Outcome(s, TripNotFound)
      else if !(driver in s.people && s.people[driver].company == company && s.people[driver].role.Driver? && !s.people[driver].deleted)
      then r == Outcome(s, UserNotFound)
      else if s.trips[trip].driver == driver then r == Outcome(s, Done)
      else
        && r.answer.Done?
        && r.state == s.(trips := s.trips[trip := s.trips[trip].(driver := driver)], sessions := r.state.sessions,
                         messages := s.messages + [Message(trip, |s.sessions|, actor, now, true, false, None, None)])
        && ChatPasses(s.sessions, r.state.sessions, trip, driver, s.trips[trip].manager, now)
  {
    hide Reopen, ChatPasses;
    if trip < |s.trips| { ReopenOnRows(s, trip, s.trips[trip].(driver := driver), actor, now); }
  }

  /** … and to a manager, who may be anyone of the company but a driver. */
  lemma ManagerHandover(s: State, trip: TripId, company: CompanyId, manager: UserId, actor: UserId, now: Time)
    ensures var r := AssignManager(s, trip, company, manager, actor, now);
      if !(trip < |s.trips| && s.trips[trip].company == company && !s.trips[trip].deleted) then r == Outcome(s, TripNotFound)
      else if !(manager in s.people && s.people[manager].company == company && !s.people[manager].role.Driver? && !s.people[manager].deleted)
      then r == Outcome(s, UserNotFound)
      else if s.trips[trip].manager == manager then r == Outcome(s, Done)
      else
        && r.answer.Done?
        && r.state == s.(trips := s.trips[trip := s.trips[trip].(manager := manager)], sessions := r.state.sessions,
                         messages := s.messages + [Message(trip, |s.sessions|, actor, now, true, false, None, None)])
        && ChatPasses(s.sessions, r.state.sessions, trip, s.trips[trip].driver, manager, now)
  {
    hide Reopen, ChatPasses;
    if trip < |s.trips| { ReopenOnRows(s, trip, s.trips[trip].(manager := manager), actor, now); }
  }

  /** Hiding a trip of the company: a plain manager needs to manage the truck it is on. */
  lemma HidingOnRows(s: State, trip: TripId, company: CompanyId, actor: UserId, plainManager: bool)
    ensures var r := RemoveTrip(s, trip, company, actor, plainManager);
      if !(trip < |s.trips| && s.trips[trip].company == company && !s.trips[trip].deleted) then r == Outcome(s, TripNotFound)
      else if plainManager && !(s.trips[trip].truck < |s.trucks| && s.trucks[s.trips[trip].truck].manager == Some(actor))
      then r == Outcome(s, NotAllowed)
      else r == Outcome(s.(trips := s.trips[trip := s.trips[trip].(deleted := true)]), Done)
  {
  }

  // ----- broadcasts

  /** The chats a broadcast goes to. */
  ghost predicate IsReached(s: State, sender: UserId, company: CompanyId, trip: TripId) {
    && trip < |s.trips| && s.trips[trip].company == company && !s.trips[trip].status.Delivered? && !s.trips[trip].deleted
    && s.trips[trip].truck < |s.trucks| && s.trucks[s.trips[trip].truck].manager == Some(sender)
    && exists i: nat :: IsChat(s.sessions, trip, i)
  }

  ghost predicate IsLine(m: Message, s: State, sender: UserId, trip: TripId, now: Time) {
    IsChat(s.sessions, trip, m.session) && m == Message(trip, m.session, sender, now, false, false, None, None)
  }

  /** After the first n trips: one line more in each chat reached so far, in trip order, and nothing else. */
  ghost predicate Reaches(s: State, messages: seq<Message>, sender: UserId, company: CompanyId, now: Time, n: nat) {
    && s.messages <= messages
    && (forall i :: |s.messages| <= i < |messages| ==>
          messages[i].trip < n && IsReached(s, sender, company, messages[i].trip) && IsLine(messages[i], s, sender, messages[i].trip, now))
    && (forall i, j :: |s.messages| <= i < j < |messages| ==> messages[i].trip < messages[j].trip)
    && (forall k: nat :: k < n && IsReached(s, sender, company, k) ==> exists i :: |s.messages| <= i < |messages| && messages[i].trip == k)
  }

  lemma OneMoreLine(s: State, messages: seq<Message>, m: Message, sender: UserId, company: CompanyId, now: Time, n: nat)
    requires Reaches(s, messages, sender, company, now, n) && IsReached(s, sender, company, n) && IsLine(m, s, sender, n, now)
    ensures Reaches(s, messages + [m], sender, company, now, n + 1)
  {
    assert m.trip == n;
    hide IsReached, IsLine;
    var after := messages + [m];
    forall i | |s.messages| <= i < |after|
      ensures after[i].trip < n + 1 && IsReached(s, sender, company, after[i].trip) && IsLine(after[i], s, sender, after[i].trip, now)
    {
      assert i < |messages| ==> after[i] == messages[i];
    }
    forall k: nat | k < n + 1 && IsReached(s, sender, company, k) ensures exists i :: |s.messages| <= i < |after| && after[i].trip == k {
      if k < n {
        var i :| |s.messages| <= i < |messages| && messages[i].trip == k;
        assert after[i].trip == k;
      } else {
        assert after[|messages|].trip == k;
      }
    }
  }

  lemma NoLine(s: State, messages: seq<Message>, sender: UserId, company: CompanyId, now: Time, n: nat)
    requires Reaches(s, messages, sender, company, now, n) && !IsReached(s, sender, company, n)
    ensures Reaches(s, messages, sender, company, now, n + 1)
  {
    hide IsReached, IsLine;
  }

  lemma ReachesByTheChat(s: State, sender: UserId, company: CompanyId, trip: TripId, now: Time)
    requires trip < |s.trips|
    ensures var row, session := s.trips[trip], Active(s, trip);
      && (IsReached(s, sender, company, trip) <==>
            row.company == company && IsOpen(row) && row.truck < |s.trucks| && s.trucks[row.truck].manager == Some(sender) && session.Some?)
      && (session.Some? ==> IsLine(Message(trip, session.value, sender, now, false, false, None, None), s, sender, trip, now))
  {
    ActiveIsTheChat(s, trip);
    hide FindActive, IsChat;
  }

  /** A broadcast puts exactly one line into the open chat of every open trip on the sender's trucks, and nothing
      anywhere else. */
  lemma {:induction false} BroadcastReachesEach(s: State, sender: UserId, company: CompanyId, now: Time, n: nat)
    requires n <= |s.trips|
    ensures Reaches(s, Broadcast(s, sender, company, now, n).messages, sender, company, now, n)
  {
    if n > 0 {
      hide Active, Reaches, IsReached, IsLine, IsOpen;
      ReachesByTheChat(s, sender, company, n - 1, now);
      BroadcastReachesEach(s, sender, company, now, n - 1);
      var before := Broadcast(s, sender, company, now, n - 1);
      if IsReached(s, sender, company, n - 1) {
        OneMoreLine(s, before.messages, Message(n - 1, Active(s, n - 1).value, sender, now, false, false, None, None), sender, company, now, n - 1);
      } else {
        NoLine(s, before.messages, sender, company, now, n - 1);
      }
    }
  }

  // ----- an example

  /** Two trips on two trucks, each trip with its truck's people. */
  function TwoTrips(): State {
    State(1, map[1 := Person(7, Driver, false), 2 := Person(7, Driver, false), 3 := Person(7, Manager, false), 4 := Person(7, Manager, false)],
          [Truck(7, 71, Some(1), Some(3)), Truck(7, 72, Some(2), Some(4))],
          [Trip(7, 0, 1, 3, Accepted, false), Trip(7, 1, 2, 4, OnWay, false)], [], [], [])
  }

  /** There is a swap that can be swapped back: what the results on swaps start from does occur. */
  lemma SwapsHappen()
    ensures var s := TwoTrips();
      && TruckSwaps.Moves(s, 0, Some(7), 1, Some(Swap), 9, 5) && Blocking(s, 0, 1) == Some(1)
      && TruckSwaps.IsAligned(s, 0) && TruckSwaps.IsAligned(s, 1)
      && var t := AssignTruck(s, 0, Some(7), 1, Some(Swap), 9, 5).state;
         TruckSwaps.Moves(t, 0, Some(7), 0, Some(Swap), 9, 6)
         && TruckSwaps.SamePlacement(s, AssignTruck(t, 0, Some(7), 0, Some(Swap), 9, 6).state)
  {
    var s := TwoTrips();
    assert NewestOpen(s.trips, 1, 7, Some(0), 2) == Some(1);
    assert Blocking(s, 0, 1) == Some(1);
    assert TruckSwaps.Moves(s, 0, Some(7), 1, Some(Swap), 9, 5) by {
      hide Resettle;
    }
    hide AssignTruck, TruckSwaps.Moves, NewestOpen;
    TruckSwaps.OneTripPerTruckSwapsBack(s, 0, 1, Some(7), 1, 9, 5, 9, 6);
  }
}
