/** Quoted messages and files: following replies never leaves the conversation. */
module Replies {
  import opened Base
  import opened Trips
  import ChatRuns

  predicate MessageQuotes(m: Message, below: nat, s: State)
    requires below <= |s.messages|
  {
    && (m.replyTo.Some? ==>
          m.replyTo.value < below && s.messages[m.replyTo.value].session == m.session && s.messages[m.replyTo.value].trip == m.trip)
    && (m.replyDoc.Some? ==> m.replyDoc.value < |s.docs| && s.docs[m.replyDoc.value].trip == m.trip)
  }

  predicate DocQuotes(d: Doc, below: nat, s: State)
    requires below <= |s.docs|
  {
    && (d.replyTo.Some? ==> d.replyTo.value < |s.messages| && s.messages[d.replyTo.value].trip == d.trip)
    && (d.replyDoc.Some? ==> d.replyDoc.value < below && s.docs[d.replyDoc.value].trip == d.trip)
  }

  /** Every quote points at something older, in the same session for messages, in the same trip for files. */
  ghost predicate Confined(s: State) {
    && (forall i :: 0 <= i < |s.messages| ==> MessageQuotes(s.messages[i], i, s))
    && (forall i :: 0 <= i < |s.docs| ==> DocQuotes(s.docs[i], i, s))
  }

  /** Only messages that quote nothing were added. */
  ghost predicate AddsPlain(s: State, t: State) {
    && t.docs == s.docs && s.messages <= t.messages
    && forall i :: |s.messages| <= i < |t.messages| ==> t.messages[i].replyTo.None? && t.messages[i].replyDoc.None?
  }

  lemma PlainTwice(s: State, t: State, u: State)
    requires AddsPlain(s, t) && AddsPlain(t, u)
    ensures AddsPlain(s, u)
  {
    forall i | |s.messages| <= i < |u.messages| ensures u.messages[i].replyTo.None? && u.messages[i].replyDoc.None? {
      assert i < |t.messages| ==> u.messages[i] == t.messages[i];
    }
  }

  lemma PlainIsConfined(s: State, t: State)
    requires Confined(s) && AddsPlain(s, t)
    ensures Confined(t)
  {
    forall i | 0 <= i < |t.messages| ensures MessageQuotes(t.messages[i], i, t) {
      if i < |s.messages| {
        assert MessageQuotes(s.messages[i], i, s);
      }
    }
    forall i | 0 <= i < |t.docs| ensures DocQuotes(t.docs[i], i, t) {
      assert DocQuotes(s.docs[i], i, s);
    }
  }

  lemma PlainWrites(s: State, trip: TripId, actor: UserId, now: Time)
    ensures AddsPlain(s, s) && AddsPlain(s, PostSystem(s, trip, actor, now))
    ensures trip < |s.trips| ==> AddsPlain(s, CompleteTrip(s, trip, now))
    ensures trip < |s.trips| ==> forall row :: AddsPlain(s, Reopen(s, trip, row, actor, now))
  {
    hide FindActive;
  }

  lemma PlainSync(s: State, company: CompanyId, target: TruckId, targetManager: UserId,
                  source: TruckId, sourceManager: Option<UserId>, actor: UserId, now: Time)
    requires target < |s.trucks| && source < |s.trucks|
    ensures AddsPlain(s, SyncOwnership(s, company, target, targetManager, source, sourceManager, actor, now))
  {
    hide Announce, SetManager;
    var targetChanged := s.trucks[target].manager != Some(targetManager);
    var trucks := if targetChanged then SetManager(s.trucks, target, Some(targetManager)) else s.trucks;
    var s1 := s.(trucks := if sourceManager.Some? then SetManager(trucks, source, sourceManager) else trucks);
    var s2 := if targetChanged then Announce(s1, target, company, actor, now) else s1;
    PlainAnnounce(s1, target, company, actor, now);
    PlainAnnounce(s2, source, company, actor, now);
    assert AddsPlain(s, s1) && AddsPlain(s1, s1);
    hide AddsPlain;
    PlainTwice(s, s1, s2);
    PlainTwice(s, s2, Announce(s2, source, company, actor, now));
  }

  lemma PlainAnnounce(s: State, truck: TruckId, company: CompanyId, actor: UserId, now: Time)
    ensures AddsPlain(s, Announce(s, truck, company, actor, now))
  {
    hide PostSystem, NewestOpen;
    if truck < |s.trucks| && s.trucks[truck].driver.Some? {
      match NewestOpen(s.trips, truck, company, None, |s.trips|)
      case None =>
      case Some(t) => PlainWrites(s, t, actor, now);
    }
  }

  lemma PlainSettled(s: State, trip: TripId, truck: TruckId, blocking: Option<TripId>, strategy: Option<Strategy>,
                     actor: UserId, now: Time)
    requires trip < |s.trips| && s.trips[trip].truck < |s.trucks| && truck < |s.trucks| && s.trucks[truck].driver.Some?
    requires blocking.Some? ==> blocking.value < |s.trips| && strategy.Some?
    requires blocking.Some? && strategy == Some(Swap) ==> s.trucks[s.trips[trip].truck].driver.Some?
    ensures var t := Settled(s, trip, truck, blocking, strategy, actor, now); AddsPlain(s, t) && t.trucks == s.trucks
  {
    hide FindActive, AddsPlain, CompleteTrip;
    var moved := MoveTrip(s, trip, truck, s.trucks[truck].driver.value, actor, now);
    PlainWrites(s, trip, actor, now);
    if blocking.Some? {
      PlainWrites(moved, blocking.value, actor, now);
      PlainTwice(s, moved, Settled(s, trip, truck, blocking, strategy, actor, now));
      CompleteFrame(moved, blocking.value, now);
    }
  }

  lemma CompleteFrame(s: State, trip: TripId, now: Time)
    requires trip < |s.trips|
    ensures CompleteTrip(s, trip, now).trucks == s.trucks
  {
  }

  lemma PlainTruckChange(s: State, trip: TripId, company: Option<CompanyId>, truck: TruckId, strategy: Option<Strategy>,
                         actor: UserId, now: Time)
    ensures AddsPlain(s, AssignTruck(s, trip, company, truck, strategy, actor, now).state)
  {
    PlainWrites(s, trip, actor, now);
    hide AddsPlain, Settled, NewestOpen, SyncOwnership;
    if trip < |s.trips| && s.trips[trip].truck < |s.trucks| && truck < |s.trucks| && s.trucks[truck].driver.Some? {
      var blocking, row := Blocking(s, trip, truck), s.trips[trip];
      if (blocking.Some? ==> strategy.Some?) && (blocking.Some? && strategy == Some(Swap) ==> s.trucks[row.truck].driver.Some?) {
        PlainSettled(s, trip, truck, blocking, strategy, actor, now);
        var settled := Settled(s, trip, truck, blocking, strategy, actor, now);
        var sourceManager :=
          if blocking.Some? && strategy == Some(Swap) then Some(s.trips[blocking.value].manager) else s.trucks[truck].manager;
        PlainSync(settled, row.company, truck, row.manager, row.truck, sourceManager, actor, now);
        PlainTwice(s, settled, SyncOwnership(settled, row.company, truck, row.manager, row.truck, sourceManager, actor, now));
      }
    }
  }

  lemma {:induction false} PlainCascade(s: State, truck: TruckId, manager: UserId, actor: UserId, now: Time, n: nat)
    requires n <= |s.trips|
    ensures AddsPlain(s, Cascade(s, truck, manager, actor, now, n))
  {
    PlainWrites(s, 0, actor, now);
    hide AddsPlain, Reopen, FollowsTruck;
    if n > 0 {
      var before := Cascade(s, truck, manager, actor, now, n - 1);
      PlainCascade(s, truck, manager, actor, now, n - 1);
      PlainWrites(before, n - 1, actor, now);
      PlainTwice(s, before, Reopen(before, n - 1, s.trips[n - 1].(manager := manager), actor, now));
    }
  }

  lemma {:induction false} PlainBroadcast(s: State, sender: UserId, company: CompanyId, now: Time, n: nat)
    requires n <= |s.trips|
    ensures AddsPlain(s, Broadcast(s, sender, company, now, n))
  {
    hide FindActive, IsOpen;
    if n > 0 {
      PlainBroadcast(s, sender, company, now, n - 1);
      var before, session := Broadcast(s, sender, company, now, n - 1), Active(s, n - 1);
      if session.Some? {
        var t := before.(messages := before.messages + [Message(n - 1, session.value, sender, now, false, false, None, None)]);
        assert AddsPlain(before, t);
        hide AddsPlain;
        PlainTwice(s, before, t);
      }
    }
  }

  lemma TripsConfined(s: State, op: TripOp, now: Time)
    ensures AddsPlain(s, TripsEffect(s, op, now).state)
  {
    hide InCompany, Reopen, AssignTruck;
    match op
    case GiveToDriver(trip, _, _, actor) => PlainWrites(s, trip, actor, now);
    case GiveToManager(trip, _, _, actor) => PlainWrites(s, trip, actor, now);
    case GiveToTruck(trip, company, truck, strategy, actor) => PlainTruckChange(s, trip, company, truck, strategy, actor, now);
    case _ =>
  }

  lemma TrucksConfined(s: State, op: TruckOp, now: Time)
    ensures AddsPlain(s, TrucksEffect(s, op, now).state)
  {
    hide InCompany, Cascade, EditRow, PutTruckOnDriver, Release, PlateOwner;
    if op.EditTruck? && op.truck < |s.trucks| && op.newManager.Put? && op.newManager.value.Some? {
      var s1 := s.(trucks := EditRow(s.trucks, op.truck, op.plate, op.newDriver, op.newManager));
      PlainCascade(s1, op.truck, op.newManager.value.value, op.actor, now, |s.trips|);
      PlainTwice(s, s1, Cascade(s1, op.truck, op.newManager.value.value, op.actor, now, |s.trips|));
    }
  }

  lemma ChatConfined(s: State, op: ChatOp, now: Time)
    requires Confined(s)
    ensures Confined(ChatEffect(s, op, now).state)
  {
    hide Broadcast, FindActive, ReadsMessage, MayUpload, MaySeeDocs;
    match op
    case Say(sender, trip, replyTo, replyDoc) => SayConfined(s, sender, trip, replyTo, replyDoc, now);
    case SayToAll(sender, company) =>
      PlainBroadcast(s, sender, company, now, |s.trips|);
      PlainIsConfined(s, Broadcast(s, sender, company, now, |s.trips|));
    case Read(trip, reader) => MarksConfined(s, MarkRead(s, trip, reader));
    case Attach(who, trip, files, landed, replyTo, replyDoc) => AttachConfined(s, who, trip, files, landed, replyTo, replyDoc);
    case DropDoc(doc, who) => MarksConfined(s, DeleteDoc(s, doc, who).state);
  }

  lemma SayConfined(s: State, sender: UserId, trip: TripId, replyTo: Option<MessageId>, replyDoc: Option<DocId>, now: Time)
    requires Confined(s)
    ensures Confined(PostMessage(s, sender, trip, replyTo, replyDoc, now).state)
  {
    hide FindActive;
    var t := PostMessage(s, sender, trip, replyTo, replyDoc, now).state;
    forall i | 0 <= i < |s.messages| ensures MessageQuotes(t.messages[i], i, t) {
      assert MessageQuotes(s.messages[i], i, s);
    }
    forall i | 0 <= i < |t.docs| ensures DocQuotes(t.docs[i], i, t) {
      assert DocQuotes(s.docs[i], i, s);
    }
  }

  lemma AttachConfined(s: State, who: Requester, trip: TripId, files: nat, landed: bool, replyTo: Option<MessageId>, replyDoc: Option<DocId>)
    requires Confined(s)
    ensures Confined(Upload(s, who, trip, files, landed, replyTo, replyDoc).state)
  {
    hide FindActive;
    var t := Upload(s, who, trip, files, landed, replyTo, replyDoc).state;
    forall i | 0 <= i < |t.messages| ensures MessageQuotes(t.messages[i], i, t) {
      assert MessageQuotes(s.messages[i], i, s);
    }
    forall i | 0 <= i < |s.docs| ensures DocQuotes(t.docs[i], i, t) {
      assert DocQuotes(s.docs[i], i, s);
    }
  }

  lemma MarksConfined(s: State, t: State)
    requires Confined(s) && |t.messages| == |s.messages| && |t.docs| == |s.docs|
    requires forall i :: 0 <= i < |s.messages| ==> t.messages[i] == s.messages[i].(isRead := t.messages[i].isRead)
    requires forall i :: 0 <= i < |s.docs| ==> t.docs[i] == s.docs[i].(isRead := t.docs[i].isRead, deleted := t.docs[i].deleted)
    ensures Confined(t)
  {
    forall i | 0 <= i < |t.messages| ensures MessageQuotes(t.messages[i], i, t) {
      assert MessageQuotes(s.messages[i], i, s);
    }
    forall i | 0 <= i < |t.docs| ensures DocQuotes(t.docs[i], i, t) {
      assert DocQuotes(s.docs[i], i, s);
    }
  }

  lemma EffectConfined(s: State, op: Op, now: Time)
    requires Confined(s)
    ensures Confined(Effect(s, op, now).state)
  {
    hide TripsEffect, TrucksEffect, ChatEffect, Confined, AddsPlain;
    match op
    case OnTrips(op) => TripsConfined(s, op, now); PlainIsConfined(s, TripsEffect(s, op, now).state);
    case OnTrucks(op) => TrucksConfined(s, op, now); PlainIsConfined(s, TrucksEffect(s, op, now).state);
    case OnChat(op) => ChatConfined(s, op, now);
    case SetPeople(people) => PeopleAreNoMatter(s, s.(people := people));
  }

  lemma ConfinedStep(s: State, c: Call)
    requires Confined(s)
    ensures Confined(Step(s, c).state)
  {
    hide Effect, Confined;
    EffectConfined(s, c.op, c.at);
    PeopleAreNoMatter(Effect(s, c.op, c.at).state, Step(s, c).state);
  }

  lemma PeopleAreNoMatter(s: State, t: State)
    requires Confined(s) && t.messages == s.messages && t.docs == s.docs
    ensures Confined(t)
  {
    forall i | 0 <= i < |t.messages| ensures MessageQuotes(t.messages[i], i, t) {
      assert MessageQuotes(s.messages[i], i, s);
    }
    forall i | 0 <= i < |t.docs| ensures DocQuotes(t.docs[i], i, t) {
      assert DocQuotes(s.docs[i], i, s);
    }
  }

  lemma {:induction false} ConfinedAlways(s: State, calls: seq<Call>)
    requires Confined(s)
    ensures Confined(Final(s, calls))
    decreases |calls|
  {
    hide Step, Confined;
    if calls != [] {
      ConfinedStep(s, calls[0]);
      ConfinedAlways(Step(s, calls[0]).state, calls[1..]);
    }
  }

  // ----- following replies

  datatype Item = Msg(message: MessageId) | File(doc: DocId)

  ghost predicate Exists(s: State, a: Item) {
    match a
    case Msg(m) => m < |s.messages|
    case File(d) => d < |s.docs|
  }

  ghost function TripOf(s: State, a: Item): TripId
    requires Exists(s, a)
  {
    match a
    case Msg(m) => s.messages[m].trip
    case File(d) => s.docs[d].trip
  }

  ghost predicate InSession(s: State, a: Item, session: SessionId) {
    a.Msg? && a.message < |s.messages| && s.messages[a.message].session == session
  }

  /** Item a is a reply that quotes b. */
  ghost predicate Quotes(s: State, a: Item, b: Item) {
    && Exists(s, a)
    && (match (a, b)
        case (Msg(m), Msg(q)) => s.messages[m].replyTo == Some(q)
        case (Msg(m), File(q)) => s.messages[m].replyDoc == Some(q)
        case (File(d), Msg(q)) => s.docs[d].replyTo == Some(q)
        case (File(d), File(q)) => s.docs[d].replyDoc == Some(q))
  }

  ghost predicate IsChain(s: State, chain: seq<Item>) {
    |chain| > 0 && Exists(s, chain[0]) && forall k :: 0 <= k < |chain| - 1 ==> Quotes(s, chain[k], chain[k + 1])
  }

  lemma {:induction false} ChainStays(s: State, chain: seq<Item>)
    requires Confined(s) && IsChain(s, chain)
    ensures forall a :: a in chain ==> Exists(s, a) && TripOf(s, a) == TripOf(s, chain[0])
    ensures (forall a :: a in chain ==> a.Msg?) ==>
              && chain[0].Msg? && |chain| <= chain[0].message + 1
              && forall a :: a in chain ==> InSession(s, a, s.messages[chain[0].message].session)
  {
    if |chain| == 1 {
    } else {
      var (a, b) := (chain[0], chain[1]);
      assert Quotes(s, a, b);
      if a.Msg? { assert MessageQuotes(s.messages[a.message], a.message, s); } else { assert DocQuotes(s.docs[a.doc], a.doc, s); }
      var rest := chain[1..];
      assert chain == [a] + rest && b in chain;
      forall k | 0 <= k < |rest| - 1 ensures Quotes(s, rest[k], rest[k + 1]) {
        assert Quotes(s, chain[k + 1], chain[k + 2]);
      }
      ChainStays(s, rest);
    }
  }

  /** Main result: in every reachable state, following replies any number of steps, from message or file to
      message or file, never leaves the trip; a chain of messages alone never leaves the chat session, and never loops. */
  lemma RepliesNeverLeave(calls: seq<Call>, chain: seq<Item>)
    requires IsChain(Final(Empty(), calls), chain)
    ensures var t := Final(Empty(), calls);
      && (forall a :: a in chain ==> Exists(t, a) && TripOf(t, a) == TripOf(t, chain[0]))
      && ((forall a :: a in chain ==> a.Msg?) ==>
            && chain[0].Msg? && |chain| <= chain[0].message + 1
            && forall a :: a in chain ==> InSession(t, a, t.messages[chain[0].message].session))
  {
    hide Step;
    ConfinedAlways(Empty(), calls);
    ChainStays(Final(Empty(), calls), chain);
  }

  /** In every reachable state, whoever gets a message sent takes part in the session it lands in, which is open;
      nothing else is written. */
  lemma SenderTakesPart(calls: seq<Call>, c: Call, sender: UserId, trip: TripId, replyTo: Option<MessageId>, replyDoc: Option<DocId>)
    requires IsRun(Empty(), calls) && Final(Empty(), calls).clock < c.at
    requires c.op == OnChat(Say(sender, trip, replyTo, replyDoc))
    requires Step(Final(Empty(), calls), c).answer.Done?
    ensures var s, t := Final(Empty(), calls), Step(Final(Empty(), calls), c).state;
      && |t.messages| == |s.messages| + 1 && t.messages[..|s.messages|] == s.messages && t.sessions == s.sessions
      && var m := t.messages[|s.messages|];
         m.sender == sender && m.session < |t.sessions| && t.sessions[m.session].endedAt.None?
         && TakesPart(t.sessions[m.session], sender)
  {
    var s := Final(Empty(), calls);
    assert ChatRuns.Valid(s, s.clock) by { ChatRuns.OneChatAlways(Empty(), calls); }
    hide Final, IsRun, QuotesMessage, QuotesDoc, FindActive;
    var session := Active(s, trip);
    assert ChatRuns.SessionOk(s.sessions[session.value], s.trips, s.clock);
  }
}
