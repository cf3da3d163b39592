/** Unread badges: what each summary counts, and how marking a trip read changes it. */
module UnreadBadges {
  import opened Base
  import opened Rows
  import opened Trips
  import ChatRuns
  import Fleet
  import opened ChatCalls

  // ----- what counts as unread

  /** Who asks: someone in the office, with a company in scope, or a driver in their app. */
  datatype Viewer = Office(company: CompanyId, user: UserId, role: Role) | Cab(user: UserId) {
    predicate IsAdmin() {
      Office? && role.Admin?
    }
  }

  predicate CountsTrip(s: State, v: Viewer, trip: TripId) {
    && trip < |s.trips| && !s.trips[trip].deleted
    && (match v
        case Office(company, user, role) => s.trips[trip].company == company && (role.Admin? || IsCurrent(s.trips[trip], user))
        case Cab(user) => s.trips[trip].driver == user && user in s.people && s.people[user].company == s.trips[trip].company)
  }

  /** The viewer took part in the session the message sits in, in the role that counts. */
  predicate CountsSession(s: State, v: Viewer, session: SessionId) {
    match v
    case Office(_, user, role) => role.Admin? || (session < |s.sessions| && TakesPart(s.sessions[session], user))
    case Cab(user) => session < |s.sessions| && s.sessions[session].driver == user
  }

  predicate CountsMessage(s: State, v: Viewer, m: Message) {
    !m.isRead && m.sender != v.user && CountsTrip(s, v, m.trip) && CountsSession(s, v, m.session)
  }

  predicate CountsDoc(s: State, v: Viewer, d: Doc) {
    !d.isRead && d.uploader != v.user && !d.deleted && CountsTrip(s, v, d.trip)
  }

  function MessageTest(s: State, v: Viewer, trip: TripId): Message -> bool {
    (m: Message) => m.trip == trip && CountsMessage(s, v, m)
  }

  function DocTest(s: State, v: Viewer, trip: TripId): Doc -> bool {
    (d: Doc) => d.trip == trip && CountsDoc(s, v, d)
  }

  function TripUnread(s: State, v: Viewer, trip: TripId): nat {
    |Filter(MessageTest(s, v, trip), s.messages)| + |Filter(DocTest(s, v, trip), s.docs)|
  }

  /** Every unread message and file the viewer sees, whatever its trip. */
  function AllUnread(s: State, v: Viewer): nat {
    |Filter(SeenMessage(s, v), s.messages)| + |Filter(SeenDoc(s, v), s.docs)|
  }

  function SeenMessage(s: State, v: Viewer): Message -> bool {
    (m: Message) => CountsMessage(s, v, m)
  }

  function SeenDoc(s: State, v: Viewer): Doc -> bool {
    (d: Doc) => CountsDoc(s, v, d)
  }

  /** The badge of each trip. */
  function Badges(s: State, v: Viewer): nat -> nat {
    (k: nat) => TripUnread(s, v, k)
  }

  // ----- counting by trip

  function SumUpTo(f: nat -> nat, n: nat): nat {
    if n == 0 then 0 else SumUpTo(f, n - 1) + f(n - 1)
  }

  lemma {:induction false} SumsAgree(f: nat -> nat, g: nat -> nat, n: nat)
    requires forall k :: 0 <= k < n ==> f(k) == g(k)
    ensures SumUpTo(f, n) == SumUpTo(g, n)
  {
    if n > 0 { SumsAgree(f, g, n - 1); }
  }

  lemma {:induction false} SumsDiffer(f: nat -> nat, g: nat -> nat, x: nat, n: nat)
    requires x < n && forall k :: 0 <= k < n && k != x ==> f(k) == g(k)
    ensures SumUpTo(f, n) + g(x) == SumUpTo(g, n) + f(x)
  {
    if x == n - 1 { SumsAgree(f, g, n - 1); } else { SumsDiffer(f, g, x, n - 1); }
  }

  lemma {:induction false} SumOfSums(f: nat -> nat, g: nat -> nat, h: nat -> nat, n: nat)
    requires forall k :: 0 <= k < n ==> h(k) == f(k) + g(k)
    ensures SumUpTo(h, n) == SumUpTo(f, n) + SumUpTo(g, n)
  {
    if n > 0 { SumOfSums(f, g, h, n - 1); }
  }

  lemma {:induction false} SumOfOne(f: nat -> nat, x: nat, n: nat)
    requires forall k :: 0 <= k < n && k != x ==> f(k) == 0
    ensures SumUpTo(f, n) == if x < n then f(x) else 0
  {
    if n > 0 { SumOfOne(f, x, n - 1); }
  }

  function Sizes<T(!new)>(test: nat -> (T -> bool), rows: seq<T>): nat -> nat {
    (k: nat) => |Filter(test(k), rows)|
  }

  /** Rows that match, counted bucket by bucket, are counted once each. */
  lemma {:induction false} BucketsAddUp<T(!new)>(p: T -> bool, key: T -> nat, test: nat -> (T -> bool), rows: seq<T>, n: nat)
    requires forall k: nat, r :: test(k)(r) <==> key(r) == k && p(r)
    requires forall r :: p(r) ==> key(r) < n
    ensures SumUpTo(Sizes(test, rows), n) == |Filter(p, rows)|
  {
    var f := Sizes(test, rows);
    if rows == [] {
      forall k: nat ensures f(k) == 0 {
        assert Filter(test(k), rows) == [];
      }
      SumOfOne(f, n, n);
    } else {
      var init, last := rows[..|rows| - 1], rows[|rows| - 1];
      var g := Sizes(test, init);
      BucketsAddUp(p, key, test, init, n);
      assert rows == init + [last];
      forall k: nat ensures f(k) == g(k) + if key(last) == k && p(last) then 1 else 0 {
        assert test(k)(last) <==> key(last) == k && p(last);
        FilterAppend(test(k), init, last);
      }
      hide Sizes, Filter;
      if p(last) {
        SumsDiffer(f, g, key(last), n);
      } else {
        SumsAgree(f, g, n);
      }
    }
  }

  function MessageTests(s: State, v: Viewer): nat -> (Message -> bool) {
    (k: nat) => MessageTest(s, v, k)
  }

  function DocTests(s: State, v: Viewer): nat -> (Doc -> bool) {
    (k: nat) => DocTest(s, v, k)
  }

  lemma TotalIsSumOfTrips(s: State, v: Viewer)
    ensures AllUnread(s, v) == SumUpTo(Badges(s, v), |s.trips|)
  {
    var n := |s.trips|;
    BucketsAddUp(SeenMessage(s, v), (m: Message) => m.trip, MessageTests(s, v), s.messages, n);
    BucketsAddUp(SeenDoc(s, v), (d: Doc) => d.trip, DocTests(s, v), s.docs, n);
    SumOfSums(Sizes(MessageTests(s, v), s.messages), Sizes(DocTests(s, v), s.docs), Badges(s, v), n);
  }

  // ----- marking a trip read

  lemma {:induction false} CountsAlike<T(!new)>(p: T -> bool, q: T -> bool, a: seq<T>, b: seq<T>)
    requires |a| == |b| && forall i :: 0 <= i < |a| ==> p(a[i]) == q(b[i])
    ensures |Filter(p, a)| == |Filter(q, b)|
  {
    if a != [] {
      CountsAlike(p, q, a[..|a| - 1], b[..|b| - 1]);
    }
  }

  lemma {:induction false} CountsNothing<T(!new)>(p: T -> bool, rows: seq<T>)
    requires forall i :: 0 <= i < |rows| ==> !p(rows[i])
    ensures |Filter(p, rows)| == 0
  {
    if rows != [] {
      CountsNothing(p, rows[..|rows| - 1]);
    }
  }

  lemma ReadTripIsClear(s: State, v: Viewer, trip: TripId)
    requires ChatRuns.Valid(s, s.clock) && !v.IsAdmin()
    ensures TripUnread(MarkRead(s, trip, v.user), v, trip) == 0
  {
    var t := MarkRead(s, trip, v.user);
    forall i | 0 <= i < |t.messages| ensures !MessageTest(t, v, trip)(t.messages[i]) {
      assert ChatRuns.MessageOk(s.messages[i], s.sessions, s.clock);
    }
    CountsNothing(MessageTest(t, v, trip), t.messages);
    CountsNothing(DocTest(t, v, trip), t.docs);
  }

  lemma OtherTripsKeepTheirs(s: State, v: Viewer, trip: TripId, other: TripId)
    requires ChatRuns.Valid(s, s.clock) && trip != other
    ensures TripUnread(MarkRead(s, trip, v.user), v, other) == TripUnread(s, v, other)
  {
    var t := MarkRead(s, trip, v.user);
    forall i | 0 <= i < |t.messages| ensures MessageTest(s, v, other)(s.messages[i]) == MessageTest(t, v, other)(t.messages[i]) {
      assert ChatRuns.MessageOk(s.messages[i], s.sessions, s.clock);
    }
    CountsAlike(MessageTest(s, v, other), MessageTest(t, v, other), s.messages, t.messages);
    CountsAlike(DocTest(s, v, other), DocTest(t, v, other), s.docs, t.docs);
  }

  /** Main result: when someone who is not an admin marks a trip read, their badge for that trip becomes 0,
      their badges for other trips stay, and their total drops by exactly what the trip's badge showed.
      It holds in every reachable state, for the office summary and for the driver's. */
  lemma ReadingClearsTheBadge(calls: seq<Call>, v: Viewer, trip: TripId)
    requires IsRun(Empty(), calls) && !v.IsAdmin()
    ensures var s := Final(Empty(), calls);
      var t := MarkRead(s, trip, v.user);
      && TripUnread(t, v, trip) == 0
      && (forall k: nat :: k != trip ==> TripUnread(t, v, k) == TripUnread(s, v, k))
      && AllUnread(t, v) == AllUnread(s, v) - TripUnread(s, v, trip)
  {
    var s := Final(Empty(), calls);
    assert ChatRuns.Valid(s, s.clock) by { ChatRuns.OneChatAlways(Empty(), calls); }
    var t := MarkRead(s, trip, v.user);
    assert |t.trips| == |s.trips|;
    hide Final, IsRun, ChatRuns.Valid, TripUnread, AllUnread, MarkRead;
    ReadTripIsClear(s, v, trip);
    forall k: nat | k != trip ensures TripUnread(t, v, k) == TripUnread(s, v, k) {
      OtherTripsKeepTheirs(s, v, trip, k);
    }
    TotalIsSumOfTrips(s, v);
    TotalIsSumOfTrips(t, v);
    if trip < |s.trips| {
      SumsDiffer(Badges(t, v), Badges(s, v), trip, |s.trips|);
    } else {
      SumsAgree(Badges(t, v), Badges(s, v), |s.trips|);
      NoSuchTrip(s, v, trip);
    }
  }

  lemma {:induction false} CountsFewer<T(!new)>(p: T -> bool, q: T -> bool, a: seq<T>, b: seq<T>)
    requires |a| == |b| && forall i :: 0 <= i < |a| && q(b[i]) ==> p(a[i])
    ensures |Filter(q, b)| <= |Filter(p, a)|
  {
    if a != [] {
      CountsFewer(p, q, a[..|a| - 1], b[..|b| - 1]);
    }
  }

  /** Nobody else's badge ever rises because someone reads. */
  lemma NoBadgeRises(s: State, w: Viewer, trip: TripId, reader: UserId, other: TripId)
    ensures TripUnread(MarkRead(s, trip, reader), w, other) <= TripUnread(s, w, other)
  {
    var t := MarkRead(s, trip, reader);
    CountsFewer(MessageTest(s, w, other), MessageTest(t, w, other), s.messages, t.messages);
    CountsFewer(DocTest(s, w, other), DocTest(t, w, other), s.docs, t.docs);
  }

  // ----- what is counted, on the rows

  /** The trip is there and the viewer's: in the office, of the company and theirs unless they are an administrator; in
      the cab, driven by them in the company they are in. */
  ghost predicate IsTheirs(s: State, v: Viewer, trip: TripId) {
    && trip < |s.trips| && !s.trips[trip].deleted
    && if v.Office?
       then s.trips[trip].company == v.company && (v.role.Admin? || s.trips[trip].driver == v.user || s.trips[trip].manager == v.user)
       else s.trips[trip].driver == v.user && v.user in s.people && s.people[v.user].company == s.trips[trip].company
  }

  /** The trip's unread messages of others, from sessions the viewer took part in – as driver, in the cab – or from any
      for an administrator. */
  ghost function CountedMessages(s: State, v: Viewer, trip: TripId): set<nat> {
    set i: nat | && i < |s.messages| && IsTheirs(s, v, trip)
                 && s.messages[i].trip == trip && !s.messages[i].isRead && s.messages[i].sender != v.user
                 && ((v.Office? && v.role.Admin?)
                     || (s.messages[i].session < |s.sessions|
                         && (s.sessions[s.messages[i].session].driver == v.user || (v.Office? && s.sessions[s.messages[i].session].manager == v.user))))
  }

  /** The trip's unread files of others that are not deleted. */
  ghost function CountedDocs(s: State, v: Viewer, trip: TripId): set<nat> {
    set i: nat | && i < |s.docs| && IsTheirs(s, v, trip)
                 && s.docs[i].trip == trip && !s.docs[i].isRead && s.docs[i].uploader != v.user && !s.docs[i].deleted
  }

  /** A trip's badge is the number of those rows. */
  lemma BadgeOnRows(s: State, v: Viewer, trip: TripId)
    ensures TripUnread(s, v, trip) == |CountedMessages(s, v, trip)| + |CountedDocs(s, v, trip)|
  {
    FilterCounts(MessageTest(s, v, trip), s.messages);
    FilterCounts(DocTest(s, v, trip), s.docs);
    assert Places(MessageTest(s, v, trip), s.messages) == CountedMessages(s, v, trip);
    assert Places(DocTest(s, v, trip), s.docs) == CountedDocs(s, v, trip);
  }

  /** Of the rows a viewer counts, those that somebody reads. */
  ghost function ReadMessages(s: State, w: Viewer, other: TripId, trip: TripId, reader: UserId): set<nat> {
    set i | i in CountedMessages(s, w, other) && IsToRead(s, trip, reader, i)
  }

  ghost function SeenDocs(s: State, w: Viewer, other: TripId, trip: TripId, reader: UserId): set<nat> {
    set i | i in CountedDocs(s, w, other) && IsToSee(s, trip, reader, i)
  }

  lemma LeftToRead(s: State, w: Viewer, other: TripId, trip: TripId, reader: UserId, i: nat)
    ensures i in CountedMessages(MarkRead(s, trip, reader), w, other) <==> i in CountedMessages(s, w, other) && !IsToRead(s, trip, reader, i)
    ensures i in CountedDocs(MarkRead(s, trip, reader), w, other) <==> i in CountedDocs(s, w, other) && !IsToSee(s, trip, reader, i)
  {
    ReadingOnRows(s, trip, reader);
    hide MarkRead, IsToRead, IsToSee;
    assert IsTheirs(MarkRead(s, trip, reader), w, other) == IsTheirs(s, w, other);
    hide IsTheirs;
  }

  lemma TakenOut(a: set<nat>, b: set<nat>, gone: set<nat>)
    requires forall i :: i in b <==> i in a && i !in gone
    requires gone <= a
    ensures |a| - |b| == |gone|
  {
    assert a == b + gone;
  }

  /** When somebody reads a trip, every viewer's badges fall by exactly the rows they count that are read. */
  lemma OthersLoseWhatWasRead(s: State, w: Viewer, trip: TripId, reader: UserId, other: TripId)
    ensures TripUnread(s, w, other) - TripUnread(MarkRead(s, trip, reader), w, other)
            == |ReadMessages(s, w, other, trip, reader)| + |SeenDocs(s, w, other, trip, reader)|
  {
    var t := MarkRead(s, trip, reader);
    BadgeOnRows(s, w, other);
    BadgeOnRows(t, w, other);
    hide TripUnread, CountedMessages, CountedDocs, IsToRead, IsToSee, MarkRead;
    forall i: nat
      ensures i in CountedMessages(t, w, other) <==> i in CountedMessages(s, w, other) && i !in ReadMessages(s, w, other, trip, reader)
      ensures i in CountedDocs(t, w, other) <==> i in CountedDocs(s, w, other) && i !in SeenDocs(s, w, other, trip, reader)
    {
      LeftToRead(s, w, other, trip, reader, i);
    }
    TakenOut(CountedMessages(s, w, other), CountedMessages(t, w, other), ReadMessages(s, w, other, trip, reader));
    TakenOut(CountedDocs(s, w, other), CountedDocs(t, w, other), SeenDocs(s, w, other, trip, reader));
  }

  lemma NoSuchTrip(s: State, v: Viewer, trip: TripId)
    requires trip >= |s.trips|
    ensures TripUnread(s, v, trip) == 0
  {
    CountsNothing(MessageTest(s, v, trip), s.messages);
    CountsNothing(DocTest(s, v, trip), s.docs);
  }

  // ----- the two summaries

  /** One group of the unread rows: a trip that has any. */
  datatype TripCount = TripCount(trip: TripId, truck: TruckId, isActive: bool, unread: nat)

  function TripCounts(s: State, v: Viewer, n: nat): seq<TripCount>
    requires n <= |s.trips|
  {
    if n == 0 then [] else
    var before, unread := TripCounts(s, v, n - 1), TripUnread(s, v, n - 1);
    if unread == 0 then before
    else before + [TripCount(n - 1, s.trips[n - 1].truck, !s.trips[n - 1].status.Delivered?, unread)]
  }

  function UnreadOf(): TripCount -> nat {
    (c: TripCount) => c.unread
  }

  function ActiveOf(): TripCount -> nat {
    (c: TripCount) => if c.isActive then c.unread else 0
  }

  function PastOf(): TripCount -> nat {
    (c: TripCount) => if c.isActive then 0 else c.unread
  }

  function CountOf(s: State, v: Viewer, trip: TripId): TripCount
    requires trip < |s.trips|
  {
    TripCount(trip, s.trips[trip].truck, !s.trips[trip].status.Delivered?, TripUnread(s, v, trip))
  }

  /** The groups are exactly the trips with something unread, each once and with its badge. */
  ghost predicate AreTheBadges(rows: seq<TripCount>, s: State, v: Viewer, n: nat)
    requires n <= |s.trips|
  {
    && (forall i :: 0 <= i < |rows| ==> rows[i].trip < n && rows[i] == CountOf(s, v, rows[i].trip) && rows[i].unread > 0)
    && (forall k: nat :: k < n && TripUnread(s, v, k) > 0 ==> CountOf(s, v, k) in rows)
    && (forall i, j :: 0 <= i < j < |rows| ==> rows[i].trip < rows[j].trip)
  }

  lemma {:induction false} CountsAreTheBadges(s: State, v: Viewer, n: nat)
    requires n <= |s.trips|
    ensures AreTheBadges(TripCounts(s, v, n), s, v, n)
    ensures Sum(UnreadOf(), TripCounts(s, v, n)) == SumUpTo(Badges(s, v), n)
  {
    hide TripUnread, AreTheBadges;
    if n == 0 {
      NoBadges(s, v);
    } else {
      CountsAreTheBadges(s, v, n - 1);
      var before := TripCounts(s, v, n - 1);
      OneMoreBadge(before, s, v, n - 1);
      if TripUnread(s, v, n - 1) > 0 {
        SumAppend(UnreadOf(), before, CountOf(s, v, n - 1));
      }
    }
  }

  lemma NoBadges(s: State, v: Viewer)
    ensures AreTheBadges([], s, v, 0)
  {
  }

  lemma OneMoreBadge(before: seq<TripCount>, s: State, v: Viewer, n: nat)
    requires n < |s.trips| && AreTheBadges(before, s, v, n)
    ensures AreTheBadges(if TripUnread(s, v, n) == 0 then before else before + [CountOf(s, v, n)], s, v, n + 1)
  {
    hide TripUnread, AreTheBadges;
    if TripUnread(s, v, n) == 0 {
      NoNewBadge(before, s, v, n);
    } else {
      var c := CountOf(s, v, n);
      assert c.trip == n && c.unread == TripUnread(s, v, n);
      hide CountOf;
      AppendedBadge(before, s, v, n, c);
    }
  }

  lemma NoNewBadge(before: seq<TripCount>, s: State, v: Viewer, n: nat)
    requires n < |s.trips| && AreTheBadges(before, s, v, n) && TripUnread(s, v, n) == 0
    ensures AreTheBadges(before, s, v, n + 1)
  {
    hide TripUnread, CountOf;
    forall i | 0 <= i < |before| ensures before[i].trip < n + 1 {
      assert before[i].trip < n;
    }
    forall k: nat | k < n + 1 && TripUnread(s, v, k) > 0 ensures CountOf(s, v, k) in before {
      assert k < n;
    }
  }

  lemma AppendedBadge(before: seq<TripCount>, s: State, v: Viewer, n: nat, c: TripCount)
    requires n < |s.trips| && AreTheBadges(before, s, v, n) && c == CountOf(s, v, n) && c.trip == n && c.unread > 0
    ensures AreTheBadges(before + [c], s, v, n + 1)
  {
    hide TripUnread, CountOf;
    var after := before + [c];
    forall i | 0 <= i < |after| ensures after[i].trip < n + 1 && after[i] == CountOf(s, v, after[i].trip) && after[i].unread > 0 {
      assert i < |before| ==> after[i] == before[i];
    }
    forall k: nat | k < n + 1 && TripUnread(s, v, k) > 0 ensures CountOf(s, v, k) in after {
      assert k < n ==> CountOf(s, v, k) in before;
    }
    forall i, j | 0 <= i < j < |after| ensures after[i].trip < after[j].trip {
      assert after[i] == before[i];
      assert j < |before| ==> after[j] == before[j];
    }
  }

  /** The badges by trip, filled in group by group. */
  function ByTrip(rows: seq<TripCount>): map<TripId, nat> {
    if rows == [] then map[]
    else ByTrip(rows[..|rows| - 1])[rows[|rows| - 1].trip := rows[|rows| - 1].unread]
  }

  lemma {:induction false} ByTripHoldsTheBadges(rows: seq<TripCount>, s: State, v: Viewer, n: nat)
    requires n <= |s.trips| && forall i :: 0 <= i < |rows| ==> rows[i].trip < n && rows[i] == CountOf(s, v, rows[i].trip)
    ensures forall k :: k in ByTrip(rows) ==> k < n && ByTrip(rows)[k] == TripUnread(s, v, k) && CountOf(s, v, k) in rows
    ensures forall c :: c in rows ==> c.trip in ByTrip(rows)
  {
    hide TripUnread;
    if rows != [] {
      var init, last := rows[..|rows| - 1], rows[|rows| - 1];
      assert rows == init + [last];
      ByTripHoldsTheBadges(init, s, v, n);
    }
  }

  /** Adds the groups up one by one. */
  method AddUp(rows: seq<TripCount>) returns (active: nat, past: nat, tripUnread: map<TripId, nat>)
    ensures active == Sum(ActiveOf(), rows) && active + past == Sum(UnreadOf(), rows)
    ensures tripUnread == ByTrip(rows)
  {
    active, past, tripUnread := 0, 0, map[];
    for i := 0 to |rows|
      invariant active == Sum(ActiveOf(), rows[..i]) && active + past == Sum(UnreadOf(), rows[..i])
      invariant tripUnread == ByTrip(rows[..i])
    {
      assert rows[..i + 1] == rows[..i] + [rows[i]];
      assert rows[..i + 1][..i] == rows[..i];
      SumAppend(ActiveOf(), rows[..i], rows[i]);
      SumAppend(UnreadOf(), rows[..i], rows[i]);
      if rows[i].isActive { active := active + rows[i].unread; } else { past := past + rows[i].unread; }
      tripUnread := tripUnread[rows[i].trip := rows[i].unread];
    }
    assert rows[..|rows|] == rows;
  }

  /** The badges of the trips that are not delivered. */
  function ActiveBadges(s: State, v: Viewer): nat -> nat {
    (k: nat) => if k < |s.trips| && !s.trips[k].status.Delivered? then TripUnread(s, v, k) else 0
  }

  lemma {:induction false} ActiveAddUp(s: State, v: Viewer, n: nat)
    requires n <= |s.trips|
    ensures Sum(ActiveOf(), TripCounts(s, v, n)) == SumUpTo(ActiveBadges(s, v), n)
  {
    hide TripUnread;
    if n > 0 {
      ActiveAddUp(s, v, n - 1);
      if TripUnread(s, v, n - 1) > 0 {
        SumAppend(ActiveOf(), TripCounts(s, v, n - 1), CountOf(s, v, n - 1));
      }
    }
  }

  /** The driver's summary: its total counts every unread message and file the driver sees once, splits into
      active and past trips, and tripUnread holds exactly the trips' badges. */
  method DriverSummary(s: State, driver: UserId) returns (total: nat, active: nat, past: nat, tripUnread: map<TripId, nat>)
    ensures total == AllUnread(s, Cab(driver)) == active + past
    ensures active == SumUpTo(ActiveBadges(s, Cab(driver)), |s.trips|)
    ensures forall k: nat :: k in tripUnread <==> k < |s.trips| && TripUnread(s, Cab(driver), k) > 0
    ensures forall k :: k in tripUnread ==> tripUnread[k] == TripUnread(s, Cab(driver), k)
  {
    hide TripUnread, AllUnread, TripCounts;
    var rows := TripCounts(s, Cab(driver), |s.trips|);
    CountsAreTheBadges(s, Cab(driver), |s.trips|);
    TotalIsSumOfTrips(s, Cab(driver));
    ActiveAddUp(s, Cab(driver), |s.trips|);
    active, past, tripUnread := AddUp(rows);
    total := active + past;
    ByTripHoldsTheBadges(rows, s, Cab(driver), |s.trips|);
    forall k: nat ensures k in tripUnread <==> k < |s.trips| && TripUnread(s, Cab(driver), k) > 0 {
      if k in tripUnread {
        assert CountOf(s, Cab(driver), k) in rows;
      }
    }
  }

  // ----- by truck, for the office

  datatype TruckItem = TruckItem(truck: TruckId, total: nat, active: nat, past: nat, trips: seq<TripCount>)

  function OfTruck(truck: TruckId): TripCount -> bool {
    (c: TripCount) => c.truck == truck
  }

  /** The groups of one truck added up. */
  function ItemOf(rows: seq<TripCount>, truck: TruckId): TruckItem {
    var trips := Filter(OfTruck(truck), rows);
    TruckItem(truck, Sum(UnreadOf(), trips), Sum(ActiveOf(), trips), Sum(PastOf(), trips), trips)
  }

  function TruckItems(rows: seq<TripCount>, n: nat): seq<TruckItem> {
    if n == 0 then [] else
    var before, item := TruckItems(rows, n - 1), ItemOf(rows, n - 1);
    if item.trips == [] then before else before + [item]
  }

  function TotalOf(): TruckItem -> nat {
    (i: TruckItem) => i.total
  }

  lemma {:induction false} SplitByActivity(rows: seq<TripCount>)
    ensures Sum(UnreadOf(), rows) == Sum(ActiveOf(), rows) + Sum(PastOf(), rows)
  {
    if rows != [] {
      SplitByActivity(rows[..|rows| - 1]);
    }
  }

  function ByTruck(rows: seq<TripCount>): nat -> nat {
    (k: nat) => Sum(UnreadOf(), Filter(OfTruck(k), rows))
  }

  lemma {:induction false} TrucksAddUp(rows: seq<TripCount>, n: nat)
    ensures Sum(TotalOf(), TruckItems(rows, n)) == SumUpTo(ByTruck(rows), n)
  {
    if n > 0 {
      TrucksAddUp(rows, n - 1);
      var before, item := TruckItems(rows, n - 1), ItemOf(rows, n - 1);
      if item.trips != [] {
        SumAppend(TotalOf(), before, item);
      }
    }
  }

  lemma {:induction false} SumByTruck(rows: seq<TripCount>, n: nat)
    requires forall c :: c in rows ==> c.truck < n
    ensures SumUpTo(ByTruck(rows), n) == Sum(UnreadOf(), rows)
  {
    var f := ByTruck(rows);
    if rows == [] {
      SumOfOne(f, n, n);
    } else {
      var init, last := rows[..|rows| - 1], rows[|rows| - 1];
      assert rows == init + [last];
      SumByTruck(init, n);
      var g := ByTruck(init);
      forall k: nat ensures f(k) == g(k) + if k == last.truck then last.unread else 0 {
        FilterAppend(OfTruck(k), init, last);
        SumAppend(UnreadOf(), Filter(OfTruck(k), init), last);
      }
      SumsDiffer(f, g, last.truck, n);
    }
  }

  /** The office summary adds up over trucks to every unread message and file the viewer sees, each once;
      every truck's figure is its active and past trips' together. */
  method OfficeSummary(s: State, v: Viewer) returns (total: nat, items: seq<TruckItem>)
    requires v.Office? && Fleet.OnOwnTrucks(s)
    ensures total == AllUnread(s, v) == SumUpTo(Badges(s, v), |s.trips|)
    ensures forall i :: 0 <= i < |items| ==>
      && items[i].total == items[i].active + items[i].past
      && items[i].total == Sum(UnreadOf(), items[i].trips) && items[i].active == Sum(ActiveOf(), items[i].trips)
      && forall c :: c in items[i].trips ==> c.trip < |s.trips| && c == CountOf(s, v, c.trip) && s.trips[c.trip].truck == items[i].truck
    ensures forall i, j :: 0 <= i < j < |items| ==> items[i].truck < items[j].truck
    ensures forall k: nat :: k < |s.trips| && TripUnread(s, v, k) > 0 ==> exists i :: 0 <= i < |items| && CountOf(s, v, k) in items[i].trips
  {
    hide TripUnread, AllUnread, TripCounts, TruckItems;
    var rows := TripCounts(s, v, |s.trips|);
    CountsAreTheBadges(s, v, |s.trips|);
    TotalIsSumOfTrips(s, v);
    forall c | c in rows ensures c.trip < |s.trips| && c == CountOf(s, v, c.trip) && c.truck < |s.trucks| {
      assert Fleet.IsOnOwn(s.trips[c.trip], s.trucks);
    }
    items := TruckItems(rows, |s.trucks|);
    total := 0;
    for i := 0 to |items|
      invariant total == Sum(TotalOf(), items[..i])
    {
      assert items[..i + 1] == items[..i] + [items[i]];
      SumAppend(TotalOf(), items[..i], items[i]);
      total := total + items[i].total;
    }
    assert items[..|items|] == items;
    TrucksAddUp(rows, |s.trucks|);
    SumByTruck(rows, |s.trucks|);
    ItemsMean(rows, |s.trucks|);
    forall k: nat | k < |s.trips| && TripUnread(s, v, k) > 0 ensures exists i :: 0 <= i < |items| && CountOf(s, v, k) in items[i].trips {
      assert CountOf(s, v, k) in rows;
      EachHasItsItem(rows, |s.trucks|, CountOf(s, v, k));
    }
  }

  lemma {:induction false} ItemsMean(rows: seq<TripCount>, n: nat)
    ensures forall i :: 0 <= i < |TruckItems(rows, n)| ==>
      var item := TruckItems(rows, n)[i];
      && item.truck < n && item.total == item.active + item.past
      && item.total == Sum(UnreadOf(), item.trips) && item.active == Sum(ActiveOf(), item.trips)
      && forall c :: c in item.trips ==> c in rows && c.truck == item.truck
    ensures forall i, j :: 0 <= i < j < |TruckItems(rows, n)| ==> TruckItems(rows, n)[i].truck < TruckItems(rows, n)[j].truck
  {
    if n > 0 {
      ItemsMean(rows, n - 1);
      var trips := Filter(OfTruck(n - 1), rows);
      SplitByActivity(trips);
      FilterKeeps(OfTruck(n - 1), rows);
    }
  }

  lemma {:induction false} EachHasItsItem(rows: seq<TripCount>, n: nat, c: TripCount)
    requires c in rows && c.truck < n
    ensures exists i :: 0 <= i < |TruckItems(rows, n)| && c in TruckItems(rows, n)[i].trips
  {
    var before, item := TruckItems(rows, n - 1), ItemOf(rows, n - 1);
    FilterKeeps(OfTruck(n - 1), rows);
    if c.truck == n - 1 {
      assert c in item.trips;
      assert TruckItems(rows, n)[|before|] == item;
    } else {
      EachHasItsItem(rows, n - 1, c);
      var i :| 0 <= i < |before| && c in before[i].trips;
      assert TruckItems(rows, n)[i] == before[i];
    }
  }
}
