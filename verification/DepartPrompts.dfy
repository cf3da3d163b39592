/** "Are we heading to loading?" – asking drivers to set off, with any number of servers at work at once.
    A row read and the write that follows it are separate steps, so other servers' writes may come in between. */
module DepartPrompts {
  import opened Base
  import opened Trips
  import TripOrder

  const RETRY: int := 20 * MINUTE
  const MAX_PROMPTS: nat := 3

  type WorkerId = nat

  /** What happened to a trip's question: it was put, numbered; the driver said no; or its counter started over. */
  datatype Event = Asked(no: nat, at: Time) | Declined(at: Time) | Restarted

  datatype Row = Row(
    company: CompanyId, truck: TruckId, driver: UserId, status: Status, deleted: bool, createdAt: Time,
    askAt: Option<Time>, asked: nat, history: seq<Event>)

  /** A trip as a server read it: the counter then, and how many fresh starts it had seen. */
  datatype Snapshot = Snapshot(trip: TripId, driver: UserId, asked: nat, restarts: nat)

  /** Where a server is between two of its database statements. */
  datatype Phase =
    | Idle
    | Notified(driver: UserId)
    | Sweeping(due: seq<Snapshot>)
    | Claiming(ask: Snapshot, rest: seq<Snapshot>)
    | StandingDown(trip: TripId, rest: seq<Snapshot>)
    | GivingUp(trip: TripId, rest: seq<Snapshot>)
    | Postponing(trip: TripId)

  datatype World = World(
    now: Time, rows: seq<Row>, onTruck: map<TruckId, UserId>, company: map<UserId, CompanyId>, workers: map<WorkerId, Phase>)

  datatype Action =
    | NewTrip(row: Row)
    | Rehome(trip: TripId, truck: TruckId, driver: UserId)
    | Hand(trip: TripId, driver: UserId)
    | Erase(trip: TripId)
    | Complete(trip: TripId)
    | Move(onTruck: map<TruckId, UserId>, company: map<UserId, CompanyId>)
    | PutStatus(w: WorkerId, trip: TripId, status: Option<Status>, asker: Option<UserId>)
    | FindCurrent(w: WorkerId, found: Option<TripId>)
    | StartSweep(w: WorkerId)
    | CheckNext(w: WorkerId, found: Option<TripId>)
    | Claim(w: WorkerId)
    | StandDown(w: WorkerId)
    | GiveUp(w: WorkerId)
    | SayNo(w: WorkerId, trip: TripId, driver: UserId)
    | Postpone(w: WorkerId)

  // ----- reading

  function PhaseOf(s: World, w: WorkerId): Phase {
    if w in s.workers then s.workers[w] else Idle
  }

  function Restarts(history: seq<Event>): nat {
    if history == [] then 0
    else Restarts(history[..|history| - 1]) + if history[|history| - 1].Restarted? then 1 else 0
  }

  function Snap(s: World, trip: TripId): Snapshot
    requires trip < |s.rows|
  {
    Snapshot(trip, s.rows[trip].driver, s.rows[trip].asked, Restarts(s.rows[trip].history))
  }

  /** An open trip of the driver, in the company they still belong to, on the truck they are on now. */
  predicate IsCandidate(s: World, driver: UserId, trip: TripId) {
    && trip < |s.rows|
    && var row := s.rows[trip];
       && row.driver == driver && !row.deleted && !row.status.Delivered?
       && driver in s.company && s.company[driver] == row.company
       && row.truck in s.onTruck && s.onTruck[row.truck] == driver
  }

  function ProgressOf(s: World, trip: TripId): TripOrder.Progress
    requires trip < |s.rows|
  {
    TripOrder.Progress(trip, s.rows[trip].status, s.rows[trip].createdAt)
  }

  /** The answer of a look-up of the driver's current trip. */
  ghost predicate FindsCurrent(s: World, driver: UserId, found: Option<TripId>) {
    match found
    case None => forall i :: 0 <= i < |s.rows| ==> !IsCandidate(s, driver, i)
    case Some(trip) =>
      && IsCandidate(s, driver, trip)
      && forall i :: 0 <= i < |s.rows| && IsCandidate(s, driver, i) ==> TripOrder.Before(ProgressOf(s, trip), ProgressOf(s, i))
  }

  function Candidates(s: World, driver: UserId, n: nat): seq<TripOrder.Progress>
    requires n <= |s.rows|
  {
    if n == 0 then []
    else if IsCandidate(s, driver, n - 1) then Candidates(s, driver, n - 1) + [ProgressOf(s, n - 1)]
    else Candidates(s, driver, n - 1)
  }

  lemma {:induction false} CandidatesAre(s: World, driver: UserId, n: nat)
    requires n <= |s.rows|
    ensures forall x :: x in Candidates(s, driver, n) ==> x.trip < n && IsCandidate(s, driver, x.trip) && x == ProgressOf(s, x.trip)
    ensures forall i :: 0 <= i < n && IsCandidate(s, driver, i) ==> ProgressOf(s, i) in Candidates(s, driver, n)
  {
    if n > 0 { CandidatesAre(s, driver, n - 1); }
  }

  /** The first of the driver's candidates, sorted by progress, is their current trip. */
  lemma SortingFindsCurrent(s: World, driver: UserId)
    ensures var sorted := TripOrder.SortByProgress(Candidates(s, driver, |s.rows|));
      FindsCurrent(s, driver, if sorted == [] then None else Some(sorted[0].trip))
  {
    var all := Candidates(s, driver, |s.rows|);
    CandidatesAre(s, driver, |s.rows|);
    TripOrder.CurrentLeads(all);
    var sorted := TripOrder.SortByProgress(all);
    hide IsCandidate, Candidates;
    if sorted != [] {
      assert sorted[..1][0] == sorted[0];
      forall i | 0 <= i < |s.rows| && IsCandidate(s, driver, i)
        ensures TripOrder.Before(ProgressOf(s, sorted[0].trip), ProgressOf(s, i))
      {
        assert ProgressOf(s, i) in all;
      }
    }
  }

  predicate IsDue(row: Row, now: Time) {
    !row.deleted && row.status.Accepted? && row.askAt.Some? && row.askAt.value <= now
  }

  function DueTrips(s: World, n: nat): seq<Snapshot>
    requires n <= |s.rows|
  {
    if n == 0 then []
    else if IsDue(s.rows[n - 1], s.now) then DueTrips(s, n - 1) + [Snap(s, n - 1)]
    else DueTrips(s, n - 1)
  }

  // ----- writing

  function Decline(row: Row, now: Time): Row {
    row.(askAt := Some(now + RETRY), history := row.history + [Declined(now)])
  }

  function Restart(row: Row): Row {
    row.(askAt := None, asked := 0, history := row.history + [Restarted])
  }

  /** Leaving ACCEPTED ends a pending question; going back to ASSIGNED starts over. */
  function WithStatus(row: Row, status: Option<Status>): Row {
    match status
    case None => row
    case Some(Accepted) => row.(status := Accepted)
    case Some(Assigned) => Restart(row.(status := Assigned))
    case Some(st) => row.(status := st, askAt := None)
  }

  predicate CanClaim(row: Row, asked: nat) {
    row.asked == asked && row.status.Accepted? && !row.deleted
  }

  function Ask(row: Row, now: Time): Row {
    row.(asked := row.asked + 1, askAt := Some(now + RETRY), history := row.history + [Asked(row.asked + 1, now)])
  }

  function SetRow(s: World, trip: TripId, row: Row): (r: World)
    requires trip < |s.rows|
  {
    s.(rows := s.rows[trip := row])
  }

  function SetPhase(s: World, w: WorkerId, phase: Phase): World {
    s.(workers := s.workers[w := phase])
  }

  // ----- one step of one server, or of the world around

  // A status written by the driver names them (`asker`); one written by the office goes by the trip's driver then.
  // Rehome and Complete are what a truck change writes to the two trips: neither touches the question.

  ghost predicate CanDo(s: World, a: Action) {
    match a
    case NewTrip(row) => row.askAt.None? && row.asked == 0 && row.history == [] && row.status.Assigned?
    case Rehome(trip, _, _) => trip < |s.rows|
    case Hand(trip, _) => trip < |s.rows|
    case Erase(trip) => trip < |s.rows|
    case Complete(trip) => trip < |s.rows|
    case Move(_, _) => true
    case PutStatus(w, trip, _, _) => PhaseOf(s, w).Idle? && trip < |s.rows|
    case FindCurrent(w, found) => PhaseOf(s, w).Notified? && FindsCurrent(s, PhaseOf(s, w).driver, found)
    case StartSweep(w) => PhaseOf(s, w).Idle?
    case CheckNext(w, found) => PhaseOf(s, w).Sweeping? && (PhaseOf(s, w).due != [] ==> FindsCurrent(s, PhaseOf(s, w).due[0].driver, found))
    case Claim(w) => PhaseOf(s, w).Claiming? && PhaseOf(s, w).ask.trip < |s.rows|
    case StandDown(w) => PhaseOf(s, w).StandingDown? && PhaseOf(s, w).trip < |s.rows|
    case GiveUp(w) => PhaseOf(s, w).GivingUp? && PhaseOf(s, w).trip < |s.rows|
    case SayNo(w, trip, driver) =>
      PhaseOf(s, w).Idle? && trip < |s.rows| && s.rows[trip].driver == driver && !s.rows[trip].deleted && s.rows[trip].status.Accepted?
    case Postpone(w) => PhaseOf(s, w).Postponing? && PhaseOf(s, w).trip < |s.rows|
  }

  function Do(s: World, a: Action): (r: World)
    requires CanDo(s, a)
  {
    match a
    case NewTrip(row) => s.(rows := s.rows + [row])
    case Rehome(trip, truck, driver) => SetRow(s, trip, s.rows[trip].(truck := truck, driver := driver, status := Assigned))
    case Hand(trip, driver) => SetRow(s, trip, s.rows[trip].(driver := driver))
    case Erase(trip) => SetRow(s, trip, s.rows[trip].(deleted := true))
    case Complete(trip) => SetRow(s, trip, s.rows[trip].(status := Delivered))
    case Move(onTruck, company) => s.(onTruck := onTruck, company := company)
    case PutStatus(w, trip, status, asker) =>
      var t := SetRow(s, trip, WithStatus(s.rows[trip], status));
      SetPhase(t, w, if status == Some(Accepted) || status == Some(Delivered) then Notified(asker.GetOr(s.rows[trip].driver)) else Idle)
    case FindCurrent(w, found) => SetPhase(s, w, AfterLook(s, found))
    case StartSweep(w) => SetPhase(s, w, Sweeping(DueTrips(s, |s.rows|)))
    case CheckNext(w, found) => SetPhase(s, w, NextCheck(PhaseOf(s, w).due, found))
    case Claim(w) =>
      var ask := PhaseOf(s, w).ask;
      var t := if CanClaim(s.rows[ask.trip], ask.asked) then SetRow(s, ask.trip, Ask(s.rows[ask.trip], s.now)) else s;
      SetPhase(t, w, Sweeping(PhaseOf(s, w).rest))
    case StandDown(w) =>
      var p := PhaseOf(s, w);
      SetPhase(SetRow(s, p.trip, Restart(s.rows[p.trip])), w, Sweeping(p.rest))
    case GiveUp(w) =>
      var p := PhaseOf(s, w);
      SetPhase(SetRow(s, p.trip, s.rows[p.trip].(askAt := None)), w, Sweeping(p.rest))
    case SayNo(w, trip, _) =>
      SetPhase(s, w, if s.rows[trip].asked >= MAX_PROMPTS then GivingUp(trip, []) else Postponing(trip))
    case Postpone(w) =>
      var p := PhaseOf(s, w);
      SetPhase(SetRow(s, p.trip, Decline(s.rows[p.trip], s.now)), w, Idle)
  }

  /** After a status change: the driver's current trip is asked about if it never was. */
  function AfterLook(s: World, found: Option<TripId>): Phase
    requires found.Some? ==> found.value < |s.rows|
  {
    if found.Some? && s.rows[found.value].status.Accepted? && s.rows[found.value].asked == 0 && s.rows[found.value].askAt.None?
    then Claiming(Snap(s, found.value), [])
    else Idle
  }

  /** The sweep goes by the rows it read when it started. */
  function NextCheck(due: seq<Snapshot>, found: Option<TripId>): Phase {
    if due == [] then Idle
    else if found != Some(due[0].trip) then StandingDown(due[0].trip, due[1..])
    else if due[0].asked >= MAX_PROMPTS then GivingUp(due[0].trip, due[1..])
    else Claiming(due[0], due[1..])
  }

  /** Time passes before each step. */
  datatype Tick = Tick(action: Action, at: Time)

  ghost predicate CanHappen(s: World, k: Tick) {
    s.now < k.at && CanDo(s.(now := k.at), k.action)
  }

  function Step(s: World, k: Tick): World
    requires CanHappen(s, k)
  {
    Do(s.(now := k.at), k.action)
  }

  ghost predicate IsRun(s: World, ticks: seq<Tick>)
    decreases |ticks|
  {
    ticks == [] || (CanHappen(s, ticks[0]) && IsRun(Step(s, ticks[0]), ticks[1..]))
  }

  ghost function Final(s: World, ticks: seq<Tick>): World
    requires IsRun(s, ticks)
    decreases |ticks|
  {
    if ticks == [] then s else Final(Step(s, ticks[0]), ticks[1..])
  }

  function Start(): World {
    World(0, [], map[], map[], map[])
  }

  // ----- numbering

  /** The number of the last ask since the last fresh start. */
  function LastNo(history: seq<Event>): nat {
    if history == [] then 0
    else match history[|history| - 1]
      case Asked(no, _) => no
      case Declined(_) => LastNo(history[..|history| - 1])
      case Restarted => 0
  }

  /** Between two fresh starts the asks are 1, 2, … in order, each once, and never more than three. */
  ghost predicate Numbered(history: seq<Event>) {
    forall i :: 0 <= i < |history| && history[i].Asked? ==> history[i].no == LastNo(history[..i]) + 1 <= MAX_PROMPTS
  }

  ghost predicate RowOk(row: Row) {
    Numbered(row.history) && row.asked == LastNo(row.history) <= MAX_PROMPTS
  }

  ghost predicate PhaseOk(p: Phase) {
    p.Claiming? ==> p.ask.asked < MAX_PROMPTS
  }

  ghost predicate Valid(s: World) {
    && (forall i :: 0 <= i < |s.rows| ==> RowOk(s.rows[i]))
    && (forall w :: w in s.workers ==> PhaseOk(s.workers[w]))
  }

  lemma NumberedAppend(history: seq<Event>, e: Event)
    requires Numbered(history) && (e.Asked? ==> e.no == LastNo(history) + 1 <= MAX_PROMPTS)
    ensures Numbered(history + [e])
    ensures LastNo(history + [e]) == if e.Asked? then e.no else if e.Declined? then LastNo(history) else 0
  {
    var after := history + [e];
    assert after[..|history|] == history;
    forall i | 0 <= i < |after| && after[i].Asked? ensures after[i].no == LastNo(after[..i]) + 1 <= MAX_PROMPTS {
      assert after[..i] == history[..i];
      assert history[..|history|] == history;
    }
  }

  /** How one step may change one row: nothing about the question, or it is called off; a fresh start; a "No"; or one
      more question. */
  ghost predicate RowMoves(a: Row, b: Row, now: Time) {
    || (b.history == a.history && b.asked == a.asked && (b.askAt == a.askAt || b.askAt.None?))
    || (b.history == a.history + [Restarted] && b.asked == 0 && b.askAt.None?)
    || (b.history == a.history + [Declined(now)] && b.asked == a.asked && b.askAt == Some(now + RETRY))
    || (b.history == a.history + [Asked(a.asked + 1, now)] && b.asked == a.asked + 1 <= MAX_PROMPTS && b.askAt == Some(now + RETRY))
  }

  predicate IsNew(row: Row) {
    row.asked == 0 && row.history == [] && row.askAt.None?
  }

  ghost predicate RowsMove(a: seq<Row>, b: seq<Row>, now: Time) {
    |a| <= |b| && forall i :: 0 <= i < |a| ==> RowMoves(a[i], b[i], now)
  }

  lemma RowStays(row: Row, t: Row, now: Time)
    requires RowOk(row) && RowMoves(row, t, now)
    ensures RowOk(t)
  {
    if t.history != row.history {
      NumberedAppend(row.history, t.history[|row.history|]);
    }
  }

  lemma ClaimMoves(s: World, w: WorkerId)
    requires CanDo(s, Claim(w)) && PhaseOk(PhaseOf(s, w))
    ensures RowsMove(s.rows, Do(s, Claim(w)).rows, s.now)
  {
  }

  lemma WriteMoves(s: World, a: Action)
    requires CanDo(s, a) && (a.PutStatus? || a.StandDown? || a.GiveUp? || a.Postpone?)
    ensures RowsMove(s.rows, Do(s, a).rows, s.now)
    ensures forall i :: 0 <= i < |s.rows| ==> 
      || Do(s, a).rows[i].history == s.rows[i].history
      || Do(s, a).rows[i].history == s.rows[i].history + [Restarted]
      || (Do(s, a).rows[i].history == s.rows[i].history + [Declined(s.now)])
  {
  }

  lemma OtherMoves(s: World, a: Action)
    requires CanDo(s, a) && !(a.PutStatus? || a.StandDown? || a.GiveUp? || a.Postpone? || a.Claim?)
    ensures RowsMove(s.rows, Do(s, a).rows, s.now)
    ensures forall i :: 0 <= i < |s.rows| ==> Do(s, a).rows[i].history == s.rows[i].history
    ensures forall i :: |s.rows| <= i < |Do(s, a).rows| ==> IsNew(Do(s, a).rows[i])
  {
    hide FindsCurrent, DueTrips, Restarts, AfterLook, NextCheck;
  }

  lemma StepMoves(s: World, k: Tick)
    requires Valid(s) && CanHappen(s, k)
    ensures RowsMove(s.rows, Step(s, k).rows, k.at)
    ensures forall i :: |s.rows| <= i < |Step(s, k).rows| ==> IsNew(Step(s, k).rows[i])
  {
    hide RowsMove;
    var u := s.(now := k.at);
    if k.action.Claim? {
      assert PhaseOk(PhaseOf(s, k.action.w));
      ClaimMoves(u, k.action.w);
    } else {
      hide Do, CanDo;
      if k.action.PutStatus? || k.action.StandDown? || k.action.GiveUp? || k.action.Postpone? {
        WriteMoves(u, k.action);
        WritesAddNoRow(u, k.action);
      } else {
        OtherMoves(u, k.action);
      }
    }
  }

  lemma WritesAddNoRow(s: World, a: Action)
    requires CanDo(s, a) && (a.PutStatus? || a.StandDown? || a.GiveUp? || a.Postpone?)
    ensures |Do(s, a).rows| == |s.rows|
  {
  }

  /** A server only sets out to claim a number below the last. */
  lemma PhasesStay(s: World, a: Action)
    requires CanDo(s, a) && forall w :: w in s.workers ==> PhaseOk(s.workers[w])
    ensures forall w :: w in Do(s, a).workers ==> PhaseOk(Do(s, a).workers[w])
  {
    hide FindsCurrent, DueTrips, Restarts, WithStatus, CanClaim;
  }

  lemma StepKeeps(s: World, k: Tick)
    requires Valid(s) && CanHappen(s, k)
    ensures Valid(Step(s, k))
  {
    StepMoves(s, k);
    PhasesStay(s.(now := k.at), k.action);
    hide RowOk, RowMoves, CanDo, Do;
    var t := Step(s, k);
    forall i | 0 <= i < |t.rows| ensures RowOk(t.rows[i]) {
      if i < |s.rows| { RowStays(s.rows[i], t.rows[i], k.at); } else { NewRowOk(t.rows[i]); }
    }
  }

  lemma NewRowOk(row: Row)
    requires IsNew(row)
    ensures RowOk(row)
  {
  }

  lemma {:induction false} ValidAlways(s: World, ticks: seq<Tick>)
    requires Valid(s) && IsRun(s, ticks)
    ensures Valid(Final(s, ticks))
    decreases |ticks|
  {
    hide Step, CanHappen, Valid;
    if ticks != [] {
      StepKeeps(s, ticks[0]);
      ValidAlways(Step(s, ticks[0]), ticks[1..]);
    }
  }

  /** Main result: however the servers interleave, the questions put about a trip between two fresh starts of
      its counter are numbered 1, 2, … up to at most 3, each exactly once and in order. */
  lemma AsksAreNumbered(ticks: seq<Tick>, trip: TripId)
    requires IsRun(Start(), ticks) && trip < |Final(Start(), ticks).rows|
    ensures var history := Final(Start(), ticks).rows[trip].history;
      forall i :: 0 <= i < |history| && history[i].Asked? ==> history[i].no == LastNo(history[..i]) + 1 <= 3
  {
    hide IsRun, Final;
    ValidAlways(Start(), ticks);
    assert RowOk(Final(Start(), ticks).rows[trip]);
  }

  /** A question is put only by a claim, and only about a trip that is accepted and not deleted at that moment;
      no step puts more than one, and no step rewrites what was asked before. */
  lemma AsksOnlyAboutAccepted(s: World, k: Tick, trip: TripId)
    requires CanHappen(s, k) && trip < |s.rows|
    ensures var t := Step(s, k);
      && trip < |t.rows|
      && (t.rows[trip].history == s.rows[trip].history
          || t.rows[trip].history == s.rows[trip].history + [Restarted]
          || t.rows[trip].history == s.rows[trip].history + [Declined(k.at)]
          || (&& t.rows[trip].history == s.rows[trip].history + [Asked(s.rows[trip].asked + 1, k.at)]
              && s.rows[trip].status.Accepted? && !s.rows[trip].deleted
              && k.action.Claim? && PhaseOf(s, k.action.w).ask.trip == trip
              && PhaseOf(s, k.action.w).ask.asked == s.rows[trip].asked
              && t.rows[trip].askAt == Some(k.at + RETRY)))
  {
    var u := s.(now := k.at);
    if k.action.Claim? {
    } else {
      hide CanDo, Do;
      if k.action.PutStatus? || k.action.StandDown? || k.action.GiveUp? || k.action.Postpone? {
        WriteMoves(u, k.action);
      } else {
        OtherMoves(u, k.action);
      }
    }
  }

  // ----- who is asked, and what becomes of a swept trip

  /** Whose step it is, if it is a server's. */
  function Worker(a: Action): Option<WorkerId> {
    match a
    case PutStatus(w, _, _, _) => Some(w)
    case FindCurrent(w, _) => Some(w)
    case StartSweep(w) => Some(w)
    case CheckNext(w, _) => Some(w)
    case Claim(w) => Some(w)
    case StandDown(w) => Some(w)
    case GiveUp(w) => Some(w)
    case SayNo(w, _, _) => Some(w)
    case Postpone(w) => Some(w)
    case _ => None
  }

  /** A server sets out to ask about a trip only while it is the current one of its driver: open, of the company they
      are in, on the truck they are on, and no other such trip is ahead of it. After a status change that is a trip just
      accepted and never asked about; in a sweep it was read with fewer than three questions. */
  lemma ClaimsAreCurrent(s: World, k: Tick, w: WorkerId)
    requires CanHappen(s, k) && PhaseOf(Step(s, k), w).Claiming? && PhaseOf(s, w) != PhaseOf(Step(s, k), w)
    ensures var u, ask := s.(now := k.at), PhaseOf(Step(s, k), w).ask;
      && FindsCurrent(u, ask.driver, Some(ask.trip))
      && ask.trip < |s.rows|
      && var row := s.rows[ask.trip];
         && row.driver == ask.driver && !row.deleted && !row.status.Delivered?
         && ask.driver in s.company && s.company[ask.driver] == row.company
         && row.truck in s.onTruck && s.onTruck[row.truck] == ask.driver
         && Worker(k.action) == Some(w)
         && (PhaseOf(s, w).Notified? ==> row.status.Accepted? && row.asked == ask.asked == 0 && row.askAt.None?)
         && (!PhaseOf(s, w).Notified? ==> PhaseOf(s, w).Sweeping? && PhaseOf(s, w).due != [] && ask == PhaseOf(s, w).due[0] && ask.asked < 3)
  {
    hide DueTrips, Restarts, WithStatus, CanClaim;
  }

  lemma OthersLeaveThePhase(s: World, k: Tick, w: WorkerId)
    requires CanHappen(s, k) && Worker(k.action) != Some(w)
    ensures PhaseOf(Step(s, k), w) == PhaseOf(s, w)
  {
    hide DueTrips, Restarts, WithStatus, CanClaim, FindsCurrent, AfterLook, NextCheck;
  }

  ghost predicate Rests(ticks: seq<Tick>, w: WorkerId) {
    forall i :: 0 <= i < |ticks| ==> Worker(ticks[i].action) != Some(w)
  }

  lemma {:induction false} PhaseWaits(s: World, ticks: seq<Tick>, w: WorkerId)
    requires IsRun(s, ticks) && Rests(ticks, w)
    ensures PhaseOf(Final(s, ticks), w) == PhaseOf(s, w)
    decreases |ticks|
  {
    if ticks != [] {
      OthersLeaveThePhase(s, ticks[0], w);
      hide Step, CanHappen, PhaseOf;
      PhaseWaits(Step(s, ticks[0]), ticks[1..], w);
    }
  }

  /** What a server's own step does to the row it has in hand, and that it touches no other. */
  lemma OwnStep(s: World, k: Tick, w: WorkerId)
    requires CanHappen(s, k) && Worker(k.action) == Some(w)
    requires var p := PhaseOf(s, w); p.StandingDown? || p.GivingUp? || p.Claiming? || p.Postponing?
    ensures var t, p := Step(s, k), PhaseOf(s, w);
      var trip := if p.Claiming? then p.ask.trip else p.trip;
      && trip < |s.rows| == |t.rows| && (forall i :: 0 <= i < |s.rows| && i != trip ==> t.rows[i] == s.rows[i])
      && var row := s.rows[trip];
         t.rows[trip] ==
           if p.StandingDown? then row.(askAt := None, asked := 0, history := row.history + [Restarted])
           else if p.GivingUp? then row.(askAt := None)
           else if p.Postponing? then row.(askAt := Some(k.at + 20 * 60 * 1000), history := row.history + [Declined(k.at)])
           else if row.asked == p.ask.asked && row.status.Accepted? && !row.deleted
           then row.(asked := row.asked + 1, askAt := Some(k.at + 20 * 60 * 1000), history := row.history + [Asked(row.asked + 1, k.at)])
           else row
    ensures PhaseOf(Step(s, k), w) == match PhaseOf(s, w)
                                      case StandingDown(_, rest) => Sweeping(rest)
                                      case GivingUp(_, rest) => Sweeping(rest)
                                      case Claiming(_, rest) => Sweeping(rest)
                                      case _ => Idle
  {
    hide DueTrips, Restarts, WithStatus, FindsCurrent, AfterLook, NextCheck;
  }

  /** Main result: what becomes of the trip a sweep takes up, at that server's next step and whatever others do before.
      A trip the look-up did not find current is not asked about: its question starts over. A current one is given up if
      it was read with three questions; otherwise the next question is put, if the row still stands as it was read. */
  lemma SweptTrip(s: World, k: Tick, w: WorkerId, ticks: seq<Tick>, next: Tick)
    requires CanHappen(s, k) && k.action.CheckNext? && k.action.w == w && PhaseOf(s, w).Sweeping? && PhaseOf(s, w).due != []
    requires IsRun(Step(s, k), ticks) && Rests(ticks, w)
    requires CanHappen(Final(Step(s, k), ticks), next) && Worker(next.action) == Some(w)
    ensures var u, x := Final(Step(s, k), ticks), PhaseOf(s, w).due[0];
      var t := Step(u, next);
      && x.trip < |u.rows| == |t.rows| && (forall i :: 0 <= i < |u.rows| && i != x.trip ==> t.rows[i] == u.rows[i])
      && var row := u.rows[x.trip];
         t.rows[x.trip] ==
           if k.action.found != Some(x.trip) then row.(askAt := None, asked := 0, history := row.history + [Restarted])
           else if x.asked >= 3 then row.(askAt := None)
           else if row.asked == x.asked && row.status.Accepted? && !row.deleted
           then row.(asked := row.asked + 1, askAt := Some(next.at + 20 * 60 * 1000), history := row.history + [Asked(row.asked + 1, next.at)])
           else row
    ensures PhaseOf(Step(Final(Step(s, k), ticks), next), w) == Sweeping(PhaseOf(s, w).due[1..])
  {
    SweepTakesUp(s, k, w);
    PhaseWaits(Step(s, k), ticks, w);
    OwnStep(Final(Step(s, k), ticks), next, w);
    hide CanHappen, Step, Final, IsRun, PhaseOf;
  }

  lemma SweepTakesUp(s: World, k: Tick, w: WorkerId)
    requires CanHappen(s, k) && k.action.CheckNext? && k.action.w == w && PhaseOf(s, w).Sweeping? && PhaseOf(s, w).due != []
    ensures var due := PhaseOf(s, w).due;
      PhaseOf(Step(s, k), w) == if k.action.found != Some(due[0].trip) then StandingDown(due[0].trip, due[1..])
                                else if due[0].asked >= 3 then GivingUp(due[0].trip, due[1..])
                                else Claiming(due[0], due[1..])
  {
    hide FindsCurrent;
  }

  /** A sweep takes up exactly the accepted trips whose time has come, each once and as it stands. */
  lemma {:induction false} SweepReadsTheDue(s: World, n: nat)
    requires n <= |s.rows|
    ensures var due := DueTrips(s, n);
      && (forall i: nat :: i < n && !s.rows[i].deleted && s.rows[i].status.Accepted? && s.rows[i].askAt.Some? && s.rows[i].askAt.value <= s.now
                           ==> Snapshot(i, s.rows[i].driver, s.rows[i].asked, Restarts(s.rows[i].history)) in due)
      && (forall x :: x in due ==>
            && x.trip < n && x == Snapshot(x.trip, s.rows[x.trip].driver, s.rows[x.trip].asked, Restarts(s.rows[x.trip].history))
            && !s.rows[x.trip].deleted && s.rows[x.trip].status.Accepted? && s.rows[x.trip].askAt.Some? && s.rows[x.trip].askAt.value <= s.now)
      && (forall i, j :: 0 <= i < j < |due| ==> due[i].trip < due[j].trip)
  {
    if n > 0 {
      SweepReadsTheDue(s, n - 1);
      var before := DueTrips(s, n - 1);
      forall i | 0 <= i < |before| ensures before[i].trip < n - 1 {
        assert before[i] in before;
      }
      hide Restarts;
    }
  }

  /** A status written leaves a pending question alone only if it is "accepted", and starts the count over if it is
      "assigned". Accepting and delivering are followed by a look for the current trip, and that by a question exactly if
      the trip found is accepted and has never been asked about. */
  lemma StatusMovesTheQuestion(s: World, k: Tick, w: WorkerId)
    requires CanHappen(s, k) && Worker(k.action) == Some(w) && (k.action.PutStatus? || k.action.FindCurrent?)
    ensures var t, a := Step(s, k), k.action;
      if a.PutStatus? then
        var row := s.rows[a.trip];
        && |t.rows| == |s.rows| && (forall i :: 0 <= i < |s.rows| && i != a.trip ==> t.rows[i] == s.rows[i])
        && t.rows[a.trip] == (if a.status.None? then row
                              else if a.status == Some(Accepted) then row.(status := Accepted)
                              else if a.status == Some(Assigned) then row.(status := Assigned, askAt := None, asked := 0, history := row.history + [Restarted])
                              else row.(status := a.status.value, askAt := None))
        && PhaseOf(t, w) == if a.status == Some(Accepted) || a.status == Some(Delivered)
                            then Notified(if a.asker.Some? then a.asker.value else row.driver) else Idle
      else
        && t.rows == s.rows
        && PhaseOf(t, w) == if a.found.Some? && s.rows[a.found.value].status.Accepted? && s.rows[a.found.value].asked == 0 && s.rows[a.found.value].askAt.None?
                            then Claiming(Snapshot(a.found.value, s.rows[a.found.value].driver, 0, Restarts(s.rows[a.found.value].history)), [])
                            else Idle
  {
    hide DueTrips, Restarts;
  }

  /** A driver's "No" about their accepted trip puts the next question off by 20 minutes, or ends it after the third. */
  lemma NoPostpones(s: World, k: Tick, w: WorkerId, ticks: seq<Tick>, next: Tick)
    requires CanHappen(s, k) && k.action.SayNo? && k.action.w == w
    requires IsRun(Step(s, k), ticks) && Rests(ticks, w)
    requires CanHappen(Final(Step(s, k), ticks), next) && Worker(next.action) == Some(w)
    ensures var u, trip := Final(Step(s, k), ticks), k.action.trip;
      var t := Step(u, next);
      && trip < |s.rows| && s.rows[trip].driver == k.action.driver && s.rows[trip].status.Accepted? && !s.rows[trip].deleted
      && trip < |u.rows| == |t.rows|
      && var row := u.rows[trip];
         t.rows[trip] == if s.rows[trip].asked >= 3 then row.(askAt := None)
                         else row.(askAt := Some(next.at + 20 * 60 * 1000), history := row.history + [Declined(next.at)])
  {
    NoLeadsTo(s, k, w);
    PhaseWaits(Step(s, k), ticks, w);
    OwnStep(Final(Step(s, k), ticks), next, w);
    hide CanHappen, Step, Final, IsRun, PhaseOf;
  }

  lemma NoLeadsTo(s: World, k: Tick, w: WorkerId)
    requires CanHappen(s, k) && k.action.SayNo? && k.action.w == w
    ensures var trip := k.action.trip;
      && trip < |s.rows| && s.rows[trip].driver == k.action.driver && s.rows[trip].status.Accepted? && !s.rows[trip].deleted
      && PhaseOf(Step(s, k), w) == if s.rows[trip].asked >= 3 then GivingUp(trip, []) else Postponing(trip)
  {
  }

  // ----- spacing

  /** When the last question since the last fresh start was put. */
  function LastAsk(history: seq<Event>): Time {
    if history == [] then 0
    else match history[|history| - 1]
      case Asked(_, at) => at
      case Declined(_) => LastAsk(history[..|history| - 1])
      case Restarted => 0
  }

  /** A pending question comes up 20 minutes after the last question or "No", whichever was later, and so no sooner
      than 20 minutes after the last question. */
  ghost predicate RowSpaced(row: Row, now: Time) {
    && RowOk(row)
    && (row.asked > 0 ==> LastAsk(row.history) <= now && (row.askAt.Some? ==> LastAsk(row.history) + RETRY <= row.askAt.value))
    && (row.askAt.Some? ==> SpokenLast(row) && row.askAt.value == row.history[|row.history| - 1].at + RETRY)
  }

  /** The last thing that happened to the question is that it was put, or answered "No". */
  predicate SpokenLast(row: Row) {
    row.history != [] && !row.history[|row.history| - 1].Restarted?
  }

  /** What a snapshot still says about the row, unless the counter has started over since. */
  ghost predicate SnapSpaced(x: Snapshot, rows: seq<Row>, now: Time) {
    && x.trip < |rows| && x.restarts <= Restarts(rows[x.trip].history)
    && (x.restarts == Restarts(rows[x.trip].history) ==>
          && x.asked <= rows[x.trip].asked
          && (x.asked == rows[x.trip].asked > 0 ==> LastAsk(rows[x.trip].history) + RETRY <= now))
  }

  ghost predicate SnapsSpaced(xs: seq<Snapshot>, rows: seq<Row>, now: Time) {
    forall i :: 0 <= i < |xs| ==> SnapSpaced(xs[i], rows, now)
  }

  ghost predicate PhaseSpaced(p: Phase, rows: seq<Row>, now: Time) {
    match p
    case Sweeping(due) => SnapsSpaced(due, rows, now)
    case Claiming(ask, rest) => SnapSpaced(ask, rows, now) && SnapsSpaced(rest, rows, now)
    case StandingDown(_, rest) => SnapsSpaced(rest, rows, now)
    case GivingUp(_, rest) => SnapsSpaced(rest, rows, now)
    case _ => true
  }

  ghost predicate Spaced(s: World) {
    && (forall i :: 0 <= i < |s.rows| ==> RowSpaced(s.rows[i], s.now))
    && (forall w :: w in s.workers ==> PhaseOk(s.workers[w]) && PhaseSpaced(s.workers[w], s.rows, s.now))
  }

  lemma RestartsAppend(history: seq<Event>, e: Event)
    ensures Restarts(history + [e]) == Restarts(history) + if e.Restarted? then 1 else 0
  {
    assert (history + [e])[..|history|] == history;
  }

  lemma RowStaysSpaced(a: Row, b: Row, was: Time, now: Time)
    requires RowSpaced(a, was) && was < now && RowMoves(a, b, now)
    ensures RowSpaced(b, now)
  {
    RowStays(a, b, now);
    if b.history != a.history {
      NumberedAppend(a.history, b.history[|a.history|]);
      LastAskAppend(a.history, b.history[|a.history|]);
    }
  }

  lemma LastAskAppend(history: seq<Event>, e: Event)
    ensures LastAsk(history + [e]) == if e.Asked? then e.at else if e.Declined? then LastAsk(history) else 0
  {
    assert (history + [e])[..|history|] == history;
  }

  lemma SnapStaysSpaced(x: Snapshot, a: seq<Row>, b: seq<Row>, was: Time, now: Time)
    requires SnapSpaced(x, a, was) && was < now && RowsMove(a, b, now) && RowOk(a[x.trip])
    ensures SnapSpaced(x, b, now)
  {
    var row, next := a[x.trip], b[x.trip];
    assert RowMoves(row, next, now);
    if next.history != row.history {
      RestartsAppend(row.history, next.history[|row.history|]);
      LastAskAppend(row.history, next.history[|row.history|]);
    }
  }

  lemma SnapsStaySpaced(xs: seq<Snapshot>, a: seq<Row>, b: seq<Row>, was: Time, now: Time)
    requires SnapsSpaced(xs, a, was) && was < now && RowsMove(a, b, now)
    requires forall i :: 0 <= i < |a| ==> RowSpaced(a[i], was)
    ensures SnapsSpaced(xs, b, now)
  {
    forall i | 0 <= i < |xs| ensures SnapSpaced(xs[i], b, now) {
      assert RowSpaced(a[xs[i].trip], was) by { assert SnapSpaced(xs[i], a, was); }
      SnapStaysSpaced(xs[i], a, b, was, now);
    }
  }

  lemma PhaseStaysSpaced(p: Phase, a: seq<Row>, b: seq<Row>, was: Time, now: Time)
    requires PhaseSpaced(p, a, was) && was < now && RowsMove(a, b, now)
    requires forall i :: 0 <= i < |a| ==> RowSpaced(a[i], was)
    ensures PhaseSpaced(p, b, now)
  {
    hide SnapSpaced, RowsMove, RowSpaced;
    match p
    case Sweeping(due) => SnapsStaySpaced(due, a, b, was, now);
    case Claiming(ask, rest) =>
      SnapsStaySpaced([ask] + rest, a, b, was, now);
      assert ([ask] + rest)[0] == ask;
      forall i | 0 <= i < |rest| ensures SnapSpaced(rest[i], b, now) { assert ([ask] + rest)[i + 1] == rest[i]; }
    case StandingDown(_, rest) => SnapsStaySpaced(rest, a, b, was, now);
    case GivingUp(_, rest) => SnapsStaySpaced(rest, a, b, was, now);
    case _ =>
  }

  lemma {:induction false} DueAreSpaced(s: World, n: nat)
    requires n <= |s.rows| && forall i :: 0 <= i < |s.rows| ==> RowSpaced(s.rows[i], s.now)
    ensures SnapsSpaced(DueTrips(s, n), s.rows, s.now)
  {
    if n > 0 {
      DueAreSpaced(s, n - 1);
      assert RowSpaced(s.rows[n - 1], s.now);
    }
  }

  /** Every server's phase fits the rows after the step. */
  ghost predicate AllSpaced(s: World, rows: seq<Row>) {
    forall w :: w in s.workers ==> PhaseSpaced(s.workers[w], rows, s.now)
  }

  lemma ReadsAreSpaced(s: World, a: Action)
    requires CanDo(s, a) && (a.StartSweep? || a.FindCurrent?)
    requires forall i :: 0 <= i < |s.rows| ==> RowSpaced(s.rows[i], s.now)
    requires AllSpaced(s, s.rows)
    ensures AllSpaced(Do(s, a), s.rows)
  {
    DueAreSpaced(s, |s.rows|);
    hide FindsCurrent, DueTrips, RowSpaced;
  }

  lemma RestIsSpaced(s: World, a: Action)
    requires CanDo(s, a) && !(a.StartSweep? || a.FindCurrent?)
    requires AllSpaced(s, Do(s, a).rows)
    ensures AllSpaced(Do(s, a), Do(s, a).rows)
  {
    hide FindsCurrent, DueTrips, WithStatus, CanClaim, SnapSpaced;
  }

  /** What a server takes up next it already held, or has just read. */
  lemma NextPhaseSpaced(s: World, a: Action)
    requires CanDo(s, a)
    requires forall i :: 0 <= i < |s.rows| ==> RowSpaced(s.rows[i], s.now)
    requires AllSpaced(s, Do(s, a).rows)
    ensures AllSpaced(Do(s, a), Do(s, a).rows)
  {
    hide AllSpaced, RowSpaced, FindsCurrent, DueTrips, AfterLook;
    if a.StartSweep? || a.FindCurrent? {
      ReadsAreSpaced(s, a);
    } else {
      RestIsSpaced(s, a);
    }
  }

  lemma SpacedStep(s: World, k: Tick)
    requires Spaced(s) && CanHappen(s, k)
    ensures Spaced(Step(s, k))
  {
    assert Valid(s) by {
      assert forall i :: 0 <= i < |s.rows| ==> RowSpaced(s.rows[i], s.now);
    }
    var u, t := s.(now := k.at), Step(s, k);
    StepMoves(s, k);
    PhasesStay(u, k.action);
    forall w | w in s.workers ensures PhaseSpaced(s.workers[w], t.rows, k.at) {
      PhaseStaysSpaced(s.workers[w], s.rows, t.rows, s.now, k.at);
    }
    forall i | 0 <= i < |s.rows| ensures RowSpaced(s.rows[i], k.at) {
      assert RowSpaced(s.rows[i], s.now);
    }
    hide CanDo, Do, PhaseSpaced;
    NextPhaseSpaced(u, k.action);
    forall i | 0 <= i < |t.rows| ensures RowSpaced(t.rows[i], k.at) {
      if i < |s.rows| {
        RowStaysSpaced(s.rows[i], t.rows[i], s.now, k.at);
      } else {
        NewRowOk(t.rows[i]);
      }
    }
    assert t.now == k.at by { StepClock(s, k); }
  }

  lemma StepClock(s: World, k: Tick)
    requires CanHappen(s, k)
    ensures Step(s, k).now == k.at
  {
    hide FindsCurrent, DueTrips, WithStatus, CanClaim;
  }

  lemma {:induction false} SpacedAlways(s: World, ticks: seq<Tick>)
    requires Spaced(s) && IsRun(s, ticks)
    ensures Spaced(Final(s, ticks))
    decreases |ticks|
  {
    hide Step, CanHappen, Spaced;
    if ticks != [] {
      SpacedStep(s, ticks[0]);
      SpacedAlways(Step(s, ticks[0]), ticks[1..]);
    }
  }

  /** The claim of this server would go through now. */
  ghost predicate ClaimsNow(s: World, k: Tick) {
    && CanHappen(s, k) && k.action.Claim?
    && CanClaim(s.rows[PhaseOf(s, k.action.w).ask.trip], PhaseOf(s, k.action.w).ask.asked)
  }

  function AskedRow(s: World, w: WorkerId): Row
    requires PhaseOf(s, w).Claiming? && PhaseOf(s, w).ask.trip < |s.rows|
  {
    s.rows[PhaseOf(s, w).ask.trip]
  }

  /** Main result: a question whose time is still set when a server claims it is put at least 20 minutes after the
      last question or "No" if and only if that time has come – what the sweep tested when it read the trip, and the
      claim does not test again. If it has come, the last question in particular was 20 minutes ago. */
  lemma QuestionsWaitIfDue(ticks: seq<Tick>, k: Tick)
    requires IsRun(Start(), ticks) && ClaimsNow(Final(Start(), ticks), k)
    requires AskedRow(Final(Start(), ticks), k.action.w).askAt.Some?
    ensures var row := AskedRow(Final(Start(), ticks), k.action.w);
      && SpokenLast(row)
      && (k.at >= row.history[|row.history| - 1].at + 20 * 60 * 1000 <==> row.askAt.value <= k.at)
      && (row.asked > 0 && row.askAt.value <= k.at ==> k.at >= LastAsk(row.history) + 20 * 60 * 1000)
  {
    hide IsRun, Final;
    assert Spaced(Start());
    SpacedAlways(Start(), ticks);
    assert RowSpaced(AskedRow(Final(Start(), ticks), k.action.w), Final(Start(), ticks).now);
  }

  /** Also where that time was cleared in between: a repeated question comes at least 20 minutes after the one before
      it if the counter did not start over between the server's reading the trip and its claiming the question. */
  lemma RepeatsWait(ticks: seq<Tick>, k: Tick)
    requires IsRun(Start(), ticks) && CanHappen(Final(Start(), ticks), k) && k.action.Claim?
    requires var s := Final(Start(), ticks); var ask := PhaseOf(s, k.action.w).ask;
      ask.trip < |s.rows| && CanClaim(s.rows[ask.trip], ask.asked) && ask.asked > 0
      && ask.restarts == Restarts(s.rows[ask.trip].history)
    ensures var s := Final(Start(), ticks); var ask := PhaseOf(s, k.action.w).ask;
      k.at >= LastAsk(s.rows[ask.trip].history) + 20 * 60 * 1000
  {
    hide IsRun, Final;
    assert Spaced(Start());
    SpacedAlways(Start(), ticks);
  }

  // ----- what a stale sweep does

  /** A run where the exception happens: one server reads the trip as due for a second question, the trip goes
      back to assigned and is accepted and asked about afresh, and the first server then asks again at once. */
  function StaleSweep(): seq<Tick> {
    FirstQuestion() + StaleRead() + FreshStart() + StaleClaim()
  }

  function FirstQuestion(): seq<Tick> {
    [Tick(NewTrip(Row(1, 1, 1, Assigned, false, 0, None, 0, [])), 1),
     Tick(Move(map[1 := 1], map[1 := 1]), 2),
     Tick(PutStatus(0, 0, Some(Accepted), Some(1)), 3),
     Tick(FindCurrent(0, Some(0)), 4),
     Tick(Claim(0), 5)]
  }

  function StaleRead(): seq<Tick> {
    [Tick(StartSweep(1), RETRY + 5), Tick(CheckNext(1, Some(0)), RETRY + 6)]
  }

  function FreshStart(): seq<Tick> {
    [Tick(PutStatus(2, 0, Some(Assigned), None), RETRY + 7),
     Tick(PutStatus(2, 0, Some(Accepted), None), RETRY + 8),
     Tick(FindCurrent(2, Some(0)), RETRY + 9),
     Tick(Claim(2), RETRY + 10)]
  }

  function StaleClaim(): seq<Tick> {
    [Tick(Claim(1), RETRY + 11)]
  }

  /** The one trip of that run, accepted by driver 1 of company 1 on truck 1. */
  function OneTrip(now: Time, askAt: Time, asked: nat, history: seq<Event>, workers: map<WorkerId, Phase>): World {
    World(now, [Row(1, 1, 1, Accepted, false, 0, Some(askAt), asked, history)], map[1 := 1], map[1 := 1], workers)
  }

  lemma {:induction false} RunsChain(s: World, a: seq<Tick>, b: seq<Tick>)
    requires IsRun(s, a) && IsRun(Final(s, a), b)
    ensures IsRun(s, a + b) && Final(s, a + b) == Final(Final(s, a), b)
    decreases |a|
  {
    hide CanHappen, Step;
    if a == [] {
      assert a + b == b;
    } else {
      RunsChain(Step(s, a[0]), a[1..], b);
      assert (a + b)[0] == a[0] && (a + b)[1..] == a[1..] + b;
    }
  }

  lemma RunOne(s: World, k: Tick)
    requires CanHappen(s, k)
    ensures IsRun(s, [k]) && Final(s, [k]) == Step(s, k)
  {
    hide CanHappen, Step;
    assert [k][1..] == [];
    assert IsRun(Step(s, k), []);
  }

  lemma RunMore(s: World, ticks: seq<Tick>, k: Tick)
    requires IsRun(s, ticks) && CanHappen(Final(s, ticks), k)
    ensures IsRun(s, ticks + [k]) && Final(s, ticks + [k]) == Step(Final(s, ticks), k)
  {
    hide CanHappen, Step, IsRun, Final;
    RunOne(Final(s, ticks), k);
    RunsChain(s, ticks, [k]);
  }

  lemma Accepts(s: World, w: WorkerId, asker: Option<UserId>, at: Time)
    requires s.now < at && |s.rows| == 1 && PhaseOf(s, w).Idle?
    ensures var k := Tick(PutStatus(w, 0, Some(Accepted), asker), at);
      CanHappen(s, k)
      && Step(s, k) == s.(now := at, rows := [s.rows[0].(status := Accepted)], workers := s.workers[w := Notified(asker.GetOr(s.rows[0].driver))])
  {
    assert s.rows[0 := s.rows[0].(status := Accepted)] == [s.rows[0].(status := Accepted)];
  }

  lemma Looks(s: World, w: WorkerId, at: Time)
    requires s.now < at && |s.rows| == 1 && PhaseOf(s, w) == Notified(s.rows[0].driver) && IsCandidate(s, s.rows[0].driver, 0)
    requires s.rows[0].status.Accepted? && s.rows[0].asked == 0 && s.rows[0].askAt.None?
    ensures var k := Tick(FindCurrent(w, Some(0)), at);
      CanHappen(s, k) && Step(s, k) == s.(now := at, workers := s.workers[w := Claiming(Snap(s, 0), [])])
  {
    assert FindsCurrent(s.(now := at), s.rows[0].driver, Some(0));
  }

  lemma Claims(s: World, w: WorkerId, at: Time)
    requires s.now < at && |s.rows| == 1 && PhaseOf(s, w).Claiming? && PhaseOf(s, w).ask.trip == 0
    requires CanClaim(s.rows[0], PhaseOf(s, w).ask.asked)
    ensures var k := Tick(Claim(w), at);
      CanHappen(s, k)
      && Step(s, k) == s.(now := at, rows := [Ask(s.rows[0], at)], workers := s.workers[w := Sweeping(PhaseOf(s, w).rest)])
  {
    assert s.rows[0 := Ask(s.rows[0], at)] == [Ask(s.rows[0], at)];
  }

  lemma Begins(row: Row)
    requires row.askAt.None? && row.asked == 0 && row.history == [] && row.status.Assigned?
    ensures var (a, b) := (Tick(NewTrip(row), 1), Tick(Move(map[1 := 1], map[1 := 1]), 2));
      && CanHappen(Start(), a) && CanHappen(Step(Start(), a), b)
      && Step(Step(Start(), a), b) == World(2, [row], map[1 := 1], map[1 := 1], map[])
  {
  }

  lemma StartsOver(s: World, w: WorkerId, at: Time)
    requires s.now < at && |s.rows| == 1 && PhaseOf(s, w).Idle?
    ensures var k := Tick(PutStatus(w, 0, Some(Assigned), None), at);
      CanHappen(s, k)
      && Step(s, k) == s.(now := at, rows := [Restart(s.rows[0].(status := Assigned))], workers := s.workers[w := Idle])
  {
    assert s.rows[0 := Restart(s.rows[0].(status := Assigned))] == [Restart(s.rows[0].(status := Assigned))];
  }

  lemma FirstQuestionRuns()
    ensures IsRun(Start(), FirstQuestion())
    ensures Final(Start(), FirstQuestion()) == OneTrip(5, RETRY + 5, 1, [Asked(1, 5)], map[0 := Sweeping([])])
  {
    hide IsRun, Final, Step, CanHappen;
    var x := FirstQuestion();
    assert x[..1] == [x[0]] && x[..2] == x[..1] + [x[1]] && x[..3] == x[..2] + [x[2]] && x[..4] == x[..3] + [x[3]] && x == x[..4] + [x[4]];
    var row := Row(1, 1, 1, Assigned, false, 0, None, 0, []);
    Begins(row);
    RunOne(Start(), x[0]);
    RunMore(Start(), x[..1], x[1]);
    var s2 := World(2, [row], map[1 := 1], map[1 := 1], map[]);
    Accepts(s2, 0, Some(1), 3);
    RunMore(Start(), x[..2], x[2]);
    var s3 := s2.(now := 3, rows := [row.(status := Accepted)], workers := map[0 := Notified(1)]);
    assert map[0 := Notified(1)] == map[][0 := Notified(1)];
    Looks(s3, 0, 4);
    RunMore(Start(), x[..3], x[3]);
    assert map[0 := Notified(1)][0 := Claiming(Snapshot(0, 1, 0, 0), [])] == map[0 := Claiming(Snapshot(0, 1, 0, 0), [])];
    var s4 := s3.(now := 4, workers := map[0 := Claiming(Snapshot(0, 1, 0, 0), [])]);
    Claims(s4, 0, 5);
    RunMore(Start(), x[..4], x[4]);
    assert map[0 := Claiming(Snapshot(0, 1, 0, 0), [])][0 := Sweeping([])] == map[0 := Sweeping([])];
    assert [] + [Asked(1, 5)] == [Asked(1, 5)];
  }

  lemma StaleReadRuns()
    ensures var s := OneTrip(5, RETRY + 5, 1, [Asked(1, 5)], map[0 := Sweeping([])]);
      IsRun(s, StaleRead())
      && Final(s, StaleRead()) == OneTrip(RETRY + 6, RETRY + 5, 1, [Asked(1, 5)], map[0 := Sweeping([]), 1 := Claiming(Snapshot(0, 1, 1, 0), [])])
  {
    var s := OneTrip(5, RETRY + 5, 1, [Asked(1, 5)], map[0 := Sweeping([])]);
    var x := StaleRead();
    hide IsRun, Final;
    var s1 := OneTrip(RETRY + 5, RETRY + 5, 1, [Asked(1, 5)], map[0 := Sweeping([]), 1 := Sweeping([Snapshot(0, 1, 1, 0)])]);
    var s2 := OneTrip(RETRY + 6, RETRY + 5, 1, [Asked(1, 5)], map[0 := Sweeping([]), 1 := Claiming(Snapshot(0, 1, 1, 0), [])]);
    assert CanHappen(s, x[0]) && Step(s, x[0]) == s1 by {
      assert Restarts([Asked(1, 5)]) == 0;
      var u := s.(now := RETRY + 5);
      assert DueTrips(u, 0) == [] && DueTrips(u, 1) == [Snapshot(0, 1, 1, 0)];
      assert s.workers[1 := Sweeping([Snapshot(0, 1, 1, 0)])] == s1.workers;
    }
    assert CanHappen(s1, x[1]) && Step(s1, x[1]) == s2 by {
      assert FindsCurrent(s1.(now := RETRY + 6), 1, Some(0));
      assert [Snapshot(0, 1, 1, 0)][1..] == [];
      assert s1.workers[1 := Claiming(Snapshot(0, 1, 1, 0), [])] == s2.workers;
    }
    hide Step, CanHappen;
    RunOne(s, x[0]);
    RunMore(s, [x[0]], x[1]);
    assert StaleRead() == [x[0]] + [x[1]];
  }

  lemma FreshStartRuns(workers: map<WorkerId, Phase>)
    requires 2 !in workers
    ensures var s := OneTrip(RETRY + 6, RETRY + 5, 1, [Asked(1, 5)], workers);
      IsRun(s, FreshStart())
      && Final(s, FreshStart()) == OneTrip(RETRY + 10, 2 * RETRY + 10, 1, [Asked(1, 5), Restarted, Asked(1, RETRY + 10)], workers[2 := Sweeping([])])
  {
    hide IsRun, Final, Step, CanHappen;
    var s, x := OneTrip(RETRY + 6, RETRY + 5, 1, [Asked(1, 5)], workers), FreshStart();
    assert x[..1] == [x[0]] && x[..2] == x[..1] + [x[1]] && x[..3] == x[..2] + [x[2]] && x == x[..3] + [x[3]];
    StartsOver(s, 2, RETRY + 7);
    RunOne(s, x[0]);
    var s1 := Step(s, x[0]);
    Accepts(s1, 2, None, RETRY + 8);
    RunMore(s, x[..1], x[1]);
    var s2 := Step(s1, x[1]);
    Looks(s2, 2, RETRY + 9);
    RunMore(s, x[..2], x[2]);
    var s3 := Step(s2, x[2]);
    Claims(s3, 2, RETRY + 10);
    RunMore(s, x[..3], x[3]);
    assert [Asked(1, 5)] + [Restarted] + [Asked(1, RETRY + 10)] == [Asked(1, 5), Restarted, Asked(1, RETRY + 10)];
    assert workers[2 := Idle][2 := Notified(1)][2 := Claiming(Snap(s2, 0), [])][2 := Sweeping([])] == workers[2 := Sweeping([])];
  }

  /** The question is put twice within a millisecond, so neither condition, that of QuestionsWaitIfDue or that of RepeatsWait, can be dropped. */
  lemma StaleSweepAsksAtOnce()
    ensures IsRun(Start(), StaleSweep())
    ensures var rows := Final(Start(), StaleSweep()).rows;
      |rows| == 1 && rows[0].history == [Asked(1, 5), Restarted, Asked(1, RETRY + 10), Asked(2, RETRY + 11)]
  {
    hide IsRun, Final, Step, CanHappen;
    var a, b, c, d := FirstQuestion(), StaleRead(), FreshStart(), StaleClaim();
    var workers := map[0 := Sweeping([]), 1 := Claiming(Snapshot(0, 1, 1, 0), [])];
    var h := [Asked(1, 5), Restarted, Asked(1, RETRY + 10)];
    var s3 := OneTrip(RETRY + 10, 2 * RETRY + 10, 1, h, workers[2 := Sweeping([])]);
    Claims(s3, 1, RETRY + 11);
    RunOne(s3, d[0]);
    FirstQuestionRuns();
    StaleReadRuns();
    FreshStartRuns(workers);
    RunsChain(Start(), a, b);
    RunsChain(Start(), a + b, c);
    RunsChain(Start(), a + b + c, d);
    assert h + [Asked(2, RETRY + 11)] == [Asked(1, 5), Restarted, Asked(1, RETRY + 10), Asked(2, RETRY + 11)];
  }
}
