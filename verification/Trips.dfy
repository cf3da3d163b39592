/** The trip machine: trips, trucks, chat sessions, messages and documents, and every call that writes them.
    No call deletes a row of these tables, so a row's id is its position in creation order. */
module Trips {
  import opened Base

  type UserId = nat
  type CompanyId = nat
  type TruckId = nat
  type TripId = nat
  type SessionId = nat
  type MessageId = nat
  type DocId = nat
  /** A number plate as compared: case, spaces and dashes aside. */
  type Plate = nat

  datatype Role = Admin | TeamLead | Manager | Driver
  datatype Status = Assigned | Accepted | OnWay | OnSite | Loaded | Delivered
  datatype Strategy = Swap | CompleteOther

  datatype Person = Person(company: CompanyId, role: Role, deleted: bool)
  datatype Truck = Truck(company: CompanyId, plate: Plate, driver: Option<UserId>, manager: Option<UserId>)
  datatype Trip = Trip(company: CompanyId, truck: TruckId, driver: UserId, manager: UserId, status: Status, deleted: bool)
  datatype Session = Session(trip: TripId, driver: UserId, manager: UserId, startedAt: Time, endedAt: Option<Time>)
  datatype Message = Message(trip: TripId, session: SessionId, sender: UserId, createdAt: Time, isSystem: bool, isRead: bool,
                             replyTo: Option<MessageId>, replyDoc: Option<DocId>)
  datatype Doc = Doc(trip: TripId, uploader: UserId, isRead: bool, deleted: bool,
                     replyTo: Option<MessageId>, replyDoc: Option<DocId>)

  datatype State = State(
    clock: Time, people: map<UserId, Person>, trucks: seq<Truck>, trips: seq<Trip>,
    sessions: seq<Session>, messages: seq<Message>, docs: seq<Doc>)

  datatype Answer =
    | Done
    | TripNotFound | TruckNotFound | UserNotFound | NotAllowed | NoActiveSession | ReplyNotFound
    | TruckHasNoDriver | TargetTruckBusy(trip: TripId) | DriverTaken | PlateTaken(truck: TruckId) | DocNotFound | NoFiles | UploadFailed

  /** Who asks, as their session tells it. */
  datatype Requester = Requester(id: UserId, role: Role, company: CompanyId)

  datatype Outcome = Outcome(state: State, answer: Answer)

  predicate IsOpen(trip: Trip) {
    !trip.status.Delivered? && !trip.deleted
  }

  predicate InCompany(s: State, user: UserId, company: CompanyId, drivers: bool) {
    user in s.people && s.people[user].company == company && !s.people[user].deleted && s.people[user].role.Driver? == drivers
  }

  // ----- chat sessions

  /** The trip's session without an end, the latest among the first n. */
  function FindActive(sessions: seq<Session>, trip: TripId, n: nat): (found: Option<SessionId>)
    requires n <= |sessions|
    ensures found.Some? ==> found.value < n && sessions[found.value].trip == trip && sessions[found.value].endedAt.None?
    ensures found.None? ==> forall i :: 0 <= i < n && sessions[i].trip == trip ==> sessions[i].endedAt.Some?
  {
    if n == 0 then None
    else if sessions[n - 1].trip == trip && sessions[n - 1].endedAt.None? then Some(n - 1)
    else FindActive(sessions, trip, n - 1)
  }

  function Active(s: State, trip: TripId): (found: Option<SessionId>)
    ensures found.Some? ==> found.value < |s.sessions| && s.sessions[found.value].trip == trip && s.sessions[found.value].endedAt.None?
  {
    FindActive(s.sessions, trip, |s.sessions|)
  }

  function Close(s: State, trip: TripId, now: Time): State {
    match Active(s, trip)
    case None => s
    case Some(i) => s.(sessions := s.sessions[i := s.sessions[i].(endedAt := Some(now))])
  }

  function SystemMessage(trip: TripId, session: SessionId, sender: UserId, now: Time): Message {
    Message(trip, session, sender, now, true, false, None, None)
  }

  /** Ends the active session, opens one for the new pair, and announces it there. */
  function CloseAndOpen(s: State, trip: TripId, driver: UserId, manager: UserId, actor: UserId, now: Time): State {
    var closed := Close(s, trip, now);
    closed.(sessions := closed.sessions + [Session(trip, driver, manager, now, None)],
            messages := closed.messages + [SystemMessage(trip, |closed.sessions|, actor, now)])
  }

  /** Rewrites a trip's row, then gives the chat to the row's driver and manager. */
  function Reopen(s: State, trip: TripId, row: Trip, actor: UserId, now: Time): State
    requires trip < |s.trips|
  {
    CloseAndOpen(s.(trips := s.trips[trip := row]), trip, row.driver, row.manager, actor, now)
  }

  function PostSystem(s: State, trip: TripId, actor: UserId, now: Time): State {
    match Active(s, trip)
    case None => s
    case Some(i) => s.(messages := s.messages + [SystemMessage(trip, i, actor, now)])
  }

  // ----- trips

  function CreateTrip(s: State, company: CompanyId, manager: UserId, driver: UserId, truck: TruckId, now: Time): Outcome {
    if !InCompany(s, driver, company, true) then Outcome(s, UserNotFound)
    else if truck >= |s.trucks| || s.trucks[truck].company != company then Outcome(s, TruckNotFound)
    else Outcome(s.(trips := s.trips + [Trip(company, truck, driver, manager, Assigned, false)],
                    sessions := s.sessions + [Session(|s.trips|, driver, manager, now, None)]), Done)
  }

  predicate FindsTrip(s: State, trip: TripId, company: CompanyId) {
    trip < |s.trips| && s.trips[trip].company == company && !s.trips[trip].deleted
  }

  function UpdateStatus(s: State, trip: TripId, company: CompanyId, status: Option<Status>): Outcome {
    if !FindsTrip(s, trip, company) then Outcome(s, TripNotFound)
    else Outcome(s.(trips := s.trips[trip := s.trips[trip].(status := status.GetOr(s.trips[trip].status))]), Done)
  }

  /** The driver still belongs to the trip's company. */
  predicate DrivesTrip(s: State, trip: TripId, driver: UserId) {
    && trip < |s.trips| && s.trips[trip].driver == driver && !s.trips[trip].deleted
    && driver in s.people && s.people[driver].company == s.trips[trip].company
  }

  function DriverUpdateStatus(s: State, trip: TripId, driver: UserId, status: Option<Status>): Outcome {
    if !DrivesTrip(s, trip, driver) then Outcome(s, NotAllowed)
    else Outcome(s.(trips := s.trips[trip := s.trips[trip].(status := status.GetOr(s.trips[trip].status))]), Done)
  }

  function AssignDriver(s: State, trip: TripId, company: CompanyId, driver: UserId, actor: UserId, now: Time): Outcome {
    if !FindsTrip(s, trip, company) then Outcome(s, TripNotFound)
    else if !InCompany(s, driver, company, true) then Outcome(s, UserNotFound)
    else if s.trips[trip].driver == driver then Outcome(s, Done)
    else Outcome(Reopen(s, trip, s.trips[trip].(driver := driver), actor, now), Done)
  }

  function AssignManager(s: State, trip: TripId, company: CompanyId, manager: UserId, actor: UserId, now: Time): Outcome {
    if !FindsTrip(s, trip, company) then Outcome(s, TripNotFound)
    else if !InCompany(s, manager, company, false) then Outcome(s, UserNotFound)
    else if s.trips[trip].manager == manager then Outcome(s, Done)
    else Outcome(Reopen(s, trip, s.trips[trip].(manager := manager), actor, now), Done)
  }

  /** The newest open trip on a truck among the first n, other than `except`. */
  function NewestOpen(trips: seq<Trip>, truck: TruckId, company: CompanyId, except: Option<TripId>, n: nat): (found: Option<TripId>)
    requires n <= |trips|
    ensures found.Some? ==>
              && found.value < n && Some(found.value) != except && IsOpen(trips[found.value])
              && trips[found.value].truck == truck && trips[found.value].company == company
    ensures found.None? ==> forall i :: 0 <= i < n && Some(i) != except && trips[i].truck == truck && trips[i].company == company ==> !IsOpen(trips[i])
    ensures found.Some? ==> forall i :: found.value < i < n && Some(i) != except && trips[i].truck == truck && trips[i].company == company ==> !IsOpen(trips[i])
  {
    if n == 0 then None
    else if trips[n - 1].truck == truck && trips[n - 1].company == company && Some(n - 1) != except && IsOpen(trips[n - 1]) then Some(n - 1)
    else NewestOpen(trips, truck, company, except, n - 1)
  }

  function Blocking(s: State, trip: TripId, truck: TruckId): (found: Option<TripId>)
    requires trip < |s.trips|
    ensures found.Some? ==> found.value < |s.trips| && found.value != trip
  {
    NewestOpen(s.trips, truck, s.trips[trip].company, Some(trip), |s.trips|)
  }

  /** The trip goes to the truck and its driver, and must be accepted again. */
  function MoveTrip(s: State, trip: TripId, truck: TruckId, driver: UserId, actor: UserId, now: Time): (r: State)
    requires trip < |s.trips|
    ensures |r.trips| == |s.trips|
  {
    Reopen(s, trip, s.trips[trip].(truck := truck, driver := driver, status := Assigned), actor, now)
  }

  function CompleteTrip(s: State, trip: TripId, now: Time): (r: State)
    requires trip < |s.trips|
    ensures |r.trips| == |s.trips|
  {
    Close(s.(trips := s.trips[trip := s.trips[trip].(status := Delivered)]), trip, now)
  }

  /** Tells the truck's driver who manages it now, in the chat of the truck's newest open trip. */
  function Announce(s: State, truck: TruckId, company: CompanyId, actor: UserId, now: Time): State {
    if truck >= |s.trucks| || s.trucks[truck].driver.None? then s else
    match NewestOpen(s.trips, truck, company, None, |s.trips|)
    case None => s
    case Some(t) => PostSystem(s, t, actor, now)
  }

  function SetManager(trucks: seq<Truck>, truck: TruckId, manager: Option<UserId>): (r: seq<Truck>)
    requires truck < |trucks|
    ensures |r| == |trucks|
  {
    trucks[truck := trucks[truck].(manager := manager)]
  }

  /** Each of the two trucks goes to the manager of the trip now on it. */
  function SyncOwnership(s: State, company: CompanyId, target: TruckId, targetManager: UserId,
                         source: TruckId, sourceManager: Option<UserId>, actor: UserId, now: Time): (r: State)
    requires target < |s.trucks| && source < |s.trucks|
  {
    var targetChanged := s.trucks[target].manager != Some(targetManager);
    if !targetChanged && sourceManager.None? then s else
    var trucks := if targetChanged then SetManager(s.trucks, target, Some(targetManager)) else s.trucks;
    var s1 := s.(trucks := if sourceManager.Some? then SetManager(trucks, source, sourceManager) else trucks);
    var s2 := if targetChanged then Announce(s1, target, company, actor, now) else s1;
    if sourceManager.Some? then Announce(s2, source, company, actor, now) else s2
  }

  function AssignTruck(s: State, trip: TripId, company: Option<CompanyId>, truck: TruckId, strategy: Option<Strategy>,
                       actor: UserId, now: Time): Outcome
  {
    if trip >= |s.trips| || s.trips[trip].deleted || (company.Some? && company.value != s.trips[trip].company)
       || s.trips[trip].truck >= |s.trucks|
    then Outcome(s, TripNotFound) else
    var row := s.trips[trip];
    if row.truck == truck then Outcome(s, Done)
    else if truck >= |s.trucks| || s.trucks[truck].company != row.company then Outcome(s, TruckNotFound)
    else if s.trucks[truck].driver.None? then Outcome(s, TruckHasNoDriver) else
    var blocking := Blocking(s, trip, truck);
    if blocking.Some? && strategy.None? then Outcome(s, TargetTruckBusy(blocking.value))
    else if blocking.Some? && strategy == Some(Swap) && s.trucks[row.truck].driver.None? then Outcome(s, TruckHasNoDriver)
    else Outcome(Resettle(s, trip, truck, blocking, strategy, actor, now), Done)
  }

  /** A truck change, as far as the trips go: the trip moves, and the one in its way moves back or is done. */
  function Settled(s: State, trip: TripId, truck: TruckId, blocking: Option<TripId>, strategy: Option<Strategy>,
                   actor: UserId, now: Time): (r: State)
    requires trip < |s.trips| && s.trips[trip].truck < |s.trucks| && truck < |s.trucks| && s.trucks[truck].driver.Some?
    requires blocking.Some? ==> blocking.value < |s.trips| && strategy.Some?
    requires blocking.Some? && strategy == Some(Swap) ==> s.trucks[s.trips[trip].truck].driver.Some?
  {
    var row := s.trips[trip];
    var moved := MoveTrip(s, trip, truck, s.trucks[truck].driver.value, actor, now);
    if blocking.None? then moved
    else if strategy == Some(Swap) then MoveTrip(moved, blocking.value, row.truck, s.trucks[row.truck].driver.value, actor, now)
    else CompleteTrip(moved, blocking.value, now)
  }

  /** The part of a truck change that writes: trips first, then the trucks' managers. */
  function Resettle(s: State, trip: TripId, truck: TruckId, blocking: Option<TripId>, strategy: Option<Strategy>,
                    actor: UserId, now: Time): State
    requires trip < |s.trips| && s.trips[trip].truck < |s.trucks| && truck < |s.trucks| && s.trucks[truck].driver.Some?
    requires blocking.Some? ==> blocking.value < |s.trips| && strategy.Some?
    requires blocking.Some? && strategy == Some(Swap) ==> s.trucks[s.trips[trip].truck].driver.Some?
  {
    var row, settled := s.trips[trip], Settled(s, trip, truck, blocking, strategy, actor, now);
    var sourceManager :=
      if blocking.Some? && strategy == Some(Swap) then Some(s.trips[blocking.value].manager) else s.trucks[truck].manager;
    SyncOwnership(settled, row.company, truck, row.manager, row.truck, sourceManager, actor, now)
  }

  /** Hides the trip; a plain manager may only hide trips of a truck they manage. */
  function RemoveTrip(s: State, trip: TripId, company: CompanyId, actor: UserId, plainManager: bool): Outcome {
    if !FindsTrip(s, trip, company) then Outcome(s, TripNotFound)
    else if plainManager && (s.trips[trip].truck >= |s.trucks| || s.trucks[s.trips[trip].truck].manager != Some(actor)) then Outcome(s, NotAllowed)
    else Outcome(s.(trips := s.trips[trip := s.trips[trip].(deleted := true)]), Done)
  }

  // ----- trucks

  datatype Patch<T> = Leave | Put(value: Option<T>)

  /** The first other truck with this driver. */
  function TruckWith(trucks: seq<Truck>, driver: UserId, except: TruckId, n: nat): (found: Option<TruckId>)
    requires n <= |trucks|
    ensures found.Some? ==> found.value < n && found.value != except && trucks[found.value].driver == Some(driver)
    ensures found.None? ==> forall i :: 0 <= i < n && i != except ==> trucks[i].driver != Some(driver)
  {
    if n == 0 then None
    else match TruckWith(trucks, driver, except, n - 1)
      case Some(i) => Some(i)
      case None => if n - 1 != except && trucks[n - 1].driver == Some(driver) then Some(n - 1) else None
  }

  /** From the truck card: the driver leaves the truck they were on, then takes this one. */
  function PutDriverOnTruck(trucks: seq<Truck>, truck: TruckId, driver: Option<UserId>): (r: seq<Truck>)
    requires truck < |trucks|
    ensures |r| == |trucks|
  {
    var previous := if driver.Some? && driver != trucks[truck].driver then TruckWith(trucks, driver.value, truck, |trucks|) else None;
    var freed := if previous.Some? then trucks[previous.value := trucks[previous.value].(driver := None)] else trucks;
    freed[truck := freed[truck].(driver := driver)]
  }

  /** Every truck of the driver is released. */
  function Release(trucks: seq<Truck>, driver: UserId): seq<Truck> {
    seq(|trucks|, i requires 0 <= i < |trucks| =>
      if trucks[i].driver == Some(driver) then trucks[i].(driver := None) else trucks[i])
  }

  /** From the driver card: the driver leaves every truck, then takes this one, if any. */
  function PutTruckOnDriver(trucks: seq<Truck>, driver: UserId, truck: Option<TruckId>): (r: seq<Truck>)
    requires truck.Some? ==> truck.value < |trucks|
    ensures |r| == |trucks|
  {
    var freed := Release(trucks, driver);
    if truck.None? then freed else freed[truck.value := freed[truck.value].(driver := Some(driver))]
  }

  predicate FollowsTruck(trip: Trip, truck: TruckId, manager: UserId) {
    trip.truck == truck && IsOpen(trip) && trip.manager != manager
  }

  /** The truck's new manager takes over the open trips among the first n. */
  function Cascade(s: State, truck: TruckId, manager: UserId, actor: UserId, now: Time, n: nat): (r: State)
    requires n <= |s.trips|
    ensures |r.trips| == |s.trips|
  {
    if n == 0 then s else
    var before := Cascade(s, truck, manager, actor, now, n - 1);
    if FollowsTruck(s.trips[n - 1], truck, manager)
    then Reopen(before, n - 1, s.trips[n - 1].(manager := manager), actor, now)
    else before
  }

  /** The first other truck of the company with this plate. */
  function PlateOwner(trucks: seq<Truck>, company: CompanyId, plate: Plate, except: Option<TruckId>, n: nat): (found: Option<TruckId>)
    requires n <= |trucks|
    ensures found.Some? ==> found.value < n && Some(found.value) != except && trucks[found.value].company == company && trucks[found.value].plate == plate
    ensures found.None? ==> forall i :: 0 <= i < n && Some(i) != except && trucks[i].company == company ==> trucks[i].plate != plate
  {
    if n == 0 then None
    else match PlateOwner(trucks, company, plate, except, n - 1)
      case Some(i) => Some(i)
      case None => if Some(n - 1) != except && trucks[n - 1].company == company && trucks[n - 1].plate == plate then Some(n - 1) else None
  }

  /** The trucks after an edit of one of them. */
  function EditRow(trucks: seq<Truck>, truck: TruckId, plate: Option<Plate>, driver: Patch<UserId>, manager: Patch<UserId>): (r: seq<Truck>)
    requires truck < |trucks|
    ensures |r| == |trucks|
  {
    var driven := if driver.Put? then PutDriverOnTruck(trucks, truck, driver.value) else trucks;
    var row := driven[truck];
    driven[truck := row.(plate := plate.GetOr(row.plate), manager := if manager.Put? then manager.value else row.manager)]
  }

  function UpdateTruck(s: State, truck: TruckId, company: CompanyId, plate: Option<Plate>, driver: Patch<UserId>, manager: Patch<UserId>,
                       actor: UserId, now: Time): Outcome
  {
    if truck >= |s.trucks| || s.trucks[truck].company != company then Outcome(s, TruckNotFound)
    else if driver.Put? && driver.value.Some? && !InCompany(s, driver.value.value, company, true) then Outcome(s, UserNotFound)
    else if manager.Put? && manager.value.Some? && !InCompany(s, manager.value.value, company, false) then Outcome(s, UserNotFound) else
    var owner := if plate.Some? then PlateOwner(s.trucks, company, plate.value, Some(truck), |s.trucks|) else None;
    if owner.Some? then Outcome(s, PlateTaken(owner.value)) else
    var s1 := s.(trucks := EditRow(s.trucks, truck, plate, driver, manager));
    if manager.Put? && manager.value.Some? && manager.value != s.trucks[truck].manager
    then Outcome(Cascade(s1, truck, manager.value.value, actor, now, |s1.trips|), Done)
    else Outcome(s1, Done)
  }

  function AddTruck(s: State, company: CompanyId, plate: Plate, driver: Option<UserId>, manager: Option<UserId>): Outcome {
    var owner := PlateOwner(s.trucks, company, plate, None, |s.trucks|);
    if owner.Some? then Outcome(s, PlateTaken(owner.value))
    else if driver.Some? && !InCompany(s, driver.value, company, true) then Outcome(s, UserNotFound)
    else if manager.Some? && !InCompany(s, manager.value, company, false) then Outcome(s, UserNotFound)
    else if driver.Some? && exists i :: 0 <= i < |s.trucks| && s.trucks[i].driver == driver then Outcome(s, DriverTaken)
    else Outcome(s.(trucks := s.trucks + [Truck(company, plate, driver, manager)]), Done)
  }

  /** The truck branch of editing a driver. */
  function AssignFromDriverCard(s: State, driver: UserId, truck: Option<TruckId>): Outcome {
    if driver !in s.people then Outcome(s, UserNotFound)
    else if truck.Some? && (truck.value >= |s.trucks| || s.trucks[truck.value].company != s.people[driver].company) then Outcome(s, TruckNotFound)
    else Outcome(s.(trucks := PutTruckOnDriver(s.trucks, driver, truck)), Done)
  }

  // ----- messages and documents

  predicate QuotesMessage(s: State, trip: TripId, session: Option<SessionId>, id: Option<MessageId>) {
    id.Some? ==> id.value < |s.messages| && s.messages[id.value].trip == trip
                 && (session.Some? ==> s.messages[id.value].session == session.value)
  }

  predicate QuotesDoc(s: State, trip: TripId, id: Option<DocId>) {
    id.Some? ==> id.value < |s.docs| && s.docs[id.value].trip == trip
  }

  function PostMessage(s: State, sender: UserId, trip: TripId, replyTo: Option<MessageId>, replyDoc: Option<DocId>, now: Time): Outcome {
    if trip >= |s.trips| || s.trips[trip].deleted then Outcome(s, TripNotFound) else
    var row := s.trips[trip];
    if sender != row.driver && sender != row.manager then Outcome(s, NotAllowed)
    else if sender == row.driver && (sender !in s.people || s.people[sender].company != row.company) then Outcome(s, NotAllowed) else
    var session := Active(s, trip);
    if session.None? then Outcome(s, NoActiveSession)
    else if !QuotesMessage(s, trip, session, replyTo) || !QuotesDoc(s, trip, replyDoc) then Outcome(s, ReplyNotFound)
    else Outcome(s.(messages := s.messages + [Message(trip, session.value, sender, now, false, false, replyTo, replyDoc)]), Done)
  }

  /** One line to the active chat of every open trip on the sender's trucks, among the first n trips. */
  function Broadcast(s: State, sender: UserId, company: CompanyId, now: Time, n: nat): (r: State)
    requires n <= |s.trips|
    ensures r == s.(messages := r.messages)
  {
    if n == 0 then s else
    var before := Broadcast(s, sender, company, now, n - 1);
    var row, session := s.trips[n - 1], Active(s, n - 1);
    if row.company == company && IsOpen(row) && row.truck < |s.trucks| && s.trucks[row.truck].manager == Some(sender) && session.Some?
    then before.(messages := before.messages + [Message(n - 1, session.value, sender, now, false, false, None, None)])
    else before
  }

  predicate TakesPart(session: Session, user: UserId) {
    session.driver == user || session.manager == user
  }

  predicate IsCurrent(trip: Trip, user: UserId) {
    trip.driver == user || trip.manager == user
  }

  predicate ReadsMessage(s: State, trip: TripId, reader: UserId, m: Message) {
    m.session < |s.sessions| && s.sessions[m.session].trip == trip && TakesPart(s.sessions[m.session], reader) && m.sender != reader
  }

  /** Every message of the reader's sessions on the trip, and the trip's files if it is theirs now. */
  function MarkRead(s: State, trip: TripId, reader: UserId): State {
    s.(messages := seq(|s.messages|, i requires 0 <= i < |s.messages| =>
         if ReadsMessage(s, trip, reader, s.messages[i]) then s.messages[i].(isRead := true) else s.messages[i]),
       docs := seq(|s.docs|, i requires 0 <= i < |s.docs| =>
         if trip < |s.trips| && IsCurrent(s.trips[trip], reader) && s.docs[i].trip == trip && s.docs[i].uploader != reader
         then s.docs[i].(isRead := true) else s.docs[i]))
  }

  /** Whose trip it is to upload to: any of the company's, for a driver only one they drive now. */
  predicate MayUpload(s: State, who: Requester, trip: TripId) {
    && trip < |s.trips| && !s.trips[trip].deleted
    && (who.role.Admin? || (s.trips[trip].company == who.company && (who.role.Driver? ==> s.trips[trip].driver == who.id)))
  }

  /** Several files at once; they all land, or none does. */
  function Upload(s: State, who: Requester, trip: TripId, files: nat, landed: bool, replyTo: Option<MessageId>, replyDoc: Option<DocId>): Outcome {
    if files == 0 then Outcome(s, NoFiles)
    else if !MayUpload(s, who, trip) then Outcome(s, TripNotFound)
    else if !QuotesMessage(s, trip, Active(s, trip), replyTo) || !QuotesDoc(s, trip, replyDoc) then Outcome(s, ReplyNotFound)
    else if !landed then Outcome(s, UploadFailed)
    else Outcome(s.(docs := s.docs + seq(files, _ => Doc(trip, who.id, false, false, replyTo, replyDoc))), Done)
  }

  /** Whose files these are to see, of hidden trips too: a driver's are those of trips they drive or drove, and of the
      truck they are on. */
  predicate MaySeeDocs(s: State, who: Requester, trip: TripId) {
    && trip < |s.trips|
    && var row := s.trips[trip];
       who.role.Admin?
       || (&& row.company == who.company
           && (|| !who.role.Driver? || row.driver == who.id
               || (exists i :: 0 <= i < |s.sessions| && s.sessions[i].trip == trip && s.sessions[i].driver == who.id)
               || (row.truck < |s.trucks| && s.trucks[row.truck].driver == Some(who.id))))
  }

  function DeleteDoc(s: State, doc: DocId, who: Requester): Outcome {
    if doc >= |s.docs| || !MaySeeDocs(s, who, s.docs[doc].trip) then Outcome(s, DocNotFound)
    else if who.role.Driver? && s.docs[doc].uploader != who.id then Outcome(s, NotAllowed)
    else Outcome(s.(docs := s.docs[doc := s.docs[doc].(deleted := true)]), Done)
  }

  // ----- runs

  datatype TripOp =
    | Create(company: CompanyId, manager: UserId, driver: UserId, truck: TruckId)
    | SetStatus(trip: TripId, company: CompanyId, status: Option<Status>)
    | DriverSetsStatus(trip: TripId, driver: UserId, status: Option<Status>)
    | GiveToDriver(trip: TripId, company: CompanyId, driver: UserId, actor: UserId)
    | GiveToManager(trip: TripId, company: CompanyId, manager: UserId, actor: UserId)
    | GiveToTruck(trip: TripId, scope: Option<CompanyId>, truck: TruckId, strategy: Option<Strategy>, actor: UserId)
    | Hide(trip: TripId, company: CompanyId, actor: UserId, plainManager: bool)

  datatype TruckOp =
    | EditTruck(truck: TruckId, company: CompanyId, plate: Option<Plate>, newDriver: Patch<UserId>, newManager: Patch<UserId>, actor: UserId)
    | NewTruck(company: CompanyId, number: Plate, first: Option<UserId>, manager: Option<UserId>)
    | EditDriver(driver: UserId, onto: Option<TruckId>)
    | FreeDriver(driver: UserId)

  datatype ChatOp =
    | Say(sender: UserId, trip: TripId, replyTo: Option<MessageId>, replyDoc: Option<DocId>)
    | SayToAll(sender: UserId, company: CompanyId)
    | Read(trip: TripId, reader: UserId)
    | Attach(who: Requester, trip: TripId, files: nat, landed: bool, replyTo: Option<MessageId>, replyDoc: Option<DocId>)
    | DropDoc(doc: DocId, who: Requester)

  /** FreeDriver is what a company transfer or an account deletion does to trucks;
      SetPeople is whatever other services do to users. */
  datatype Op = OnTrips(trips: TripOp) | OnTrucks(trucks: TruckOp) | OnChat(chat: ChatOp) | SetPeople(people: map<UserId, Person>)

  function TripsEffect(s: State, op: TripOp, now: Time): Outcome {
    match op
    case Create(company, manager, driver, truck) => CreateTrip(s, company, manager, driver, truck, now)
    case SetStatus(trip, company, status) => UpdateStatus(s, trip, company, status)
    case DriverSetsStatus(trip, driver, status) => DriverUpdateStatus(s, trip, driver, status)
    case GiveToDriver(trip, company, driver, actor) => AssignDriver(s, trip, company, driver, actor, now)
    case GiveToManager(trip, company, manager, actor) => AssignManager(s, trip, company, manager, actor, now)
    case GiveToTruck(trip, company, truck, strategy, actor) => AssignTruck(s, trip, company, truck, strategy, actor, now)
    case Hide(trip, company, actor, plainManager) => RemoveTrip(s, trip, company, actor, plainManager)
  }

  function TrucksEffect(s: State, op: TruckOp, now: Time): Outcome {
    match op
    case EditTruck(truck, company, plate, driver, manager, actor) => UpdateTruck(s, truck, company, plate, driver, manager, actor, now)
    case NewTruck(company, plate, driver, manager) => AddTruck(s, company, plate, driver, manager)
    case EditDriver(driver, truck) => AssignFromDriverCard(s, driver, truck)
    case FreeDriver(driver) => Outcome(s.(trucks := Release(s.trucks, driver)), Done)
  }

  function ChatEffect(s: State, op: ChatOp, now: Time): Outcome {
    match op
    case Say(sender, trip, replyTo, replyDoc) => PostMessage(s, sender, trip, replyTo, replyDoc, now)
    case SayToAll(sender, company) => Outcome(Broadcast(s, sender, company, now, |s.trips|), Done)
    case Read(trip, reader) => Outcome(MarkRead(s, trip, reader), Done)
    case Attach(who, trip, files, landed, replyTo, replyDoc) => Upload(s, who, trip, files, landed, replyTo, replyDoc)
    case DropDoc(doc, who) => DeleteDoc(s, doc, who)
  }

  function Effect(s: State, op: Op, now: Time): Outcome {
    match op
    case OnTrips(op) => TripsEffect(s, op, now)
    case OnTrucks(op) => TrucksEffect(s, op, now)
    case OnChat(op) => ChatEffect(s, op, now)
    case SetPeople(people) => Outcome(s.(people := people), Done)
  }

  datatype Call = Call(op: Op, at: Time)

  function Step(s: State, c: Call): Outcome {
    var r := Effect(s, c.op, c.at);
    Outcome(r.state.(clock := c.at), r.answer)
  }

  /** Each call of a run comes later than the one before. */
  ghost predicate IsRun(s: State, calls: seq<Call>)
    decreases |calls|
  {
    calls == [] || (s.clock < calls[0].at && IsRun(Step(s, calls[0]).state, calls[1..]))
  }

  function Final(s: State, calls: seq<Call>): State
    decreases |calls|
  {
    if calls == [] then s else Final(Step(s, calls[0]).state, calls[1..])
  }

  function Empty(): State {
    State(0, map[], [], [], [], [], [])
  }
}
