/** The credential machine: every service call that reads or writes codes, sessions, links and transfers. */
module Credentials {
  import opened Base
  import Rows
  import Tables
  import Otp = OtpCodes
  import Ses = SessionTokens
  import Tr = Transfers

  type UserId = nat
  type CompanyId = nat
  type TruckId = nat
  type Token = nat
  type Email = nat
  type Password = nat

  datatype Role = Admin | TeamLead | Manager | Driver

  datatype User = User(
    role: Role, company: CompanyId, active: bool, deleted: bool,
    phone: Option<Otp.Phone>, email: Option<Email>, password: Option<Password>, manager: Option<UserId>)

  datatype Truck = Truck(driver: Option<UserId>, manager: Option<UserId>)

  datatype AuditRow = AuditRow(createdAt: Time, driver: UserId, actor: UserId, ip: Option<nat>)

  /** A transfer request that stayed after its text was tried: every text that reached a driver is of one of these. */
  datatype Asked = Asked(driver: UserId, toCompany: CompanyId, at: Time)
  /** A driver changing company. */
  datatype Move = Move(driver: UserId, fromCompany: CompanyId, toCompany: CompanyId, token: Token)

  /** The tables, the clock of the last call, and three histories that no call reads:
      the tokens minted, the transfer requests that stayed, and the moves made. */
  datatype State = State(
    clock: Time,
    users: map<UserId, User>, companies: map<CompanyId, bool>, trucks: map<TruckId, Truck>,
    otps: seq<Otp.OtpRow>, nextOtp: nat,
    refresh: Ses.RefreshTable, resets: Ses.ResetTable, transfers: Tr.Table,
    audit: seq<AuditRow>,
    minted: set<Token>, requests: map<Token, Asked>, moves: seq<Move>)

  datatype Error =
    | NoAccess | CodeInvalid | TooManyAttempts | DriverNotActive | PleaseWait
    | FeatureDisabled | NotAssignedManager | NoLoginCodeRequest
    | WrongLogin | LinkInvalid | TransferInvalid
    | LinkUnknown | EmailUsed
    | UserNotFound | AccountDeleted | LastAdmin | PhoneUsed

  datatype Answer =
    | Done
    | Denied(error: Error)
    | SignedIn(user: UserId, token: Token)
    | LoginCode(code: Otp.Code, expiresAt: Time)
    | Request(until: Option<Time>)
    | Consent(driver: UserId, fromCompany: CompanyId, toCompany: CompanyId, expiresAt: Time)
    | Moved(toCompany: CompanyId)

  /** The state a call leaves and what it answers. */
  datatype Outcome = Outcome(state: State, answer: Answer)

  // ----- lookups by unique columns

  /** The unique columns of users and trucks. */
  ghost predicate UniqueUsers(users: map<UserId, User>) {
    forall u, v :: u in users && v in users && u != v ==>
      && (users[u].phone.Some? ==> users[u].phone != users[v].phone)
      && (users[u].email.Some? ==> users[u].email != users[v].email)
  }

  ghost predicate UniqueDrivers(trucks: map<TruckId, Truck>) {
    forall t, w :: t in trucks && w in trucks && t != w && trucks[t].driver.Some? ==> trucks[t].driver != trucks[w].driver
  }

  ghost function UserByPhone(users: map<UserId, User>, phone: Otp.Phone): (found: Option<UserId>)
    ensures found.Some? ==> found.value in users && users[found.value].phone == Some(phone)
  {
    if u :| u in users && users[u].phone == Some(phone) then Some(u) else None
  }

  ghost function UserByEmail(users: map<UserId, User>, email: Email): (found: Option<UserId>)
    ensures found.Some? ==> found.value in users && users[found.value].email == Some(email)
  {
    if u :| u in users && users[u].email == Some(email) then Some(u) else None
  }

  ghost function TruckOf(trucks: map<TruckId, Truck>, driver: UserId): (found: Option<TruckId>)
    ensures found.Some? ==> found.value in trucks && trucks[found.value].driver == Some(driver)
  {
    if t :| t in trucks && trucks[t].driver == Some(driver) then Some(t) else None
  }

  /** The manager of the truck the driver is on now. */
  ghost function TruckManager(s: State, driver: UserId): Option<UserId> {
    match TruckOf(s.trucks, driver)
    case None => None
    case Some(t) => s.trucks[t].manager
  }

  predicate IsActiveDriver(users: map<UserId, User>, u: UserId) {
    u in users && users[u].role.Driver? && users[u].active
  }

  function ReleaseTruck(trucks: map<TruckId, Truck>, driver: UserId): map<TruckId, Truck> {
    map t | t in trucks ::
      if trucks[t].driver == Some(driver) then trucks[t].(driver := None) else trucks[t]
  }

  // ----- pieces shared by several calls

  function StoreOtp(s: State, user: UserId, phone: Otp.Phone, code: Otp.Code, channel: Otp.Channel, ttl: int,
                    issuedBy: Option<UserId>, request: bool, now: Time): State
  {
    s.(otps := s.otps + [Otp.OtpRow(s.nextOtp, phone, code, user, now, now + ttl, 0, None, channel, issuedBy, request)],
       nextOtp := s.nextOtp + 1)
  }

  /** A code as it is when stored. */
  predicate IsNewCode(o: Otp.OtpRow, id: nat, phone: Otp.Phone, now: Time) {
    o.id == id && o.phone == phone && o.createdAt == now && o.expiresAt > now && o.attempts == 0 && o.usedAt.None?
  }

  predicate StoresAtMostOne(s: State, s': State, phone: Otp.Phone, now: Time) {
    || (s'.otps == s.otps && s'.nextOtp == s.nextOtp)
    || (&& |s'.otps| == |s.otps| + 1 && s'.otps == s.otps + [s'.otps[|s.otps|]]
        && s'.nextOtp == s.nextOtp + 1 && IsNewCode(s'.otps[|s.otps|], s.nextOtp, phone, now))
  }

  /** The code a manager mints on the driver card. */
  function MintedRow(s: State, requester: UserId, driver: UserId, phone: Otp.Phone, code: Otp.Code, now: Time): Otp.OtpRow {
    Otp.OtpRow(s.nextOtp, phone, code, driver, now, now + Otp.MANAGER_CODE_TTL, 0, None, Otp.ViaManager, Some(requester), false)
  }

  function Record(s: State, driver: UserId, actor: UserId, ip: Option<nat>, now: Time): (r: State)
    ensures r == s.(audit := r.audit)
  {
    s.(audit := s.audit + [AuditRow(now, driver, actor, ip)])
  }

  /** A fresh refresh token for the user, with the lifetime of their role. */
  function SignToken(s: State, user: UserId, token: Token, now: Time): (r: Outcome)
    requires user in s.users
    ensures r.state == s.(refresh := r.state.refresh, minted := r.state.minted)
  {
    Outcome(s.(refresh := Ses.Issue(s.refresh, token, user, s.users[user].role.Driver?, now),
        minted := s.minted + {token}),
     SignedIn(user, token))
  }

  // ----- sign-in codes

  /** How sign-in codes are delivered; what the environment has switched on. */
  datatype Delivery = Delivery(enabled: bool, managerEmail: bool, managerButton: bool, review: bool)

  ghost function RequestOtp(s: State, phone: Option<Otp.Phone>, channel: Otp.Channel, via: Delivery, code: Otp.Code,
                            ip: Option<nat>, now: Time): (r: Outcome)
    ensures r.state == s.(otps := r.state.otps, nextOtp := r.state.nextOtp, audit := r.state.audit)
    ensures phone.None? ==> r.state == s
    ensures phone.Some? ==> StoresAtMostOne(s, r.state, phone.value, now)
  {
    if phone.None? then Outcome(s, Done) else
    var driver := UserByPhone(s.users, phone.value);
    if driver.None? || !IsActiveDriver(s.users, driver.value) then Outcome(s, Done)
    else if via.review then
      if Otp.CoolingDown(s.otps, phone.value, Otp.Sms, now) then Outcome(s, Denied(PleaseWait))
      else Outcome(StoreOtp(s, driver.value, phone.value, code, Otp.Sms, Otp.OTP_TTL, None, false, now), Done)
    else if !via.enabled then Outcome(s, Done)
    else if channel.ViaManager? then RequestViaManager(s, driver.value, phone.value, via, code, ip, now)
    else if Otp.CoolingDown(s.otps, phone.value, channel, now) then Outcome(s, Denied(PleaseWait))
    else
      var stored := StoreOtp(s, driver.value, phone.value, code, channel, Otp.OTP_TTL, None, false, now);
      Outcome(Record(stored, driver.value, driver.value, ip, now), Done)
  }

  ghost function RequestViaManager(s: State, driver: UserId, phone: Otp.Phone, via: Delivery, code: Otp.Code,
                                   ip: Option<nat>, now: Time): (r: Outcome)
    requires driver in s.users
    ensures r.state == s.(otps := r.state.otps, nextOtp := r.state.nextOtp, audit := r.state.audit)
    ensures StoresAtMostOne(s, r.state, phone, now)
  {
    var manager := TruckManager(s, driver);
    if manager.None? || manager.value !in s.users then Outcome(s, Done) else
    var m := s.users[manager.value];
    var byEmail := via.managerEmail && m.email.Some?;
    if !m.active || m.company != s.users[driver].company || (!byEmail && !via.managerButton) then Outcome(s, Done)
    else if Otp.CoolingDown(s.otps, phone, Otp.ViaManager, now) then Outcome(s, Denied(PleaseWait))
    else
      var stored := StoreOtp(s, driver, phone, code, Otp.ViaManager, Otp.MANAGER_CODE_TTL, manager, true, now);
      Outcome(Record(stored, driver, driver, ip, now), Done)
  }

  /** The requester manages the driver's current truck, in the same company. */
  ghost predicate ManagesDriver(s: State, requester: UserId, driver: UserId) {
    && requester in s.users && s.users[requester].active
    && driver in s.users && s.users[driver].role.Driver?
    && TruckManager(s, driver) == Some(requester)
    && s.users[driver].company == s.users[requester].company
  }

  ghost function LoginCodeRequest(s: State, requester: UserId, driver: UserId, feature: bool, now: Time): (r: Outcome)
    ensures r.state == s
  {
    if !feature || !ManagesDriver(s, requester, driver) then Outcome(s, Request(None))
    else Outcome(s, Request(Otp.OpenRequest(s.otps, driver, requester, now)))
  }

  ghost function IssueLoginCode(s: State, requester: UserId, driver: UserId, feature: bool, code: Otp.Code,
                                ip: Option<nat>, now: Time): (r: Outcome)
    ensures r.state == s.(otps := r.state.otps, nextOtp := r.state.nextOtp, audit := r.state.audit)
    ensures !r.answer.LoginCode? ==> r.state == s
    ensures r.answer.LoginCode? ==>
              && driver in s.users && s.users[driver].phone.Some?
              && Otp.OpenRequest(s.otps, driver, requester, now).Some?
              && r.state.nextOtp == s.nextOtp + 1
              && r.state.otps == Otp.UpdateMany(s.otps + [MintedRow(s, requester, driver, s.users[driver].phone.value, code, now)],
                                            Otp.CloseRequests(driver, requester), now)
  {
    if !feature then Outcome(s, Denied(FeatureDisabled))
    else if !ManagesDriver(s, requester, driver) then Outcome(s, Denied(NotAssignedManager)) else
    var d := s.users[driver];
    if !d.active || d.deleted || d.phone.None? then Outcome(s, Denied(DriverNotActive))
    else if Otp.OpenRequest(s.otps, driver, requester, now).None? then Outcome(s, Denied(NoLoginCodeRequest))
    else
      var stored := StoreOtp(s, driver, d.phone.value, code, Otp.ViaManager, Otp.MANAGER_CODE_TTL, Some(requester), false, now);
      var recorded := Record(stored, driver, requester, ip, now);
      Outcome(recorded.(otps := Otp.UpdateMany(recorded.otps, Otp.CloseRequests(driver, requester), now)),
       LoginCode(code, now + Otp.MANAGER_CODE_TTL))
  }

  predicate MaySignIn(s: State, check: Otp.Check) {
    check.Right? && IsActiveDriver(s.users, check.row.user)
  }

  /** What a sign-in attempt does once the code has been compared. */
  function Conclude(s: State, phone: Otp.Phone, check: Otp.Check, token: Token, ip: Option<nat>, now: Time): (r: Outcome)
    ensures r.state == s.(otps := r.state.otps, refresh := r.state.refresh, minted := r.state.minted, audit := r.state.audit)
    ensures r.state.otps == Otp.AfterCheck(s.otps, phone, check, MaySignIn(s, check), now)
    ensures r.answer.SignedIn? == MaySignIn(s, check)
    ensures !MaySignIn(s, check) ==> r.state.refresh == s.refresh
  {
    var s' := s.(otps := Otp.AfterCheck(s.otps, phone, check, MaySignIn(s, check), now));
    match check
    case NoCode => Outcome(s', Denied(CodeInvalid))
    case AllSpent(_) => Outcome(s', Denied(TooManyAttempts))
    case Wrong(_, _) => Outcome(s', Denied(CodeInvalid))
    case Right(_, row) =>
      if !IsActiveDriver(s.users, row.user) then Outcome(s', Denied(DriverNotActive))
      else SignToken(Record(s', row.user, row.user, ip, now), row.user, token, now)
  }

  function VerifyOtp(s: State, phone: Option<Otp.Phone>, code: Otp.Code, token: Token, ip: Option<nat>, now: Time): (r: Outcome)
    ensures r.state == s.(otps := r.state.otps, refresh := r.state.refresh, minted := r.state.minted, audit := r.state.audit)
    ensures phone.None? ==> r.state == s
  {
    if phone.None? then Outcome(s, Denied(CodeInvalid))
    else Conclude(s, phone.value, Otp.CheckCode(s.otps, phone.value, code, now), token, ip, now)
  }

  // ----- sessions

  ghost function Login(s: State, email: Email, password: Password, token: Token, now: Time): (r: Outcome)
    ensures r.state == s.(refresh := r.state.refresh, minted := r.state.minted)
  {
    var found := UserByEmail(s.users, email);
    if found.None? then Outcome(s, Denied(WrongLogin)) else
    var u := s.users[found.value];
    if u.password != Some(password) || !u.active || u.deleted then Outcome(s, Denied(WrongLogin))
    else SignToken(s, found.value, token, now)
  }

  ghost function AdminLogin(s: State, email: Email, password: Password, token: Token, now: Time): (r: Outcome)
    ensures r.state == s.(refresh := r.state.refresh, minted := r.state.minted)
  {
    var found := UserByEmail(s.users, email);
    if found.None? || !s.users[found.value].role.Admin? then Outcome(s, Denied(NoAccess))
    else if s.users[found.value].password != Some(password) then Outcome(s, Denied(WrongLogin))
    else SignToken(s, found.value, token, now)
  }

  /** What an invite link stands for: a user who sets their password, or a company whose new team lead signs up. */
  datatype Invite = OfUser(user: UserId) | OfCompany(company: CompanyId, newUser: UserId)

  /** Signing up through a link; which link is whose is settled before. */
  ghost function Register(s: State, invite: Option<Invite>, email: Email, password: Password, token: Token, now: Time): (r: Outcome)
    ensures r.state == s.(users := r.state.users, refresh := r.state.refresh, minted := r.state.minted)
    ensures forall u :: u in s.users ==> u in r.state.users && r.state.users[u] == s.users[u].(password := r.state.users[u].password)
  {
    match invite
    case None => Outcome(s, Denied(LinkUnknown))
    case Some(OfUser(user)) =>
      if user !in s.users then Outcome(s, Denied(LinkUnknown))
      else SignToken(s.(users := s.users[user := s.users[user].(password := Some(password))]), user, token, now)
    case Some(OfCompany(company, newUser)) =>
      if UserByEmail(s.users, email).Some? || newUser in s.users then Outcome(s, Denied(EmailUsed))
      else SignToken(s.(users := s.users[newUser := User(TeamLead, company, true, false, None, Some(email), Some(password), None)]), newUser, token, now)
  }

  function Refresh(s: State, raw: Option<Token>, token: Token, now: Time): (r: Outcome)
    ensures r.state == s.(refresh := r.state.refresh, minted := r.state.minted)
  {
    if raw.None? || !Ses.CanRefresh(s.refresh, raw.value, now) then Outcome(s, Denied(NoAccess)) else
    var user := s.refresh[raw.value].user;
    var s' := s.(refresh := Ses.Rotate(s.refresh, raw.value, now));
    if user !in s.users || !s.users[user].active || s.users[user].deleted then Outcome(s', Denied(NoAccess))
    else SignToken(s', user, token, now)
  }

  function Logout(s: State, raw: Option<Token>, now: Time): (r: Outcome)
    ensures r.state == s.(refresh := r.state.refresh)
  {
    Outcome(if raw.None? then s else s.(refresh := Ses.Revoke(s.refresh, raw.value, now)), Done)
  }

  ghost function RequestReset(s: State, email: Email, token: Token, now: Time): (r: Outcome)
    ensures r.state == s.(resets := r.state.resets, minted := r.state.minted)
    ensures s.minted <= r.state.minted
  {
    var found := UserByEmail(s.users, email);
    if found.None? || s.users[found.value].password.None? then Outcome(s, Done)
    else Outcome(s.(resets := Ses.IssueReset(s.resets, token, found.value, now), minted := s.minted + {token}), Done)
  }

  function ResetPassword(s: State, token: Token, password: Password, now: Time): (r: Outcome)
    ensures r.state == s.(users := r.state.users, resets := r.state.resets, refresh := r.state.refresh)
    ensures r.answer.Done? <==> Ses.CanReset(s.resets, token, now)
    ensures r.state.refresh == if r.answer.Done? then Ses.EndSessions(s.refresh, s.resets[token].user, now) else s.refresh
  {
    if !Ses.CanReset(s.resets, token, now) then Outcome(s, Denied(LinkInvalid)) else
    var user := s.resets[token].user;
    Outcome(s.(users := if user in s.users then s.users[user := s.users[user].(password := Some(password))] else s.users,
        resets := Ses.UseReset(s.resets, token, now),
        refresh := Ses.EndSessions(s.refresh, user, now)), Done)
  }

  // ----- accounts

  function Activate(s: State, user: UserId): (r: Outcome)
    ensures r.state == s.(users := r.state.users)
  {
    if user !in s.users then Outcome(s, Denied(UserNotFound))
    else if s.users[user].deleted then Outcome(s, Denied(AccountDeleted))
    else Outcome(s.(users := s.users[user := s.users[user].(active := true)]), Done)
  }

  function Deactivate(s: State, user: UserId, now: Time): (r: Outcome)
    ensures r.state == s.(users := r.state.users, refresh := r.state.refresh)
    ensures r.answer.Done? <==> user in s.users
    ensures r.state.refresh == if r.answer.Done? then Ses.EndSessions(s.refresh, user, now) else s.refresh
  {
    if user !in s.users then Outcome(s, Denied(UserNotFound))
    else Outcome(s.(users := s.users[user := s.users[user].(active := false)],
             refresh := Ses.EndSessions(s.refresh, user, now)), Done)
  }

  predicate HasOtherAdmin(users: map<UserId, User>, user: UserId)
    requires user in users
  {
    exists u :: u in users && u != user && users[u].company == users[user].company
                && users[u].role.Admin? && users[u].active && !users[u].deleted
  }

  function Erased(u: User): User {
    u.(active := false, deleted := true, phone := None, email := None, password := None)
  }

  function DeleteAccount(s: State, user: UserId): (r: Outcome)
    ensures r.state == s.(trucks := r.state.trucks, refresh := r.state.refresh, otps := r.state.otps, resets := r.state.resets, users := r.state.users)
    ensures r.answer != Done ==> r.state == s
    ensures r.answer.Done? ==> r.state.otps == Otp.DeleteOf(s.otps, user)
    ensures r.answer.Done? ==> r.state.refresh == Tables.Keep(s.refresh, Ses.RefreshNotOf(user))
  {
    if user !in s.users then Outcome(s, Denied(UserNotFound))
    else if s.users[user].deleted then Outcome(s, Denied(AccountDeleted))
    else if s.users[user].role.Admin? && !HasOtherAdmin(s.users, user) then Outcome(s, Denied(LastAdmin))
    else Outcome(s.(trucks := ReleaseTruck(s.trucks, user),
             refresh := Tables.Keep(s.refresh, Ses.RefreshNotOf(user)),
             otps := Otp.DeleteOf(s.otps, user),
             resets := Tables.Keep(s.resets, Ses.ResetNotOf(user)),
             users := s.users[user := Erased(s.users[user])]), Done)
  }

  // ----- drivers and transfers between companies

  /** Adds a driver, or asks the driver of another company for consent. `stays` tells whether a request, once stored,
      stays: it does when the text was sent, and also when dropping it after a failed text fails as well. */
  ghost function AddDriver(s: State, phone: Otp.Phone, password: Option<Password>, company: CompanyId, creator: UserId, newUser: UserId,
                           token: Token, stays: bool, now: Time): (r: Outcome)
    ensures r.state == s.(users := r.state.users, transfers := r.state.transfers, minted := r.state.minted, requests := r.state.requests)
    ensures s.minted <= r.state.minted
  {
    match UserByPhone(s.users, phone)
    case None =>
      if newUser in s.users then Outcome(s, Denied(PhoneUsed))
      else Outcome(s.(users := s.users[newUser := User(Driver, company, true, false, Some(phone), None, password, Some(creator))]), Done)
    case Some(u) =>
      if s.users[u].company == company then Outcome(s, Denied(PhoneUsed))
      else if s.users[u].role.Driver? then Outcome(RequestTransfer(s, u, company, creator, token, stays, now), Done)
      else Outcome(s, Done)
  }

  ghost function RequestTransfer(s: State, driver: UserId, company: CompanyId, asker: UserId,
                                 token: Token, stays: bool, now: Time): (r: State)
    requires driver in s.users
    ensures r == s.(transfers := r.transfers, minted := r.minted, requests := r.requests)
    ensures s.minted <= r.minted
  {
    if !Tr.MayText(s.transfers, driver, company, now) then s else
    var superseded := Tr.Supersede(s.transfers, driver, company, now);
    var s' := s.(transfers := superseded, minted := s.minted + {token});
    if !stays then s' else
    var row := Tr.Transfer(driver, s.users[driver].company, company, asker, now, now + Tr.TRANSFER_TTL, None, None);
    s'.(transfers := superseded[token := row], requests := s.requests[token := Asked(driver, company, now)])
  }

  /** The row behind a link, if it can still be answered. */
  predicate CanAnswer(s: State, token: Token, now: Time) {
    && token in s.transfers
    && var r := s.transfers[token];
       && Tr.IsOpen(r, now)
       && r.driver in s.users && !s.users[r.driver].deleted && s.users[r.driver].role.Driver?
       && s.users[r.driver].company == r.fromCompany
       && r.toCompany in s.companies && s.companies[r.toCompany]
  }

  function LookupTransfer(s: State, token: Token, now: Time): (r: Outcome)
    ensures r.state == s
  {
    if !CanAnswer(s, token, now) then Outcome(s, Denied(TransferInvalid))
    else Outcome(s, Consent(s.transfers[token].driver, s.transfers[token].fromCompany, s.transfers[token].toCompany,
                     s.transfers[token].expiresAt))
  }

  function AcceptTransfer(s: State, token: Token, now: Time): (r: Outcome)
    ensures r.state == s.(trucks := r.state.trucks, users := r.state.users, transfers := r.state.transfers, moves := r.state.moves)
  {
    if !CanAnswer(s, token, now) then Outcome(s, Denied(TransferInvalid)) else
    var r := s.transfers[token];
    var manager := if r.requestedBy in s.users && s.users[r.requestedBy].company == r.toCompany && !s.users[r.requestedBy].deleted
                   then Some(r.requestedBy) else None;
    Outcome(s.(trucks := ReleaseTruck(s.trucks, r.driver),
        users := s.users[r.driver := s.users[r.driver].(company := r.toCompany, manager := manager, active := true)],
        transfers := Tr.Accept(s.transfers, token, now),
        moves := s.moves + [Move(r.driver, r.fromCompany, r.toCompany, token)]), Moved(r.toCompany))
  }

  function DeclineTransfer(s: State, token: Token, now: Time): (r: Outcome)
    ensures r.state == s.(transfers := r.state.transfers)
  {
    if !CanAnswer(s, token, now) then Outcome(s, Denied(TransferInvalid))
    else Outcome(s.(transfers := Tr.Decline(s.transfers, token, now)), Done)
  }

  // ----- the nightly purge

  const CREDENTIAL_GRACE: int := 1 * DAY
  const TRANSFER_KEEP: int := 30 * DAY
  const AUDIT_IP_KEEP: int := 90 * DAY

  predicate Before(t: Option<Time>, cutoff: Time) {
    t.Some? && t.value < cutoff
  }

  function KeepsOtp(cutoff: Time): Otp.OtpRow -> bool {
    (o: Otp.OtpRow) => !(o.expiresAt < cutoff || Before(o.usedAt, cutoff))
  }

  function KeepsRefresh(cutoff: Time): Ses.RefreshRow -> bool {
    (r: Ses.RefreshRow) => !(r.expiresAt < cutoff || Before(r.revokedAt, cutoff))
  }

  function KeepsReset(cutoff: Time): Ses.ResetRow -> bool {
    (r: Ses.ResetRow) => !(r.expiresAt < cutoff || Before(r.usedAt, cutoff))
  }

  function KeepsTransfer(cutoff: Time): Tr.Transfer -> bool {
    (r: Tr.Transfer) => !(r.expiresAt < cutoff || Before(r.acceptedAt, cutoff) || Before(r.declinedAt, cutoff))
  }

  function ForgettingIps(cutoff: Time): AuditRow -> AuditRow {
    (a: AuditRow) => if a.createdAt < cutoff && a.ip.Some? then a.(ip := None) else a
  }

  /** Audit entries whose address is dropped. */
  function StaleIp(cutoff: Time): AuditRow -> bool {
    (a: AuditRow) => a.createdAt < cutoff && a.ip.Some?
  }

  /** The purge's five steps; each may fail on its own and then leaves its table alone. */
  datatype PurgeStep = OtpStep | RefreshStep | ResetStep | TransferStep | AuditStep

  function Purge(s: State, failed: set<PurgeStep>, now: Time): (r: State)
    ensures r == s.(otps := r.otps, refresh := r.refresh, resets := r.resets, transfers := r.transfers, audit := r.audit)
  {
    s.(otps := if OtpStep in failed then s.otps else Rows.Filter(KeepsOtp(now - CREDENTIAL_GRACE), s.otps),
       refresh := if RefreshStep in failed then s.refresh else Tables.Keep(s.refresh, KeepsRefresh(now - CREDENTIAL_GRACE)),
       resets := if ResetStep in failed then s.resets else Tables.Keep(s.resets, KeepsReset(now - CREDENTIAL_GRACE)),
       transfers := if TransferStep in failed then s.transfers else Tables.Keep(s.transfers, KeepsTransfer(now - TRANSFER_KEEP)),
       audit := if AuditStep in failed then s.audit else Rows.Map(ForgettingIps(now - AUDIT_IP_KEEP), s.audit))
  }

  // ----- runs

  datatype CodeOp =
    | RequestCode(phone: Option<Otp.Phone>, channel: Otp.Channel, via: Delivery, code: Otp.Code, ip: Option<nat>)
    | SeeRequest(requester: UserId, driver: UserId, feature: bool)
    | IssueCode(requester: UserId, driver: UserId, feature: bool, code: Otp.Code, ip: Option<nat>)
    | Verify(phone: Option<Otp.Phone>, code: Otp.Code, mint: Token, ip: Option<nat>)

  datatype SessionOp =
    | LogIn(mail: Email, password: Password, mint: Token)
    | AdminLogIn(mail: Email, password: Password, mint: Token)
    | SignUp(invite: Option<Invite>, mail: Email, password: Password, mint: Token)
    | Rotate(raw: Option<Token>, mint: Token)
    | LogOut(raw: Option<Token>)
    | AskReset(mail: Email, mint: Token)
    | DoReset(token: Token, password: Password)

  /** The last three are calls of other services, as far as they touch these rows. */
  datatype AccountOp =
    | Reactivate(user: UserId)
    | Disable(user: UserId)
    | Erase(user: UserId)
    | PatchUser(user: UserId, phone: Option<Otp.Phone>, email: Option<Email>, password: Option<Password>)
    | SetCompany(company: CompanyId, open: bool)
    | SetTrucks(trucks: map<TruckId, Truck>)

  datatype TransferOp =
    | Add(phone: Otp.Phone, password: Option<Password>, company: CompanyId, creator: UserId, newUser: UserId, mint: Token, stays: bool)
    | LookUp(token: Token)
    | AcceptLink(token: Token)
    | DeclineLink(token: Token)

  datatype Op =
    | OnCodes(codes: CodeOp)
    | OnSessions(sessions: SessionOp)
    | OnAccounts(accounts: AccountOp)
    | OnTransfers(transfers: TransferOp)
    | DoPurge(failed: set<PurgeStep>)

  ghost function CodesEffect(s: State, op: CodeOp, now: Time): (r: Outcome)
    ensures r.state == s.(otps := r.state.otps, nextOtp := r.state.nextOtp, audit := r.state.audit, refresh := r.state.refresh, minted := r.state.minted)
  {
    match op
    case RequestCode(phone, channel, via, code, ip) => RequestOtp(s, phone, channel, via, code, ip, now)
    case SeeRequest(requester, driver, feature) => LoginCodeRequest(s, requester, driver, feature, now)
    case IssueCode(requester, driver, feature, code, ip) => IssueLoginCode(s, requester, driver, feature, code, ip, now)
    case Verify(phone, code, mint, ip) => VerifyOtp(s, phone, code, mint, ip, now)
  }

  ghost function SessionsEffect(s: State, op: SessionOp, now: Time): (r: Outcome)
    ensures r.state == s.(users := r.state.users, refresh := r.state.refresh, resets := r.state.resets, minted := r.state.minted)
  {
    match op
    case LogIn(mail, password, mint) => Login(s, mail, password, mint, now)
    case AdminLogIn(mail, password, mint) => AdminLogin(s, mail, password, mint, now)
    case SignUp(invite, mail, password, mint) => Register(s, invite, mail, password, mint, now)
    case Rotate(raw, mint) => Refresh(s, raw, mint, now)
    case LogOut(raw) => Logout(s, raw, now)
    case AskReset(mail, mint) => RequestReset(s, mail, mint, now)
    case DoReset(token, password) => ResetPassword(s, token, password, now)
  }

  function AccountsEffect(s: State, op: AccountOp, now: Time): (r: Outcome)
    ensures r.state == s.(users := r.state.users, companies := r.state.companies, trucks := r.state.trucks, otps := r.state.otps,
                      refresh := r.state.refresh, resets := r.state.resets)
  {
    match op
    case Reactivate(user) => Activate(s, user)
    case Disable(user) => Deactivate(s, user, now)
    case Erase(user) => DeleteAccount(s, user)
    case PatchUser(user, phone, email, password) =>
      Outcome(if user in s.users && !s.users[user].deleted
       then s.(users := s.users[user := s.users[user].(phone := phone, email := email, password := password)])
       else s, Done)
    case SetCompany(company, open) => Outcome(s.(companies := s.companies[company := open]), Done)
    case SetTrucks(trucks) => Outcome(s.(trucks := trucks), Done)
  }

  ghost function TransfersEffect(s: State, op: TransferOp, now: Time): (r: Outcome)
    ensures r.state == s.(users := r.state.users, trucks := r.state.trucks, transfers := r.state.transfers, minted := r.state.minted,
                      requests := r.state.requests, moves := r.state.moves)
    ensures s.minted <= r.state.minted
  {
    match op
    case Add(phone, password, company, creator, newUser, mint, stays) =>
      AddDriver(s, phone, password, company, creator, newUser, mint, stays, now)
    case LookUp(token) => LookupTransfer(s, token, now)
    case AcceptLink(token) => AcceptTransfer(s, token, now)
    case DeclineLink(token) => DeclineTransfer(s, token, now)
  }

  ghost function Effect(s: State, op: Op, now: Time): Outcome {
    match op
    case OnCodes(op) => CodesEffect(s, op, now)
    case OnSessions(op) => SessionsEffect(s, op, now)
    case OnAccounts(op) => AccountsEffect(s, op, now)
    case OnTransfers(op) => TransfersEffect(s, op, now)
    case DoPurge(failed) => Outcome(Purge(s, failed, now), Done)
  }

  /** A call and the moment it happens. */
  datatype Call = Call(op: Op, at: Time)

  /** The random token a call draws, if it draws one. */
  function Drawn(op: Op): Option<Token> {
    match op
    case OnCodes(Verify(_, _, mint, _)) => Some(mint)
    case OnSessions(LogIn(_, _, mint)) => Some(mint)
    case OnSessions(AdminLogIn(_, _, mint)) => Some(mint)
    case OnSessions(SignUp(_, _, _, mint)) => Some(mint)
    case OnSessions(Rotate(_, mint)) => Some(mint)
    case OnSessions(AskReset(_, mint)) => Some(mint)
    case OnTransfers(Add(_, _, _, _, _, mint, _)) => Some(mint)
    case _ => None
  }

  /** Time moves on, and a random token was never seen before. */
  predicate CanHappen(s: State, c: Call) {
    s.clock < c.at && (Drawn(c.op).Some? ==> Drawn(c.op).value !in s.minted)
  }

  ghost function Step(s: State, c: Call): Outcome {
    var r := Effect(s, c.op, c.at);
    Outcome(r.state.(clock := c.at), r.answer)
  }

  ghost predicate IsRun(s: State, calls: seq<Call>)
    decreases |calls|
  {
    calls == [] || (CanHappen(s, calls[0]) && IsRun(Step(s, calls[0]).state, calls[1..]))
  }

  ghost function Final(s: State, calls: seq<Call>): State
    decreases |calls|
  {
    if calls == [] then s else Final(Step(s, calls[0]).state, calls[1..])
  }

  function Empty(): State {
    State(0, map[], map[], map[], [], 0, map[], map[], map[], [], {}, map[], [])
  }
}
