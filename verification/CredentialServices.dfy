/** The services over the credential tables, as methods that update them in place. */
module CredentialServices {
  import opened Base
  import Rows
  import Tables
  import Otp = OtpCodes
  import Ses = SessionTokens
  import Tr = Transfers
  import opened Credentials
  import Calls = CredentialCalls

  lemma ErasedStaysUnique(users: map<UserId, User>, user: UserId)
    requires UniqueUsers(users) && user in users
    ensures UniqueUsers(users[user := Erased(users[user])])
  {
  }

  /** A new user without a phone, under an e-mail nobody has. */
  lemma AddedStaysUnique(users: map<UserId, User>, user: UserId, added: User, email: Email)
    requires UniqueUsers(users) && user !in users && added.phone.None? && added.email == Some(email)
    requires UserByEmail(users, email).None?
    ensures UniqueUsers(users[user := added])
  {
  }

  /** A user keeps phone and email, so uniqueness is kept. */
  lemma EditedStaysUnique(users: map<UserId, User>, user: UserId, edited: User)
    requires UniqueUsers(users) && user in users
    requires edited.phone == users[user].phone && edited.email == users[user].email
    ensures UniqueUsers(users[user := edited])
  {
  }

  class Database {
    var users: map<UserId, User>
    var companies: map<CompanyId, bool>
    var trucks: map<TruckId, Truck>
    var otps: seq<Otp.OtpRow>
    var nextOtp: nat
    var refresh: Ses.RefreshTable
    var resets: Ses.ResetTable
    var transfers: Tr.Table
    var audit: seq<AuditRow>
    ghost var clock: Time
    ghost var minted: set<Token>
    ghost var requests: map<Token, Asked>
    ghost var moves: seq<Move>

    ghost function Snapshot(): State
      reads this
    {
      State(clock, users, companies, trucks, otps, nextOtp, refresh, resets, transfers, audit, minted, requests, moves)
    }

    ghost predicate Valid()
      reads this
    {
      UniqueUsers(users) && UniqueDrivers(trucks)
    }

    constructor ()
      ensures Valid() && Snapshot() == Empty()
    {
      users, companies, trucks, otps, nextOtp := map[], map[], map[], [], 0;
      refresh, resets, transfers, audit := map[], map[], map[], [];
      clock, minted, requests, moves := 0, {}, map[], [];
    }

    method FindUserByPhone(phone: Otp.Phone) returns (found: Option<UserId>)
      requires Valid()
      ensures found == UserByPhone(users, phone)
    {
      if u :| u in users && users[u].phone == Some(phone) {
        found := Some(u);
      } else {
        found := None;
      }
    }

    method FindUserByEmail(email: Email) returns (found: Option<UserId>)
      requires Valid()
      ensures found == UserByEmail(users, email)
    {
      if u :| u in users && users[u].email == Some(email) {
        found := Some(u);
      } else {
        found := None;
      }
    }

    method FindTruckManager(driver: UserId) returns (manager: Option<UserId>)
      requires Valid()
      ensures manager == TruckManager(Snapshot(), driver)
    {
      if t :| t in trucks && trucks[t].driver == Some(driver) {
        manager := trucks[t].manager;
      } else {
        manager := None;
      }
    }

    /** `updateMany` on the codes: every row is visited once. */
    method UpdateOtps(u: Otp.Update, now: Time)
      modifies this`otps
      ensures otps == Otp.UpdateMany(old(otps), u, now)
    {
      var rows := [];
      var i := 0;
      while i < |otps|
        invariant 0 <= i <= |otps| && otps == old(otps)
        invariant rows == Rows.Map(Otp.Applying(u, now), otps[..i])
      {
        rows := rows + [Otp.Apply(u, otps[i], now)];
        i := i + 1;
        assert otps[..i] == otps[..i - 1] + [otps[i - 1]];
      }
      assert otps[..i] == otps;
      otps := rows;
    }

    /** `deleteMany` on the codes; answers how many rows went. */
    method DeleteOtps(keeps: Otp.OtpRow -> bool) returns (count: nat)
      modifies this`otps
      ensures otps == Rows.Filter(keeps, old(otps)) && count == |old(otps)| - |otps|
    {
      var rows := [];
      var i := 0;
      count := 0;
      while i < |otps|
        invariant 0 <= i <= |otps| && otps == old(otps)
        invariant rows == Rows.Filter(keeps, otps[..i]) && count == i - |rows|
      {
        assert otps[..i + 1] == otps[..i] + [otps[i]];
        Rows.FilterAppend(keeps, otps[..i], otps[i]);
        if keeps(otps[i]) {
          rows := rows + [otps[i]];
        } else {
          count := count + 1;
        }
        i := i + 1;
      }
      assert otps[..i] == otps;
      otps := rows;
    }

    method DeleteRefresh(keeps: Ses.RefreshRow -> bool) returns (count: nat)
      modifies this`refresh
      ensures refresh == Tables.Keep(old(refresh), keeps) && count == |old(refresh)| - |refresh|
    {
      KeepShrinks(refresh, keeps);
      var kept := Tables.Keep(refresh, keeps);
      count := |refresh| - |kept|;
      refresh := kept;
    }

    method DeleteResets(keeps: Ses.ResetRow -> bool) returns (count: nat)
      modifies this`resets
      ensures resets == Tables.Keep(old(resets), keeps) && count == |old(resets)| - |resets|
    {
      KeepShrinks(resets, keeps);
      var kept := Tables.Keep(resets, keeps);
      count := |resets| - |kept|;
      resets := kept;
    }

    method DeleteTransfers(keeps: Tr.Transfer -> bool) returns (count: nat)
      modifies this`transfers
      ensures transfers == Tables.Keep(old(transfers), keeps) && count == |old(transfers)| - |transfers|
    {
      KeepShrinks(transfers, keeps);
      var kept := Tables.Keep(transfers, keeps);
      count := |transfers| - |kept|;
      transfers := kept;
    }

    method SupersedeLinks(driver: UserId, company: CompanyId, now: Time)
      modifies this`transfers
      ensures transfers == Tr.Supersede(old(transfers), driver, company, now)
      ensures transfers.Keys == old(transfers).Keys
    {
      transfers := map k | k in transfers ::
        if transfers[k].driver == driver && transfers[k].toCompany == company && Tr.IsUndecided(transfers[k])
        then transfers[k].(expiresAt := now) else transfers[k];
    }

    /** The link is accepted; every other open link of its driver is moot. */
    method MarkAccepted(token: Token, now: Time)
      requires token in transfers
      modifies this`transfers
      ensures transfers == Tr.Accept(old(transfers), token, now)
    {
      var r := transfers[token];
      transfers := transfers[token := r.(acceptedAt := Some(now))];
      transfers := map k | k in transfers ::
        if transfers[k].driver == r.driver && k != token && Tr.IsUndecided(transfers[k])
        then transfers[k].(expiresAt := now) else transfers[k];
    }

    method ReleaseTruckOf(driver: UserId)
      requires UniqueDrivers(trucks)
      modifies this`trucks
      ensures trucks == ReleaseTruck(old(trucks), driver) && UniqueDrivers(trucks)
    {
      trucks := map t | t in trucks :: if trucks[t].driver == Some(driver) then trucks[t].(driver := None) else trucks[t];
    }

    method EndSessionsOf(user: UserId, now: Time)
      modifies this`refresh
      ensures refresh == Ses.EndSessions(old(refresh), user, now)
    {
      refresh := map k | k in refresh ::
        if refresh[k].user == user && refresh[k].expiresAt > now
        then refresh[k].(revokedAt := Some(now), expiresAt := now) else refresh[k];
    }

    method InsertOtp(user: UserId, phone: Otp.Phone, code: Otp.Code, channel: Otp.Channel, ttl: int,
                     issuedBy: Option<UserId>, request: bool, now: Time)
      modifies this`otps, this`nextOtp
      ensures Snapshot() == StoreOtp(old(Snapshot()), user, phone, code, channel, ttl, issuedBy, request, now)
    {
      otps := otps + [Otp.OtpRow(nextOtp, phone, code, user, now, now + ttl, 0, None, channel, issuedBy, request)];
      nextOtp := nextOtp + 1;
    }
  }

  lemma CompareOneMore(rows: seq<Otp.OtpRow>, o: Otp.OtpRow, code: Otp.Code)
    ensures Otp.Ids(Rows.Filter(Otp.SpentTest(), rows + [o]))
            == Otp.Ids(Rows.Filter(Otp.SpentTest(), rows)) + (if o.attempts >= Otp.MAX_ATTEMPTS then {o.id} else {})
    ensures Otp.Live(rows + [o]) == Otp.Live(rows) + (if o.attempts >= Otp.MAX_ATTEMPTS then [] else [o])
    ensures o.attempts < Otp.MAX_ATTEMPTS ==>
              Otp.FindCode(Otp.Live(rows) + [o], code) == if o.code == code then Some(o) else Otp.FindCode(Otp.Live(rows), code)
  {
    Rows.FilterAppend(Otp.SpentTest(), rows, o);
    Rows.FilterAppend(Otp.LiveTest(), rows, o);
    assert (Otp.Live(rows) + [o])[..|Otp.Live(rows)|] == Otp.Live(rows);
    hide Rows.Filter;
  }

  class AuthService {
    const db: Database

    constructor (db: Database)
      ensures this.db == db
    {
      this.db := db;
    }

    method IssueRefreshToken(user: UserId, token: Token, now: Time) returns (answer: Answer)
      requires user in db.users
      modifies db`refresh, db`minted
      ensures Outcome(db.Snapshot(), answer) == SignToken(old(db.Snapshot()), user, token, now)
    {
      var ttl := if db.users[user].role.Driver? then Ses.DRIVER_REFRESH_TTL else Ses.REFRESH_TTL;
      db.refresh := db.refresh[token := Ses.RefreshRow(user, now + ttl, None)];
      db.minted := db.minted + {token};
      answer := SignedIn(user, token);
    }

    method IsCoolingDown(phone: Otp.Phone, channel: Otp.Channel, now: Time) returns (waits: bool)
      ensures waits == Otp.CoolingDown(db.otps, phone, channel, now)
    {
      var i := |db.otps|;
      waits := false;
      while i > 0 && !waits
        invariant 0 <= i <= |db.otps|
        invariant waits ==> Otp.CoolingDown(db.otps, phone, channel, now)
        invariant !waits ==> forall o :: o in db.otps[i..] ==> !Otp.SentRecently(o, phone, channel, now)
      {
        i := i - 1;
        assert db.otps[i..] == [db.otps[i]] + db.otps[i + 1..];
        waits := Otp.SentRecently(db.otps[i], phone, channel, now);
      }
    }

    method RequestDriverOtp(phone: Option<Otp.Phone>, channel: Otp.Channel, via: Delivery, code: Otp.Code,
                            ip: Option<nat>, now: Time) returns (answer: Answer)
      requires db.Valid()
      modifies db`otps, db`nextOtp, db`audit
      ensures db.Valid()
      ensures Outcome(db.Snapshot(), answer) == RequestOtp(old(db.Snapshot()), phone, channel, via, code, ip, now)
    {
      hide Otp.CoolingDown;
      answer := Done;
      if phone.None? { return; }
      var driver := db.FindUserByPhone(phone.value);
      if driver.None? || !IsActiveDriver(db.users, driver.value) { return; }
      if via.review {
        var waits := IsCoolingDown(phone.value, Otp.Sms, now);
        if waits { return Denied(PleaseWait); }
        db.InsertOtp(driver.value, phone.value, code, Otp.Sms, Otp.OTP_TTL, None, false, now);
        return;
      }
      if !via.enabled { return; }
      if channel.ViaManager? {
        answer := RequestThroughManager(driver.value, phone.value, via, code, ip, now);
        return;
      }
      var waits := IsCoolingDown(phone.value, channel, now);
      if waits { return Denied(PleaseWait); }
      db.InsertOtp(driver.value, phone.value, code, channel, Otp.OTP_TTL, None, false, now);
      db.audit := db.audit + [AuditRow(now, driver.value, driver.value, ip)];
    }

    method RequestThroughManager(driver: UserId, phone: Otp.Phone, via: Delivery, code: Otp.Code,
                                 ip: Option<nat>, now: Time) returns (answer: Answer)
      requires db.Valid() && driver in db.users
      modifies db`otps, db`nextOtp, db`audit
      ensures db.Valid()
      ensures Outcome(db.Snapshot(), answer) == RequestViaManager(old(db.Snapshot()), driver, phone, via, code, ip, now)
    {
      hide Otp.CoolingDown;
      answer := Done;
      var manager := db.FindTruckManager(driver);
      if manager.None? || manager.value !in db.users { return; }
      var m := db.users[manager.value];
      var byEmail := via.managerEmail && m.email.Some?;
      if !m.active || m.company != db.users[driver].company || (!byEmail && !via.managerButton) { return; }
      var waits := IsCoolingDown(phone, Otp.ViaManager, now);
      if waits { return Denied(PleaseWait); }
      db.InsertOtp(driver, phone, code, Otp.ViaManager, Otp.MANAGER_CODE_TTL, manager, true, now);
      db.audit := db.audit + [AuditRow(now, driver, driver, ip)];
    }

    method FindOpenRequest(driver: UserId, manager: UserId, now: Time) returns (until: Option<Time>)
      ensures until == Otp.OpenRequest(db.otps, driver, manager, now)
    {
      var test := Otp.OpenRequestTest(driver, manager, now);
      var i := |db.otps|;
      until := None;
      while i > 0 && until.None?
        invariant 0 <= i <= |db.otps|
        invariant until.None? ==> Rows.Filter(test, db.otps[i..]) == []
        invariant until.Some? ==> Rows.Filter(test, db.otps[i..]) != [] && Otp.OpenRequest(db.otps[i..], driver, manager, now) == until
      {
        i := i - 1;
        assert db.otps[i..] == [db.otps[i]] + db.otps[i + 1..];
        Rows.FilterConcat(test, [db.otps[i]], db.otps[i + 1..]);
        Rows.FilterAppend(test, [], db.otps[i]);
        assert [] + [db.otps[i]] == [db.otps[i]];
        if Otp.IsOpenRequest(db.otps[i], driver, manager, now) {
          until := Some(db.otps[i].expiresAt);
        }
      }
      assert db.otps == db.otps[..i] + db.otps[i..];
      Rows.FilterConcat(test, db.otps[..i], db.otps[i..]);
    }

    method Manages(requester: UserId, driver: UserId) returns (yes: bool)
      requires db.Valid()
      ensures yes == ManagesDriver(db.Snapshot(), requester, driver)
    {
      if requester !in db.users || driver !in db.users { return false; }
      var manager := db.FindTruckManager(driver);
      return db.users[requester].active && db.users[driver].role.Driver? && manager == Some(requester)
             && db.users[driver].company == db.users[requester].company;
    }

    method IssueDriverLoginCode(requester: UserId, driver: UserId, feature: bool, code: Otp.Code, ip: Option<nat>, now: Time)
      returns (answer: Answer)
      requires db.Valid()
      modifies db`otps, db`nextOtp, db`audit
      ensures db.Valid()
      ensures Outcome(db.Snapshot(), answer) == IssueLoginCode(old(db.Snapshot()), requester, driver, feature, code, ip, now)
    {
      hide ManagesDriver, Otp.OpenRequest, Otp.UpdateMany;
      if !feature { return Denied(FeatureDisabled); }
      var yes := Manages(requester, driver);
      if !yes { return Denied(NotAssignedManager); }
      assert driver in db.users by { ManagedIsUser(db.Snapshot(), requester, driver); }
      var d := db.users[driver];
      if !d.active || d.deleted || d.phone.None? { return Denied(DriverNotActive); }
      var open := FindOpenRequest(driver, requester, now);
      if open.None? { return Denied(NoLoginCodeRequest); }
      db.InsertOtp(driver, d.phone.value, code, Otp.ViaManager, Otp.MANAGER_CODE_TTL, Some(requester), false, now);
      db.audit := db.audit + [AuditRow(now, driver, requester, ip)];
      db.UpdateOtps(Otp.CloseRequests(driver, requester), now);
      return LoginCode(code, now + Otp.MANAGER_CODE_TTL);
    }

    lemma ManagedIsUser(s: State, requester: UserId, driver: UserId)
      requires ManagesDriver(s, requester, driver)
      ensures driver in s.users
    {
    }

    method DriverLoginCodeRequest(requester: UserId, driver: UserId, feature: bool, now: Time) returns (answer: Answer)
      requires db.Valid()
      ensures Outcome(db.Snapshot(), answer) == LoginCodeRequest(db.Snapshot(), requester, driver, feature, now)
    {
      hide ManagesDriver, Otp.OpenRequest;
      if !feature { return Request(None); }
      var yes := Manages(requester, driver);
      if !yes { return Request(None); }
      var open := FindOpenRequest(driver, requester, now);
      return Request(open);
    }

    /** The phone's newest usable codes, at most five, newest last. */
    method FindPending(phone: Otp.Phone, now: Time) returns (rows: seq<Otp.OtpRow>)
      ensures rows == Otp.Considered(db.otps, phone, now)
    {
      var test := Otp.PendingTest(phone, now);
      var i := |db.otps|;
      rows := [];
      while i > 0 && |rows| < Otp.MAX_PENDING
        invariant 0 <= i <= |db.otps| && |rows| <= Otp.MAX_PENDING
        invariant rows == Rows.Filter(test, db.otps[i..])
      {
        i := i - 1;
        assert db.otps[i..] == [db.otps[i]] + db.otps[i + 1..];
        Rows.FilterConcat(test, [db.otps[i]], db.otps[i + 1..]);
        Rows.FilterAppend(test, [], db.otps[i]);
        assert [] + [db.otps[i]] == [db.otps[i]];
        if Otp.IsPending(db.otps[i], phone, now) {
          rows := [db.otps[i]] + rows;
        }
      }
      assert db.otps == db.otps[..i] + db.otps[i..];
      Rows.FilterConcat(test, db.otps[..i], db.otps[i..]);
    }

    /** Compares the code with every usable code that has attempts left, newest first. */
    method Compare(rows: seq<Otp.OtpRow>, code: Otp.Code)
      returns (lock: set<nat>, live: seq<Otp.OtpRow>, found: Option<Otp.OtpRow>)
      ensures lock == Otp.Ids(Rows.Filter(Otp.SpentTest(), rows))
      ensures live == Otp.Live(rows) && found == Otp.FindCode(live, code)
    {
      lock, live, found := {}, [], None;
      assert rows[..0] == [];
      for i := 0 to |rows|
        invariant lock == Otp.Ids(Rows.Filter(Otp.SpentTest(), rows[..i]))
        invariant live == Otp.Live(rows[..i]) && found == Otp.FindCode(live, code)
      {
        var o := rows[i];
        assert rows[..i + 1] == rows[..i] + [o];
        CompareOneMore(rows[..i], o, code);
        if o.attempts >= Otp.MAX_ATTEMPTS {
          lock := lock + {o.id};
        } else {
          live := live + [o];
          if o.code == code { found := Some(o); }
        }
      }
      assert rows[..|rows|] == rows;
    }

    method VerifyDriverOtp(phone: Option<Otp.Phone>, code: Otp.Code, token: Token, ip: Option<nat>, now: Time)
      returns (answer: Answer)
      modifies db`otps, db`refresh, db`minted, db`audit
      ensures Outcome(db.Snapshot(), answer) == VerifyOtp(old(db.Snapshot()), phone, code, token, ip, now)
    {
      hide Otp.Considered, Otp.UpdateMany;
      if phone.None? { return Denied(CodeInvalid); }
      var pending := FindPending(phone.value, now);
      if pending == [] { return Denied(CodeInvalid); }
      var lock, live, found := Compare(pending, code);
      db.UpdateOtps(Otp.Lock(lock), now);
      if live == [] { return Denied(TooManyAttempts); }
      if found.None? {
        var counted := set o | o in live :: o.id;
        db.UpdateOtps(Otp.Count(counted), now);
        return Denied(CodeInvalid);
      }
      var row := found.value;
      if !IsActiveDriver(db.users, row.user) { return Denied(DriverNotActive); }
      db.UpdateOtps(Otp.Burn(phone.value), now);
      db.audit := db.audit + [AuditRow(now, row.user, row.user, ip)];
      answer := IssueRefreshToken(row.user, token, now);
    }

    method LoginByPassword(email: Email, password: Password, token: Token, now: Time) returns (answer: Answer)
      requires db.Valid()
      modifies db`refresh, db`minted
      ensures db.Valid()
      ensures Outcome(db.Snapshot(), answer) == Login(old(db.Snapshot()), email, password, token, now)
    {
      var found := db.FindUserByEmail(email);
      if found.None? { return Denied(WrongLogin); }
      var u := db.users[found.value];
      if u.password != Some(password) || !u.active || u.deleted { return Denied(WrongLogin); }
      answer := IssueRefreshToken(found.value, token, now);
    }

    /** Administrators' own sign-in. */
    method LoginAsAdmin(email: Email, password: Password, token: Token, now: Time) returns (answer: Answer)
      requires db.Valid()
      modifies db`refresh, db`minted
      ensures db.Valid()
      ensures Outcome(db.Snapshot(), answer) == AdminLogin(old(db.Snapshot()), email, password, token, now)
    {
      var found := db.FindUserByEmail(email);
      if found.None? || !db.users[found.value].role.Admin? { return Denied(NoAccess); }
      if db.users[found.value].password != Some(password) { return Denied(WrongLogin); }
      answer := IssueRefreshToken(found.value, token, now);
    }

    /** Signing up through an invite link; the link's company or user was looked up before. */
    method SignUpByLink(invite: Option<Invite>, email: Email, password: Password, token: Token, now: Time) returns (answer: Answer)
      requires db.Valid()
      modifies db`users, db`refresh, db`minted
      ensures db.Valid()
      ensures Outcome(db.Snapshot(), answer) == Register(old(db.Snapshot()), invite, email, password, token, now)
    {
      hide UniqueUsers, UniqueDrivers, SignToken;
      match invite
      case None =>
        return Denied(LinkUnknown);
      case Some(OfUser(user)) =>
        if user !in db.users { return Denied(LinkUnknown); }
        EditedStaysUnique(db.users, user, db.users[user].(password := Some(password)));
        db.users := db.users[user := db.users[user].(password := Some(password))];
        answer := IssueRefreshToken(user, token, now);
      case Some(OfCompany(company, newUser)) =>
        var taken := db.FindUserByEmail(email);
        if taken.Some? || newUser in db.users { return Denied(EmailUsed); }
        var lead := User(TeamLead, company, true, false, None, Some(email), Some(password), None);
        AddedStaysUnique(db.users, newUser, lead, email);
        db.users := db.users[newUser := lead];
        answer := IssueRefreshToken(newUser, token, now);
    }

    method RefreshSession(raw: Option<Token>, token: Token, now: Time) returns (answer: Answer)
      modifies db`refresh, db`minted
      ensures Outcome(db.Snapshot(), answer) == Refresh(old(db.Snapshot()), raw, token, now)
    {
      if raw.None? || raw.value !in db.refresh { return Denied(NoAccess); }
      var record := db.refresh[raw.value];
      if record.expiresAt < now { return Denied(NoAccess); }
      if record.revokedAt.Some? {
        if now - record.revokedAt.value > Ses.REUSE_GRACE { return Denied(NoAccess); }
      } else {
        db.refresh := db.refresh[raw.value := record.(revokedAt := Some(now))];
      }
      if record.user !in db.users || !db.users[record.user].active || db.users[record.user].deleted { return Denied(NoAccess); }
      answer := IssueRefreshToken(record.user, token, now);
    }

    method RevokeRefresh(raw: Option<Token>, now: Time)
      modifies db`refresh
      ensures db.Snapshot() == Logout(old(db.Snapshot()), raw, now).state
    {
      if raw.Some? && raw.value in db.refresh {
        db.refresh := db.refresh[raw.value := db.refresh[raw.value].(revokedAt := Some(now), expiresAt := now)];
      }
    }

    method RequestPasswordReset(email: Email, token: Token, now: Time)
      requires db.Valid()
      modifies db`resets, db`minted
      ensures db.Valid()
      ensures db.Snapshot() == RequestReset(old(db.Snapshot()), email, token, now).state
    {
      var found := db.FindUserByEmail(email);
      if found.None? || db.users[found.value].password.None? { return; }
      var user := found.value;
      db.resets := map k | k in db.resets ::
        if db.resets[k].user == user && db.resets[k].usedAt.None? then db.resets[k].(usedAt := Some(now)) else db.resets[k];
      db.resets := db.resets[token := Ses.ResetRow(user, now, now + Ses.PASSWORD_RESET_TTL, None)];
      db.minted := db.minted + {token};
    }

    method ResetPasswordByLink(token: Token, password: Password, now: Time) returns (answer: Answer)
      requires db.Valid()
      modifies db`users, db`resets, db`refresh
      ensures db.Valid()
      ensures Outcome(db.Snapshot(), answer) == ResetPassword(old(db.Snapshot()), token, password, now)
    {
      if token !in db.resets { return Denied(LinkInvalid); }
      var record := db.resets[token];
      if record.usedAt.Some? || record.expiresAt < now { return Denied(LinkInvalid); }
      if record.user in db.users {
        db.users := db.users[record.user := db.users[record.user].(password := Some(password))];
      }
      db.resets := db.resets[token := record.(usedAt := Some(now))];
      db.EndSessionsOf(record.user, now);
      return Done;
    }
  }

  class UsersService {
    const db: Database

    constructor (db: Database)
      ensures this.db == db
    {
      this.db := db;
    }

    method DeactivateUser(user: UserId, now: Time) returns (answer: Answer)
      requires db.Valid()
      modifies db`users, db`refresh
      ensures db.Valid()
      ensures Outcome(db.Snapshot(), answer) == Deactivate(old(db.Snapshot()), user, now)
    {
      if user !in db.users { return Denied(UserNotFound); }
      db.users := db.users[user := db.users[user].(active := false)];
      db.EndSessionsOf(user, now);
      return Done;
    }

    method ActivateUser(user: UserId) returns (answer: Answer)
      requires db.Valid()
      modifies db`users
      ensures db.Valid()
      ensures Outcome(db.Snapshot(), answer) == Activate(old(db.Snapshot()), user)
    {
      if user !in db.users { return Denied(UserNotFound); }
      if db.users[user].deleted { return Denied(AccountDeleted); }
      db.users := db.users[user := db.users[user].(active := true)];
      return Done;
    }

    method EraseRowsOf(user: UserId)
      requires UniqueDrivers(db.trucks)
      modifies db`trucks, db`refresh, db`otps, db`resets
      ensures UniqueDrivers(db.trucks)
      ensures db.Snapshot() == old(db.Snapshot()).(
                trucks := ReleaseTruck(old(db.trucks), user), otps := Otp.DeleteOf(old(db.otps), user),
                refresh := Tables.Keep(old(db.refresh), Ses.RefreshNotOf(user)),
                resets := Tables.Keep(old(db.resets), Ses.ResetNotOf(user)))
    {
      hide ReleaseTruck, UniqueDrivers, Rows.Filter, Tables.Keep, Ses.RefreshNotOf, Ses.ResetNotOf, Otp.NotOf;
      db.ReleaseTruckOf(user);
      var _ := db.DeleteRefresh(Ses.RefreshNotOf(user));
      var _ := db.DeleteOtps(Otp.NotOf(user));
      var _ := db.DeleteResets(Ses.ResetNotOf(user));
    }

    method DeleteOwnAccount(user: UserId) returns (answer: Answer)
      requires db.Valid()
      modifies db`trucks, db`refresh, db`otps, db`resets, db`users
      ensures db.Valid()
      ensures Outcome(db.Snapshot(), answer) == DeleteAccount(old(db.Snapshot()), user)
    {
      hide ReleaseTruck, UniqueDrivers, UniqueUsers, Rows.Filter, Tables.Keep, HasOtherAdmin, Ses.RefreshNotOf, Ses.ResetNotOf, Otp.NotOf;
      if user !in db.users { return Denied(UserNotFound); }
      var u := db.users[user];
      if u.deleted { return Denied(AccountDeleted); }
      if u.role.Admin? && !HasOtherAdmin(db.users, user) { return Denied(LastAdmin); }
      EraseRowsOf(user);
      ErasedStaysUnique(db.users, user);
      db.users := db.users[user := u.(active := false, deleted := true, phone := None, email := None, password := None)];
      return Done;
    }
  }

  lemma OpenHasRows(s: State, token: Token, now: Time)
    requires CanAnswer(s, token, now)
    ensures token in s.transfers && s.transfers[token].driver in s.users
  {
  }

  /** What became of a text: sent; failed, and the request dropped; or failed, and so did dropping the request. */
  datatype Sms = Sent | FailedAndDropped | FailedAndKept {
    predicate Stays() {
      !FailedAndDropped?
    }
  }

  class DriverTransfersService {
    const db: Database

    constructor (db: Database)
      ensures this.db == db
    {
      this.db := db;
    }

    /** Adds a driver by phone, or sends a consent link to the driver of another company. */
    method CreateDriver(phone: Otp.Phone, password: Option<Password>, company: CompanyId, creator: UserId, newUser: UserId,
                        token: Token, sms: Sms, now: Time) returns (answer: Answer)
      requires db.Valid() && token !in db.minted && db.transfers.Keys <= db.minted
      modifies db`users, db`transfers, db`minted, db`requests
      ensures db.Valid()
      ensures Outcome(db.Snapshot(), answer) == AddDriver(old(db.Snapshot()), phone, password, company, creator, newUser, token, sms.Stays(), now)
    {
      hide RequestTransfer;
      var existing := db.FindUserByPhone(phone);
      if existing.Some? {
        var u := db.users[existing.value];
        if u.company == company { return Denied(PhoneUsed); }
        if u.role.Driver? {
          Request(existing.value, company, creator, token, sms, now);
        }
        return Done;
      }
      if newUser in db.users { return Denied(PhoneUsed); }
      db.users := db.users[newUser := User(Driver, company, true, false, Some(phone), None, password, Some(creator))];
      return Done;
    }

    method MayTextNow(driver: UserId, company: CompanyId, now: Time) returns (may: bool)
      ensures may == Tr.MayText(db.transfers, driver, company, now)
    {
      if exists k :: k in db.transfers && db.transfers[k].driver == driver && db.transfers[k].toCompany == company
                     && Tr.IsOpen(db.transfers[k], now) && db.transfers[k].createdAt > now - Tr.RESEND_COOLDOWN {
        return false;
      }
      var today := set k | k in db.transfers && db.transfers[k].driver == driver && db.transfers[k].createdAt > now - Tr.CAP_WINDOW;
      assert today == Tr.OfDriver(db.transfers, driver, now);
      if |today| >= Tr.MAX_PER_DRIVER { return false; }
      var byCompany := set k | k in db.transfers && db.transfers[k].toCompany == company && db.transfers[k].createdAt > now - Tr.CAP_WINDOW;
      assert byCompany == Tr.OfCompany(db.transfers, company, now);
      return |byCompany| < Tr.MAX_PER_COMPANY;
    }

    method Request(driver: UserId, company: CompanyId, creator: UserId, token: Token, sms: Sms, now: Time)
      requires driver in db.users && token !in db.minted && db.transfers.Keys <= db.minted
      modifies db`transfers, db`minted, db`requests
      ensures db.Snapshot() == RequestTransfer(old(db.Snapshot()), driver, company, creator, token, sms.Stays(), now)
    {
      hide Tr.MayText, Tr.Supersede;
      var may := MayTextNow(driver, company, now);
      if !may { return; }
      db.SupersedeLinks(driver, company, now);
      ghost var superseded := db.transfers;
      db.minted := db.minted + {token};
      db.transfers := db.transfers[token := Tr.Transfer(driver, db.users[driver].company, company, creator, now, now + Tr.TRANSFER_TTL, None, None)];
      if sms == FailedAndDropped {
        // Undelivered: the request is dropped so that it can be tried again.
        db.transfers := db.transfers - {token};
        assert db.transfers == superseded;
      } else {
        db.requests := db.requests[token := Asked(driver, company, now)];
      }
    }

    method AcceptByLink(token: Token, now: Time) returns (answer: Answer)
      requires db.Valid()
      modifies db`trucks, db`users, db`transfers, db`moves
      ensures db.Valid()
      ensures Outcome(db.Snapshot(), answer) == AcceptTransfer(old(db.Snapshot()), token, now)
    {
      hide ReleaseTruck, UniqueUsers, UniqueDrivers, CanAnswer, Tr.Accept;
      var open := FindOpen(token, now);
      if !open { return Denied(TransferInvalid); }
      OpenHasRows(db.Snapshot(), token, now);
      var r := db.transfers[token];
      var manager := if r.requestedBy in db.users && db.users[r.requestedBy].company == r.toCompany && !db.users[r.requestedBy].deleted
                     then Some(r.requestedBy) else None;
      db.ReleaseTruckOf(r.driver);
      EditedStaysUnique(db.users, r.driver, db.users[r.driver].(company := r.toCompany, manager := manager, active := true));
      db.users := db.users[r.driver := db.users[r.driver].(company := r.toCompany, manager := manager, active := true)];
      db.MarkAccepted(token, now);
      db.moves := db.moves + [Move(r.driver, r.fromCompany, r.toCompany, token)];
      return Moved(r.toCompany);
    }

    method LookupByLink(token: Token, now: Time) returns (answer: Answer)
      ensures Outcome(db.Snapshot(), answer) == LookupTransfer(db.Snapshot(), token, now)
    {
      var open := FindOpen(token, now);
      if !open { return Denied(TransferInvalid); }
      var r := db.transfers[token];
      return Consent(r.driver, r.fromCompany, r.toCompany, r.expiresAt);
    }

    method DeclineByLink(token: Token, now: Time) returns (answer: Answer)
      modifies db`transfers
      ensures Outcome(db.Snapshot(), answer) == DeclineTransfer(old(db.Snapshot()), token, now)
    {
      var open := FindOpen(token, now);
      if !open { return Denied(TransferInvalid); }
      db.transfers := db.transfers[token := db.transfers[token].(declinedAt := Some(now))];
      return Done;
    }

    method FindOpen(token: Token, now: Time) returns (open: bool)
      ensures open == CanAnswer(db.Snapshot(), token, now)
    {
      if token !in db.transfers { return false; }
      var r := db.transfers[token];
      if r.acceptedAt.Some? || r.declinedAt.Some? || r.expiresAt <= now { return false; }
      if r.driver !in db.users || db.users[r.driver].deleted || !db.users[r.driver].role.Driver? { return false; }
      if db.users[r.driver].company != r.fromCompany { return false; }
      return r.toCompany in db.companies && db.companies[r.toCompany];
    }
  }

  /** How many rows each step of a purge touched. */
  datatype RetentionResult = RetentionResult(otps: nat, refresh: nat, resets: nat, transfers: nat, ips: nat)

  class RetentionService {
    const db: Database
    var running: bool

    constructor (db: Database)
      ensures this.db == db && !running
    {
      this.db := db;
      running := false;
    }

    /** Purges unless a purge is running. A failing step leaves its table alone and reports 0; each of the others
        deletes exactly what is old, or forgets exactly the old addresses, and reports how many that were. */
    method PurgeAll(failed: set<PurgeStep>, now: Time) returns (result: RetentionResult)
      modifies this`running, db`otps, db`refresh, db`resets, db`transfers, db`audit
      ensures running == old(running)
      ensures old(running) ==> db.Snapshot() == old(db.Snapshot()) && result == RetentionResult(0, 0, 0, 0, 0)
      ensures !old(running) ==> db.Snapshot() == Purge(old(db.Snapshot()), failed, now)
      ensures !old(running) ==>
        var gone := if OtpStep in failed then {} else Calls.OldCodes(old(db.otps), now);
        Calls.TakesAway(old(db.otps), db.otps, gone) && result.otps == |gone|
      ensures !old(running) ==>
        var gone := if RefreshStep in failed then {} else Calls.OldSessions(old(db.refresh), now);
        db.refresh == old(db.refresh) - gone && result.refresh == |gone|
      ensures !old(running) ==>
        var gone := if ResetStep in failed then {} else Calls.OldLinks(old(db.resets), now);
        db.resets == old(db.resets) - gone && result.resets == |gone|
      ensures !old(running) ==>
        var gone := if TransferStep in failed then {} else Calls.OldTransfers(old(db.transfers), now);
        db.transfers == old(db.transfers) - gone && result.transfers == |gone|
      ensures !old(running) ==>
        var gone := if AuditStep in failed then {} else Calls.OldAddresses(old(db.audit), now);
        Calls.Forgets(old(db.audit), db.audit, gone) && result.ips == |gone|
    {
      hide Purge, Calls.OldCodes, Calls.OldSessions, Calls.OldLinks, Calls.OldTransfers, Calls.OldAddresses, Calls.TakesAway, Calls.Forgets, Rows.Filter;
      if running { return RetentionResult(0, 0, 0, 0, 0); }
      running := true;
      result := RunSteps(failed, now);
      running := false;
      Calls.PurgeOnRows(old(db.Snapshot()), failed, now);
    }

    ghost predicate CountsWhatWent(result: RetentionResult, before: State, after: State, failed: set<PurgeStep>, now: Time) {
      && result.otps == |before.otps| - |after.otps| && result.refresh == |before.refresh| - |after.refresh|
      && result.resets == |before.resets| - |after.resets| && result.transfers == |before.transfers| - |after.transfers|
      && result.ips == if AuditStep in failed then 0 else |Rows.Filter(StaleIp(now - AUDIT_IP_KEEP), before.audit)|
    }

    method RunSteps(failed: set<PurgeStep>, now: Time) returns (result: RetentionResult)
      modifies db`otps, db`refresh, db`resets, db`transfers, db`audit
      ensures db.Snapshot() == Purge(old(db.Snapshot()), failed, now)
      ensures CountsWhatWent(result, old(db.Snapshot()), db.Snapshot(), failed, now)
    {
      hide Tables.Keep, Rows.Filter, Rows.Map, KeepsOtp, KeepsRefresh, KeepsReset, KeepsTransfer, StaleIp, ForgettingIps;
      var otps := StepOtps(failed, now - CREDENTIAL_GRACE);
      var refresh := StepRefresh(failed, now - CREDENTIAL_GRACE);
      var resets := StepResets(failed, now - CREDENTIAL_GRACE);
      var transfers := StepTransfers(failed, now - TRANSFER_KEEP);
      var ips := StepIps(failed, now - AUDIT_IP_KEEP);
      result := RetentionResult(otps, refresh, resets, transfers, ips);
    }

    method StepOtps(failed: set<PurgeStep>, cutoff: Time) returns (count: nat)
      modifies db`otps
      ensures db.Snapshot() == old(db.Snapshot()).(otps := if OtpStep in failed then old(db.otps) else Rows.Filter(KeepsOtp(cutoff), old(db.otps)))
      ensures count == |old(db.otps)| - |db.otps|
    {
      if OtpStep in failed { return 0; }
      count := db.DeleteOtps(KeepsOtp(cutoff));
    }

    method StepRefresh(failed: set<PurgeStep>, cutoff: Time) returns (count: nat)
      modifies db`refresh
      ensures db.Snapshot() == old(db.Snapshot()).(refresh := if RefreshStep in failed then old(db.refresh) else Tables.Keep(old(db.refresh), KeepsRefresh(cutoff)))
      ensures count == |old(db.refresh)| - |db.refresh|
    {
      if RefreshStep in failed { return 0; }
      count := db.DeleteRefresh(KeepsRefresh(cutoff));
    }

    method StepResets(failed: set<PurgeStep>, cutoff: Time) returns (count: nat)
      modifies db`resets
      ensures db.Snapshot() == old(db.Snapshot()).(resets := if ResetStep in failed then old(db.resets) else Tables.Keep(old(db.resets), KeepsReset(cutoff)))
      ensures count == |old(db.resets)| - |db.resets|
    {
      if ResetStep in failed { return 0; }
      count := db.DeleteResets(KeepsReset(cutoff));
    }

    method StepTransfers(failed: set<PurgeStep>, cutoff: Time) returns (count: nat)
      modifies db`transfers
      ensures db.Snapshot() == old(db.Snapshot()).(transfers := if TransferStep in failed then old(db.transfers) else Tables.Keep(old(db.transfers), KeepsTransfer(cutoff)))
      ensures count == |old(db.transfers)| - |db.transfers|
    {
      if TransferStep in failed { return 0; }
      count := db.DeleteTransfers(KeepsTransfer(cutoff));
    }

    method StepIps(failed: set<PurgeStep>, cutoff: Time) returns (count: nat)
      modifies db`audit
      ensures db.Snapshot() == old(db.Snapshot()).(audit := if AuditStep in failed then old(db.audit) else Rows.Map(ForgettingIps(cutoff), old(db.audit)))
      ensures count == if AuditStep in failed then 0 else |Rows.Filter(StaleIp(cutoff), old(db.audit))|
    {
      if AuditStep in failed { return 0; }
      count := ForgetIps(cutoff);
    }

    method ForgetIps(cutoff: Time) returns (count: nat)
      modifies db`audit
      ensures db.audit == Rows.Map(ForgettingIps(cutoff), old(db.audit))
      ensures count == |Rows.Filter(StaleIp(cutoff), old(db.audit))|
    {
      var rows := [];
      count := 0;
      for i := 0 to |db.audit|
        invariant db.audit == old(db.audit)
        invariant rows == Rows.Map(ForgettingIps(cutoff), db.audit[..i])
        invariant count == |Rows.Filter(StaleIp(cutoff), db.audit[..i])|
      {
        var a := db.audit[i];
        assert db.audit[..i + 1] == db.audit[..i] + [a];
        Rows.FilterAppend(StaleIp(cutoff), db.audit[..i], a);
        if a.createdAt < cutoff && a.ip.Some? {
          rows := rows + [a.(ip := None)];
          count := count + 1;
        } else {
          rows := rows + [a];
        }
      }
      assert db.audit[..|db.audit|] == db.audit;
      db.audit := rows;
    }
  }

  lemma KeepShrinks<K, V>(table: map<K, V>, p: V -> bool)
    ensures |Tables.Keep(table, p)| <= |table|
  {
    Tables.SubsetSize(Tables.Keep(table, p).Keys, table.Keys);
  }
}
