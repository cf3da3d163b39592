/** Sessions, links, accounts and the purge on plain rows: when a call goes through, what it answers, what it leaves. */
module CredentialCalls {
  import opened Base
  import Rows
  import Tables
  import Otp = OtpCodes
  import Ses = SessionTokens
  import Tr = Transfers
  import opened Credentials

  // ----- the nightly purge: what is old enough to go

  /** The places of the codes that expired or were used more than a day ago. */
  ghost function OldCodes(otps: seq<Otp.OtpRow>, now: Time): set<nat> {
    set i: nat | i < |otps| && (otps[i].expiresAt < now - 24 * 3600 * 1000
                                || (otps[i].usedAt.Some? && otps[i].usedAt.value < now - 24 * 3600 * 1000))
  }

  ghost function OldSessions(table: Ses.RefreshTable, now: Time): set<Token> {
    set k | k in table && (table[k].expiresAt < now - 24 * 3600 * 1000
                           || (table[k].revokedAt.Some? && table[k].revokedAt.value < now - 24 * 3600 * 1000))
  }

  ghost function OldLinks(table: Ses.ResetTable, now: Time): set<Token> {
    set k | k in table && (table[k].expiresAt < now - 24 * 3600 * 1000
                           || (table[k].usedAt.Some? && table[k].usedAt.value < now - 24 * 3600 * 1000))
  }

  /** Transfers are kept for 30 days after they expired or were answered. */
  ghost function OldTransfers(table: Tr.Table, now: Time): set<Token> {
    set k | k in table && (table[k].expiresAt < now - 30 * 24 * 3600 * 1000
                           || (table[k].acceptedAt.Some? && table[k].acceptedAt.value < now - 30 * 24 * 3600 * 1000)
                           || (table[k].declinedAt.Some? && table[k].declinedAt.value < now - 30 * 24 * 3600 * 1000))
  }

  /** The places of the audit entries older than 90 days that still hold an address. */
  ghost function OldAddresses(audit: seq<AuditRow>, now: Time): set<nat> {
    set i: nat | i < |audit| && audit[i].createdAt < now - 90 * 24 * 3600 * 1000 && audit[i].ip.Some?
  }

  /** The rows at these places are gone, the others are all there. */
  ghost predicate TakesAway(a: seq<Otp.OtpRow>, b: seq<Otp.OtpRow>, gone: set<nat>) {
    |b| == |a| - |gone| && forall o :: o in b <==> exists i: nat :: i < |a| && i !in gone && a[i] == o
  }

  /** The entries at these places have lost their address; nothing else about the entries changed. */
  ghost predicate Forgets(a: seq<AuditRow>, b: seq<AuditRow>, gone: set<nat>) {
    |b| == |a| && forall i: nat :: i < |a| ==> b[i] == if i in gone then a[i].(ip := None) else a[i]
  }

  /** The old codes go, and only they; the others stay in order. */
  lemma CodesPurged(otps: seq<Otp.OtpRow>, now: Time)
    ensures var left := Rows.Filter(KeepsOtp(now - CREDENTIAL_GRACE), otps);
      TakesAway(otps, left, OldCodes(otps, now)) && |left| == |otps| - |OldCodes(otps, now)|
  {
    var keeps := KeepsOtp(now - CREDENTIAL_GRACE);
    var goes := (o: Otp.OtpRow) => !keeps(o);
    Rows.FilterKeeps(keeps, otps);
    Rows.FiltersPart(keeps, goes, otps);
    Rows.FilterCounts(goes, otps);
    assert Rows.Places(goes, otps) == OldCodes(otps, now);
  }

  lemma CodesStayInOrder(otps: seq<Otp.OtpRow>, now: Time, stays: Otp.OtpRow -> bool)
    requires forall o :: stays(o) <==> o.expiresAt >= now - 24 * 3600 * 1000 && (o.usedAt.Some? ==> o.usedAt.value >= now - 24 * 3600 * 1000)
    ensures Rows.Filter(KeepsOtp(now - CREDENTIAL_GRACE), otps) == Rows.Filter(stays, otps)
  {
    Rows.FiltersAgree(stays, KeepsOtp(now - CREDENTIAL_GRACE), otps);
  }

  lemma SessionsPurged(table: Ses.RefreshTable, now: Time)
    ensures var left := Tables.Keep(table, KeepsRefresh(now - CREDENTIAL_GRACE));
      left == table - OldSessions(table, now) && |left| == |table| - |OldSessions(table, now)|
  {
    var keeps := KeepsRefresh(now - CREDENTIAL_GRACE);
    Tables.KeepCounts(table, keeps);
    assert Tables.Dropped(table, keeps) == OldSessions(table, now);
  }

  lemma LinksPurged(table: Ses.ResetTable, now: Time)
    ensures var left := Tables.Keep(table, KeepsReset(now - CREDENTIAL_GRACE));
      left == table - OldLinks(table, now) && |left| == |table| - |OldLinks(table, now)|
  {
    var keeps := KeepsReset(now - CREDENTIAL_GRACE);
    Tables.KeepCounts(table, keeps);
    assert Tables.Dropped(table, keeps) == OldLinks(table, now);
  }

  lemma TransfersPurged(table: Tr.Table, now: Time)
    ensures var left := Tables.Keep(table, KeepsTransfer(now - TRANSFER_KEEP));
      left == table - OldTransfers(table, now) && |left| == |table| - |OldTransfers(table, now)|
  {
    var keeps := KeepsTransfer(now - TRANSFER_KEEP);
    Tables.KeepCounts(table, keeps);
    assert Tables.Dropped(table, keeps) == OldTransfers(table, now);
  }

  lemma AddressesPurged(audit: seq<AuditRow>, now: Time)
    ensures var left := Rows.Map(ForgettingIps(now - AUDIT_IP_KEEP), audit);
      Forgets(audit, left, OldAddresses(audit, now)) && |Rows.Filter(StaleIp(now - AUDIT_IP_KEEP), audit)| == |OldAddresses(audit, now)|
  {
    var test := StaleIp(now - AUDIT_IP_KEEP);
    Rows.FilterCounts(test, audit);
    assert Rows.Places(test, audit) == OldAddresses(audit, now);
  }

  /** A purge takes from each table exactly what is old, unless its step fails, and touches nothing else. */
  lemma PurgeOnRows(s: State, failed: set<PurgeStep>, now: Time)
    ensures var t := Purge(s, failed, now);
      && t == s.(otps := t.otps, refresh := t.refresh, resets := t.resets, transfers := t.transfers, audit := t.audit)
      && (var gone := if OtpStep in failed then {} else OldCodes(s.otps, now);
          TakesAway(s.otps, t.otps, gone) && |t.otps| == |s.otps| - |gone|)
      && (var gone := if RefreshStep in failed then {} else OldSessions(s.refresh, now);
          t.refresh == s.refresh - gone && |t.refresh| == |s.refresh| - |gone|)
      && (var gone := if ResetStep in failed then {} else OldLinks(s.resets, now);
          t.resets == s.resets - gone && |t.resets| == |s.resets| - |gone|)
      && (var gone := if TransferStep in failed then {} else OldTransfers(s.transfers, now);
          t.transfers == s.transfers - gone && |t.transfers| == |s.transfers| - |gone|)
      && (var gone := if AuditStep in failed then {} else OldAddresses(s.audit, now);
          Forgets(s.audit, t.audit, gone))
    ensures |Rows.Filter(StaleIp(now - AUDIT_IP_KEEP), s.audit)| == |OldAddresses(s.audit, now)|
  {
    hide OldCodes, OldSessions, OldLinks, OldTransfers, OldAddresses, TakesAway, Forgets, Rows.Filter, Rows.Map, Tables.Keep;
    hide KeepsOtp, KeepsRefresh, KeepsReset, KeepsTransfer, StaleIp, ForgettingIps;
    NothingGone(s);
    CodesPurged(s.otps, now);
    SessionsPurged(s.refresh, now);
    LinksPurged(s.resets, now);
    TransfersPurged(s.transfers, now);
    AddressesPurged(s.audit, now);
  }

  lemma NothingGone(s: State)
    ensures TakesAway(s.otps, s.otps, {}) && Forgets(s.audit, s.audit, {})
  {
  }

  // ----- sessions

  /** A session is refreshed exactly if its token is stored, has not expired, was never revoked or at most a minute ago,
      and its user is active and not deleted. The token is then revoked, if it was not, and one new session stored. */
  lemma RefreshOnRows(s: State, raw: Option<Token>, token: Token, now: Time)
    ensures var r := Refresh(s, raw, token, now);
      && (forall u :: r.answer == SignedIn(u, token) <==>
            && raw.Some? && raw.value in s.refresh && s.refresh[raw.value].user == u
            && s.refresh[raw.value].expiresAt >= now
            && (s.refresh[raw.value].revokedAt.Some? ==> now - s.refresh[raw.value].revokedAt.value <= 60 * 1000)
            && u in s.users && s.users[u].active && !s.users[u].deleted)
      && (r.answer.SignedIn? ==>
            var row, lives := s.refresh[raw.value], if s.users[r.answer.user].role.Driver? then 90 * 24 * 3600 * 1000 else 30 * 24 * 3600 * 1000;
            r.answer.token == token
            && r.state.refresh == s.refresh[raw.value := row.(revokedAt := Some(row.revokedAt.GetOr(now)))]
                                           [token := Ses.RefreshRow(r.answer.user, now + lives, None)])
      && (!r.answer.SignedIn? ==>
            && r.answer == Denied(NoAccess)
            && r.state == s.(refresh := if raw.Some? && raw.value in s.refresh && s.refresh[raw.value].expiresAt >= now && s.refresh[raw.value].revokedAt.None?
                                        then s.refresh[raw.value := s.refresh[raw.value].(revokedAt := Some(now))] else s.refresh))
  {
  }

  /** A retry with the same token within the minute gets another session. */
  lemma RetryIsServed(s: State, raw: Token, first: Token, second: Token, now: Time, later: Time)
    requires Refresh(s, Some(raw), first, now).answer.SignedIn? && first != raw
    requires s.refresh[raw].revokedAt.None? && later - now <= 60 * 1000 && later <= s.refresh[raw].expiresAt
    ensures var user := s.refresh[raw].user;
      Refresh(Refresh(s, Some(raw), first, now).state, Some(raw), second, later).answer == SignedIn(user, second)
  {
  }

  lemma LogoutOnRows(s: State, raw: Option<Token>, now: Time)
    ensures var r := Logout(s, raw, now);
      && r.answer.Done?
      && r.state == s.(refresh := if raw.Some? && raw.value in s.refresh
                                  then s.refresh[raw.value := s.refresh[raw.value].(revokedAt := Some(now), expiresAt := now)] else s.refresh)
  {
  }

  /** One session more, for 90 days if the user drives and for 30 if not, and nothing else. */
  ghost predicate StoresSession(s: State, t: State, user: UserId, token: Token, now: Time) {
    && user in t.users
    && t == s.(users := t.users, minted := t.minted, refresh := s.refresh[token := Ses.RefreshRow(user,
                 if t.users[user].role.Driver? then now + 90 * 24 * 3600 * 1000 else now + 30 * 24 * 3600 * 1000, None)])
  }

  /** Signing in needs the e-mail and the password of an active user who is not deleted; everything else is refused and
      leaves no trace. */
  lemma LoginOnRows(s: State, email: Email, password: Password, token: Token, now: Time)
    requires UniqueUsers(s.users)
    ensures var r := Login(s, email, password, token, now);
      && (forall u :: r.answer == SignedIn(u, token) <==>
            u in s.users && s.users[u].email == Some(email) && s.users[u].password == Some(password) && s.users[u].active && !s.users[u].deleted)
      && (r.answer.SignedIn? ==> r.answer.token == token && r.state.users == s.users && StoresSession(s, r.state, r.answer.user, token, now))
      && (!r.answer.SignedIn? ==> r == Outcome(s, Denied(WrongLogin)))
  {
  }

  /** The administrators' door lets in administrators only, and tells them apart from a wrong password. */
  lemma AdminLoginOnRows(s: State, email: Email, password: Password, token: Token, now: Time)
    requires UniqueUsers(s.users)
    ensures var r := AdminLogin(s, email, password, token, now);
      && (forall u :: r.answer == SignedIn(u, token) <==>
            u in s.users && s.users[u].email == Some(email) && s.users[u].role.Admin? && s.users[u].password == Some(password))
      && (r.answer.SignedIn? ==> r.answer.token == token && r.state.users == s.users && StoresSession(s, r.state, r.answer.user, token, now))
      && (!r.answer.SignedIn? ==>
            r == Outcome(s, Denied(if exists u :: u in s.users && s.users[u].email == Some(email) && s.users[u].role.Admin? then WrongLogin else NoAccess)))
  {
  }

  /** A user's invite sets their password, a company's adds its team lead under an e-mail nobody has; either signs the
      user in. Without a known link nothing happens. */
  lemma InvitedUserOnRows(s: State, u: UserId, email: Email, password: Password, token: Token, now: Time)
    ensures var r := Register(s, Some(OfUser(u)), email, password, token, now);
      if u in s.users
      then r.answer == SignedIn(u, token) && StoresSession(s, r.state, u, token, now)
           && r.state.users == s.users[u := s.users[u].(password := Some(password))]
      else r == Outcome(s, Denied(LinkUnknown))
    ensures Register(s, None, email, password, token, now) == Outcome(s, Denied(LinkUnknown))
  {
  }

  lemma TeamLeadOnRows(s: State, company: CompanyId, u: UserId, email: Email, password: Password, token: Token, now: Time)
    ensures var r := Register(s, Some(OfCompany(company, u)), email, password, token, now);
      if u !in s.users && forall v :: v in s.users ==> s.users[v].email != Some(email)
      then r.answer == SignedIn(u, token) && StoresSession(s, r.state, u, token, now)
           && r.state.users == s.users[u := User(TeamLead, company, true, false, None, Some(email), Some(password), None)]
      else r == Outcome(s, Denied(EmailUsed))
  {
  }

  // ----- forgotten passwords

  /** A user with a password gets one link, for an hour, and the links they had are used up; nobody else gets one. */
  lemma AskResetOnRows(s: State, email: Email, token: Token, now: Time)
    requires UniqueUsers(s.users)
    ensures var r := RequestReset(s, email, token, now);
      && r.answer.Done? && r.state == s.(resets := r.state.resets, minted := r.state.minted)
      && (forall u :: u in s.users && s.users[u].email == Some(email) && s.users[u].password.Some? ==>
            r.state.resets == (map k | k in s.resets ::
              if s.resets[k].user == u && s.resets[k].usedAt.None? then s.resets[k].(usedAt := Some(now)) else s.resets[k])
              [token := Ses.ResetRow(u, now, now + 60 * 60 * 1000, None)])
      && ((forall u :: u in s.users && s.users[u].email == Some(email) ==> s.users[u].password.None?) ==> r.state == s)
  {
  }

  /** A link works exactly if it is stored, unused and not expired. It is used up, its user has the new password, and
      their unexpired sessions end. */
  lemma ResetOnRows(s: State, token: Token, password: Password, now: Time)
    ensures var r := ResetPassword(s, token, password, now);
      if token in s.resets && s.resets[token].usedAt.None? && s.resets[token].expiresAt >= now then
        var user := s.resets[token].user;
        && r.answer.Done? && r.state == s.(resets := r.state.resets, users := r.state.users, refresh := r.state.refresh)
        && r.state.resets == s.resets[token := s.resets[token].(usedAt := Some(now))]
        && r.state.users == (map u | u in s.users :: if u == user then s.users[u].(password := Some(password)) else s.users[u])
        && r.state.refresh == map k | k in s.refresh ::
             if s.refresh[k].user == user && s.refresh[k].expiresAt > now then s.refresh[k].(revokedAt := Some(now), expiresAt := now) else s.refresh[k]
      else r == Outcome(s, Denied(LinkInvalid))
  {
  }

  /** A reset link works once; from then on the new password signs the user in, and no other does. */
  lemma NewPasswordCounts(s: State, link: Token, password: Password, now: Time, user: UserId, again: Password, token: Token, later: Time)
    requires UniqueUsers(s.users) && ResetPassword(s, link, password, now).answer.Done?
    requires s.resets[link].user == user && user in s.users && s.users[user].active && !s.users[user].deleted && s.users[user].email.Some?
    ensures var t := ResetPassword(s, link, password, now).state;
      && Login(t, s.users[user].email.value, password, token, later).answer == SignedIn(user, token)
      && (again != password ==> Login(t, s.users[user].email.value, again, token, later) == Outcome(t, Denied(WrongLogin)))
      && ResetPassword(t, link, again, later) == Outcome(t, Denied(LinkInvalid))
  {
    var t := ResetPassword(s, link, password, now).state;
    ResetOnRows(s, link, password, now);
    LoginOnRows(t, s.users[user].email.value, password, token, later);
    LoginOnRows(t, s.users[user].email.value, again, token, later);
  }

  // ----- accounts

  lemma AccountsOnRows(s: State, user: UserId, now: Time)
    ensures var r := Activate(s, user);
      if user !in s.users then r == Outcome(s, Denied(UserNotFound))
      else if s.users[user].deleted then r == Outcome(s, Denied(AccountDeleted))
      else r == Outcome(s.(users := s.users[user := s.users[user].(active := true)]), Done)
    ensures var r := Deactivate(s, user, now);
      if user !in s.users then r == Outcome(s, Denied(UserNotFound))
      else r == Outcome(s.(users := s.users[user := s.users[user].(active := false)],
                           refresh := map k | k in s.refresh ::
                             if s.refresh[k].user == user && s.refresh[k].expiresAt > now
                             then s.refresh[k].(revokedAt := Some(now), expiresAt := now) else s.refresh[k]), Done)
  {
  }

  /** An account is deleted unless it is unknown, deleted already, or the company's last active administrator. The user
      leaves every truck and loses phone, e-mail and password; their codes, sessions and reset links go, nobody else's. */
  lemma DeletionOnRows(s: State, user: UserId)
    ensures var r := DeleteAccount(s, user);
      && (r.answer.Done? <==>
            && user in s.users && !s.users[user].deleted
            && (s.users[user].role.Admin? ==> exists u :: u in s.users && u != user && s.users[u].company == s.users[user].company
                                                       && s.users[u].role.Admin? && s.users[u].active && !s.users[u].deleted))
      && (!r.answer.Done? ==> r == Outcome(s, Denied(if user !in s.users then UserNotFound else if s.users[user].deleted then AccountDeleted else LastAdmin)))
      && (r.answer.Done? ==>
            && r.state.users == s.users[user := s.users[user].(active := false, deleted := true, phone := None, email := None, password := None)]
            && r.state.trucks == (map t | t in s.trucks :: if s.trucks[t].driver == Some(user) then s.trucks[t].(driver := None) else s.trucks[t])
            && r.state.refresh == (map k | k in s.refresh && s.refresh[k].user != user :: s.refresh[k])
            && r.state.resets == (map k | k in s.resets && s.resets[k].user != user :: s.resets[k])
            && (forall o :: o in r.state.otps <==> o in s.otps && o.user != user)
            && |r.state.otps| == |s.otps| - |set i: nat | i < |s.otps| && s.otps[i].user == user|)
  {
    var goes := (o: Otp.OtpRow) => o.user == user;
    Rows.FilterKeeps(Otp.NotOf(user), s.otps);
    Rows.FiltersPart(Otp.NotOf(user), goes, s.otps);
    Rows.FilterCounts(goes, s.otps);
    assert Rows.Places(goes, s.otps) == set i: nat | i < |s.otps| && s.otps[i].user == user;
  }

  // ----- asking for a sign-in code

  /** One more code, with no misses yet, and one audit entry unless `quiet`; nothing else. */
  ghost predicate StoresOne(s: State, r: Outcome, row: Otp.OtpRow, ip: Option<nat>, quiet: bool) {
    && r.answer.Done? && row.id == s.nextOtp && row.attempts == 0 && row.usedAt.None?
    && r.state == s.(otps := s.otps + [row], nextOtp := s.nextOtp + 1,
                     audit := if quiet then s.audit else s.audit + [AuditRow(row.createdAt, row.user, row.user, ip)])
  }

  /** A phone of no active driver gets the answer a driver would get, and no code. */
  lemma StrangersGetNoCode(s: State, phone: Option<Otp.Phone>, channel: Otp.Channel, via: Delivery, code: Otp.Code, ip: Option<nat>, now: Time)
    requires phone.None? || forall v :: v in s.users && s.users[v].phone == phone ==> !s.users[v].role.Driver? || !s.users[v].active
    ensures RequestOtp(s, phone, channel, via, code, ip, now) == Outcome(s, Done)
  {
  }

  /** An active driver gets a code for five minutes unless one was stored for the same channel within the last one. The
      review phone's counts as a text whatever was asked for, and is not recorded; without a provider nothing is stored. */
  lemma DriversGetACode(s: State, u: UserId, channel: Otp.Channel, via: Delivery, code: Otp.Code, ip: Option<nat>, now: Time)
    requires UniqueUsers(s.users) && u in s.users && s.users[u].phone.Some? && s.users[u].role.Driver? && s.users[u].active
    requires via.review || !channel.ViaManager?
    ensures var r, phone, on := RequestOtp(s, s.users[u].phone, channel, via, code, ip, now), s.users[u].phone.value, if via.review then Otp.Sms else channel;
      if !via.review && !via.enabled then r == Outcome(s, Done)
      else if exists o :: o in s.otps && o.phone == phone && o.channel == on && o.createdAt > now - 60 * 1000 then r == Outcome(s, Denied(PleaseWait))
      else StoresOne(s, r, Otp.OtpRow(s.nextOtp, phone, code, u, now, now + 5 * 60 * 1000, 0, None, on, None, false), ip, via.review)
  {
    assert UserByPhone(s.users, s.users[u].phone.value) == Some(u);
    hide UniqueUsers, UserByPhone, RequestViaManager, StoresAtMostOne;
  }

  /** Asking the manager: the driver's truck has a manager who is active, of the driver's company and can be reached by
      mail or by the button. They get a request, which is a code for fifteen minutes that says so. */
  lemma ManagersAreAsked(s: State, u: UserId, t: TruckId, via: Delivery, code: Otp.Code, ip: Option<nat>, now: Time)
    requires UniqueUsers(s.users) && u in s.users && s.users[u].phone.Some? && s.users[u].role.Driver? && s.users[u].active
    requires UniqueDrivers(s.trucks) && !via.review && via.enabled && t in s.trucks && s.trucks[t].driver == Some(u)
    ensures var r, phone := RequestOtp(s, s.users[u].phone, Otp.ViaManager, via, code, ip, now), s.users[u].phone.value;
      var reached := s.trucks[t].manager.Some? && s.trucks[t].manager.value in s.users
        && var m := s.users[s.trucks[t].manager.value];
           m.active && m.company == s.users[u].company && ((via.managerEmail && m.email.Some?) || via.managerButton);
      if !reached then r == Outcome(s, Done)
      else if exists o :: o in s.otps && o.phone == phone && o.channel == Otp.ViaManager && o.createdAt > now - 60 * 1000 then r == Outcome(s, Denied(PleaseWait))
      else StoresOne(s, r, Otp.OtpRow(s.nextOtp, phone, code, u, now, now + 15 * 60 * 1000, 0, None, Otp.ViaManager, s.trucks[t].manager, true), ip, false)
  {
    assert UserByPhone(s.users, s.users[u].phone.value) == Some(u);
    assert TruckOf(s.trucks, u) == Some(t);
    hide UniqueUsers, UniqueDrivers, UserByPhone, TruckOf, StoresAtMostOne;
  }

  lemma NoTruckNoManager(s: State, u: UserId, via: Delivery, code: Otp.Code, ip: Option<nat>, now: Time)
    requires UniqueUsers(s.users) && u in s.users && s.users[u].phone.Some? && !via.review
    requires !via.enabled || forall t :: t in s.trucks ==> s.trucks[t].driver != Some(u)
    ensures RequestOtp(s, s.users[u].phone, Otp.ViaManager, via, code, ip, now) == Outcome(s, Done)
  {
    assert UserByPhone(s.users, s.users[u].phone.value) == Some(u);
    hide UniqueUsers, UserByPhone, StoresAtMostOne;
  }

  /** An unused, unexpired request of the driver to the manager. */
  ghost predicate IsRequest(o: Otp.OtpRow, driver: UserId, manager: UserId, now: Time) {
    o.user == driver && o.issuedBy == Some(manager) && o.driverRequest && o.usedAt.None? && o.expiresAt > now
  }

  /** The manager mints a code exactly if the feature is on, they are active and manage the driver's truck in the
      driver's company, the driver is active, and an unused, unexpired request of the driver to them is stored. The code
      lives fifteen minutes; the requests are closed, and no other code changes. */
  lemma MintingOnRows(s: State, requester: UserId, driver: UserId, feature: bool, code: Otp.Code, ip: Option<nat>, now: Time, t: TruckId)
    requires UniqueDrivers(s.trucks) && t in s.trucks && s.trucks[t].driver == Some(driver)
    ensures var r := IssueLoginCode(s, requester, driver, feature, code, ip, now);
      var manages := requester in s.users && s.users[requester].active && driver in s.users && s.users[driver].role.Driver?
        && s.trucks[t].manager == Some(requester) && s.users[driver].company == s.users[requester].company;
      if !feature then r == Outcome(s, Denied(FeatureDisabled))
      else if !manages then r == Outcome(s, Denied(NotAssignedManager))
      else if !s.users[driver].active || s.users[driver].deleted || s.users[driver].phone.None? then r == Outcome(s, Denied(DriverNotActive))
      else if forall o :: o in s.otps ==> !IsRequest(o, driver, requester, now) then r == Outcome(s, Denied(NoLoginCodeRequest))
      else
        && r.answer == LoginCode(code, now + 15 * 60 * 1000)
        && |r.state.otps| == |s.otps| + 1 && r.state.nextOtp == s.nextOtp + 1
        && r.state.otps[|s.otps|] == Otp.OtpRow(s.nextOtp, s.users[driver].phone.value, code, driver, now, now + 15 * 60 * 1000, 0, None,
                                                 Otp.ViaManager, Some(requester), false)
        && r.state.audit == s.audit + [AuditRow(now, driver, requester, ip)]
        && forall i :: 0 <= i < |s.otps| ==>
             var o := s.otps[i];
             r.state.otps[i] == if o.user == driver && o.issuedBy == Some(requester) && o.driverRequest && o.usedAt.None? then o.(driverRequest := false) else o
  {
    assert TruckOf(s.trucks, driver) == Some(t);
    RequestIsOpen(s.otps, driver, requester, now);
    hide UniqueDrivers, TruckOf, Otp.OpenRequest;
  }

  lemma RequestIsOpen(otps: seq<Otp.OtpRow>, driver: UserId, manager: UserId, now: Time)
    ensures Otp.OpenRequest(otps, driver, manager, now).None? <==> forall o :: o in otps ==> !IsRequest(o, driver, manager, now)
  {
    var open := Rows.Filter(Otp.OpenRequestTest(driver, manager, now), otps);
    Rows.FilterKeeps(Otp.OpenRequestTest(driver, manager, now), otps);
    if open != [] { assert open[0] in open; }
  }

  /** What the manager sees is until when the newest of those requests runs; others, and a driver without a truck,
      have none to see, and no code can be minted for such a driver. */
  lemma RequestsSeen(s: State, requester: UserId, driver: UserId, feature: bool, code: Otp.Code, ip: Option<nat>, now: Time)
    requires UniqueDrivers(s.trucks)
    ensures var r := LoginCodeRequest(s, requester, driver, feature, now);
      && r.state == s && r.answer.Request?
      && (r.answer.until.Some? ==> exists i :: 0 <= i < |s.otps| && IsRequest(s.otps[i], driver, requester, now) && s.otps[i].expiresAt == r.answer.until.value
                                               && forall j :: i < j < |s.otps| ==> !IsRequest(s.otps[j], driver, requester, now))
      && (r.answer.until.None? <==>
            || !feature || requester !in s.users || !s.users[requester].active || driver !in s.users || !s.users[driver].role.Driver?
            || s.users[driver].company != s.users[requester].company
            || (forall t :: t in s.trucks && s.trucks[t].driver == Some(driver) ==> s.trucks[t].manager != Some(requester))
            || forall i :: 0 <= i < |s.otps| ==> !IsRequest(s.otps[i], driver, requester, now))
    ensures feature && (forall t :: t in s.trucks ==> s.trucks[t].driver != Some(driver)) ==>
              IssueLoginCode(s, requester, driver, feature, code, ip, now) == Outcome(s, Denied(NotAssignedManager))
  {
    var test := Otp.OpenRequestTest(driver, requester, now);
    RequestIsOpen(s.otps, driver, requester, now);
    if Rows.Filter(test, s.otps) != [] { Rows.LastSelected(test, s.otps); }
    hide Rows.Filter;
  }

  // ----- moving between companies

  /** A consent link can be shown, accepted and declined while it is unanswered, not expired, its driver is still a
      driver of the company they would leave, and the other company is open; otherwise all three are refused. */
  lemma LinksOnRows(s: State, token: Token, now: Time)
    ensures var show, accept, decline := LookupTransfer(s, token, now), AcceptTransfer(s, token, now), DeclineTransfer(s, token, now);
      if && token in s.transfers && s.transfers[token].acceptedAt.None? && s.transfers[token].declinedAt.None? && s.transfers[token].expiresAt > now
         && s.transfers[token].driver in s.users && s.users[s.transfers[token].driver].role.Driver? && !s.users[s.transfers[token].driver].deleted
         && s.users[s.transfers[token].driver].company == s.transfers[token].fromCompany
         && s.transfers[token].toCompany in s.companies && s.companies[s.transfers[token].toCompany]
      then
        var r := s.transfers[token];
        && show == Outcome(s, Consent(r.driver, r.fromCompany, r.toCompany, r.expiresAt))
        && accept.answer == Moved(r.toCompany)
        && decline == Outcome(s.(transfers := s.transfers[token := r.(declinedAt := Some(now))]), Done)
      else
        show == accept == decline == Outcome(s, Denied(TransferInvalid))
  {
  }

  function Accepted(k: Token, row: Tr.Transfer, token: Token, driver: UserId, now: Time): Tr.Transfer {
    if k == token then row.(acceptedAt := Some(now))
    else if row.driver == driver && row.acceptedAt.None? && row.declinedAt.None? then row.(expiresAt := now)
    else row
  }

  lemma AcceptedLink(table: Tr.Table, token: Token, now: Time, k: Token)
    requires token in table && k in table
    ensures k in Tr.Accept(table, token, now)
    ensures Tr.Accept(table, token, now)[k] == Accepted(k, table[k], token, table[token].driver, now)
  {
    if k != token {
      var x, moot := table[k], Tr.Mooting(table[token].driver, token, now);
      assert Tr.IsUndecided(x) <==> x.acceptedAt.None? && x.declinedAt.None?;
      if x.driver == table[token].driver && Tr.IsUndecided(x) {
        assert moot(k, x) == x.(expiresAt := now);
      } else {
        assert moot(k, x) == x;
      }
    }
  }

  lemma AcceptedLinks(table: Tr.Table, token: Token, now: Time)
    requires token in table
    ensures Tr.Accept(table, token, now) == map k | k in table :: Accepted(k, table[k], token, table[token].driver, now)
  {
    assert table[token := table[token].(acceptedAt := Some(now))].Keys == table.Keys;
    assert Tr.Accept(table, token, now).Keys == table.Keys;
    hide Accepted, Tr.Accept;
    forall k | k in table ensures Tr.Accept(table, token, now)[k] == Accepted(k, table[k], token, table[token].driver, now) {
      AcceptedLink(table, token, now, k);
    }
  }

  /** Accepting: the driver leaves every truck and belongs to the new company, switched on, under whoever asked for them
      if that user is still there; the link is accepted, the driver's other unanswered links end, nothing else changes. */
  lemma AcceptOnRows(s: State, token: Token, now: Time)
    requires AcceptTransfer(s, token, now).answer.Moved?
    ensures var t, r := AcceptTransfer(s, token, now).state, s.transfers[token];
      && t == s.(users := t.users, trucks := t.trucks, transfers := t.transfers, moves := s.moves + [Move(r.driver, r.fromCompany, r.toCompany, token)])
      && r.driver in s.users
      && t.users == s.users[r.driver := s.users[r.driver].(company := r.toCompany, active := true,
           manager := if r.requestedBy in s.users && s.users[r.requestedBy].company == r.toCompany && !s.users[r.requestedBy].deleted
                      then Some(r.requestedBy) else None)]
      && t.trucks == (map k | k in s.trucks :: if s.trucks[k].driver == Some(r.driver) then s.trucks[k].(driver := None) else s.trucks[k])
      && t.transfers == map k | k in s.transfers :: Accepted(k, s.transfers[k], token, r.driver, now)
  {
    AcceptedLinks(s.transfers, token, now);
    hide Tr.Accept;
  }

  /** Adding a driver by a phone nobody has makes a new account; a phone of the same company is refused, and for a
      driver of another company a transfer may be asked for. */
  lemma DriversOnRows(s: State, phone: Otp.Phone, password: Option<Password>, company: CompanyId, creator: UserId, newUser: UserId,
                      token: Token, stays: bool, now: Time)
    requires UniqueUsers(s.users)
    ensures var r := AddDriver(s, phone, password, company, creator, newUser, token, stays, now);
      && ((forall u :: u in s.users ==> s.users[u].phone != Some(phone)) ==>
            if newUser in s.users then r == Outcome(s, Denied(PhoneUsed))
            else r == Outcome(s.(users := s.users[newUser := User(Driver, company, true, false, Some(phone), None, password, Some(creator))]), Done))
      && (forall u :: u in s.users && s.users[u].phone == Some(phone) ==>
            if s.users[u].company == company then r == Outcome(s, Denied(PhoneUsed))
            else if s.users[u].role.Driver? then r == Outcome(RequestTransfer(s, u, company, creator, token, stays, now), Done)
            else r == Outcome(s, Done))
  {
    hide RequestTransfer;
  }

  /** A text goes out unless the pair has an open link from the last ten minutes, or five links of the driver or twenty
      of the company were made in the last day. */
  lemma TextsOnRows(table: Tr.Table, driver: UserId, company: CompanyId, now: Time)
    ensures Tr.MayText(table, driver, company, now) <==>
      && !(exists k :: k in table && table[k].driver == driver && table[k].toCompany == company && table[k].acceptedAt.None?
                       && table[k].declinedAt.None? && table[k].expiresAt > now && table[k].createdAt > now - 10 * 60 * 1000)
      && |set k | k in table && table[k].driver == driver && table[k].createdAt > now - 24 * 3600 * 1000| < 5
      && |set k | k in table && table[k].toCompany == company && table[k].createdAt > now - 24 * 3600 * 1000| < 20
  {
    assert Tr.OfDriver(table, driver, now) == set k | k in table && table[k].driver == driver && table[k].createdAt > now - 24 * 3600 * 1000;
    assert Tr.OfCompany(table, company, now) == set k | k in table && table[k].toCompany == company && table[k].createdAt > now - 24 * 3600 * 1000;
    hide Tr.OfDriver, Tr.OfCompany;
  }

  /** Then the pair's unanswered links end, and if the request stays it is one new link, open for a day. */
  lemma TransferRequestOnRows(s: State, driver: UserId, company: CompanyId, asker: UserId, token: Token, stays: bool, now: Time)
    requires driver in s.users
    ensures var t := RequestTransfer(s, driver, company, asker, token, stays, now);
      if !Tr.MayText(s.transfers, driver, company, now) then t == s
      else
        var ended := map k | k in s.transfers ::
          if s.transfers[k].driver == driver && s.transfers[k].toCompany == company && s.transfers[k].acceptedAt.None? && s.transfers[k].declinedAt.None?
          then s.transfers[k].(expiresAt := now) else s.transfers[k];
        && t == s.(transfers := t.transfers, minted := s.minted + {token},
                   requests := if stays then s.requests[token := Asked(driver, company, now)] else s.requests)
        && t.transfers == if stays then ended[token := Tr.Transfer(driver, s.users[driver].company, company, asker, now, now + 24 * 3600 * 1000, None, None)]
                          else ended
  {
    hide Tr.MayText;
  }
}
