/** The nightly purge deletes only rows that no later call can tell from missing ones. */
module PurgeInvisible {
  import opened Base
  import Rows
  import Tables
  import Otp = OtpCodes
  import Ses = SessionTokens
  import Tr = Transfers
  import opened Credentials
  import opened TableMoves

  // ----- what every reachable state keeps about its rows

  predicate OtpStamps(o: Otp.OtpRow, clock: Time) {
    o.createdAt <= clock && o.createdAt <= o.expiresAt && (o.usedAt.Some? ==> o.createdAt <= o.usedAt.value)
  }

  predicate ResetStamps(r: Ses.ResetRow, clock: Time) {
    r.createdAt <= clock && r.createdAt <= r.expiresAt && (r.usedAt.Some? ==> r.createdAt <= r.usedAt.value)
  }

  predicate TransferStamps(r: Tr.Transfer, clock: Time) {
    && r.createdAt <= clock && r.createdAt <= r.expiresAt
    && (r.acceptedAt.Some? ==> r.createdAt <= r.acceptedAt.value)
    && (r.declinedAt.Some? ==> r.createdAt <= r.declinedAt.value)
  }

  ghost predicate StampedOtps(otps: seq<Otp.OtpRow>, clock: Time) {
    forall o :: o in otps ==> OtpStamps(o, clock)
  }

  ghost predicate StampedResets(resets: Ses.ResetTable, clock: Time) {
    forall k :: k in resets ==> ResetStamps(resets[k], clock)
  }

  ghost predicate StampedTransfers(transfers: Tr.Table, clock: Time) {
    forall k :: k in transfers ==> TransferStamps(transfers[k], clock)
  }

  /** No row expires, is used or is answered before it was created. */
  ghost predicate Stamped(s: State) {
    StampedOtps(s.otps, s.clock) && StampedResets(s.resets, s.clock) && StampedTransfers(s.transfers, s.clock)
  }

  lemma StampedUpdate(otps: seq<Otp.OtpRow>, u: Otp.Update, now: Time)
    requires StampedOtps(otps, now)
    ensures StampedOtps(Otp.UpdateMany(otps, u, now), now)
  {
    var updated := Otp.UpdateMany(otps, u, now);
    forall o | o in updated ensures OtpStamps(o, now) {
      var i :| 0 <= i < |updated| && updated[i] == o;
      assert otps[i] in otps;
    }
  }

  lemma StampedCheck(otps: seq<Otp.OtpRow>, phone: Otp.Phone, check: Otp.Check, accepted: bool, now: Time)
    requires StampedOtps(otps, now)
    ensures StampedOtps(Otp.AfterCheck(otps, phone, check, accepted, now), now)
  {
    hide StampedOtps;
    if !check.NoCode? {
      var locked := Otp.UpdateMany(otps, Otp.Lock(check.lock), now);
      StampedUpdate(otps, Otp.Lock(check.lock), now);
      StampedUpdate(locked, if check.Wrong? then Otp.Count(check.counted) else Otp.Burn(phone), now);
    }
  }

  lemma StampedStepOtps(s: State, c: Call)
    requires StampedOtps(s.otps, s.clock) && CanHappen(s, c)
    ensures StampedOtps(Step(s, c).state.otps, c.at)
  {
    hide Step, OtpMoveOf, Otp.CheckCode, Otp.AfterCheck, Otp.UpdateMany;
    CodesMove(s, c);
    var now, mv := c.at, OtpMoveOf(s, c);
    match mv
    case KeepCodes =>
    case StoreCode(_) =>
    case MintCode(o) => StampedUpdate(s.otps + [o], Otp.CloseRequests(o.user, o.issuedBy.value), now);
    case CheckCodes(phone, check, accepted) => StampedCheck(s.otps, phone, check, accepted, now);
    case DeleteCodes(user) => Rows.FilterKeeps(Otp.NotOf(user), s.otps);
    case SweepCodes(cutoff) => Rows.FilterKeeps(KeepsOtp(cutoff), s.otps);
  }

  lemma StampedStepLinks(s: State, c: Call)
    requires StampedTransfers(s.transfers, s.clock) && CanHappen(s, c)
    ensures StampedTransfers(Step(s, c).state.transfers, c.at)
  {
    hide Step, LinkMoveOf, CanAnswer, Tr.MayText;
    LinksMove(s, c);
  }

  lemma StampedResetsInSession(s: State, op: SessionOp, now: Time)
    requires StampedResets(s.resets, now)
    ensures StampedResets(SessionsEffect(s, op, now).state.resets, now)
  {
    hide Login, AdminLogin, Register, Refresh, Logout, UserByEmail, Ses.EndSessions;
  }

  lemma StampedKeep(resets: Ses.ResetTable, p: Ses.ResetRow -> bool, clock: Time)
    requires StampedResets(resets, clock)
    ensures StampedResets(Tables.Keep(resets, p), clock)
  {
  }

  lemma StampedResetsByAccount(s: State, op: AccountOp, now: Time)
    requires StampedResets(s.resets, now)
    ensures StampedResets(AccountsEffect(s, op, now).state.resets, now)
  {
    hide StampedResets, Tables.Keep, Activate, HasOtherAdmin, ReleaseTruck, Otp.DeleteOf, Ses.RefreshNotOf, Ses.ResetNotOf, Ses.EndSessions;
    if op.Erase? {
      StampedKeep(s.resets, Ses.ResetNotOf(op.user), now);
    }
  }

  lemma StampedResetsByPurge(s: State, failed: set<PurgeStep>, now: Time)
    requires StampedResets(s.resets, now)
    ensures StampedResets(Purge(s, failed, now).resets, now)
  {
    hide StampedResets, Tables.Keep, Rows.Filter, Rows.Map;
    StampedKeep(s.resets, KeepsReset(now - CREDENTIAL_GRACE), now);
  }

  lemma StampedStepResets(s: State, c: Call)
    requires StampedResets(s.resets, s.clock) && CanHappen(s, c)
    ensures StampedResets(Step(s, c).state.resets, c.at)
  {
    hide CodesEffect, SessionsEffect, TransfersEffect, AccountsEffect, Purge;
    match c.op
    case OnSessions(op) => StampedResetsInSession(s, op, c.at);
    case OnAccounts(op) => StampedResetsByAccount(s, op, c.at);
    case DoPurge(failed) => StampedResetsByPurge(s, failed, c.at);
    case _ =>
  }

  lemma StampedStep(s: State, c: Call)
    requires Stamped(s) && CanHappen(s, c)
    ensures Stamped(Step(s, c).state)
  {
    hide Effect, StampedOtps, StampedResets, StampedTransfers;
    StampedStepOtps(s, c);
    StampedStepResets(s, c);
    StampedStepLinks(s, c);
  }

  // ----- states no later call tells apart

  ghost predicate Same(a: State, b: State, at: Time) {
    && a.users == b.users && a.companies == b.companies && a.trucks == b.trucks
    && a.nextOtp == b.nextOtp && a.minted == b.minted && a.requests == b.requests && a.moves == b.moves
    && Otp.Alive(a.otps, at) == Otp.Alive(b.otps, at)
    && Ses.RefreshAgree(a.refresh, b.refresh, at)
    && Ses.ResetAgree(a.resets, b.resets, at)
    && Tr.Agree(a.transfers, b.transfers, at)
  }

  lemma SameAges(a: State, b: State, at: Time, now: Time)
    requires Same(a, b, at) && at < now
    ensures Same(a, b, now)
  {
    Otp.AliveAges(a.otps, at, now);
    Otp.AliveAges(b.otps, at, now);
    Ses.RefreshAges(a.refresh, b.refresh, at, now);
    Ses.ResetAges(a.resets, b.resets, at, now);
    Tr.Ages(a.transfers, b.transfers, at, now);
  }

  lemma SameReads(a: State, b: State, phone: Otp.Phone, channel: Otp.Channel, driver: UserId, manager: UserId, now: Time)
    requires Same(a, b, now)
    ensures Otp.CoolingDown(a.otps, phone, channel, now) == Otp.CoolingDown(b.otps, phone, channel, now)
    ensures Otp.OpenRequest(a.otps, driver, manager, now) == Otp.OpenRequest(b.otps, driver, manager, now)
  {
    Otp.CooldownSeesAliveOnly(a.otps, phone, channel, now, now);
    Otp.CooldownSeesAliveOnly(b.otps, phone, channel, now, now);
    Otp.RequestSeesAliveOnly(a.otps, driver, manager, now, now);
    Otp.RequestSeesAliveOnly(b.otps, driver, manager, now, now);
  }

  lemma SameAfterStore(a: State, b: State, o: Otp.OtpRow, now: Time)
    requires Same(a, b, now)
    ensures Otp.Alive(a.otps + [o], now) == Otp.Alive(b.otps + [o], now)
  {
    Otp.AliveThroughStore(a.otps, o, now, now);
    Otp.AliveThroughStore(b.otps, o, now, now);
  }

  lemma SameAfterUpdate(a: seq<Otp.OtpRow>, b: seq<Otp.OtpRow>, u: Otp.Update, now: Time)
    requires Otp.Alive(a, now) == Otp.Alive(b, now)
    ensures Otp.Alive(Otp.UpdateMany(a, u, now), now) == Otp.Alive(Otp.UpdateMany(b, u, now), now)
  {
    Otp.AliveThroughUpdate(a, u, now, now);
    Otp.AliveThroughUpdate(b, u, now, now);
  }

  ghost predicate SameOutcome(x: Outcome, y: Outcome, now: Time) {
    Same(x.state, y.state, now) && x.answer == y.answer
  }

  lemma SameViaManager(a: State, b: State, driver: UserId, phone: Otp.Phone, via: Delivery, code: Otp.Code, ip: Option<nat>, now: Time)
    requires Same(a, b, now) && driver in a.users
    ensures SameOutcome(RequestViaManager(a, driver, phone, via, code, ip, now), RequestViaManager(b, driver, phone, via, code, ip, now), now)
  {
    hide Ses.RefreshAgree, Ses.ResetAgree, Tr.Agree, Otp.Alive, Otp.CoolingDown, Otp.OpenRequest, TruckOf;
    SameReads(a, b, phone, Otp.ViaManager, 0, 0, now);
    var manager := TruckManager(a, driver);
    SameAfterStore(a, b, Otp.OtpRow(a.nextOtp, phone, code, driver, now, now + Otp.MANAGER_CODE_TTL, 0, None, Otp.ViaManager, manager, true), now);
  }

  lemma SameRequestOtp(a: State, b: State, phone: Option<Otp.Phone>, channel: Otp.Channel, via: Delivery, code: Otp.Code, ip: Option<nat>, now: Time)
    requires Same(a, b, now)
    ensures SameOutcome(RequestOtp(a, phone, channel, via, code, ip, now), RequestOtp(b, phone, channel, via, code, ip, now), now)
  {
    hide Ses.RefreshAgree, Ses.ResetAgree, Tr.Agree, Otp.Alive, Otp.CoolingDown, Otp.OpenRequest, UserByPhone, RequestViaManager;
    if phone.Some? {
      var driver := UserByPhone(a.users, phone.value);
      if driver.Some? {
        SameReads(a, b, phone.value, channel, 0, 0, now);
        SameReads(a, b, phone.value, Otp.Sms, 0, 0, now);
        SameViaManager(a, b, driver.value, phone.value, via, code, ip, now);
        var c := if via.review then Otp.Sms else channel;
        SameAfterStore(a, b, Otp.OtpRow(a.nextOtp, phone.value, code, driver.value, now, now + Otp.OTP_TTL, 0, None, c, None, false), now);
      }
    }
  }

  lemma SameIssue(a: State, b: State, requester: UserId, driver: UserId, feature: bool, code: Otp.Code, ip: Option<nat>, now: Time)
    requires Same(a, b, now)
    ensures SameOutcome(IssueLoginCode(a, requester, driver, feature, code, ip, now), IssueLoginCode(b, requester, driver, feature, code, ip, now), now)
  {
    hide Ses.RefreshAgree, Ses.ResetAgree, Tr.Agree, Otp.Alive;
    SameReads(a, b, 0, Otp.Sms, driver, requester, now);
    if feature && ManagesDriver(a, requester, driver) && a.users[driver].phone.Some? {
      var o := Otp.OtpRow(a.nextOtp, a.users[driver].phone.value, code, driver, now, now + Otp.MANAGER_CODE_TTL, 0, None, Otp.ViaManager, Some(requester), false);
      SameAfterStore(a, b, o, now);
      SameAfterUpdate(a.otps + [o], b.otps + [o], Otp.CloseRequests(driver, requester), now);
    }
  }

  lemma SameSignToken(a: State, b: State, user: UserId, token: Token, now: Time)
    requires Same(a, b, now) && user in a.users
    ensures SameOutcome(SignToken(a, user, token, now), SignToken(b, user, token, now), now)
  {
    hide Ses.RefreshAgree, Ses.ResetAgree, Tr.Agree, Otp.Alive, Ses.Issue;
    Ses.RefreshThroughRotate(a.refresh, b.refresh, 0, token, user, a.users[user].role.Driver?, now);
  }

  lemma SameCodesChecked(a: State, b: State, phone: Otp.Phone, check: Otp.Check, accepted: bool, now: Time)
    requires Same(a, b, now)
    ensures Same(a.(otps := Otp.AfterCheck(a.otps, phone, check, accepted, now)),
                 b.(otps := Otp.AfterCheck(b.otps, phone, check, accepted, now)), now)
  {
    hide Ses.RefreshAgree, Ses.ResetAgree, Tr.Agree, Otp.Alive, Otp.AfterCheck;
    Otp.AliveThroughCheck(a.otps, phone, check, accepted, now, now);
    Otp.AliveThroughCheck(b.otps, phone, check, accepted, now, now);
  }

  lemma SameRecorded(a: State, b: State, user: UserId, ip: Option<nat>, now: Time)
    requires Same(a, b, now)
    ensures Same(Record(a, user, user, ip, now), Record(b, user, user, ip, now), now)
  {
    hide Ses.RefreshAgree, Ses.ResetAgree, Tr.Agree, Otp.Alive;
  }

  lemma SameConclude(a: State, b: State, phone: Otp.Phone, check: Otp.Check, token: Token, ip: Option<nat>, now: Time)
    requires Same(a, b, now)
    ensures SameOutcome(Conclude(a, phone, check, token, ip, now), Conclude(b, phone, check, token, ip, now), now)
  {
    var accepted := MaySignIn(a, check);
    assert a.users == b.users;
    hide Same, Otp.AfterCheck, SignToken, Record;
    SameCodesChecked(a, b, phone, check, accepted, now);
    if accepted {
      var user := check.row.user;
      var a' := a.(otps := Otp.AfterCheck(a.otps, phone, check, true, now));
      var b' := b.(otps := Otp.AfterCheck(b.otps, phone, check, true, now));
      SameRecorded(a', b', user, ip, now);
      assert user in Record(a', user, user, ip, now).users;
      SameSignToken(Record(a', user, user, ip, now), Record(b', user, user, ip, now), user, token, now);
    }
  }

  lemma SameVerify(a: State, b: State, phone: Option<Otp.Phone>, code: Otp.Code, token: Token, ip: Option<nat>, now: Time)
    requires Same(a, b, now)
    ensures SameOutcome(VerifyOtp(a, phone, code, token, ip, now), VerifyOtp(b, phone, code, token, ip, now), now)
  {
    hide Ses.RefreshAgree, Ses.ResetAgree, Tr.Agree, Otp.Alive, Otp.CheckCode, Conclude;
    if phone.Some? {
      Otp.CheckSeesAliveOnly(a.otps, phone.value, code, now, now);
      Otp.CheckSeesAliveOnly(b.otps, phone.value, code, now, now);
      SameConclude(a, b, phone.value, Otp.CheckCode(a.otps, phone.value, code, now), token, ip, now);
    }
  }

  lemma SameRefresh(a: State, b: State, raw: Option<Token>, token: Token, at: Time, now: Time)
    requires Same(a, b, at) && at < now
    ensures SameOutcome(Refresh(a, raw, token, now), Refresh(b, raw, token, now), now)
  {
    SameAges(a, b, at, now);
    Ses.RefreshAges(a.refresh, b.refresh, at, now);
    hide Same, Refresh, SameOutcome;
    if raw.Some? && Ses.CanRefresh(a.refresh, raw.value, now) {
      SameRotation(a, b, raw.value, token, now);
    } else {
      RefusedRefresh(a, b, raw, token, now);
    }
  }

  lemma RefusedRefresh(a: State, b: State, raw: Option<Token>, token: Token, now: Time)
    requires Same(a, b, now) && (raw.Some? ==> !Ses.CanRefresh(a.refresh, raw.value, now) && !Ses.CanRefresh(b.refresh, raw.value, now))
    ensures SameOutcome(Refresh(a, raw, token, now), Refresh(b, raw, token, now), now)
  {
    hide Same, Ses.CanRefresh;
  }

  lemma SameRotation(a: State, b: State, raw: Token, token: Token, now: Time)
    requires Same(a, b, now) && Ses.CanRefresh(a.refresh, raw, now) && Ses.CanRefresh(b.refresh, raw, now) && a.refresh[raw] == b.refresh[raw]
    ensures SameOutcome(Refresh(a, Some(raw), token, now), Refresh(b, Some(raw), token, now), now)
  {
    hide Ses.RefreshAgree, Ses.ResetAgree, Tr.Agree, Otp.Alive, Ses.Rotate, SignToken;
    var user := a.refresh[raw].user;
    Ses.RefreshThroughRotate(a.refresh, b.refresh, raw, token, user, false, now);
    var (a1, b1) := (a.(refresh := Ses.Rotate(a.refresh, raw, now)), b.(refresh := Ses.Rotate(b.refresh, raw, now)));
    assert Same(a1, b1, now);
    hide Same, Ses.CanRefresh;
    if user in a.users {
      SameSignToken(a1, b1, user, token, now);
    }
  }

  lemma SameRequestReset(a: State, b: State, mail: Email, token: Token, now: Time)
    requires Same(a, b, now)
    ensures SameOutcome(RequestReset(a, mail, token, now), RequestReset(b, mail, token, now), now)
  {
    hide Ses.RefreshAgree, Ses.ResetAgree, Tr.Agree, Otp.Alive, Ses.IssueReset;
    var found := UserByEmail(a.users, mail);
    if found.Some? {
      Ses.ResetThroughSteps(a.resets, b.resets, token, found.value, now);
    }
  }

  lemma SameResetPassword(a: State, b: State, token: Token, password: Password, at: Time, now: Time)
    requires Same(a, b, at) && at < now
    ensures SameOutcome(ResetPassword(a, token, password, now), ResetPassword(b, token, password, now), now)
  {
    hide Ses.RefreshAgree, Ses.ResetAgree, Tr.Agree, Otp.Alive, Ses.UseReset, Ses.EndSessions;
    SameAges(a, b, at, now);
    Ses.ResetAges(a.resets, b.resets, at, now);
    if Ses.CanReset(a.resets, token, now) {
      var user := a.resets[token].user;
      Ses.ResetThroughSteps(a.resets, b.resets, token, user, now);
      Ses.RefreshThroughEnd(a.refresh, b.refresh, user, 0, now);
    }
  }

  lemma SameLogin(a: State, b: State, mail: Email, password: Password, token: Token, now: Time)
    requires Same(a, b, now)
    ensures SameOutcome(Login(a, mail, password, token, now), Login(b, mail, password, token, now), now)
  {
    hide Ses.RefreshAgree, Ses.ResetAgree, Tr.Agree, Otp.Alive, UserByEmail, SignToken;
    var found := UserByEmail(a.users, mail);
    if found.Some? {
      SameSignToken(a, b, found.value, token, now);
    }
  }

  lemma SameAdminLogin(a: State, b: State, mail: Email, password: Password, token: Token, now: Time)
    requires Same(a, b, now)
    ensures SameOutcome(AdminLogin(a, mail, password, token, now), AdminLogin(b, mail, password, token, now), now)
  {
    hide Ses.RefreshAgree, Ses.ResetAgree, Tr.Agree, Otp.Alive, UserByEmail, SignToken;
    var found := UserByEmail(a.users, mail);
    if found.Some? {
      SameSignToken(a, b, found.value, token, now);
    }
  }

  lemma SameRegister(a: State, b: State, invite: Option<Invite>, mail: Email, password: Password, token: Token, now: Time)
    requires Same(a, b, now)
    ensures SameOutcome(Register(a, invite, mail, password, token, now), Register(b, invite, mail, password, token, now), now)
  {
    hide Ses.RefreshAgree, Ses.ResetAgree, Tr.Agree, Otp.Alive, UserByEmail, SignToken;
    match invite
    case None =>
    case Some(OfUser(user)) =>
      if user in a.users {
        var users := a.users[user := a.users[user].(password := Some(password))];
        SameSignToken(a.(users := users), b.(users := users), user, token, now);
      }
    case Some(OfCompany(company, newUser)) =>
      var users := a.users[newUser := User(TeamLead, company, true, false, None, Some(mail), Some(password), None)];
      SameSignToken(a.(users := users), b.(users := users), newUser, token, now);
  }

  lemma SameLogout(a: State, b: State, raw: Option<Token>, now: Time)
    requires Same(a, b, now)
    ensures SameOutcome(Logout(a, raw, now), Logout(b, raw, now), now)
  {
    hide Ses.RefreshAgree, Ses.ResetAgree, Tr.Agree, Otp.Alive, Ses.Revoke;
    if raw.Some? {
      Ses.RefreshThroughEnd(a.refresh, b.refresh, 0, raw.value, now);
    }
  }

  lemma SameDeactivate(a: State, b: State, user: UserId, now: Time)
    requires Same(a, b, now)
    ensures SameOutcome(Deactivate(a, user, now), Deactivate(b, user, now), now)
  {
    hide Ses.RefreshAgree, Ses.ResetAgree, Tr.Agree, Otp.Alive, Ses.EndSessions;
    Ses.RefreshThroughEnd(a.refresh, b.refresh, user, 0, now);
  }

  lemma SameDelete(a: State, b: State, user: UserId, now: Time)
    requires Same(a, b, now)
    ensures SameOutcome(DeleteAccount(a, user), DeleteAccount(b, user), now)
  {
    hide Ses.RefreshAgree, Ses.ResetAgree, Tr.Agree, Otp.Alive, Otp.DeleteOf, Tables.Keep, HasOtherAdmin, ReleaseTruck, Erased;
    Ses.RefreshThroughEnd(a.refresh, b.refresh, user, 0, now);
    Ses.ResetThroughSteps(a.resets, b.resets, 0, user, now);
    Otp.AliveThroughDelete(a.otps, user, now, now);
    Otp.AliveThroughDelete(b.otps, user, now, now);
  }

  lemma SameAddDriver(a: State, b: State, phone: Otp.Phone, password: Option<Password>, company: CompanyId, creator: UserId, newUser: UserId, token: Token, stays: bool, now: Time)
    requires Same(a, b, now)
    ensures SameOutcome(AddDriver(a, phone, password, company, creator, newUser, token, stays, now),
                        AddDriver(b, phone, password, company, creator, newUser, token, stays, now), now)
  {
    hide Ses.RefreshAgree, Ses.ResetAgree, Tr.Agree, Otp.Alive, Tr.MayText, Tr.Supersede;
    var found := UserByPhone(a.users, phone);
    if found.Some? {
      var driver := found.value;
      var row := Tr.Transfer(driver, a.users[driver].company, company, creator, now, now + Tr.TRANSFER_TTL, None, None);
      Tr.RequestsAgree(a.transfers, b.transfers, driver, company, now);
      Tr.ThroughSteps(a.transfers, b.transfers, driver, company, token, row, now);
      Tr.ThroughSteps(Tr.Supersede(a.transfers, driver, company, now), Tr.Supersede(b.transfers, driver, company, now), driver, company, token, row, now);
    }
  }

  lemma SameAnswers(a: State, b: State, token: Token, now: Time)
    requires Same(a, b, now)
    ensures SameOutcome(LookupTransfer(a, token, now), LookupTransfer(b, token, now), now)
    ensures SameOutcome(AcceptTransfer(a, token, now), AcceptTransfer(b, token, now), now)
    ensures SameOutcome(DeclineTransfer(a, token, now), DeclineTransfer(b, token, now), now)
  {
    hide Ses.RefreshAgree, Ses.ResetAgree, Tr.Agree, Otp.Alive;
    Tr.OpenAgrees(a.transfers, b.transfers, token, now);
    if CanAnswer(a, token, now) {
      Tr.ThroughAnswers(a.transfers, b.transfers, token, now);
    }
  }

  lemma SameCodesEffect(a: State, b: State, op: CodeOp, now: Time)
    requires Same(a, b, now)
    ensures SameOutcome(CodesEffect(a, op, now), CodesEffect(b, op, now), now)
  {
    hide Ses.RefreshAgree, Ses.ResetAgree, Tr.Agree, Otp.Alive, RequestOtp, IssueLoginCode, VerifyOtp;
    match op
    case RequestCode(phone, channel, via, code, ip) => SameRequestOtp(a, b, phone, channel, via, code, ip, now);
    case SeeRequest(requester, driver, _) => SameReads(a, b, 0, Otp.Sms, driver, requester, now);
    case IssueCode(requester, driver, feature, code, ip) => SameIssue(a, b, requester, driver, feature, code, ip, now);
    case Verify(phone, code, mint, ip) => SameVerify(a, b, phone, code, mint, ip, now);
  }

  lemma SameSessionsEffect(a: State, b: State, op: SessionOp, at: Time, now: Time)
    requires Same(a, b, at) && at < now
    ensures SameOutcome(SessionsEffect(a, op, now), SessionsEffect(b, op, now), now)
  {
    hide Same, Login, AdminLogin, Register, Refresh, Logout, RequestReset, ResetPassword;
    SameAges(a, b, at, now);
    match op
    case LogIn(mail, password, mint) => SameLogin(a, b, mail, password, mint, now);
    case AdminLogIn(mail, password, mint) => SameAdminLogin(a, b, mail, password, mint, now);
    case SignUp(invite, mail, password, mint) => SameRegister(a, b, invite, mail, password, mint, now);
    case Rotate(raw, mint) => SameRefresh(a, b, raw, mint, at, now);
    case LogOut(raw) => SameLogout(a, b, raw, now);
    case AskReset(mail, mint) => SameRequestReset(a, b, mail, mint, now);
    case DoReset(token, password) => SameResetPassword(a, b, token, password, at, now);
  }

  lemma SameAccountsEffect(a: State, b: State, op: AccountOp, now: Time)
    requires Same(a, b, now)
    ensures SameOutcome(AccountsEffect(a, op, now), AccountsEffect(b, op, now), now)
  {
    hide Ses.RefreshAgree, Ses.ResetAgree, Tr.Agree, Otp.Alive, Deactivate, DeleteAccount;
    match op
    case Disable(user) => SameDeactivate(a, b, user, now);
    case Erase(user) => SameDelete(a, b, user, now);
    case _ =>
  }

  lemma SameTransfersEffect(a: State, b: State, op: TransferOp, now: Time)
    requires Same(a, b, now)
    ensures SameOutcome(TransfersEffect(a, op, now), TransfersEffect(b, op, now), now)
  {
    hide Same, AddDriver, LookupTransfer, AcceptTransfer, DeclineTransfer;
    match op
    case Add(phone, password, company, creator, newUser, mint, stays) =>
      SameAddDriver(a, b, phone, password, company, creator, newUser, mint, stays, now);
    case LookUp(token) => SameAnswers(a, b, token, now);
    case AcceptLink(token) => SameAnswers(a, b, token, now);
    case DeclineLink(token) => SameAnswers(a, b, token, now);
  }

  /** Every call answers alike in two such states, and leaves two such states. */
  lemma SameStep(a: State, b: State, c: Call, at: Time)
    requires Same(a, b, at) && at < c.at && !c.op.DoPurge?
    ensures SameOutcome(Step(a, c), Step(b, c), c.at)
  {
    hide Ses.RefreshAgree, Ses.ResetAgree, Tr.Agree, Otp.Alive, CodesEffect, SessionsEffect, AccountsEffect, TransfersEffect, Purge;
    SameAges(a, b, at, c.at);
    match c.op
    case OnCodes(op) => SameCodesEffect(a, b, op, c.at);
    case OnSessions(op) => SameSessionsEffect(a, b, op, at, c.at);
    case OnAccounts(op) => SameAccountsEffect(a, b, op, c.at);
    case OnTransfers(op) => SameTransfersEffect(a, b, op, c.at);
  }

  /** What a purge deletes is dead already, whichever of its steps fail. */
  lemma PurgeKeepsAlive(s: State, failed: set<PurgeStep>, now: Time)
    requires Stamped(s) && s.clock < now
    ensures Same(Purge(s, failed, now), s, now)
  {
    assert Otp.Alive(Purge(s, failed, now).otps, now) == Otp.Alive(s.otps, now) by {
      hide Rows.Map, Tables.Keep, StampedResets, StampedTransfers;
      Rows.FilterThroughFilter(Otp.AliveTest(now), KeepsOtp(now - CREDENTIAL_GRACE), s.otps);
    }
    assert Ses.RefreshAgree(Purge(s, failed, now).refresh, s.refresh, now) by {
      hide Rows.Map, Rows.Filter, StampedOtps, StampedResets, StampedTransfers;
    }
    assert Ses.ResetAgree(Purge(s, failed, now).resets, s.resets, now) by {
      hide Rows.Map, Rows.Filter, StampedOtps, StampedTransfers;
    }
    assert Tr.Agree(Purge(s, failed, now).transfers, s.transfers, now) by {
      hide Rows.Map, Rows.Filter, StampedOtps, StampedResets;
    }
    hide Ses.RefreshAgree, Ses.ResetAgree, Tr.Agree, Otp.Alive, StampedOtps, StampedResets, StampedTransfers;
  }

  lemma SamePurge(a: State, b: State, c: Call, at: Time)
    requires Same(a, b, at) && Stamped(a) && a.clock == at < c.at && c.op.DoPurge?
    ensures Same(Step(a, c).state, b, c.at)
  {
    hide Ses.RefreshAgree, Ses.ResetAgree, Tr.Agree, Otp.Alive, Stamped, CodesEffect, SessionsEffect, AccountsEffect, TransfersEffect;
    SameAges(a, b, at, c.at);
    PurgeKeepsAlive(a, c.op.failed, c.at);
    SameChain(Purge(a, c.op.failed, c.at), a, b, c.at);
  }

  lemma SameChain(x: State, a: State, b: State, at: Time)
    requires Same(x, a, at) && Same(a, b, at)
    ensures Same(x, b, at)
  {
    hide Otp.Alive;
  }

  // ----- runs

  /** The calls of a run other than its purges. */
  function WithoutPurges(calls: seq<Call>): seq<Call> {
    if calls == [] then []
    else if calls[0].op.DoPurge? then WithoutPurges(calls[1..])
    else [calls[0]] + WithoutPurges(calls[1..])
  }

  /** What the calls other than purges answer, in order. */
  ghost function Answers(s: State, calls: seq<Call>): seq<Answer>
    decreases |calls|
  {
    if calls == [] then []
    else
      var r := Step(s, calls[0]);
      if calls[0].op.DoPurge? then Answers(r.state, calls[1..]) else [r.answer] + Answers(r.state, calls[1..])
  }

  lemma {:induction false} SameRuns(a: State, b: State, at: Time, calls: seq<Call>)
    requires Same(a, b, at) && Stamped(a) && a.clock == at && b.clock <= at
    requires IsRun(a, calls)
    ensures IsRun(b, WithoutPurges(calls))
    ensures Answers(a, calls) == Answers(b, WithoutPurges(calls))
    ensures Same(Final(a, calls), Final(b, WithoutPurges(calls)), Final(a, calls).clock)
    decreases |calls|
  {
    hide Effect, Stamped, Ses.RefreshAgree, Ses.ResetAgree, Tr.Agree, Otp.Alive;
    if calls != [] {
      var c, rest := calls[0], calls[1..];
      StampedStep(a, c);
      if c.op.DoPurge? {
        SamePurge(a, b, c, at);
        SameRuns(Step(a, c).state, b, c.at, rest);
      } else {
        SameStep(a, b, c, at);
        SameRuns(Step(a, c).state, Step(b, c).state, c.at, rest);
        assert WithoutPurges(calls)[1..] == WithoutPurges(rest);
      }
    }
  }

  /** Main result: dropping every purge from a run changes no other call's answer, and
      the rows that still matter at the end are the same. */
  lemma PurgeIsInvisible(s: State, calls: seq<Call>)
    requires Stamped(s) && IsRun(s, calls)
    ensures IsRun(s, WithoutPurges(calls))
    ensures Answers(s, calls) == Answers(s, WithoutPurges(calls))
    ensures Same(Final(s, calls), Final(s, WithoutPurges(calls)), Final(s, calls).clock)
  {
    SameRuns(s, s, s.clock, calls);
  }
}
