/** What one call of the credential machine can do to each of its tables. */
module TableMoves {
  import opened Base
  import Rows
  import Tables
  import Otp = OtpCodes
  import Ses = SessionTokens
  import Tr = Transfers
  import opened Credentials

  // ----- codes

  datatype OtpMove =
    | KeepCodes
    | StoreCode(o: Otp.OtpRow)
    | MintCode(o: Otp.OtpRow)
    | CheckCodes(phone: Otp.Phone, check: Otp.Check, accepted: bool)
    | DeleteCodes(user: UserId)
    | SweepCodes(cutoff: Time)

  function MoveCodes(otps: seq<Otp.OtpRow>, mv: OtpMove, now: Time): seq<Otp.OtpRow> {
    match mv
    case KeepCodes => otps
    case StoreCode(o) => otps + [o]
    case MintCode(o) =>
      if o.issuedBy.None? then otps
      else Otp.UpdateMany(otps + [o], Otp.CloseRequests(o.user, o.issuedBy.value), now)
    case CheckCodes(phone, check, accepted) => Otp.AfterCheck(otps, phone, check, accepted, now)
    case DeleteCodes(user) => Otp.DeleteOf(otps, user)
    case SweepCodes(cutoff) => Rows.Filter(KeepsOtp(cutoff), otps)
  }

  ghost predicate IsOtpMove(s: State, c: Call, mv: OtpMove) {
    match mv
    case KeepCodes => true
    case StoreCode(o) =>
      c.op.OnCodes? && c.op.codes.RequestCode? && c.op.codes.phone == Some(o.phone) && IsNewCode(o, s.nextOtp, o.phone, c.at)
    case MintCode(o) =>
      && c.op.OnCodes? && c.op.codes.IssueCode? && IsNewCode(o, s.nextOtp, o.phone, c.at)
      && o.user == c.op.codes.driver && o.issuedBy == Some(c.op.codes.requester) && !o.driverRequest
      && Otp.OpenRequest(s.otps, o.user, c.op.codes.requester, c.at).Some?
    case CheckCodes(phone, check, accepted) =>
      && c.op.OnCodes? && c.op.codes.Verify? && c.op.codes.phone == Some(phone)
      && check == Otp.CheckCode(s.otps, phone, c.op.codes.code, c.at)
      && accepted == MaySignIn(s, check)
    case DeleteCodes(user) => c.op == OnAccounts(Erase(user))
    case SweepCodes(cutoff) => c.op.DoPurge? && cutoff == c.at - CREDENTIAL_GRACE
  }

  ghost function OtpMoveOf(s: State, c: Call): OtpMove {
    match c.op
    case OnCodes(RequestCode(_, _, _, _, _)) =>
      var otps := Step(s, c).state.otps;
      if |otps| == |s.otps| + 1 then StoreCode(otps[|otps| - 1]) else KeepCodes
    case OnCodes(IssueCode(requester, driver, _, code, _)) =>
      if Step(s, c).answer.LoginCode? && driver in s.users && s.users[driver].phone.Some?
      then MintCode(MintedRow(s, requester, driver, s.users[driver].phone.value, code, c.at))
      else KeepCodes
    case OnCodes(Verify(phone, code, _, _)) =>
      if phone.None? then KeepCodes else
      var check := Otp.CheckCode(s.otps, phone.value, code, c.at);
      CheckCodes(phone.value, check, MaySignIn(s, check))
    case OnAccounts(Erase(user)) => if Step(s, c).answer.Done? then DeleteCodes(user) else KeepCodes
    case DoPurge(failed) => if OtpStep in failed then KeepCodes else SweepCodes(c.at - CREDENTIAL_GRACE)
    case _ => KeepCodes
  }

  ghost predicate MovesCodes(s: State, c: Call) {
    var mv := OtpMoveOf(s, c);
    && IsOtpMove(s, c, mv)
    && Step(s, c).state.otps == MoveCodes(s.otps, mv, c.at)
    && Step(s, c).state.nextOtp == s.nextOtp + (if mv.StoreCode? || mv.MintCode? then 1 else 0)
  }

  lemma CodesMoveByRequest(s: State, c: Call)
    requires c.op.OnCodes? && (c.op.codes.RequestCode? || c.op.codes.SeeRequest?)
    ensures MovesCodes(s, c)
  {
    hide SessionsEffect, AccountsEffect, TransfersEffect, Purge, RequestOtp, LoginCodeRequest, IssueLoginCode, VerifyOtp;
  }

  lemma CodesMoveByIssue(s: State, c: Call)
    requires c.op.OnCodes? && c.op.codes.IssueCode?
    ensures MovesCodes(s, c)
  {
    hide SessionsEffect, AccountsEffect, TransfersEffect, Purge, Otp.UpdateMany, Otp.OpenRequest, RequestOtp, LoginCodeRequest, IssueLoginCode, VerifyOtp;
  }

  lemma CodesMoveByVerify(s: State, c: Call)
    requires c.op.OnCodes? && c.op.codes.Verify?
    ensures MovesCodes(s, c)
  {
    hide SessionsEffect, AccountsEffect, TransfersEffect, Purge, Otp.AfterCheck, Otp.CheckCode, RequestOtp, LoginCodeRequest, IssueLoginCode, MaySignIn, Conclude;
  }

  lemma CodesMoveByAccount(s: State, c: Call)
    requires c.op.OnAccounts?
    ensures MovesCodes(s, c)
  {
    hide CodesEffect, SessionsEffect, TransfersEffect, AccountsEffect, Purge, Otp.DeleteOf,
         Otp.AfterCheck, Otp.CheckCode, Otp.UpdateMany, Otp.Considered, RequestOtp, IssueLoginCode;
    AccountCodes(s, c.op.accounts, c.at);
  }

  lemma AccountCodes(s: State, op: AccountOp, now: Time)
    ensures var r := AccountsEffect(s, op, now);
      r.state.otps == if op.Erase? && r.answer.Done? then Otp.DeleteOf(s.otps, op.user) else s.otps
  {
    hide Otp.DeleteOf, Activate, Deactivate, DeleteAccount;
  }

  lemma CodesMoveElsewhere(s: State, c: Call)
    requires !c.op.OnCodes? && !c.op.OnAccounts?
    ensures MovesCodes(s, c)
  {
    hide CodesEffect, SessionsEffect, AccountsEffect, TransfersEffect, Rows.Filter, Rows.Map, Tables.Keep;
  }

  lemma CodesMove(s: State, c: Call)
    ensures MovesCodes(s, c)
  {
    hide MovesCodes;
    if c.op.OnAccounts? { CodesMoveByAccount(s, c); }
    else if !c.op.OnCodes? { CodesMoveElsewhere(s, c); }
    else if c.op.codes.IssueCode? { CodesMoveByIssue(s, c); }
    else if c.op.codes.Verify? { CodesMoveByVerify(s, c); }
    else { CodesMoveByRequest(s, c); }
  }

  // ----- refresh tokens

  datatype TokenMove =
    | KeepTokens
    | IssueToken(token: Token, user: UserId, driver: bool)
    | RotateToken(raw: Token)
    | RotateAndIssue(raw: Token, token: Token, user: UserId, driver: bool)
    | RevokeToken(raw: Token)
    | EndTokens(user: UserId)
    | DeleteTokens(user: UserId)
    | SweepTokens(cutoff: Time)

  function MoveTokens(table: Ses.RefreshTable, mv: TokenMove, now: Time): Ses.RefreshTable {
    match mv
    case KeepTokens => table
    case IssueToken(token, user, driver) => Ses.Issue(table, token, user, driver, now)
    case RotateToken(raw) => if raw in table then Ses.Rotate(table, raw, now) else table
    case RotateAndIssue(raw, token, user, driver) =>
      if raw in table then Ses.Issue(Ses.Rotate(table, raw, now), token, user, driver, now) else table
    case RevokeToken(raw) => Ses.Revoke(table, raw, now)
    case EndTokens(user) => Ses.EndSessions(table, user, now)
    case DeleteTokens(user) => Tables.Keep(table, Ses.RefreshNotOf(user))
    case SweepTokens(cutoff) => Tables.Keep(table, KeepsRefresh(cutoff))
  }

  ghost predicate IsTokenMove(s: State, c: Call, mv: TokenMove) {
    match mv
    case IssueToken(token, user, driver) =>
      Drawn(c.op) == Some(token) && driver == (user in s.users && s.users[user].role.Driver?)
    case RotateToken(raw) => Ses.CanRefresh(s.refresh, raw, c.at)
    case RotateAndIssue(raw, token, user, driver) =>
      && c.op == OnSessions(Rotate(Some(raw), token)) && Ses.CanRefresh(s.refresh, raw, c.at)
      && user == s.refresh[raw].user && user in s.users && driver == s.users[user].role.Driver?
    case EndTokens(user) => true
    case SweepTokens(cutoff) => cutoff == c.at - CREDENTIAL_GRACE
    case _ => true
  }

  ghost function TokenMoveOf(s: State, c: Call): TokenMove {
    var answer := Step(s, c).answer;
    match c.op
    case OnCodes(Verify(_, _, mint, _)) =>
      if answer.SignedIn? && answer.user in s.users then IssueToken(mint, answer.user, s.users[answer.user].role.Driver?) else KeepTokens
    case OnSessions(LogIn(_, _, mint)) =>
      if answer.SignedIn? && answer.user in s.users then IssueToken(mint, answer.user, s.users[answer.user].role.Driver?) else KeepTokens
    case OnSessions(AdminLogIn(_, _, mint)) =>
      if answer.SignedIn? then IssueToken(mint, answer.user, false) else KeepTokens
    case OnSessions(SignUp(_, _, _, mint)) =>
      if answer.SignedIn? then IssueToken(mint, answer.user, answer.user in s.users && s.users[answer.user].role.Driver?) else KeepTokens
    case OnSessions(Rotate(Some(raw), mint)) =>
      if !Ses.CanRefresh(s.refresh, raw, c.at) then KeepTokens
      else if answer.SignedIn? && answer.user in s.users then RotateAndIssue(raw, mint, answer.user, s.users[answer.user].role.Driver?)
      else RotateToken(raw)
    case OnSessions(LogOut(Some(raw))) => RevokeToken(raw)
    case OnSessions(DoReset(token, _)) => if answer.Done? && token in s.resets then EndTokens(s.resets[token].user) else KeepTokens
    case OnAccounts(Disable(user)) => if answer.Done? then EndTokens(user) else KeepTokens
    case OnAccounts(Erase(user)) => if answer.Done? then DeleteTokens(user) else KeepTokens
    case DoPurge(failed) => if RefreshStep in failed then KeepTokens else SweepTokens(c.at - CREDENTIAL_GRACE)
    case _ => KeepTokens
  }

  ghost predicate MovesTokens(s: State, c: Call) {
    var mv := TokenMoveOf(s, c);
    && IsTokenMove(s, c, mv)
    && Step(s, c).state.refresh == MoveTokens(s.refresh, mv, c.at)
    && s.minted <= Step(s, c).state.minted
    && (mv.IssueToken? || mv.RotateAndIssue? ==> mv.token in Step(s, c).state.minted && Step(s, c).answer == SignedIn(mv.user, mv.token))
    && (c.op.OnSessions? && c.op.sessions.Rotate? && Step(s, c).answer.SignedIn? ==> mv.RotateAndIssue?)
  }

  lemma TokensMoveByCodes(s: State, c: Call)
    requires c.op.OnCodes?
    ensures MovesTokens(s, c)
  {
    hide SessionsEffect, AccountsEffect, TransfersEffect, Purge,
         Otp.AfterCheck, Otp.CheckCode, RequestOtp, LoginCodeRequest, IssueLoginCode, Conclude, Ses.Issue;
    if c.op.codes.Verify? && c.op.codes.phone.Some? {
      ConcludeIssues(s, c.op.codes.phone.value, Otp.CheckCode(s.otps, c.op.codes.phone.value, c.op.codes.code, c.at), c.op.codes.mint, c.op.codes.ip, c.at);
    }
  }

  lemma ConcludeIssues(s: State, phone: Otp.Phone, check: Otp.Check, token: Token, ip: Option<nat>, now: Time)
    ensures var r := Conclude(s, phone, check, token, ip, now);
      if r.answer.SignedIn?
      then r.answer.user in s.users && r.answer == SignedIn(r.answer.user, token) && r.state.minted == s.minted + {token}
           && r.state.refresh == Ses.Issue(s.refresh, token, r.answer.user, s.users[r.answer.user].role.Driver?, now)
      else r.state.refresh == s.refresh && r.state.minted == s.minted
  {
    hide Otp.AfterCheck, Ses.Issue;
  }

  lemma TokensMoveByRotate(s: State, c: Call)
    requires c.op.OnSessions? && c.op.sessions.Rotate?
    ensures MovesTokens(s, c)
  {
    hide CodesEffect, AccountsEffect, TransfersEffect, Purge, Ses.Rotate, Ses.Issue,
         Login, AdminLogin, Register, Logout, RequestReset, ResetPassword;
  }

  lemma TokensMoveByLogin(s: State, c: Call)
    requires c.op.OnSessions? && c.op.sessions.LogIn?
    ensures MovesTokens(s, c)
  {
    hide CodesEffect, AccountsEffect, TransfersEffect, Purge, Ses.Issue,
         UserByEmail, AdminLogin, Register, Refresh, Logout, RequestReset, ResetPassword;
  }

  lemma TokensMoveByAdmin(s: State, c: Call)
    requires c.op.OnSessions? && c.op.sessions.AdminLogIn?
    ensures MovesTokens(s, c)
  {
    hide CodesEffect, AccountsEffect, TransfersEffect, Purge, Ses.Issue,
         UserByEmail, Login, Register, Refresh, Logout, RequestReset, ResetPassword;
  }

  lemma TokensMoveBySignUp(s: State, c: Call)
    requires c.op.OnSessions? && c.op.sessions.SignUp?
    ensures MovesTokens(s, c)
  {
    hide CodesEffect, AccountsEffect, TransfersEffect, Purge, Ses.Issue, Ses.Rotate,
         UserByEmail, Login, AdminLogin, Register, Refresh, Logout, RequestReset, ResetPassword;
    var op := c.op.sessions;
    RegisterIssues(s, op.invite, op.mail, op.password, op.mint, c.at);
  }

  lemma RegisterIssues(s: State, invite: Option<Invite>, email: Email, password: Password, token: Token, now: Time)
    ensures var r := Register(s, invite, email, password, token, now);
      if r.answer.SignedIn?
      then
        var driver := r.answer.user in s.users && s.users[r.answer.user].role.Driver?;
        r.answer == SignedIn(r.answer.user, token) && r.state.minted == s.minted + {token}
        && r.state.refresh == Ses.Issue(s.refresh, token, r.answer.user, driver, now)
      else r.state == s
  {
    hide Ses.Issue, UserByEmail;
  }

  lemma TokensMoveByLogout(s: State, c: Call)
    requires c.op.OnSessions? && c.op.sessions.LogOut?
    ensures MovesTokens(s, c)
  {
    hide CodesEffect, AccountsEffect, TransfersEffect, Purge, Ses.EndSessions, Ses.Revoke,
         Login, AdminLogin, Register, Refresh, RequestReset, ResetPassword;
  }

  lemma TokensMoveByAsking(s: State, c: Call)
    requires c.op.OnSessions? && c.op.sessions.AskReset?
    ensures MovesTokens(s, c)
  {
    hide CodesEffect, AccountsEffect, TransfersEffect, Purge, Ses.EndSessions, Ses.Revoke, Ses.Rotate, Ses.Issue,
         Login, AdminLogin, Register, Refresh, Logout, RequestReset, ResetPassword, IsTokenMove;
    KeepsIsMove(s, c);
  }

  lemma KeepsIsMove(s: State, c: Call)
    ensures IsTokenMove(s, c, KeepTokens)
  {
  }

  lemma TokensMoveByReset(s: State, c: Call)
    requires c.op.OnSessions? && c.op.sessions.DoReset?
    ensures MovesTokens(s, c)
  {
    hide CodesEffect, AccountsEffect, TransfersEffect, Purge, Ses.EndSessions, Ses.Revoke, Ses.Rotate, Ses.Issue,
         Login, AdminLogin, Register, Refresh, Logout, RequestReset, ResetPassword;
  }

  lemma TokensMoveByAccount(s: State, c: Call)
    requires c.op.OnAccounts?
    ensures MovesTokens(s, c)
  {
    hide CodesEffect, SessionsEffect, TransfersEffect, AccountsEffect, Purge,
         Ses.EndSessions, Tables.Keep, Ses.Issue, Ses.Rotate, Ses.Revoke, Ses.CanRefresh;
    AccountTokens(s, c.op.accounts, c.at);
  }

  lemma AccountTokens(s: State, op: AccountOp, now: Time)
    ensures var r := AccountsEffect(s, op, now);
      r.state.refresh == match op
                         case Disable(user) => if r.answer.Done? then Ses.EndSessions(s.refresh, user, now) else s.refresh
                         case Erase(user) => if r.answer.Done? then Tables.Keep(s.refresh, Ses.RefreshNotOf(user)) else s.refresh
                         case _ => s.refresh
  {
    hide Ses.EndSessions, Tables.Keep, Activate, Deactivate, DeleteAccount, Ses.RefreshNotOf;
  }

  lemma TokensMoveElsewhere(s: State, c: Call)
    requires c.op.OnTransfers? || c.op.DoPurge?
    ensures MovesTokens(s, c)
  {
    hide CodesEffect, SessionsEffect, AccountsEffect, TransfersEffect, Tables.Keep, Rows.Filter, Rows.Map;
  }

  lemma TokensMoveBySessions(s: State, c: Call)
    requires c.op.OnSessions?
    ensures MovesTokens(s, c)
  {
    hide MovesTokens;
    match c.op.sessions
    case LogIn(_, _, _) => TokensMoveByLogin(s, c);
    case AdminLogIn(_, _, _) => TokensMoveByAdmin(s, c);
    case SignUp(_, _, _, _) => TokensMoveBySignUp(s, c);
    case Rotate(_, _) => TokensMoveByRotate(s, c);
    case LogOut(_) => TokensMoveByLogout(s, c);
    case AskReset(_, _) => TokensMoveByAsking(s, c);
    case DoReset(_, _) => TokensMoveByReset(s, c);
  }

  /** Every call is one of a few moves on the refresh tokens. */
  lemma TokensMove(s: State, c: Call)
    ensures MovesTokens(s, c)
  {
    hide MovesTokens;
    match c.op
    case OnCodes(_) => TokensMoveByCodes(s, c);
    case OnSessions(_) => TokensMoveBySessions(s, c);
    case OnAccounts(_) => TokensMoveByAccount(s, c);
    case OnTransfers(_) => TokensMoveElsewhere(s, c);
    case DoPurge(_) => TokensMoveElsewhere(s, c);
  }

  // ----- transfer links

  datatype LinkMove =
    | KeepLinks
    | Dropped(driver: UserId, to: CompanyId)
    | Added(token: Token, row: Tr.Transfer)
    | Accepted(token: Token)
    | Declined(token: Token)
    | SweepLinks(cutoff: Time)

  function MoveLinks(table: Tr.Table, mv: LinkMove, now: Time): Tr.Table {
    match mv
    case KeepLinks => table
    case Dropped(driver, to) => Tr.Supersede(table, driver, to, now)
    case Added(token, row) => Tr.Supersede(table, row.driver, row.toCompany, now)[token := row]
    case Accepted(token) => if token in table then Tr.Accept(table, token, now) else table
    case Declined(token) => if token in table then Tr.Decline(table, token, now) else table
    case SweepLinks(cutoff) => Tables.Keep(table, KeepsTransfer(cutoff))
  }

  ghost predicate IsLinkMove(s: State, c: Call, mv: LinkMove) {
    match mv
    case Dropped(driver, to) => Tr.MayText(s.transfers, driver, to, c.at)
    case Added(token, row) =>
      && Drawn(c.op) == Some(token) && row.driver in s.users && s.users[row.driver].company == row.fromCompany
      && Tr.MayText(s.transfers, row.driver, row.toCompany, c.at)
      && row.createdAt == c.at && row.expiresAt == c.at + Tr.TRANSFER_TTL && Tr.IsUndecided(row)
    case Accepted(token) => c.op == OnTransfers(AcceptLink(token)) && CanAnswer(s, token, c.at)
    case Declined(token) => c.op == OnTransfers(DeclineLink(token)) && CanAnswer(s, token, c.at)
    case SweepLinks(cutoff) => cutoff == c.at - TRANSFER_KEEP
    case KeepLinks => true
  }

  ghost function LinkMoveOf(s: State, c: Call): LinkMove {
    match c.op
    case OnTransfers(Add(phone, _, company, creator, _, mint, stays)) =>
      var found := UserByPhone(s.users, phone);
      if found.None? || s.users[found.value].company == company || !s.users[found.value].role.Driver?
         || !Tr.MayText(s.transfers, found.value, company, c.at)
      then KeepLinks
      else if !stays then Dropped(found.value, company)
      else Added(mint, Tr.Transfer(found.value, s.users[found.value].company, company, creator, c.at, c.at + Tr.TRANSFER_TTL, None, None))
    case OnTransfers(AcceptLink(token)) => if CanAnswer(s, token, c.at) then Accepted(token) else KeepLinks
    case OnTransfers(DeclineLink(token)) => if CanAnswer(s, token, c.at) then Declined(token) else KeepLinks
    case DoPurge(failed) => if TransferStep in failed then KeepLinks else SweepLinks(c.at - TRANSFER_KEEP)
    case _ => KeepLinks
  }

  ghost predicate MovesLinks(s: State, c: Call) {
    var mv := LinkMoveOf(s, c);
    var s' := Step(s, c).state;
    && IsLinkMove(s, c, mv)
    && s'.transfers == MoveLinks(s.transfers, mv, c.at)
    && s'.requests == (if mv.Added? then s.requests[mv.token := Asked(mv.row.driver, mv.row.toCompany, c.at)] else s.requests)
    && s'.moves == (if mv.Accepted?
                    then s.moves + [Move(s.transfers[mv.token].driver, s.transfers[mv.token].fromCompany, s.transfers[mv.token].toCompany, mv.token)]
                    else s.moves)
    && s.minted <= s'.minted && (mv.Added? ==> mv.token in s'.minted)
  }

  lemma LinksMoveByAdd(s: State, c: Call)
    requires c.op.OnTransfers? && c.op.transfers.Add?
    ensures MovesLinks(s, c)
  {
    hide CodesEffect, SessionsEffect, AccountsEffect, Purge, Tr.MayText, Tr.Supersede, UserByPhone, CanAnswer,
         LookupTransfer, AcceptTransfer, DeclineTransfer, AddDriver, Tables.Keep, Tr.Accept, Tr.Decline;
    var op := c.op.transfers;
    AddWrites(s, op.phone, op.password, op.company, op.creator, op.newUser, op.mint, op.stays, c.at);
  }

  lemma AddWrites(s: State, phone: Otp.Phone, password: Option<Password>, company: CompanyId, creator: UserId, newUser: UserId, token: Token, stays: bool, now: Time)
    ensures var r, found := AddDriver(s, phone, password, company, creator, newUser, token, stays, now).state, UserByPhone(s.users, phone);
      && r.moves == s.moves && s.minted <= r.minted
      && (if found.None? || s.users[found.value].company == company || !s.users[found.value].role.Driver?
             || !Tr.MayText(s.transfers, found.value, company, now)
          then r.transfers == s.transfers && r.requests == s.requests
          else if !stays then r.transfers == Tr.Supersede(s.transfers, found.value, company, now) && r.requests == s.requests
          else
            && token in r.minted && r.requests == s.requests[token := Asked(found.value, company, now)]
            && r.transfers == Tr.Supersede(s.transfers, found.value, company, now)[
                 token := Tr.Transfer(found.value, s.users[found.value].company, company, creator, now, now + Tr.TRANSFER_TTL, None, None)])
  {
    hide Tr.MayText, Tr.Supersede, UserByPhone, RequestTransfer;
    var found := UserByPhone(s.users, phone);
    if found.Some? {
      RequestWrites(s, found.value, company, creator, token, stays, now);
    }
  }

  lemma RequestWrites(s: State, driver: UserId, company: CompanyId, asker: UserId, token: Token, stays: bool, now: Time)
    requires driver in s.users
    ensures var r, row := RequestTransfer(s, driver, company, asker, token, stays, now),
                          Tr.Transfer(driver, s.users[driver].company, company, asker, now, now + Tr.TRANSFER_TTL, None, None);
      if !Tr.MayText(s.transfers, driver, company, now) then r == s
      else if !stays then r == s.(transfers := Tr.Supersede(s.transfers, driver, company, now), minted := s.minted + {token})
      else r == s.(transfers := Tr.Supersede(s.transfers, driver, company, now)[token := row], minted := s.minted + {token},
                   requests := s.requests[token := Asked(driver, company, now)])
  {
    hide Tr.MayText, Tr.Supersede;
  }

  lemma LinksMoveByAnswer(s: State, c: Call)
    requires c.op.OnTransfers? && !c.op.transfers.Add?
    ensures MovesLinks(s, c)
  {
    hide CodesEffect, SessionsEffect, AccountsEffect, Purge, Tr.Accept, Tr.Decline, Tr.IsOpen, ReleaseTruck, AddDriver;
  }

  lemma LinksMoveByPurge(s: State, c: Call)
    requires c.op.DoPurge?
    ensures MovesLinks(s, c)
  {
    hide CodesEffect, SessionsEffect, AccountsEffect, TransfersEffect, Tables.Keep, Rows.Filter, Rows.Map;
  }

  lemma LinksMoveElsewhere(s: State, c: Call)
    requires !c.op.OnTransfers? && !c.op.DoPurge?
    ensures MovesLinks(s, c)
  {
    hide CodesEffect, SessionsEffect, AccountsEffect, TransfersEffect, Purge;
    assert s.minted <= Step(s, c).state.minted by { TokensMove(s, c); }
  }

  lemma LinksMove(s: State, c: Call)
    ensures MovesLinks(s, c)
  {
    hide MovesLinks;
    if c.op.OnTransfers? && c.op.transfers.Add? { LinksMoveByAdd(s, c); }
    else if c.op.OnTransfers? { LinksMoveByAnswer(s, c); }
    else if c.op.DoPurge? { LinksMoveByPurge(s, c); }
    else { LinksMoveElsewhere(s, c); }
  }
}
