/** Transfers between companies, over whole runs: consent, paths and texting caps. */
module TransferRuns {
  import opened Base
  import Tables
  import Ses = SessionTokens
  import Tr = Transfers
  import opened Credentials
  import opened TableMoves

  // ----- a link is answered at most once

  ghost predicate Known(s: State) {
    s.transfers.Keys <= s.minted && s.requests.Keys <= s.minted
  }

  /** The link can never be answered again: its row is gone or has an answer. */
  ghost predicate IsAnswered(s: State, token: Token) {
    token in s.minted && (token in s.transfers ==> !Tr.IsUndecided(s.transfers[token]))
  }

  ghost predicate Answers(s: State, c: Call, token: Token) {
    c.op == OnTransfers(AcceptLink(token)) || c.op == OnTransfers(DeclineLink(token))
  }

  lemma AnsweredStep(s: State, c: Call, token: Token)
    requires Known(s) && CanHappen(s, c)
    ensures Known(Step(s, c).state)
    ensures IsAnswered(s, token) ==> IsAnswered(Step(s, c).state, token)
    ensures Answers(s, c, token) && CanAnswer(s, token, c.at) ==> IsAnswered(Step(s, c).state, token)
  {
    AnsweringMove(s, c, token);
    hide Step, LinkMoveOf, CanAnswer, Tr.MayText;
    LinksMove(s, c);
    if Answers(s, c, token) && CanAnswer(s, token, c.at) {
      assert token in s.transfers by { AnsweringMove(s, c, token); }
    }
  }

  lemma AnsweringMove(s: State, c: Call, token: Token)
    ensures Answers(s, c, token) && CanAnswer(s, token, c.at) ==>
              token in s.transfers && (LinkMoveOf(s, c) == Accepted(token) || LinkMoveOf(s, c) == Declined(token))
    ensures IsAnswered(s, token) ==> !CanAnswer(s, token, c.at)
  {
    hide Step, Tr.MayText;
  }

  lemma {:induction false} AnsweredRun(s: State, calls: seq<Call>, token: Token)
    requires Known(s) && IsRun(s, calls)
    ensures Known(Final(s, calls))
    ensures IsAnswered(s, token) ==> IsAnswered(Final(s, calls), token)
    decreases |calls|
  {
    hide Step, Known, IsAnswered, Answers, CanAnswer;
    if calls != [] {
      AnsweredStep(s, calls[0], token);
      AnsweredRun(Step(s, calls[0]).state, calls[1..], token);
    }
  }

  lemma UnanswerableIsRefused(s: State, c: Call, token: Token)
    requires !CanAnswer(s, token, c.at) && Answers(s, c, token)
    ensures Step(s, c).answer == Denied(TransferInvalid) && Step(s, c).state == s.(clock := c.at)
  {
    hide CodesEffect, SessionsEffect, AccountsEffect, Purge, AddDriver, CanAnswer;
  }

  /** A link is accepted at most once, and never after it was declined: after the first answer
      every later attempt is refused and changes nothing, even once its row is purged. */
  lemma LinksAreAnsweredOnce(s: State, c: Call, token: Token, calls: seq<Call>, later: Call)
    requires Known(s) && CanHappen(s, c) && Answers(s, c, token) && CanAnswer(s, token, c.at)
    requires IsRun(Step(s, c).state, calls)
    requires Answers(Final(Step(s, c).state, calls), later, token)
    ensures var t := Final(Step(s, c).state, calls);
            Step(t, later).answer == Denied(TransferInvalid) && Step(t, later).state == t.(clock := later.at)
  {
    hide Step, CanAnswer, Answers, Known, IsAnswered;
    AnsweredStep(s, c, token);
    AnsweredRun(Step(s, c).state, calls, token);
    var t := Final(Step(s, c).state, calls);
    AnsweringMove(t, later, token);
    UnanswerableIsRefused(t, later, token);
  }

  // ----- one open link per driver and company

  ghost predicate OneOpenLink(s: State) {
    forall a, b :: a in s.transfers && b in s.transfers && a != b
                   && s.transfers[a].driver == s.transfers[b].driver && s.transfers[a].toCompany == s.transfers[b].toCompany
                   && Tr.IsOpen(s.transfers[a], s.clock)
                   ==> !Tr.IsOpen(s.transfers[b], s.clock)
  }

  lemma OneOpenLinkStep(s: State, c: Call)
    requires OneOpenLink(s) && CanHappen(s, c)
    ensures OneOpenLink(Step(s, c).state)
  {
    hide Effect, LinkMoveOf, CanAnswer, Tr.MayText;
    LinksMove(s, c);
  }

  /** At every moment of every run, a driver has at most one open link per company. */
  lemma {:induction false} OneOpenLinkAlways(s: State, calls: seq<Call>)
    requires OneOpenLink(s) && IsRun(s, calls)
    ensures OneOpenLink(Final(s, calls))
    decreases |calls|
  {
    hide Step, OneOpenLink;
    if calls != [] {
      OneOpenLinkStep(s, calls[0]);
      OneOpenLinkAlways(Step(s, calls[0]).state, calls[1..]);
    }
  }

  /** Right after an accept no link of that driver, for any company, is open. */
  lemma AcceptClosesTheRest(s: State, c: Call, token: Token)
    requires CanHappen(s, c) && c.op == OnTransfers(AcceptLink(token)) && CanAnswer(s, token, c.at)
    ensures forall k :: k in Step(s, c).state.transfers && Step(s, c).state.transfers[k].driver == s.transfers[token].driver ==>
              !Tr.IsOpen(Step(s, c).state.transfers[k], c.at)
  {
    hide CodesEffect, SessionsEffect, AccountsEffect, Purge, AddDriver, ReleaseTruck;
  }

  // ----- moves form a path

  /** The moves of one driver, in order. */
  ghost function MovesOf(moves: seq<Move>, driver: UserId): seq<Move>
  {
    if moves == [] then []
    else
      var init := MovesOf(moves[..|moves| - 1], driver);
      if moves[|moves| - 1].driver == driver then init + [moves[|moves| - 1]] else init
  }

  /** Each move starts where the one before ended. */
  ghost predicate IsPath(start: CompanyId, moves: seq<Move>, end: CompanyId)
  {
    if moves == [] then start == end
    else moves[|moves| - 1].toCompany == end && IsPath(start, moves[..|moves| - 1], moves[|moves| - 1].fromCompany)
  }

  lemma MovesOfAppend(moves: seq<Move>, m: Move, driver: UserId)
    ensures MovesOf(moves + [m], driver) == if m.driver == driver then MovesOf(moves, driver) + [m] else MovesOf(moves, driver)
  {
    assert (moves + [m])[..|moves|] == moves;
  }

  lemma PathAppend(start: CompanyId, moves: seq<Move>, m: Move)
    requires IsPath(start, moves, m.fromCompany)
    ensures IsPath(start, moves + [m], m.toCompany)
  {
    assert (moves + [m])[..|moves|] == moves;
  }

  /** A user's company changes only when that user, a driver, accepts a link, to the link's company. */
  lemma CompanyChangesOnlyByAccept(s: State, c: Call, user: UserId)
    requires user in s.users
    ensures var t := Step(s, c).state;
            && user in t.users
            && (if c.op.OnTransfers? && c.op.transfers.AcceptLink? && CanAnswer(s, c.op.transfers.token, c.at)
                   && s.transfers[c.op.transfers.token].driver == user
                then t.users[user].company == s.transfers[c.op.transfers.token].toCompany
                     && s.users[user].company == s.transfers[c.op.transfers.token].fromCompany
                else t.users[user].company == s.users[user].company)
  {
    hide CodesEffect, SessionsEffect, AccountsEffect, TransfersEffect, Purge;
    match c.op
    case OnCodes(_) =>
    case OnSessions(op) => CompanyInSessions(s, op, c.at, user);
    case OnAccounts(op) => CompanyInAccounts(s, op, c.at, user);
    case OnTransfers(op) => CompanyInTransfers(s, op, c.at, user);
    case DoPurge(_) =>
  }

  lemma CompanyInSessions(s: State, op: SessionOp, now: Time, user: UserId)
    requires user in s.users
    ensures var t := SessionsEffect(s, op, now).state; user in t.users && t.users[user].company == s.users[user].company
  {
    hide Login, AdminLogin, Register, Refresh, Logout, RequestReset, Ses.EndSessions;
  }

  lemma CompanyInAccounts(s: State, op: AccountOp, now: Time, user: UserId)
    requires user in s.users
    ensures var t := AccountsEffect(s, op, now).state; user in t.users && t.users[user].company == s.users[user].company
  {
    hide Tables.Keep, Ses.EndSessions, ReleaseTruck;
  }

  lemma CompanyInTransfers(s: State, op: TransferOp, now: Time, user: UserId)
    requires user in s.users
    ensures var t := TransfersEffect(s, op, now).state;
            && user in t.users
            && (if op.AcceptLink? && CanAnswer(s, op.token, now) && s.transfers[op.token].driver == user
                then t.users[user].company == s.transfers[op.token].toCompany
                     && s.users[user].company == s.transfers[op.token].fromCompany
                else t.users[user].company == s.users[user].company)
  {
    hide RequestTransfer, Tr.Accept, ReleaseTruck;
  }

  ghost predicate OnPath(s: State, driver: UserId, start: CompanyId, since: nat) {
    && driver in s.users && since <= |s.moves|
    && IsPath(start, MovesOf(s.moves[since..], driver), s.users[driver].company)
  }

  lemma PathStep(s: State, c: Call, driver: UserId, start: CompanyId, since: nat)
    requires OnPath(s, driver, start, since)
    ensures OnPath(Step(s, c).state, driver, start, since)
  {
    AcceptingMove(s, c);
    hide Step, LinkMoveOf, CanAnswer, Tr.MayText, MoveLinks;
    LinksMove(s, c);
    CompanyChangesOnlyByAccept(s, c, driver);
    var mv, t := LinkMoveOf(s, c), Step(s, c).state;
    if mv.Accepted? {
      var row := s.transfers[mv.token];
      var m := Move(row.driver, row.fromCompany, row.toCompany, mv.token);
      assert t.moves[since..] == s.moves[since..] + [m];
      MovesOfAppend(s.moves[since..], m, driver);
      if row.driver == driver {
        PathAppend(start, MovesOf(s.moves[since..], driver), m);
      }
    }
  }

  lemma AcceptingMove(s: State, c: Call)
    ensures LinkMoveOf(s, c).Accepted? <==>
              c.op.OnTransfers? && c.op.transfers.AcceptLink? && CanAnswer(s, c.op.transfers.token, c.at)
    ensures LinkMoveOf(s, c).Accepted? ==> LinkMoveOf(s, c).token == c.op.transfers.token && c.op.transfers.token in s.transfers
  {
    hide Step, Tr.MayText;
  }

  lemma {:induction false} PathRun(s: State, calls: seq<Call>, driver: UserId, start: CompanyId, since: nat)
    requires IsRun(s, calls) && OnPath(s, driver, start, since)
    ensures OnPath(Final(s, calls), driver, start, since)
    decreases |calls|
  {
    hide Step, OnPath;
    if calls != [] {
      PathStep(s, calls[0], driver, start, since);
      PathRun(Step(s, calls[0]).state, calls[1..], driver, start, since);
    }
  }

  /** Main result: over any run the accepted transfers of a driver lead, one after another, from the
      company the driver was in to the company the driver is in. */
  lemma TransfersFormAPath(s: State, calls: seq<Call>, driver: UserId)
    requires IsRun(s, calls) && driver in s.users
    ensures var t := Final(s, calls);
            && driver in t.users && |s.moves| <= |t.moves|
            && IsPath(s.users[driver].company, MovesOf(t.moves[|s.moves|..], driver), t.users[driver].company)
  {
    hide Step;
    PathRun(s, calls, driver, s.users[driver].company, |s.moves|);
  }

  // ----- texting caps

  /** The requests of one kind made in the window of 24 hours that ends at `end`. */
  ghost function InWindow(requests: map<Token, Asked>, pick: Asked -> bool, end: Time): set<Token> {
    set k | k in requests && pick(requests[k]) && end - Tr.CAP_WINDOW < requests[k].at <= end
  }

  function ToDriver(driver: UserId): Asked -> bool {
    (x: Asked) => x.driver == driver
  }

  function FromCompany(company: CompanyId): Asked -> bool {
    (x: Asked) => x.toCompany == company
  }

  /** Rows and requests tell the same story: every row is of a request, and every request of the last
      30 days still has its row. */
  ghost predicate Recorded(s: State) {
    TablesAgree(s.transfers, s.requests, s.clock)
  }

  ghost predicate TablesAgree(transfers: Tr.Table, requests: map<Token, Asked>, clock: Time) {
    && (forall k :: k in transfers ==>
          k in requests && requests[k] == Asked(transfers[k].driver, transfers[k].toCompany, transfers[k].createdAt)
          && StampsInOrder(transfers[k]))
    && (forall k :: k in requests ==> requests[k].at <= clock)
    && (forall k :: k in requests && requests[k].at > clock - TRANSFER_KEEP ==> k in transfers)
  }

  predicate StampsInOrder(r: Tr.Transfer) {
    && r.createdAt <= r.expiresAt
    && (r.acceptedAt.Some? ==> r.createdAt <= r.acceptedAt.value)
    && (r.declinedAt.Some? ==> r.createdAt <= r.declinedAt.value)
  }

  lemma AgreeAfterSweep(transfers: Tr.Table, requests: map<Token, Asked>, clock: Time, now: Time)
    requires TablesAgree(transfers, requests, clock) && clock < now
    ensures TablesAgree(Tables.Keep(transfers, KeepsTransfer(now - TRANSFER_KEEP)), requests, now)
  {
  }

  lemma AgreeAfterMove(transfers: Tr.Table, requests: map<Token, Asked>, mv: LinkMove, clock: Time, now: Time)
    requires TablesAgree(transfers, requests, clock) && clock < now && !mv.SweepLinks? && !mv.Added?
    ensures TablesAgree(MoveLinks(transfers, mv, now), requests, now)
  {
  }

  lemma AgreeAfterRequest(transfers: Tr.Table, requests: map<Token, Asked>, token: Token, row: Tr.Transfer, now: Time)
    requires TablesAgree(transfers, requests, now) && token !in requests && row.createdAt == now && StampsInOrder(row)
    ensures TablesAgree(transfers[token := row], requests[token := Asked(row.driver, row.toCompany, now)], now)
  {
  }

  lemma RecordedStep(s: State, c: Call)
    requires Recorded(s) && Known(s) && CanHappen(s, c)
    ensures Recorded(Step(s, c).state)
  {
    hide Effect, LinkMoveOf, CanAnswer, Tr.MayText, TablesAgree;
    LinksMove(s, c);
    match LinkMoveOf(s, c)
    case SweepLinks(_) => AgreeAfterSweep(s.transfers, s.requests, s.clock, c.at);
    case Added(token, row) =>
      AgreeAfterMove(s.transfers, s.requests, Dropped(row.driver, row.toCompany), s.clock, c.at);
      AgreeAfterRequest(Tr.Supersede(s.transfers, row.driver, row.toCompany, c.at), s.requests, token, row, c.at);
    case mv => AgreeAfterMove(s.transfers, s.requests, mv, s.clock, c.at);
  }

  ghost predicate Capped(requests: map<Token, Asked>, pick: Asked -> bool, cap: nat) {
    forall end :: |InWindow(requests, pick, end)| <= cap
  }

  /** Adding one request now keeps a cap that the rows of the last 24 hours had not reached. */
  lemma CappedAfterRequest(s: State, pick: Asked -> bool, cap: nat, rows: set<Token>, token: Token, asked: Asked)
    requires Recorded(s) && Capped(s.requests, pick, cap) && s.clock < asked.at && token !in s.requests
    requires |rows| < cap
    requires forall k :: k in s.requests && pick(s.requests[k]) && s.requests[k].at > asked.at - Tr.CAP_WINDOW ==> k in rows
    ensures Capped(s.requests[token := asked], pick, cap)
  {
    var requests := s.requests[token := asked];
    forall end ensures |InWindow(requests, pick, end)| <= cap {
      if end < asked.at {
        assert InWindow(requests, pick, end) == InWindow(s.requests, pick, end);
      } else {
        Tables.SubsetSize(InWindow(requests, pick, end), rows + {token});
      }
    }
  }

  ghost predicate AllCapped(s: State) {
    && (forall d :: Capped(s.requests, ToDriver(d), Tr.MAX_PER_DRIVER))
    && (forall company :: Capped(s.requests, FromCompany(company), Tr.MAX_PER_COMPANY))
  }

  lemma CappedStep(s: State, c: Call)
    requires Recorded(s) && Known(s) && AllCapped(s) && CanHappen(s, c)
    ensures AllCapped(Step(s, c).state)
  {
    hide Effect, LinkMoveOf, CanAnswer, MoveLinks, Capped;
    LinksMove(s, c);
    var mv := LinkMoveOf(s, c);
    if mv.Added? {
      var asked := Asked(mv.row.driver, mv.row.toCompany, c.at);
      forall d ensures Capped(Step(s, c).state.requests, ToDriver(d), Tr.MAX_PER_DRIVER) {
        if d == mv.row.driver {
          CappedAfterRequest(s, ToDriver(d), Tr.MAX_PER_DRIVER, Tr.OfDriver(s.transfers, d, c.at), mv.token, asked);
        } else {
          OthersUnchanged(s.requests, ToDriver(d), Tr.MAX_PER_DRIVER, mv.token, asked);
        }
      }
      forall company ensures Capped(Step(s, c).state.requests, FromCompany(company), Tr.MAX_PER_COMPANY) {
        if company == mv.row.toCompany {
          CappedAfterRequest(s, FromCompany(company), Tr.MAX_PER_COMPANY, Tr.OfCompany(s.transfers, company, c.at), mv.token, asked);
        } else {
          OthersUnchanged(s.requests, FromCompany(company), Tr.MAX_PER_COMPANY, mv.token, asked);
        }
      }
    }
  }

  lemma OthersUnchanged(requests: map<Token, Asked>, pick: Asked -> bool, cap: nat, token: Token, asked: Asked)
    requires Capped(requests, pick, cap) && token !in requests && !pick(asked)
    ensures Capped(requests[token := asked], pick, cap)
  {
    var after := requests[token := asked];
    forall end ensures |InWindow(after, pick, end)| <= cap {
      assert InWindow(after, pick, end) == InWindow(requests, pick, end);
    }
  }

  /** Main result: in every run, whatever is purged or fails to send, no window of 24 hours holds more than 5
      requests to one driver or 20 for one company that stayed – so no more texts that were delivered either. */
  lemma {:induction false} CapsHoldAlways(s: State, calls: seq<Call>)
    requires Recorded(s) && Known(s) && AllCapped(s) && IsRun(s, calls)
    ensures var t := Final(s, calls);
            && Recorded(t) && Known(t)
            && (forall d, end :: |InWindow(t.requests, ToDriver(d), end)| <= 5)
            && (forall company, end :: |InWindow(t.requests, FromCompany(company), end)| <= 20)
    decreases |calls|
  {
    hide Step, Recorded, Known, LinkMoveOf;
    if calls != [] {
      var c := calls[0];
      AnsweredStep(s, c, 0);
      RecordedStep(s, c);
      CappedStep(s, c);
      CapsHoldAlways(Step(s, c).state, calls[1..]);
    }
  }

  lemma NothingIsCapped(pick: Asked -> bool, cap: nat)
    ensures Capped(map[], pick, cap)
  {
    forall end ensures |InWindow(map[], pick, end)| <= cap {
      assert InWindow(map[], pick, end) == {};
    }
  }

  /** The empty store meets every condition the results above start from. */
  lemma EmptyStarts()
    ensures var s := Empty(); Recorded(s) && Known(s) && AllCapped(s) && OneOpenLink(s)
  {
    hide Capped;
    forall d ensures Capped(map[], ToDriver(d), Tr.MAX_PER_DRIVER) {
      NothingIsCapped(ToDriver(d), Tr.MAX_PER_DRIVER);
    }
    forall company ensures Capped(map[], FromCompany(company), Tr.MAX_PER_COMPANY) {
      NothingIsCapped(FromCompany(company), Tr.MAX_PER_COMPANY);
    }
  }
}
