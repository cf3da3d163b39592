/** When a refresh token stops working, over whole runs. */
module SessionsEnd {
  import opened Base
  import Ses = SessionTokens
  import opened Credentials
  import opened TableMoves

  /** Every stored token was minted; so no later draw repeats it, even after its row is purged. */
  ghost predicate Known(s: State) {
    s.refresh.Keys <= s.minted
  }

  /** The token can never be accepted again: its row is gone or has expired. */
  ghost predicate IsOver(s: State, tok: Token) {
    tok in s.minted && (tok in s.refresh ==> s.refresh[tok].expiresAt <= s.clock)
  }

  /** The token was first revoked at r, or is over. */
  ghost predicate RotatedAt(s: State, tok: Token, r: Time) {
    tok in s.minted && (tok in s.refresh ==> s.refresh[tok].expiresAt <= s.clock || s.refresh[tok].revokedAt == Some(r))
  }

  ghost predicate Accepts(s: State, c: Call, tok: Token) {
    c.op.OnSessions? && c.op.sessions.Rotate? && c.op.sessions.raw == Some(tok) && Step(s, c).answer.SignedIn?
  }

  lemma KnownStep(s: State, c: Call)
    requires Known(s) && CanHappen(s, c)
    ensures Known(Step(s, c).state)
  {
    hide Step, TokenMoveOf;
    TokensMove(s, c);
  }

  /** One step of any kind moves neither mark: expiry only ever moves to now or earlier. */
  lemma MarksStep(s: State, c: Call, tok: Token, r: Time)
    requires CanHappen(s, c)
    ensures IsOver(s, tok) ==> IsOver(Step(s, c).state, tok)
    ensures RotatedAt(s, tok, r) ==> RotatedAt(Step(s, c).state, tok, r)
  {
    hide Effect, TokenMoveOf;
    TokensMove(s, c);
  }

  lemma {:induction false} MarksRun(s: State, calls: seq<Call>, tok: Token, r: Time)
    requires IsRun(s, calls)
    ensures IsOver(s, tok) ==> IsOver(Final(s, calls), tok)
    ensures RotatedAt(s, tok, r) ==> RotatedAt(Final(s, calls), tok, r)
    decreases |calls|
  {
    hide Step, IsOver, RotatedAt;
    if calls != [] {
      MarksStep(s, calls[0], tok, r);
      MarksRun(Step(s, calls[0]).state, calls[1..], tok, r);
    }
  }

  lemma {:induction false} KnownRun(s: State, calls: seq<Call>)
    requires IsRun(s, calls) && Known(s)
    ensures Known(Final(s, calls))
    decreases |calls|
  {
    hide Step, Known;
    if calls != [] {
      KnownStep(s, calls[0]);
      KnownRun(Step(s, calls[0]).state, calls[1..]);
    }
  }

  lemma AcceptedIsUsable(s: State, c: Call, tok: Token)
    requires Accepts(s, c, tok)
    ensures Ses.CanRefresh(s.refresh, tok, c.at)
  {
    hide CodesEffect, AccountsEffect, TransfersEffect, Purge, Login, AdminLogin, Register, Logout, RequestReset, ResetPassword;
  }

  lemma OverIsRefused(s: State, c: Call, tok: Token)
    requires IsOver(s, tok) && CanHappen(s, c)
    ensures !Accepts(s, c, tok)
  {
    hide Effect, Step;
    if Accepts(s, c, tok) {
      AcceptedIsUsable(s, c, tok);
    }
  }

  /** A call that ends every session of the user, or the one of the presented token. */
  ghost predicate EndsSession(s: State, c: Call, tok: Token)
    requires tok in s.refresh
  {
    var user := s.refresh[tok].user;
    match c.op
    case OnSessions(DoReset(token, _)) => Ses.CanReset(s.resets, token, c.at) && s.resets[token].user == user
    case OnSessions(LogOut(raw)) => raw == Some(tok)
    case OnAccounts(Disable(u)) => u == user && u in s.users
    case OnAccounts(Erase(u)) => u == user && Step(s, c).answer.Done?
    case _ => false
  }

  lemma EndingIsOver(s: State, c: Call, tok: Token)
    requires Known(s) && CanHappen(s, c) && tok in s.refresh && EndsSession(s, c, tok)
    ensures IsOver(Step(s, c).state, tok)
  {
    EndingMove(s, c, tok);
    hide Effect, TokenMoveOf, EndsSession;
    TokensMove(s, c);
  }

  lemma EndingMove(s: State, c: Call, tok: Token)
    requires tok in s.refresh && EndsSession(s, c, tok)
    ensures var mv, user := TokenMoveOf(s, c), s.refresh[tok].user;
            mv == EndTokens(user) || mv == RevokeToken(tok) || mv == DeleteTokens(user)
  {
    hide CodesEffect, TransfersEffect, Purge, Login, AdminLogin, Register, Refresh, RequestReset, ResetPassword, Activate, Deactivate, DeleteAccount;
  }

  /** Main result: once a password reset, a deactivation, an account deletion or a logout has ended a session,
      no later call accepts its token, whatever runs in between: reactivation, transfers, other
      refreshes within the grace window, or purges that delete its row. */
  lemma EndedSessionsStayEnded(s: State, c: Call, tok: Token, calls: seq<Call>, later: Call)
    requires Known(s) && CanHappen(s, c) && tok in s.refresh && EndsSession(s, c, tok)
    requires IsRun(Step(s, c).state, calls) && CanHappen(Final(Step(s, c).state, calls), later)
    ensures !Accepts(Final(Step(s, c).state, calls), later, tok)
  {
    hide Step, EndsSession, Accepts;
    EndingIsOver(s, c, tok);
    MarksRun(Step(s, c).state, calls, tok, 0);
    OverIsRefused(Final(Step(s, c).state, calls), later, tok);
  }

  /** The call rotates a token that was never revoked before. */
  ghost predicate FirstRotates(s: State, c: Call, tok: Token) {
    c.op.OnSessions? && c.op.sessions.Rotate? && c.op.sessions.raw == Some(tok)
    && Ses.CanRefresh(s.refresh, tok, c.at) && s.refresh[tok].revokedAt.None?
  }

  lemma FirstRotationMarks(s: State, c: Call, tok: Token)
    requires Known(s) && CanHappen(s, c) && FirstRotates(s, c, tok)
    ensures RotatedAt(Step(s, c).state, tok, c.at)
  {
    FirstRotationMove(s, c, tok);
    hide Effect, TokenMoveOf, FirstRotates;
    assert tok in s.refresh && s.refresh[tok].revokedAt.None? by { FirstRotationMove(s, c, tok); }
    TokensMove(s, c);
  }

  lemma FirstRotationMove(s: State, c: Call, tok: Token)
    requires FirstRotates(s, c, tok)
    ensures var mv := TokenMoveOf(s, c);
            mv == RotateToken(tok) || (mv.RotateAndIssue? && mv.raw == tok && Drawn(c.op) == Some(mv.token))
    ensures tok in s.refresh && s.refresh[tok].revokedAt.None?
  {
    hide Step;
  }

  /** Once a token is rotated at r, every later acceptance of it comes at most a minute after r. */
  lemma RotationWindow(s: State, c: Call, tok: Token, calls: seq<Call>, later: Call)
    requires Known(s) && CanHappen(s, c) && FirstRotates(s, c, tok)
    requires IsRun(Step(s, c).state, calls)
    requires var t := Final(Step(s, c).state, calls); CanHappen(t, later) && Accepts(t, later, tok)
    ensures c.at < later.at <= c.at + 60_000
  {
    hide Effect, Accepts, FirstRotates;
    FirstRotationMarks(s, c, tok);
    var t := Final(Step(s, c).state, calls);
    MarksRun(Step(s, c).state, calls, tok, c.at);
    AcceptedIsUsable(t, later, tok);
    ClockGrows(Step(s, c).state, calls);
  }

  lemma {:induction false} ClockGrows(s: State, calls: seq<Call>)
    requires IsRun(s, calls)
    ensures s.clock <= Final(s, calls).clock
    decreases |calls|
  {
    hide Effect;
    if calls != [] {
      ClockGrows(Step(s, calls[0]).state, calls[1..]);
    }
  }

  /** An accepted refresh leaves the presented token revoked and yields exactly one new token of the same
      user, unrevoked and expiring one role-dependent lifetime later; no other row changes. */
  lemma AcceptedRefreshIssuesOne(s: State, c: Call, tok: Token)
    requires Known(s) && CanHappen(s, c) && Accepts(s, c, tok)
    ensures var (t, mint, user) := (Step(s, c).state, c.op.sessions.mint, s.refresh[tok].user);
            && mint !in s.refresh && Step(s, c).answer == SignedIn(user, mint) && user in s.users
            && t.refresh.Keys == s.refresh.Keys + {mint}
            && t.refresh[mint] == Ses.RefreshRow(user, c.at + (if s.users[user].role.Driver? then 90 * DAY else 30 * DAY), None)
            && t.refresh[tok] == s.refresh[tok].(revokedAt := Some(s.refresh[tok].revokedAt.GetOr(c.at)))
            && forall k :: k in s.refresh && k != tok ==> t.refresh[k] == s.refresh[k]
  {
    hide Effect, Step, TokenMoveOf, Accepts;
    AcceptedIsUsable(s, c, tok);
    AcceptedMove(s, c, tok);
    TokensMove(s, c);
  }

  lemma AcceptedMove(s: State, c: Call, tok: Token)
    requires Accepts(s, c, tok)
    ensures var mv := TokenMoveOf(s, c); mv.RotateAndIssue? && mv.raw == tok && mv.token == c.op.sessions.mint
  {
    TokensMove(s, c);
    hide Effect, Step;
  }
}
