/** The refresh_tokens and password_reset_tokens tables. A row is keyed by its token's hash. */
module SessionTokens {
  import opened Base
  import Tables

  type UserId = nat
  type Token = nat

  const REFRESH_TTL: int := 30 * DAY
  const DRIVER_REFRESH_TTL: int := 90 * DAY
  const REUSE_GRACE: int := 60 * SECOND
  const PASSWORD_RESET_TTL: int := 60 * MINUTE

  datatype RefreshRow = RefreshRow(user: UserId, expiresAt: Time, revokedAt: Option<Time>)
  datatype ResetRow = ResetRow(user: UserId, createdAt: Time, expiresAt: Time, usedAt: Option<Time>)

  type RefreshTable = map<Token, RefreshRow>
  type ResetTable = map<Token, ResetRow>

  function Ttl(driver: bool): int {
    if driver then DRIVER_REFRESH_TTL else REFRESH_TTL
  }

  // ----- refresh tokens

  /** Not expired, and never revoked or revoked within the grace window. */
  predicate IsUsable(r: RefreshRow, now: Time) {
    r.expiresAt >= now && (r.revokedAt.Some? ==> now - r.revokedAt.value <= REUSE_GRACE)
  }

  predicate CanRefresh(table: RefreshTable, raw: Token, now: Time) {
    raw in table && IsUsable(table[raw], now)
  }

  /** Rotation revokes the presented row unless it is revoked already. */
  function Rotate(table: RefreshTable, raw: Token, now: Time): RefreshTable
    requires raw in table
  {
    if table[raw].revokedAt.Some? then table else table[raw := table[raw].(revokedAt := Some(now))]
  }

  function Issue(table: RefreshTable, token: Token, user: UserId, driver: bool, now: Time): RefreshTable {
    table[token := RefreshRow(user, now + Ttl(driver), None)]
  }

  function Ended(r: RefreshRow, now: Time): RefreshRow {
    r.(revokedAt := Some(now), expiresAt := now)
  }

  /** Logout: the row is revoked and expired, whatever state it was in. */
  function Revoke(table: RefreshTable, raw: Token, now: Time): RefreshTable {
    if raw in table then table[raw := Ended(table[raw], now)] else table
  }

  function EndingUnexpired(user: UserId, now: Time): (Token, RefreshRow) -> RefreshRow {
    (k: Token, r: RefreshRow) => if r.user == user && r.expiresAt > now then Ended(r, now) else r
  }

  /** Password reset and deactivation: every unexpired row of the user is revoked and expired. */
  function EndSessions(table: RefreshTable, user: UserId, now: Time): RefreshTable {
    Tables.Rewrite(table, EndingUnexpired(user, now))
  }

  function RefreshNotOf(user: UserId): RefreshRow -> bool {
    (r: RefreshRow) => r.user != user
  }

  predicate IsDeadRefresh(r: RefreshRow, at: Time) {
    r.expiresAt <= at || (r.revokedAt.Some? && at - r.revokedAt.value >= REUSE_GRACE)
  }

  function AliveRefresh(at: Time): RefreshRow -> bool {
    (r: RefreshRow) => !IsDeadRefresh(r, at)
  }

  ghost predicate RefreshAgree(a: RefreshTable, b: RefreshTable, at: Time) {
    Tables.Agree(a, b, AliveRefresh(at))
  }

  lemma RefreshAges(a: RefreshTable, b: RefreshTable, at: Time, now: Time)
    requires RefreshAgree(a, b, at) && at < now
    ensures RefreshAgree(a, b, now)
    ensures forall raw :: CanRefresh(a, raw, now) ==> CanRefresh(b, raw, now) && a[raw] == b[raw]
    ensures forall raw :: CanRefresh(b, raw, now) ==> CanRefresh(a, raw, now)
  {
  }

  lemma RefreshThroughEnd(a: RefreshTable, b: RefreshTable, user: UserId, raw: Token, now: Time)
    requires RefreshAgree(a, b, now)
    ensures RefreshAgree(EndSessions(a, user, now), EndSessions(b, user, now), now)
    ensures RefreshAgree(Revoke(a, raw, now), Revoke(b, raw, now), now)
    ensures RefreshAgree(Tables.Keep(a, RefreshNotOf(user)), Tables.Keep(b, RefreshNotOf(user)), now)
  {
  }

  lemma RefreshThroughRotate(a: RefreshTable, b: RefreshTable, raw: Token, token: Token, user: UserId, driver: bool, now: Time)
    requires RefreshAgree(a, b, now)
    ensures RefreshAgree(Issue(a, token, user, driver, now), Issue(b, token, user, driver, now), now)
    ensures raw in a && raw in b && a[raw] == b[raw] ==> RefreshAgree(Rotate(a, raw, now), Rotate(b, raw, now), now)
  {
  }

  // ----- password reset links

  predicate CanReset(table: ResetTable, token: Token, now: Time) {
    token in table && table[token].usedAt.None? && table[token].expiresAt >= now
  }

  function UsingUp(user: UserId, now: Time): (Token, ResetRow) -> ResetRow {
    (k: Token, r: ResetRow) => if r.user == user && r.usedAt.None? then r.(usedAt := Some(now)) else r
  }

  /** A new link; the user's outstanding ones are used up first. */
  function IssueReset(table: ResetTable, token: Token, user: UserId, now: Time): ResetTable {
    Tables.Rewrite(table, UsingUp(user, now))[token := ResetRow(user, now, now + PASSWORD_RESET_TTL, None)]
  }

  function UseReset(table: ResetTable, token: Token, now: Time): ResetTable
    requires token in table
  {
    table[token := table[token].(usedAt := Some(now))]
  }

  function ResetNotOf(user: UserId): ResetRow -> bool {
    (r: ResetRow) => r.user != user
  }

  predicate IsDeadReset(r: ResetRow, at: Time) {
    r.usedAt.Some? || r.expiresAt <= at
  }

  function AliveReset(at: Time): ResetRow -> bool {
    (r: ResetRow) => !IsDeadReset(r, at)
  }

  ghost predicate ResetAgree(a: ResetTable, b: ResetTable, at: Time) {
    Tables.Agree(a, b, AliveReset(at))
  }

  lemma ResetAges(a: ResetTable, b: ResetTable, at: Time, now: Time)
    requires ResetAgree(a, b, at) && at < now
    ensures ResetAgree(a, b, now)
    ensures forall t :: CanReset(a, t, now) ==> CanReset(b, t, now) && a[t] == b[t]
    ensures forall t :: CanReset(b, t, now) ==> CanReset(a, t, now)
  {
  }

  lemma ResetThroughSteps(a: ResetTable, b: ResetTable, token: Token, user: UserId, now: Time)
    requires ResetAgree(a, b, now)
    ensures ResetAgree(IssueReset(a, token, user, now), IssueReset(b, token, user, now), now)
    ensures ResetAgree(Tables.Keep(a, ResetNotOf(user)), Tables.Keep(b, ResetNotOf(user)), now)
    ensures token in a && token in b ==> ResetAgree(UseReset(a, token, now), UseReset(b, token, now), now)
  {
  }
}
