/** The driver_transfers table: one row per consent link texted to a driver. */
module Transfers {
  import opened Base
  import Tables

  type UserId = nat
  type CompanyId = nat
  type Token = nat

  const TRANSFER_TTL: int := 24 * HOUR
  const RESEND_COOLDOWN: int := 10 * MINUTE
  const CAP_WINDOW: int := 24 * HOUR
  const MAX_PER_DRIVER: nat := 5
  const MAX_PER_COMPANY: nat := 20

  datatype Transfer = Transfer(
    driver: UserId, fromCompany: CompanyId, toCompany: CompanyId, requestedBy: UserId,
    createdAt: Time, expiresAt: Time, acceptedAt: Option<Time>, declinedAt: Option<Time>)

  type Table = map<Token, Transfer>

  predicate IsUndecided(r: Transfer) {
    r.acceptedAt.None? && r.declinedAt.None?
  }

  predicate IsOpen(r: Transfer, now: Time) {
    IsUndecided(r) && r.expiresAt > now
  }

  // ----- selections a request makes

  ghost predicate SentRecently(table: Table, driver: UserId, to: CompanyId, now: Time) {
    exists k :: k in table && table[k].driver == driver && table[k].toCompany == to
                && IsOpen(table[k], now) && table[k].createdAt > now - RESEND_COOLDOWN
  }

  ghost function OfDriver(table: Table, driver: UserId, now: Time): set<Token> {
    set k | k in table && table[k].driver == driver && table[k].createdAt > now - CAP_WINDOW
  }

  ghost function OfCompany(table: Table, to: CompanyId, now: Time): set<Token> {
    set k | k in table && table[k].toCompany == to && table[k].createdAt > now - CAP_WINDOW
  }

  ghost predicate MayText(table: Table, driver: UserId, to: CompanyId, now: Time) {
    && !SentRecently(table, driver, to, now)
    && |OfDriver(table, driver, now)| < MAX_PER_DRIVER
    && |OfCompany(table, to, now)| < MAX_PER_COMPANY
  }

  // ----- updates

  function Superseding(driver: UserId, to: CompanyId, now: Time): (Token, Transfer) -> Transfer {
    (k: Token, r: Transfer) =>
      if r.driver == driver && r.toCompany == to && IsUndecided(r) then r.(expiresAt := now) else r
  }

  function Supersede(table: Table, driver: UserId, to: CompanyId, now: Time): Table {
    Tables.Rewrite(table, Superseding(driver, to, now))
  }

  function Mooting(driver: UserId, kept: Token, now: Time): (Token, Transfer) -> Transfer {
    (k: Token, r: Transfer) =>
      if r.driver == driver && k != kept && IsUndecided(r) then r.(expiresAt := now) else r
  }

  function Accept(table: Table, token: Token, now: Time): Table
    requires token in table
  {
    Tables.Rewrite(table[token := table[token].(acceptedAt := Some(now))], Mooting(table[token].driver, token, now))
  }

  function Decline(table: Table, token: Token, now: Time): Table
    requires token in table
  {
    table[token := table[token].(declinedAt := Some(now))]
  }

  // ----- rows that no later read can tell from deleted ones

  predicate IsDead(r: Transfer, at: Time) {
    !IsOpen(r, at) && r.createdAt <= at - CAP_WINDOW
  }

  function AliveTest(at: Time): Transfer -> bool {
    (r: Transfer) => !IsDead(r, at)
  }

  ghost predicate Agree(a: Table, b: Table, at: Time) {
    Tables.Agree(a, b, AliveTest(at))
  }

  lemma Ages(a: Table, b: Table, at: Time, now: Time)
    requires Agree(a, b, at) && at < now
    ensures Agree(a, b, now)
  {
  }

  lemma RequestsAgree(a: Table, b: Table, driver: UserId, to: CompanyId, now: Time)
    requires Agree(a, b, now)
    ensures MayText(a, driver, to, now) == MayText(b, driver, to, now)
  {
    assert OfDriver(a, driver, now) == OfDriver(b, driver, now);
    assert OfCompany(a, to, now) == OfCompany(b, to, now);
    assert SentRecently(a, driver, to, now) == SentRecently(b, driver, to, now);
  }

  lemma OpenAgrees(a: Table, b: Table, token: Token, now: Time)
    requires Agree(a, b, now)
    ensures token in a && IsOpen(a[token], now) ==> token in b && a[token] == b[token]
    ensures token in b && IsOpen(b[token], now) ==> token in a && a[token] == b[token]
  {
  }

  lemma ThroughSteps(a: Table, b: Table, driver: UserId, to: CompanyId, token: Token, row: Transfer, now: Time)
    requires Agree(a, b, now)
    ensures Agree(Supersede(a, driver, to, now), Supersede(b, driver, to, now), now)
    ensures Agree(a[token := row], b[token := row], now)
  {
  }

  lemma ThroughAnswers(a: Table, b: Table, token: Token, now: Time)
    requires Agree(a, b, now) && token in a && token in b && a[token] == b[token]
    ensures Agree(Accept(a, token, now), Accept(b, token, now), now)
    ensures Agree(Decline(a, token, now), Decline(b, token, now), now)
  {
    var row := a[token].(acceptedAt := Some(now));
    assert Agree(a[token := row], b[token := row], now);
  }
}
