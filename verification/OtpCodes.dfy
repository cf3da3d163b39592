/** Driver sign-in codes: the otp_codes table and what each service does to it. */
module OtpCodes {
  import opened Base
  import Rows

  type UserId = nat
  /** A phone in canonical form. */
  type Phone = nat
  /** A code as stored: its keyed hash, taken to be injective per phone. */
  type Code = nat

  const OTP_TTL: int := 5 * MINUTE
  const RESEND_COOLDOWN: int := 60 * SECOND
  const MAX_ATTEMPTS: nat := 5
  const MANAGER_CODE_TTL: int := 15 * MINUTE
  const MAX_PENDING: nat := 5

  datatype Channel = Sms | Email | WhatsApp | Telegram | ViaManager

  datatype OtpRow = OtpRow(
    id: nat, phone: Phone, code: Code, user: UserId,
    createdAt: Time, expiresAt: Time, attempts: nat, usedAt: Option<Time>,
    channel: Channel, issuedBy: Option<UserId>, driverRequest: bool)

  // ----- selections

  predicate IsPending(o: OtpRow, phone: Phone, now: Time) {
    o.phone == phone && o.usedAt.None? && o.expiresAt > now
  }

  function PendingTest(phone: Phone, now: Time): OtpRow -> bool {
    (o: OtpRow) => IsPending(o, phone, now)
  }

  /** The phone's usable codes, oldest first. */
  function Pending(otps: seq<OtpRow>, phone: Phone, now: Time): seq<OtpRow> {
    Rows.Filter(PendingTest(phone, now), otps)
  }

  /** The rows `orderBy createdAt desc, take n` picks, oldest first. */
  function Newest(rows: seq<OtpRow>, n: nat): seq<OtpRow> {
    if |rows| <= n then rows else rows[|rows| - n..]
  }

  function Considered(otps: seq<OtpRow>, phone: Phone, now: Time): seq<OtpRow> {
    Newest(Pending(otps, phone, now), MAX_PENDING)
  }

  function LiveTest(): OtpRow -> bool {
    (o: OtpRow) => o.attempts < MAX_ATTEMPTS
  }

  function Live(rows: seq<OtpRow>): seq<OtpRow> {
    Rows.Filter(LiveTest(), rows)
  }

  function SpentTest(): OtpRow -> bool {
    (o: OtpRow) => o.attempts >= MAX_ATTEMPTS
  }

  function Ids(rows: seq<OtpRow>): set<nat> {
    set o | o in rows :: o.id
  }

  /** The newest row carrying this code. */
  function FindCode(rows: seq<OtpRow>, code: Code): (found: Option<OtpRow>)
    ensures found.Some? ==> found.value in rows && found.value.code == code
    ensures found.None? ==> forall o :: o in rows ==> o.code != code
  {
    if rows == [] then None
    else if rows[|rows| - 1].code == code then Some(rows[|rows| - 1])
    else assert rows == rows[..|rows| - 1] + [rows[|rows| - 1]]; FindCode(rows[..|rows| - 1], code)
  }

  /** What a sign-in attempt finds before any user is looked at. */
  datatype Check =
    | NoCode
    | AllSpent(lock: set<nat>)
    | Wrong(lock: set<nat>, counted: set<nat>)
    | Right(lock: set<nat>, row: OtpRow)

  function CheckCode(otps: seq<OtpRow>, phone: Phone, code: Code, now: Time): Check {
    var rows := Considered(otps, phone, now);
    var lock := Ids(Rows.Filter(SpentTest(), rows));
    var live := Live(rows);
    if rows == [] then NoCode
    else if live == [] then AllSpent(lock)
    else match FindCode(live, code)
      case None => Wrong(lock, Ids(live))
      case Some(row) => Right(lock, row)
  }

  predicate SentRecently(o: OtpRow, phone: Phone, channel: Channel, now: Time) {
    o.phone == phone && o.channel == channel && o.createdAt > now - RESEND_COOLDOWN
  }

  predicate CoolingDown(otps: seq<OtpRow>, phone: Phone, channel: Channel, now: Time) {
    exists o :: o in otps && SentRecently(o, phone, channel, now)
  }

  predicate IsOpenRequest(o: OtpRow, driver: UserId, manager: UserId, now: Time) {
    o.user == driver && o.issuedBy == Some(manager) && o.driverRequest && o.usedAt.None? && o.expiresAt > now
  }

  function OpenRequestTest(driver: UserId, manager: UserId, now: Time): OtpRow -> bool {
    (o: OtpRow) => IsOpenRequest(o, driver, manager, now)
  }

  /** When the newest open "ask my manager" request runs out, if there is one. */
  function OpenRequest(otps: seq<OtpRow>, driver: UserId, manager: UserId, now: Time): Option<Time> {
    var open := Rows.Filter(OpenRequestTest(driver, manager, now), otps);
    if open == [] then None else Some(open[|open| - 1].expiresAt)
  }

  // ----- updates

  datatype Update =
    | Lock(ids: set<nat>)
    | Count(ids: set<nat>)
    | Burn(phone: Phone)
    | CloseRequests(driver: UserId, manager: UserId)

  function Apply(u: Update, o: OtpRow, now: Time): OtpRow {
    match u
    case Lock(ids) => if o.id in ids then o.(usedAt := Some(now)) else o
    case Count(ids) => if o.id in ids then o.(attempts := o.attempts + 1) else o
    case Burn(phone) => if o.phone == phone && o.usedAt.None? then o.(usedAt := Some(now)) else o
    case CloseRequests(driver, manager) =>
      if o.user == driver && o.issuedBy == Some(manager) && o.driverRequest && o.usedAt.None?
      then o.(driverRequest := false) else o
  }

  function Applying(u: Update, now: Time): OtpRow -> OtpRow {
    (o: OtpRow) => Apply(u, o, now)
  }

  function UpdateMany(otps: seq<OtpRow>, u: Update, now: Time): seq<OtpRow> {
    Rows.Map(Applying(u, now), otps)
  }

  function NotOf(user: UserId): OtpRow -> bool {
    (o: OtpRow) => o.user != user
  }

  function DeleteOf(otps: seq<OtpRow>, user: UserId): seq<OtpRow> {
    Rows.Filter(NotOf(user), otps)
  }

  /** The table after a sign-in attempt; `accepted` tells whether the code's owner may sign in. */
  function AfterCheck(otps: seq<OtpRow>, phone: Phone, check: Check, accepted: bool, now: Time): seq<OtpRow> {
    match check
    case NoCode => otps
    case AllSpent(lock) => UpdateMany(otps, Lock(lock), now)
    case Wrong(lock, counted) => UpdateMany(UpdateMany(otps, Lock(lock), now), Count(counted), now)
    case Right(lock, _) =>
      var locked := UpdateMany(otps, Lock(lock), now);
      if accepted then UpdateMany(locked, Burn(phone), now) else locked
  }

  // ----- rows that no later read can tell from deleted ones

  predicate IsDead(o: OtpRow, at: Time) {
    (o.usedAt.Some? || o.expiresAt <= at) && o.createdAt <= at - RESEND_COOLDOWN
  }

  function AliveTest(at: Time): OtpRow -> bool {
    (o: OtpRow) => !IsDead(o, at)
  }

  function Alive(otps: seq<OtpRow>, at: Time): seq<OtpRow> {
    Rows.Filter(AliveTest(at), otps)
  }

  lemma PendingSeesAliveOnly(otps: seq<OtpRow>, phone: Phone, at: Time, now: Time)
    requires at <= now
    ensures Pending(Alive(otps, at), phone, now) == Pending(otps, phone, now)
  {
    Rows.FilterThroughFilter(PendingTest(phone, now), AliveTest(at), otps);
  }

  lemma CheckSeesAliveOnly(otps: seq<OtpRow>, phone: Phone, code: Code, at: Time, now: Time)
    requires at <= now
    ensures CheckCode(Alive(otps, at), phone, code, now) == CheckCode(otps, phone, code, now)
  {
    PendingSeesAliveOnly(otps, phone, at, now);
  }

  lemma RequestSeesAliveOnly(otps: seq<OtpRow>, driver: UserId, manager: UserId, at: Time, now: Time)
    requires at <= now
    ensures OpenRequest(Alive(otps, at), driver, manager, now) == OpenRequest(otps, driver, manager, now)
  {
    Rows.FilterThroughFilter(OpenRequestTest(driver, manager, now), AliveTest(at), otps);
  }

  lemma CooldownSeesAliveOnly(otps: seq<OtpRow>, phone: Phone, channel: Channel, at: Time, now: Time)
    requires at <= now
    ensures CoolingDown(Alive(otps, at), phone, channel, now) == CoolingDown(otps, phone, channel, now)
  {
    Rows.FilterKeeps(AliveTest(at), otps);
    if CoolingDown(otps, phone, channel, now) {
      var o :| o in otps && SentRecently(o, phone, channel, now);
      assert o in Alive(otps, at);
    }
  }

  /** Two tables whose live rows agree still agree as time passes … */
  lemma AliveAges(otps: seq<OtpRow>, at: Time, now: Time)
    requires at <= now
    ensures Alive(Alive(otps, at), now) == Alive(otps, now)
  {
    Rows.FilterThroughFilter(AliveTest(now), AliveTest(at), otps);
  }

  /** … through every update … */
  lemma AliveThroughUpdate(otps: seq<OtpRow>, u: Update, at: Time, now: Time)
    requires at <= now
    ensures Alive(UpdateMany(Alive(otps, at), u, now), now) == Alive(UpdateMany(otps, u, now), now)
  {
    Rows.FilterMapThroughFilter(AliveTest(now), Applying(u, now), AliveTest(at), otps);
  }

  lemma AliveThroughCheck(otps: seq<OtpRow>, phone: Phone, check: Check, accepted: bool, at: Time, now: Time)
    requires at <= now
    ensures Alive(AfterCheck(Alive(otps, at), phone, check, accepted, now), now)
            == Alive(AfterCheck(otps, phone, check, accepted, now), now)
  {
    AliveAges(otps, at, now);
    if !check.NoCode? {
      var locked := UpdateMany(otps, Lock(check.lock), now);
      var locked' := UpdateMany(Alive(otps, at), Lock(check.lock), now);
      AliveThroughUpdate(otps, Lock(check.lock), at, now);
      if check.Wrong? {
        AliveThroughUpdate(locked, Count(check.counted), now, now);
        AliveThroughUpdate(locked', Count(check.counted), now, now);
      } else if check.Right? {
        AliveThroughUpdate(locked, Burn(phone), now, now);
        AliveThroughUpdate(locked', Burn(phone), now, now);
      }
    }
  }

  /** … and through appending a row and deleting a user's rows. */
  lemma AliveThroughStore(otps: seq<OtpRow>, o: OtpRow, at: Time, now: Time)
    requires at <= now
    ensures Alive(Alive(otps, at) + [o], now) == Alive(otps + [o], now)
  {
    AliveAges(otps, at, now);
    Rows.FilterAppend(AliveTest(now), otps, o);
    Rows.FilterAppend(AliveTest(now), Alive(otps, at), o);
  }

  lemma AliveThroughDelete(otps: seq<OtpRow>, user: UserId, at: Time, now: Time)
    requires at <= now
    ensures Alive(DeleteOf(Alive(otps, at), user), now) == Alive(DeleteOf(otps, user), now)
  {
    Rows.FiltersCommute(AliveTest(now), NotOf(user), otps);
    Rows.FiltersCommute(AliveTest(now), NotOf(user), Alive(otps, at));
    AliveAges(otps, at, now);
  }

  // ----- what a sign-in attempt does to the codes

  ghost predicate DistinctIds(otps: seq<OtpRow>) {
    forall i, j :: 0 <= i < j < |otps| ==> otps[i].id != otps[j].id
  }

  lemma ConsideredArePending(otps: seq<OtpRow>, phone: Phone, now: Time)
    ensures forall o :: o in Considered(otps, phone, now) ==> o in otps && IsPending(o, phone, now)
    ensures Considered(otps, phone, now) == [] <==> Pending(otps, phone, now) == []
  {
    var rows := Pending(otps, phone, now);
    Rows.FilterKeeps(PendingTest(phone, now), otps);
    if |rows| > MAX_PENDING {
      assert rows == rows[..|rows| - MAX_PENDING] + Newest(rows, MAX_PENDING);
    }
  }
}
