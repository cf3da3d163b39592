/** When a recurring alarm rings next, stepped in the wall-clock time of the person it wakes. */
module AlarmTime {
  import opened Base

  /** A time zone: what its clocks add to UTC at each moment, and which moment a wall-clock reading stands for. */
  datatype Zone = Zone(offset: Time -> int, resolve: int -> Time, least: int, most: int) {
    function Wall(t: Time): int {
      t + offset(t)
    }

    /** No clock of the zone ever shows this reading. */
    ghost predicate InGap(wall: int) {
      forall t :: Wall(t) != wall
    }

    /** Offsets vary by less than a day; a reading resolves by an offset in that range, and to a moment that
        shows it if there is one. */
    ghost predicate Valid() {
      && 0 <= most - least < DAY
      && (forall t :: least <= offset(t) <= most)
      && (forall w :: least <= w - resolve(w) <= most)
      && (forall t :: Wall(resolve(Wall(t))) == Wall(t))
    }
  }

  function Utc(): Zone {
    Zone(t => 0, w => w, 0, 0)
  }

  lemma UtcIsValid()
    ensures Utc().Valid() && forall w :: !Utc().InGap(w)
  {
    forall w ensures !Utc().InGap(w) {
      assert Utc().Wall(w) == w;
    }
  }

  datatype Recurrence = Once | Daily | Weekly

  /** The moment some whole days later by the zone's clocks. */
  function Later(z: Zone, t: Time, days: nat): Time {
    z.resolve(z.Wall(t) + days * DAY)
  }

  lemma LaterIsLater(z: Zone, t: Time, days: nat)
    requires z.Valid() && days >= 1
    ensures Later(z, t, days) > t
  {
  }

  function Steps(z: Zone, t: Time, days: nat, k: nat): Time {
    if k == 0 then t else Later(z, Steps(z, t, days, k - 1), days)
  }

  /** A step goes to the same reading of the zone's clocks so many days later; without a zone, by so many times 24 hours. */
  lemma StepGoesByDays(z: Zone, t: Time, days: nat, k: nat)
    ensures k > 0 ==> var before := Steps(z, t, days, k - 1);
      Steps(z, t, days, k) == z.resolve(before + z.offset(before) + days * (24 * 3600 * 1000))
    ensures Steps(z, t, days, 0) == t
    ensures Steps(Utc(), t, 1, 1) == t + 24 * 3600 * 1000 && Steps(Utc(), t, 7, 1) == t + 7 * 24 * 3600 * 1000
  {
  }

  lemma {:induction false} StepsRise(z: Zone, t: Time, days: nat, j: nat, k: nat)
    requires z.Valid() && days >= 1 && j < k
    ensures Steps(z, t, days, j) < Steps(z, t, days, k)
  {
    LaterIsLater(z, Steps(z, t, days, k - 1), days);
    if j < k - 1 { StepsRise(z, t, days, j, k - 1); }
  }

  /** k is the first step after now. */
  ghost predicate IsFirstAfter(z: Zone, prev: Time, days: nat, now: Time, k: nat) {
    k >= 1 && Steps(z, prev, days, k) > now && forall j :: 1 <= j < k ==> Steps(z, prev, days, j) <= now
  }

  /** The next time an alarm rings, if it rings again: the first whole step after now. */
  method NextFireTime(prev: Time, recurrence: Recurrence, z: Zone, now: Time) returns (result: Option<Time>)
    requires z.Valid()
    ensures result.None? <==> recurrence.Once?
    ensures result.Some? ==> result.value > now && result.value > prev
    ensures result.Some? && recurrence.Daily? ==> exists k :: IsFirstAfter(z, prev, 1, now, k) && result.value == Steps(z, prev, 1, k)
    ensures result.Some? && recurrence.Weekly? ==> exists k :: IsFirstAfter(z, prev, 7, now, k) && result.value == Steps(z, prev, 7, k)
  {
    if recurrence.Once? {
      return None;
    }
    var days := if recurrence.Weekly? then 7 else 1;
    var next := Later(z, prev, days);
    ghost var k := 1;
    LaterIsLater(z, prev, days);
    while next <= now
      invariant k >= 1 && next == Steps(z, prev, days, k) && next > prev
      invariant forall j :: 1 <= j < k ==> Steps(z, prev, days, j) <= now
      decreases now - next
    {
      LaterIsLater(z, next, days);
      next := Later(z, next, days);
      k := k + 1;
    }
    assert IsFirstAfter(z, prev, days, now, k);
    return Some(next);
  }

  lemma FirstAfterIsUnique(z: Zone, prev: Time, days: nat, now: Time, j: nat, k: nat)
    requires IsFirstAfter(z, prev, days, now, j) && IsFirstAfter(z, prev, days, now, k)
    ensures j == k
  {
  }

  // ----- the closed form

  /** One step keeps the wall-clock time exactly when the reading it aims at is not in a gap. */
  lemma StepKeepsWallTime(z: Zone, t: Time, days: nat)
    requires z.Valid()
    ensures z.Wall(Later(z, t, days)) == z.Wall(t) + days * DAY <==> !z.InGap(z.Wall(t) + days * DAY)
  {
    if !z.InGap(z.Wall(t) + days * DAY) {
      var u :| z.Wall(u) == z.Wall(t) + days * DAY;
      assert z.Wall(z.resolve(z.Wall(u))) == z.Wall(u);
    }
  }

  /** The reading k whole periods after t's. */
  function Reading(z: Zone, t: Time, days: nat, k: nat): int {
    z.Wall(t) + k * (days * DAY)
  }

  lemma {:induction false} StepsWithoutGaps(z: Zone, t: Time, days: nat, k: nat)
    requires z.Valid() && forall j :: 1 <= j < k ==> !z.InGap(Reading(z, t, days, j))
    ensures k >= 1 ==> Steps(z, t, days, k) == z.resolve(Reading(z, t, days, k))
    ensures k >= 1 && !z.InGap(Reading(z, t, days, k)) ==> z.Wall(Steps(z, t, days, k)) == Reading(z, t, days, k)
  {
    if k >= 1 {
      StepsWithoutGaps(z, t, days, k - 1);
      var before := Steps(z, t, days, k - 1);
      StepKeepsWallTime(z, before, days);
      Distribute(z.Wall(t), k, days * DAY);
      assert Reading(z, t, days, k) == Reading(z, t, days, k - 1) + days * DAY;
    }
  }

  lemma Distribute(x: int, k: nat, d: int)
    requires k >= 1
    ensures x + (k - 1) * d + d == x + k * d
  {
  }

  /** Main result: the first k steps all keep the time of day exactly when none of the readings they aim at
      falls in a gap. */
  lemma {:induction false} TimeOfDayKept(z: Zone, t: Time, days: nat, k: nat)
    requires z.Valid()
    ensures (forall j :: 1 <= j <= k ==> z.Wall(Steps(z, t, days, j)) == Reading(z, t, days, j))
            <==> (forall j :: 1 <= j <= k ==> !z.InGap(Reading(z, t, days, j)))
  {
    if forall j :: 1 <= j <= k ==> !z.InGap(Reading(z, t, days, j)) {
      forall j | 1 <= j <= k ensures z.Wall(Steps(z, t, days, j)) == Reading(z, t, days, j) {
        StepsWithoutGaps(z, t, days, j);
      }
    }
  }

  /** With no gap on the way, the next ring is a closed form: the reading k periods later, for the least k ≥ 1
      whose moment is after now; the steps in between were all missed. */
  lemma ClosedForm(z: Zone, prev: Time, days: nat, now: Time, k: nat)
    requires z.Valid() && IsFirstAfter(z, prev, days, now, k)
    requires forall j :: 1 <= j < k ==> !z.InGap(Reading(z, prev, days, j))
    ensures Steps(z, prev, days, k) == z.resolve(Reading(z, prev, days, k)) > now
    ensures forall j :: 1 <= j < k ==> z.resolve(Reading(z, prev, days, j)) <= now
  {
    forall j | 1 <= j <= k ensures Steps(z, prev, days, j) == z.resolve(Reading(z, prev, days, j)) {
      StepsWithoutGaps(z, prev, days, j);
    }
  }

  // ----- what a gap does

  /** A zone whose clocks jump forward one hour when UTC reaches `change`; readings they skip are taken an hour on. */
  function SpringForward(change: Time): Zone {
    Zone(t => if t < change then HOUR else 2 * HOUR,
         w => if w - 2 * HOUR < change then w - HOUR else w - 2 * HOUR, HOUR, 2 * HOUR)
  }

  lemma SpringForwardIsValid(change: Time)
    ensures SpringForward(change).Valid()
    ensures forall w :: SpringForward(change).InGap(w) <==> change + HOUR <= w < change + 2 * HOUR
  {
    var z := SpringForward(change);
    forall w ensures z.InGap(w) <==> change + HOUR <= w < change + 2 * HOUR {
      assert z.Wall(w - HOUR) == w || z.Wall(w - 2 * HOUR) == w || change + HOUR <= w < change + 2 * HOUR;
    }
  }

  /** A daily alarm for half past one, the day before the clocks skip that reading, rings an hour late by the
      clock on the day of the change, and stays an hour late on every later day. */
  lemma {:induction false} GapShiftsForGood(k: nat)
    requires k >= 1
    ensures var z, prev := SpringForward(10 * DAY), 9 * DAY + 30 * MINUTE;
      && z.Valid() && z.Wall(prev) % DAY == 90 * MINUTE && z.InGap(z.Wall(prev) + DAY)
      && z.Wall(Steps(z, prev, 1, k)) == z.Wall(prev) + k * DAY + HOUR
  {
    SpringForwardIsValid(10 * DAY);
    if k > 1 {
      GapShiftsForGood(k - 1);
    }
  }
}

/** Alarms and the minutely check that rings them. */
module Alarms {
  import opened Base
  import opened AlarmTime

  type UserId = nat
  type AlarmId = nat

  /** What happened to an alarm: its time was set, or it rang at `at` for the time it was due, for the last time or not. */
  datatype Event = Set(time: Time) | Rang(time: Time, at: Time, last: bool)

  datatype Alarm = Alarm(creator: UserId, target: UserId, time: Time, recurrence: Recurrence, isSent: bool, history: seq<Event>)

  predicate IsDue(a: Alarm, now: Time) {
    a.time <= now && !a.isSent
  }

  /** b is a after the check at `now`: a due alarm has rung once, and waits for its first occurrence after now
      or, if it does not recur, is done. */
  ghost predicate IsChecked(a: Alarm, b: Alarm, z: Zone, now: Time) {
    if !IsDue(a, now) then b == a
    else
      && b == a.(time := b.time, isSent := a.recurrence.Once?, history := a.history + [Rang(a.time, now, a.recurrence.Once?)])
      && (a.recurrence.Once? ==> b.time == a.time)
      && (a.recurrence.Daily? ==> exists k :: IsFirstAfter(z, a.time, 1, now, k) && b.time == Steps(z, a.time, 1, k))
      && (a.recurrence.Weekly? ==> exists k :: IsFirstAfter(z, a.time, 7, now, k) && b.time == Steps(z, a.time, 7, k))
  }

  /** Between two settings of its time an alarm rings for strictly later and later times, never again after its last. */
  ghost predicate Rising(history: seq<Event>) {
    forall i :: 0 < i < |history| && history[i].Rang? && history[i - 1].Rang? ==>
      !history[i - 1].last && history[i - 1].time < history[i].time && history[i - 1].at < history[i].at
  }

  ghost predicate AlarmOk(a: Alarm, clock: Time) {
    && Rising(a.history)
    && (a.history != [] && a.history[|a.history| - 1].Rang? ==>
          var e := a.history[|a.history| - 1];
          e.at <= clock && (e.last ==> a.isSent) && (!a.isSent ==> e.time < a.time))
  }

  /** Main result: after the check no alarm is due, a recurring alarm's next time is later than the one it rang
      for, and whatever ran before, its rings so far stay in rising order. */
  lemma CheckKeeps(a: Alarm, b: Alarm, z: Zone, clock: Time, now: Time)
    requires AlarmOk(a, clock) && clock < now && z.Valid() && IsChecked(a, b, z, now)
    ensures AlarmOk(b, now) && !IsDue(b, now)
    ensures b.history != a.history && !b.isSent ==> a.time < b.time
  {
    if IsDue(a, now) && !a.recurrence.Once? {
      var days := if a.recurrence.Weekly? then 7 else 1;
      var k :| IsFirstAfter(z, a.time, days, now, k) && b.time == Steps(z, a.time, days, k);
      StepsRise(z, a.time, days, 0, k);
    }
  }

  /** The minutely check on one alarm: it rings if it was not sent and its time has come; one that does not recur is then
      sent, a daily one waits for the first of its next days after now, a weekly one for the first of its next weeks. */
  lemma CheckOnRows(a: Alarm, b: Alarm, z: Zone, now: Time)
    requires IsChecked(a, b, z, now)
    ensures
      if a.isSent || a.time > now then b == a
      else if a.recurrence.Once? then b == a.(isSent := true, history := a.history + [Rang(a.time, now, true)])
      else
        var days := if a.recurrence.Weekly? then 7 else 1;
        && b == a.(time := b.time, history := a.history + [Rang(a.time, now, false)])
        && exists k :: IsFirstAfter(z, a.time, days, now, k) && b.time == Steps(z, a.time, days, k)
  {
  }

  lemma NotDueIsChecked(a: Alarm, z: Zone, now: Time)
    requires !IsDue(a, now)
    ensures IsChecked(a, a, z, now)
  {
  }

  datatype Answer = Done | AlarmNotFound | OnlyCreator | NoAccess

  class AlarmsService {
    var alarms: map<AlarmId, Alarm>
    var clock: Time

    ghost predicate Valid()
      reads this
    {
      forall k :: k in alarms ==> AlarmOk(alarms[k], clock)
    }

    constructor ()
      ensures Valid() && alarms == map[] && clock == 0
    {
      alarms, clock := map[], 0;
    }

    method Create(id: AlarmId, creator: UserId, target: UserId, time: Time, recurrence: Recurrence)
      requires Valid() && id !in alarms
      modifies this`alarms
      ensures Valid()
      ensures alarms == old(alarms)[id := Alarm(creator, target, time, recurrence, false, [Set(time)])]
    {
      alarms := alarms[id := Alarm(creator, target, time, recurrence, false, [Set(time)])];
    }

    /** Only a new time makes a sent alarm ring again. */
    method Update(id: AlarmId, user: UserId, time: Option<Time>, recurrence: Option<Recurrence>) returns (answer: Answer)
      requires Valid()
      modifies this`alarms
      ensures Valid()
      ensures answer == if id !in old(alarms) then AlarmNotFound else if old(alarms)[id].creator != user then OnlyCreator else Done
      ensures !answer.Done? ==> alarms == old(alarms)
      ensures answer.Done? ==>
        var a := old(alarms)[id];
        alarms == old(alarms)[id := a.(
          recurrence := recurrence.GetOr(a.recurrence), time := time.GetOr(a.time),
          isSent := if time.Some? then false else a.isSent,
          history := if time.Some? then a.history + [Set(time.value)] else a.history)]
    {
      if id !in alarms {
        return AlarmNotFound;
      }
      var a := alarms[id];
      if a.creator != user {
        return OnlyCreator;
      }
      if time.Some? {
        a := a.(time := time.value, isSent := false, history := a.history + [Set(time.value)]);
      }
      if recurrence.Some? {
        a := a.(recurrence := recurrence.value);
      }
      alarms := alarms[id := a];
      return Done;
    }

    method Remove(id: AlarmId, user: UserId) returns (answer: Answer)
      requires Valid()
      modifies this`alarms
      ensures Valid()
      ensures answer == if id !in old(alarms) then AlarmNotFound
                        else if user != old(alarms)[id].creator && user != old(alarms)[id].target then NoAccess else Done
      ensures alarms == if answer.Done? then old(alarms) - {id} else old(alarms)
    {
      if id !in alarms {
        return AlarmNotFound;
      }
      if user != alarms[id].creator && user != alarms[id].target {
        return NoAccess;
      }
      alarms := alarms - {id};
      return Done;
    }

    /** Rings one due alarm: recurring alarms go on to their next time, the others are done. */
    static method Ring(a: Alarm, z: Zone, now: Time) returns (b: Alarm)
      requires IsDue(a, now) && z.Valid()
      ensures IsChecked(a, b, z, now) && b.target == a.target
    {
      var next := NextFireTime(a.time, a.recurrence, z, now);
      b := a.(history := a.history + [Rang(a.time, now, a.recurrence.Once?)]);
      if next.Some? {
        b := b.(time := next.value, isSent := false);
      } else {
        b := b.(isSent := true);
      }
    }

    /** The cron job, in whatever order the database returns the due rows. */
    method CheckAlarms(now: Time, zones: UserId -> Zone)
      requires Valid() && clock < now
      requires forall u :: zones(u).Valid()
      modifies this
      ensures Valid() && clock == now && alarms.Keys == old(alarms).Keys
      ensures forall k :: k in alarms ==> IsChecked(old(alarms)[k], alarms[k], zones(alarms[k].target), now)
      ensures forall k :: k in alarms ==> !IsDue(alarms[k], now)
    {
      hide IsChecked, AlarmOk;
      var due := set k | k in alarms && IsDue(alarms[k], now);
      ghost var all := due;
      while due != {}
        invariant clock == old(clock) && due <= all && alarms.Keys == old(alarms).Keys
        invariant all == set k | k in old(alarms) && IsDue(old(alarms)[k], now)
        invariant forall k :: k in alarms && (k in due || k !in all) ==> alarms[k] == old(alarms)[k]
        invariant forall k :: k in all - due ==> IsChecked(old(alarms)[k], alarms[k], zones(alarms[k].target), now)
        decreases |due|
      {
        var k :| k in due;
        var b := Ring(alarms[k], zones(alarms[k].target), now);
        alarms := alarms[k := b];
        due := due - {k};
      }
      forall k | k in alarms && k !in all ensures IsChecked(old(alarms)[k], alarms[k], zones(alarms[k].target), now) {
        NotDueIsChecked(alarms[k], zones(alarms[k].target), now);
      }
      clock := now;
      forall k | k in alarms ensures AlarmOk(alarms[k], now) && !IsDue(alarms[k], now) {
        CheckKeeps(old(alarms)[k], alarms[k], zones(alarms[k].target), old(clock), now);
      }
    }
  }
}
