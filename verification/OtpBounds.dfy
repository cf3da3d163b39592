/** How many guesses the sign-in codes of a phone allow, over whole runs. */
module OtpBounds {
  import opened Base
  import Rows
  import Otp = OtpCodes
  import opened Credentials
  import opened TableMoves

  // ----- what every reachable table keeps

  /** Ids are given out once, and no code is ever compared after its fifth miss. */
  ghost predicate Sound(otps: seq<Otp.OtpRow>, next: nat) {
    && Otp.DistinctIds(otps)
    && (forall o :: o in otps ==> o.id < next && o.attempts <= Otp.MAX_ATTEMPTS)
  }

  /** Rows keep their ids under f, and their attempts at most 5. */
  lemma SoundMap(otps: seq<Otp.OtpRow>, u: Otp.Update, next: nat, now: Time)
    requires Sound(otps, next)
    requires u.Count? ==> forall o :: o in otps && o.id in u.ids ==> o.attempts < Otp.MAX_ATTEMPTS
    ensures Sound(Otp.UpdateMany(otps, u, now), next)
  {
    var updated := Otp.UpdateMany(otps, u, now);
    forall o | o in updated ensures o.id < next && o.attempts <= Otp.MAX_ATTEMPTS {
      var i :| 0 <= i < |updated| && updated[i] == o;
      assert otps[i] in otps;
    }
  }

  lemma {:induction false} SoundFilter(otps: seq<Otp.OtpRow>, p: Otp.OtpRow -> bool, next: nat)
    requires Sound(otps, next)
    ensures Sound(Rows.Filter(p, otps), next)
  {
    Rows.FilterKeeps(p, otps);
    if otps != [] {
      var init := otps[..|otps| - 1];
      SoundFilter(init, p, next);
      Rows.FilterKeeps(p, init);
      forall o | o in init ensures o.id != otps[|otps| - 1].id {
        var i :| 0 <= i < |init| && init[i] == o;
        assert otps[i] == o;
      }
    }
  }

  /** A row is told apart by its id, so a spent row's id is no live row's id. */
  lemma LiveIsNotLocked(otps: seq<Otp.OtpRow>, phone: Otp.Phone, now: Time, next: nat, o: Otp.OtpRow)
    requires Sound(otps, next) && o in otps
    ensures var rows := Otp.Considered(otps, phone, now);
            && (o.id in Otp.Ids(Otp.Live(rows)) ==> o in rows && o.attempts < Otp.MAX_ATTEMPTS)
            && (o.id in Otp.Ids(Rows.Filter(Otp.SpentTest(), rows)) ==> o in rows && o.attempts >= Otp.MAX_ATTEMPTS)
  {
    hide Otp.Considered;
    var rows := Otp.Considered(otps, phone, now);
    Otp.ConsideredArePending(otps, phone, now);
    Rows.FilterKeeps(Otp.LiveTest(), rows);
    Rows.FilterKeeps(Otp.SpentTest(), rows);
    forall x | x in rows && x.id == o.id ensures x == o {
      var i :| 0 <= i < |otps| && otps[i] == x;
      var j :| 0 <= j < |otps| && otps[j] == o;
    }
  }

  lemma SoundCheck(otps: seq<Otp.OtpRow>, phone: Otp.Phone, code: Otp.Code, accepted: bool, next: nat, now: Time)
    requires Sound(otps, next)
    ensures Sound(Otp.AfterCheck(otps, phone, Otp.CheckCode(otps, phone, code, now), accepted, now), next)
  {
    var check := Otp.CheckCode(otps, phone, code, now);
    if !check.NoCode? {
      var locked := Otp.UpdateMany(otps, Otp.Lock(check.lock), now);
      SoundMap(otps, Otp.Lock(check.lock), next, now);
      if check.Wrong? {
        forall o | o in locked && o.id in check.counted ensures o.attempts < Otp.MAX_ATTEMPTS {
          var i :| 0 <= i < |locked| && locked[i] == o;
          LiveIsNotLocked(otps, phone, now, next, otps[i]);
        }
        SoundMap(locked, Otp.Count(check.counted), next, now);
      } else if check.Right? {
        SoundMap(locked, Otp.Burn(phone), next, now);
      }
    }
  }

  lemma SoundStep(s: State, c: Call)
    requires Sound(s.otps, s.nextOtp)
    ensures Sound(Step(s, c).state.otps, Step(s, c).state.nextOtp)
  {
    hide Step, OtpMoveOf, Otp.CheckCode, Otp.AfterCheck, Otp.UpdateMany, Rows.Filter;
    CodesMove(s, c);
    var mv := OtpMoveOf(s, c);
    match mv
    case KeepCodes =>
    case StoreCode(_) =>
    case MintCode(o) => SoundMap(s.otps + [o], Otp.CloseRequests(o.user, o.issuedBy.value), s.nextOtp + 1, c.at);
    case CheckCodes(phone, _, accepted) => SoundCheck(s.otps, phone, c.op.codes.code, accepted, s.nextOtp, c.at);
    case DeleteCodes(user) => SoundFilter(s.otps, Otp.NotOf(user), s.nextOtp);
    case SweepCodes(cutoff) => SoundFilter(s.otps, KeepsOtp(cutoff), s.nextOtp);
  }

  /** In every reachable state no code has more than five counted misses. */
  lemma {:induction false} AttemptsNeverExceedFive(s: State, calls: seq<Call>)
    requires Sound(s.otps, s.nextOtp) && IsRun(s, calls)
    ensures Sound(Final(s, calls).otps, Final(s, calls).nextOtp)
    ensures forall o :: o in Final(s, calls).otps ==> o.attempts <= 5
    decreases |calls|
  {
    hide Step;
    if calls != [] {
      SoundStep(s, calls[0]);
      AttemptsNeverExceedFive(Step(s, calls[0]).state, calls[1..]);
    }
  }

  // ----- misses against codes stored

  /** The call compares a wrong code with at least one live code of the phone. */
  ghost predicate IsMiss(s: State, c: Call, phone: Otp.Phone) {
    c.op.OnCodes? && c.op.codes.Verify? && c.op.codes.phone == Some(phone)
    && Otp.CheckCode(s.otps, phone, c.op.codes.code, c.at).Wrong?
  }

  ghost predicate StoresCode(s: State, c: Call, phone: Otp.Phone) {
    var mv := OtpMoveOf(s, c);
    (mv.StoreCode? || mv.MintCode?) && mv.o.phone == phone
  }

  ghost function Misses(s: State, calls: seq<Call>, phone: Otp.Phone): nat
    decreases |calls|
  {
    if calls == [] then 0
    else (if IsMiss(s, calls[0], phone) then 1 else 0) + Misses(Step(s, calls[0]).state, calls[1..], phone)
  }

  ghost function CodesStored(s: State, calls: seq<Call>, phone: Otp.Phone): nat
    decreases |calls|
  {
    if calls == [] then 0
    else (if StoresCode(s, calls[0], phone) then 1 else 0) + CodesStored(Step(s, calls[0]).state, calls[1..], phone)
  }

  /** The misses a code can still take. */
  function Left(phone: Otp.Phone): Otp.OtpRow -> nat {
    (o: Otp.OtpRow) =>
      if o.phone == phone && o.usedAt.None? && o.attempts < Otp.MAX_ATTEMPTS then Otp.MAX_ATTEMPTS - o.attempts else 0
  }

  function Slack(otps: seq<Otp.OtpRow>, phone: Otp.Phone): nat {
    Rows.Sum(Left(phone), otps)
  }

  lemma SlackAfterUpdate(otps: seq<Otp.OtpRow>, u: Otp.Update, phone: Otp.Phone, now: Time)
    ensures Slack(Otp.UpdateMany(otps, u, now), phone) <= Slack(otps, phone)
  {
    Rows.SumOfMap(Left(phone), Otp.Applying(u, now), otps);
  }

  lemma SlackAfterCheck(otps: seq<Otp.OtpRow>, of: Otp.Phone, phone: Otp.Phone, code: Otp.Code, accepted: bool, next: nat, now: Time)
    requires Sound(otps, next)
    ensures var check := Otp.CheckCode(otps, phone, code, now);
            Slack(Otp.AfterCheck(otps, phone, check, accepted, now), of) + (if check.Wrong? && of == phone then 1 else 0) <= Slack(otps, of)
  {
    var check := Otp.CheckCode(otps, phone, code, now);
    if !check.NoCode? {
      var locked := Otp.UpdateMany(otps, Otp.Lock(check.lock), now);
      SlackAfterUpdate(otps, Otp.Lock(check.lock), of, now);
      SlackAfterUpdate(locked, if check.Wrong? then Otp.Count(check.counted) else Otp.Burn(phone), of, now);
      if check.Wrong? && of == phone {
        var rows := Otp.Considered(otps, phone, now);
        var live := Otp.Live(rows);
        Otp.ConsideredArePending(otps, phone, now);
        Rows.FilterKeeps(Otp.LiveTest(), rows);
        var x := live[0];
        assert x in live && x in otps;
        LiveIsNotLocked(otps, phone, now, next, x);
        var i :| 0 <= i < |otps| && otps[i] == x;
        assert locked[i] == x;
        Rows.SumOfMapDrops(Left(of), Otp.Applying(Otp.Count(check.counted), now), locked, x);
      }
    }
  }

  lemma SlackStep(s: State, c: Call, phone: Otp.Phone)
    requires Sound(s.otps, s.nextOtp)
    ensures Slack(Step(s, c).state.otps, phone) + (if IsMiss(s, c, phone) then 1 else 0)
            <= Slack(s.otps, phone) + (if StoresCode(s, c, phone) then Otp.MAX_ATTEMPTS else 0)
  {
    hide Step, OtpMoveOf, Otp.CheckCode, Otp.AfterCheck, Otp.UpdateMany, Rows.Filter, Rows.Sum;
    CodesMove(s, c);
    var mv := OtpMoveOf(s, c);
    match mv
    case KeepCodes => assert !IsMiss(s, c, phone) by { KeptMeansNoMiss(s, c, phone); }
    case StoreCode(o) => Rows.SumAppend(Left(phone), s.otps, o);
    case MintCode(o) =>
      Rows.SumAppend(Left(phone), s.otps, o);
      SlackAfterUpdate(s.otps + [o], Otp.CloseRequests(o.user, o.issuedBy.value), phone, c.at);
    case CheckCodes(p, _, accepted) => SlackAfterCheck(s.otps, phone, p, c.op.codes.code, accepted, s.nextOtp, c.at);
    case DeleteCodes(user) => Rows.SumOfFilter(Left(phone), Otp.NotOf(user), s.otps);
    case SweepCodes(cutoff) => Rows.SumOfFilter(Left(phone), KeepsOtp(cutoff), s.otps);
  }

  lemma KeptMeansNoMiss(s: State, c: Call, phone: Otp.Phone)
    requires OtpMoveOf(s, c).KeepCodes?
    ensures !IsMiss(s, c, phone)
  {
    hide Step, Otp.CheckCode;
  }

  /** Main bound: over any run, wrong guesses that reach a comparison number at most five
      per code stored for the phone, plus what the codes pending at the start still allow. */
  lemma {:induction false} MissesAreBounded(s: State, calls: seq<Call>, phone: Otp.Phone)
    requires Sound(s.otps, s.nextOtp) && IsRun(s, calls)
    ensures Misses(s, calls, phone) <= Slack(s.otps, phone) + 5 * CodesStored(s, calls, phone)
    ensures s.otps == [] ==> Misses(s, calls, phone) <= 5 * CodesStored(s, calls, phone)
    decreases |calls|
  {
    hide Step, IsMiss, StoresCode;
    if calls != [] {
      SoundStep(s, calls[0]);
      SlackStep(s, calls[0], phone);
      MissesAreBounded(Step(s, calls[0]).state, calls[1..], phone);
    }
  }

  // ----- several codes pending do not multiply the guesses

  /** At most five codes are pending, and none of them takes more than k further misses. */
  ghost predicate TakesAtMost(otps: seq<Otp.OtpRow>, phone: Otp.Phone, at: Time, k: int) {
    && |Otp.Pending(otps, phone, at)| <= Otp.MAX_PENDING
    && forall o :: o in otps && Otp.IsPending(o, phone, at) ==> Otp.MAX_ATTEMPTS - o.attempts <= k
  }

  lemma TakesAfterUpdate(otps: seq<Otp.OtpRow>, u: Otp.Update, phone: Otp.Phone, at: Time, now: Time, k: int)
    requires TakesAtMost(otps, phone, at, k) && at <= now
    ensures TakesAtMost(Otp.UpdateMany(otps, u, now), phone, now, k)
  {
    var updated := Otp.UpdateMany(otps, u, now);
    Rows.FilterOfMapShrinks(Otp.PendingTest(phone, now), Otp.Applying(u, now), Otp.PendingTest(phone, at), otps);
    forall o | o in updated && Otp.IsPending(o, phone, now) ensures Otp.MAX_ATTEMPTS - o.attempts <= k {
      var i :| 0 <= i < |updated| && updated[i] == o;
      assert otps[i] in otps;
    }
  }

  lemma TakesAfterFilter(otps: seq<Otp.OtpRow>, p: Otp.OtpRow -> bool, phone: Otp.Phone, at: Time, now: Time, k: int)
    requires TakesAtMost(otps, phone, at, k) && at <= now
    ensures TakesAtMost(otps, phone, now, k)
    ensures TakesAtMost(Rows.Filter(p, otps), phone, now, k)
  {
    Rows.FilterOfFilterShrinks(Otp.PendingTest(phone, now), p, Otp.PendingTest(phone, at), otps);
    Rows.FilterOfFilterShrinks(Otp.PendingTest(phone, now), Otp.PendingTest(phone, at), Otp.PendingTest(phone, at), otps);
    Rows.FilterThroughFilter(Otp.PendingTest(phone, now), Otp.PendingTest(phone, at), otps);
    Rows.FilterKeeps(p, otps);
  }

  /** When all pending codes are considered, a miss counts against every one that stays pending. */
  lemma TakesOneLessAfterMiss(otps: seq<Otp.OtpRow>, phone: Otp.Phone, code: Otp.Code, at: Time, now: Time, next: nat, k: int)
    requires TakesAtMost(otps, phone, at, k) && at <= now && Sound(otps, next)
    requires Otp.CheckCode(otps, phone, code, now).Wrong?
    ensures k >= 1
    ensures TakesAtMost(Otp.AfterCheck(otps, phone, Otp.CheckCode(otps, phone, code, now), false, now), phone, now, k - 1)
  {
    var check := Otp.CheckCode(otps, phone, code, now);
    var rows := Otp.Considered(otps, phone, now);
    var all: Otp.OtpRow -> bool := (o: Otp.OtpRow) => true;
    TakesAfterFilter(otps, all, phone, at, now, k);
    assert rows == Otp.Pending(otps, phone, now);
    Rows.FilterKeeps(Otp.PendingTest(phone, now), otps);
    Rows.FilterKeeps(Otp.LiveTest(), rows);
    Rows.FilterKeeps(Otp.SpentTest(), rows);
    assert Otp.Live(rows)[0] in Otp.Live(rows);
    var locked := Otp.UpdateMany(otps, Otp.Lock(check.lock), now);
    var counted := Otp.UpdateMany(locked, Otp.Count(check.counted), now);
    TakesAfterUpdate(otps, Otp.Lock(check.lock), phone, at, now, k);
    TakesAfterUpdate(locked, Otp.Count(check.counted), phone, now, now, k);
    forall o | o in counted && Otp.IsPending(o, phone, now) ensures Otp.MAX_ATTEMPTS - o.attempts <= k - 1 {
      var i :| 0 <= i < |counted| && counted[i] == o;
      assert otps[i] in otps && otps[i] in rows;
      assert otps[i].id !in check.lock;
      assert otps[i].id in check.counted;
    }
  }

  lemma TakesStep(s: State, c: Call, phone: Otp.Phone, k: int)
    requires Sound(s.otps, s.nextOtp) && CanHappen(s, c) && TakesAtMost(s.otps, phone, s.clock, k)
    requires !StoresCode(s, c, phone)
    ensures IsMiss(s, c, phone) ==> k >= 1
    ensures TakesAtMost(Step(s, c).state.otps, phone, c.at, if IsMiss(s, c, phone) then k - 1 else k)
  {
    hide Step, OtpMoveOf, Otp.CheckCode, Otp.UpdateMany, Rows.Filter, TakesAtMost, Sound;
    CodesMove(s, c);
    var mv, now := OtpMoveOf(s, c), c.at;
    var all: Otp.OtpRow -> bool := (o: Otp.OtpRow) => true;
    match mv
    case KeepCodes => TakesAfterFilter(s.otps, all, phone, s.clock, now, k); KeptMeansNoMiss(s, c, phone);
    case StoreCode(o) => TakesAfterStore(s.otps, o, phone, s.clock, now, k);
    case MintCode(o) =>
      TakesAfterStore(s.otps, o, phone, s.clock, now, k);
      TakesAfterUpdate(s.otps + [o], Otp.CloseRequests(o.user, o.issuedBy.value), phone, now, now, k);
    case CheckCodes(p, check, accepted) =>
      if IsMiss(s, c, phone) {
        TakesOneLessAfterMiss(s.otps, phone, c.op.codes.code, s.clock, now, s.nextOtp, k);
      } else {
        TakesAfterFilter(s.otps, all, phone, s.clock, now, k);
        if !check.NoCode? {
          var locked := Otp.UpdateMany(s.otps, Otp.Lock(check.lock), now);
          TakesAfterUpdate(s.otps, Otp.Lock(check.lock), phone, s.clock, now, k);
          TakesAfterUpdate(locked, if check.Wrong? then Otp.Count(check.counted) else Otp.Burn(p), phone, now, now, k);
        }
      }
    case DeleteCodes(user) => TakesAfterFilter(s.otps, Otp.NotOf(user), phone, s.clock, now, k);
    case SweepCodes(cutoff) => TakesAfterFilter(s.otps, KeepsOtp(cutoff), phone, s.clock, now, k);
  }

  lemma TakesAfterStore(otps: seq<Otp.OtpRow>, o: Otp.OtpRow, phone: Otp.Phone, at: Time, now: Time, k: int)
    requires TakesAtMost(otps, phone, at, k) && at <= now && o.phone != phone
    ensures TakesAtMost(otps + [o], phone, now, k)
  {
    var all: Otp.OtpRow -> bool := (o: Otp.OtpRow) => true;
    TakesAfterFilter(otps, all, phone, at, now, k);
    Rows.FilterAppend(Otp.PendingTest(phone, now), otps, o);
  }

  lemma {:induction false} MissesWithin(s: State, calls: seq<Call>, phone: Otp.Phone, k: nat)
    requires Sound(s.otps, s.nextOtp) && IsRun(s, calls) && TakesAtMost(s.otps, phone, s.clock, k)
    requires CodesStored(s, calls, phone) == 0
    ensures Misses(s, calls, phone) <= k
    decreases |calls|
  {
    hide Effect, IsMiss, StoresCode, TakesAtMost, Sound;
    if calls != [] {
      SoundStep(s, calls[0]);
      TakesStep(s, calls[0], phone, k);
      MissesWithin(Step(s, calls[0]).state, calls[1..], phone, if IsMiss(s, calls[0], phone) then k - 1 else k);
    }
  }

  /** From any state with at most five pending codes, as long as no new code is stored for the
      phone at most five more wrong guesses reach a comparison, however many codes are pending. */
  lemma AtMostFiveMoreMisses(s: State, calls: seq<Call>, phone: Otp.Phone)
    requires Sound(s.otps, s.nextOtp) && IsRun(s, calls)
    requires |Otp.Pending(s.otps, phone, s.clock)| <= 5 && CodesStored(s, calls, phone) == 0
    ensures Misses(s, calls, phone) <= 5
  {
    MissesWithin(s, calls, phone, 5);
  }

  // ----- a sign-in ends every earlier code

  /** Every unused code of the phone was stored after the n-th code and after `since`. */
  ghost predicate OnlyNewer(otps: seq<Otp.OtpRow>, phone: Otp.Phone, n: nat, since: Time) {
    forall o :: o in otps && o.phone == phone && o.usedAt.None? ==> o.id >= n && o.createdAt > since
  }

  lemma OnlyNewerAfterUpdate(otps: seq<Otp.OtpRow>, u: Otp.Update, phone: Otp.Phone, n: nat, since: Time, now: Time)
    requires OnlyNewer(otps, phone, n, since)
    ensures OnlyNewer(Otp.UpdateMany(otps, u, now), phone, n, since)
  {
    var updated := Otp.UpdateMany(otps, u, now);
    forall o | o in updated && o.phone == phone && o.usedAt.None? ensures o.id >= n && o.createdAt > since {
      var i :| 0 <= i < |updated| && updated[i] == o;
      assert otps[i] in otps;
    }
  }

  lemma OnlyNewerStep(s: State, c: Call, phone: Otp.Phone, n: nat, since: Time)
    requires OnlyNewer(s.otps, phone, n, since) && n <= s.nextOtp && since < c.at
    ensures OnlyNewer(Step(s, c).state.otps, phone, n, since) && n <= Step(s, c).state.nextOtp
  {
    hide Step, OtpMoveOf, Otp.CheckCode, Otp.UpdateMany, Rows.Filter;
    CodesMove(s, c);
    var mv, now := OtpMoveOf(s, c), c.at;
    match mv
    case KeepCodes =>
    case StoreCode(_) =>
    case MintCode(o) => OnlyNewerAfterUpdate(s.otps + [o], Otp.CloseRequests(o.user, o.issuedBy.value), phone, n, since, now);
    case CheckCodes(p, check, accepted) =>
      if !check.NoCode? {
        OnlyNewerAfterUpdate(s.otps, Otp.Lock(check.lock), phone, n, since, now);
        OnlyNewerAfterUpdate(Otp.UpdateMany(s.otps, Otp.Lock(check.lock), now),
                             if check.Wrong? then Otp.Count(check.counted) else Otp.Burn(p), phone, n, since, now);
      }
    case DeleteCodes(user) => Rows.FilterKeeps(Otp.NotOf(user), s.otps);
    case SweepCodes(cutoff) => Rows.FilterKeeps(KeepsOtp(cutoff), s.otps);
  }

  lemma {:induction false} OnlyNewerRun(s: State, calls: seq<Call>, phone: Otp.Phone, n: nat, since: Time)
    requires OnlyNewer(s.otps, phone, n, since) && n <= s.nextOtp && since <= s.clock && IsRun(s, calls)
    ensures OnlyNewer(Final(s, calls).otps, phone, n, since) && since <= Final(s, calls).clock
    decreases |calls|
  {
    hide Effect, OnlyNewer;
    if calls != [] {
      OnlyNewerStep(s, calls[0], phone, n, since);
      OnlyNewerRun(Step(s, calls[0]).state, calls[1..], phone, n, since);
    }
  }

  ghost predicate SignsInByCode(s: State, c: Call, phone: Otp.Phone) {
    c.op.OnCodes? && c.op.codes.Verify? && c.op.codes.phone == Some(phone) && Step(s, c).answer.SignedIn?
  }

  lemma SignInBurnsAll(s: State, c: Call, phone: Otp.Phone)
    requires SignsInByCode(s, c, phone)
    ensures OnlyNewer(Step(s, c).state.otps, phone, Step(s, c).state.nextOtp, c.at)
  {
    hide SessionsEffect, AccountsEffect, TransfersEffect, Purge, RequestOtp, LoginCodeRequest, IssueLoginCode,
         Otp.CheckCode, Otp.UpdateMany, SignToken, Record;
    var check := Otp.CheckCode(s.otps, phone, c.op.codes.code, c.at);
    var locked := Otp.UpdateMany(s.otps, Otp.Lock(check.lock), c.at);
    var burnt := Otp.UpdateMany(locked, Otp.Burn(phone), c.at);
    assert Step(s, c).state.otps == burnt;
    forall o | o in burnt && o.phone == phone ensures o.usedAt.Some? {
      BurntIsUsed(locked, phone, c.at, o);
    }
  }

  lemma BurntIsUsed(otps: seq<Otp.OtpRow>, phone: Otp.Phone, now: Time, o: Otp.OtpRow)
    requires o in Otp.UpdateMany(otps, Otp.Burn(phone), now) && o.phone == phone
    ensures o.usedAt.Some?
  {
    var burnt := Otp.UpdateMany(otps, Otp.Burn(phone), now);
    var i :| 0 <= i < |burnt| && burnt[i] == o;
  }

  /** After a sign-in, whatever runs next, the next code that signs the phone in was stored later. */
  lemma SignInEndsEarlierCodes(s: State, c: Call, calls: seq<Call>, later: Call, phone: Otp.Phone)
    requires CanHappen(s, c) && SignsInByCode(s, c, phone)
    requires IsRun(Step(s, c).state, calls)
    requires SignsInByCode(Final(Step(s, c).state, calls), later, phone)
    ensures var t := Final(Step(s, c).state, calls);
            var check := Otp.CheckCode(t.otps, phone, later.op.codes.code, later.at);
            check.Right? && check.row.id >= Step(s, c).state.nextOtp && check.row.createdAt > c.at
  {
    var s' := Step(s, c).state;
    SignInBurnsAll(s, c, phone);
    OnlyNewerRun(s', calls, phone, s'.nextOtp, c.at);
    MatchedIsUnused(Final(s', calls), later, phone);
  }

  lemma MatchedIsUnused(s: State, c: Call, phone: Otp.Phone)
    requires SignsInByCode(s, c, phone)
    ensures var check := Otp.CheckCode(s.otps, phone, c.op.codes.code, c.at);
            check.Right? && check.row in s.otps && check.row.phone == phone && check.row.usedAt.None?
  {
    hide SessionsEffect, AccountsEffect, TransfersEffect, Purge, RequestOtp, LoginCodeRequest, IssueLoginCode, SignToken, Record, Otp.AfterCheck;
    var rows := Otp.Considered(s.otps, phone, c.at);
    Otp.ConsideredArePending(s.otps, phone, c.at);
    Rows.FilterKeeps(Otp.LiveTest(), rows);
  }

  // ----- manager-minted codes

  /** An "ask my manager" request this manager could still answer with a code. */
  function Unanswered(driver: UserId, manager: UserId): Otp.OtpRow -> nat {
    (o: Otp.OtpRow) => if o.user == driver && o.issuedBy == Some(manager) && o.driverRequest && o.usedAt.None? then 1 else 0
  }

  ghost predicate MintsCode(s: State, c: Call, driver: UserId, manager: UserId) {
    var mv := OtpMoveOf(s, c);
    mv.MintCode? && mv.o.user == driver && mv.o.issuedBy == Some(manager)
  }

  ghost predicate AsksManager(s: State, c: Call, driver: UserId, manager: UserId) {
    var mv := OtpMoveOf(s, c);
    mv.StoreCode? && mv.o.user == driver && mv.o.issuedBy == Some(manager) && mv.o.driverRequest
  }

  ghost function CodesMinted(s: State, calls: seq<Call>, driver: UserId, manager: UserId): nat
    decreases |calls|
  {
    if calls == [] then 0
    else (if MintsCode(s, calls[0], driver, manager) then 1 else 0) + CodesMinted(Step(s, calls[0]).state, calls[1..], driver, manager)
  }

  ghost function RequestsMade(s: State, calls: seq<Call>, driver: UserId, manager: UserId): nat
    decreases |calls|
  {
    if calls == [] then 0
    else (if AsksManager(s, calls[0], driver, manager) then 1 else 0) + RequestsMade(Step(s, calls[0]).state, calls[1..], driver, manager)
  }

  lemma UnansweredAfterUpdate(otps: seq<Otp.OtpRow>, u: Otp.Update, driver: UserId, manager: UserId, now: Time)
    ensures Rows.Sum(Unanswered(driver, manager), Otp.UpdateMany(otps, u, now)) <= Rows.Sum(Unanswered(driver, manager), otps)
  {
    Rows.SumOfMap(Unanswered(driver, manager), Otp.Applying(u, now), otps);
  }

  lemma MintingAnswers(otps: seq<Otp.OtpRow>, o: Otp.OtpRow, driver: UserId, manager: UserId, now: Time)
    requires o.user == driver && o.issuedBy == Some(manager) && !o.driverRequest
    requires Otp.OpenRequest(otps, driver, manager, now).Some?
    ensures Rows.Sum(Unanswered(driver, manager), Otp.UpdateMany(otps + [o], Otp.CloseRequests(driver, manager), now)) + 1
            <= Rows.Sum(Unanswered(driver, manager), otps)
  {
    var w := Unanswered(driver, manager);
    var open := Rows.Filter(Otp.OpenRequestTest(driver, manager, now), otps);
    Rows.FilterKeeps(Otp.OpenRequestTest(driver, manager, now), otps);
    var x := open[|open| - 1];
    assert x in open && x in otps + [o];
    Rows.SumAppend(w, otps, o);
    Rows.SumOfMapDrops(w, Otp.Applying(Otp.CloseRequests(driver, manager), now), otps + [o], x);
  }

  lemma UnansweredStep(s: State, c: Call, driver: UserId, manager: UserId)
    ensures Rows.Sum(Unanswered(driver, manager), Step(s, c).state.otps) + (if MintsCode(s, c, driver, manager) then 1 else 0)
            <= Rows.Sum(Unanswered(driver, manager), s.otps) + (if AsksManager(s, c, driver, manager) then 1 else 0)
  {
    hide Step, OtpMoveOf, Otp.CheckCode, Otp.UpdateMany, Otp.OpenRequest, Rows.Filter, Rows.Sum;
    CodesMove(s, c);
    var mv, now, w := OtpMoveOf(s, c), c.at, Unanswered(driver, manager);
    match mv
    case KeepCodes =>
    case StoreCode(o) => Rows.SumAppend(w, s.otps, o);
    case MintCode(o) =>
      if MintsCode(s, c, driver, manager) {
        MintingAnswers(s.otps, o, driver, manager, now);
      } else {
        Rows.SumAppend(w, s.otps, o);
        UnansweredAfterUpdate(s.otps + [o], Otp.CloseRequests(o.user, o.issuedBy.value), driver, manager, now);
      }
    case CheckCodes(p, check, accepted) =>
      if !check.NoCode? {
        UnansweredAfterUpdate(s.otps, Otp.Lock(check.lock), driver, manager, now);
        UnansweredAfterUpdate(Otp.UpdateMany(s.otps, Otp.Lock(check.lock), now),
                              if check.Wrong? then Otp.Count(check.counted) else Otp.Burn(p), driver, manager, now);
      }
    case DeleteCodes(user) => Rows.SumOfFilter(w, Otp.NotOf(user), s.otps);
    case SweepCodes(cutoff) => Rows.SumOfFilter(w, KeepsOtp(cutoff), s.otps);
  }

  /** A manager mints at most one code per request the driver made to that manager. */
  lemma {:induction false} OneRequestOneCode(s: State, calls: seq<Call>, driver: UserId, manager: UserId)
    requires IsRun(s, calls)
    ensures CodesMinted(s, calls, driver, manager) <= Rows.Sum(Unanswered(driver, manager), s.otps) + RequestsMade(s, calls, driver, manager)
    ensures s.otps == [] ==> CodesMinted(s, calls, driver, manager) <= RequestsMade(s, calls, driver, manager)
    decreases |calls|
  {
    hide Step, MintsCode, AsksManager;
    if calls != [] {
      UnansweredStep(s, calls[0], driver, manager);
      OneRequestOneCode(Step(s, calls[0]).state, calls[1..], driver, manager);
    }
  }

  // ----- one guess, row by row

  /** The row after a guess: a spent one among the five newest is locked; a miss counts against the ones with
      attempts left; a sign-in uses up every unused code of the phone. */
  function AfterGuess(o: Otp.OtpRow, considered: bool, answer: Answer, phone: Otp.Phone, now: Time): Otp.OtpRow {
    if considered && o.attempts >= 5 then o.(usedAt := Some(now))
    else if answer.SignedIn? && o.phone == phone && o.usedAt.None? then o.(usedAt := Some(now))
    else if considered && answer == Denied(CodeInvalid) then o.(attempts := o.attempts + 1)
    else o
  }

  /** What a guess does to every single row. In particular the right code of an inactive driver is refused without
      being used up or counted. */
  lemma GuessRowByRow(s: State, phone: Otp.Phone, code: Otp.Code, token: Token, ip: Option<nat>, now: Time, i: nat)
    requires Sound(s.otps, s.nextOtp) && i < |s.otps|
    ensures var r := VerifyOtp(s, Some(phone), code, token, ip, now);
      && |r.state.otps| == |s.otps|
      && r.state.otps[i] == AfterGuess(s.otps[i], s.otps[i] in Otp.Considered(s.otps, phone, now), r.answer, phone, now)
  {
    hide Otp.Considered, Otp.CheckCode, Otp.AfterCheck, SignToken, Record;
    var check := Otp.CheckCode(s.otps, phone, code, now);
    var r := VerifyOtp(s, Some(phone), code, token, ip, now);
    CheckNames(s.otps, phone, code, now, s.nextOtp, s.otps[i]);
    AfterCheckAt(s.otps, phone, check, MaySignIn(s, check), now, i);
  }

  /** The ids a check names are those of the considered rows, spent and live apart. */
  lemma CheckNames(otps: seq<Otp.OtpRow>, phone: Otp.Phone, code: Otp.Code, now: Time, next: nat, o: Otp.OtpRow)
    requires Sound(otps, next) && o in otps
    ensures var check, considered := Otp.CheckCode(otps, phone, code, now), o in Otp.Considered(otps, phone, now);
      && (check.NoCode? ==> !considered)
      && (check.AllSpent? ==> (o.id in check.lock <==> considered) && (considered ==> o.attempts >= 5))
      && (check.Wrong? || check.Right? ==> (o.id in check.lock <==> considered && o.attempts >= 5))
      && (check.Wrong? ==> (o.id in check.counted <==> considered && o.attempts < 5))
      && (considered ==> Otp.IsPending(o, phone, now))
  {
    hide Otp.Considered, Otp.FindCode;
    var rows := Otp.Considered(otps, phone, now);
    LiveIsNotLocked(otps, phone, now, next, o);
    Otp.ConsideredArePending(otps, phone, now);
    Rows.FilterKeeps(Otp.LiveTest(), rows);
    Rows.FilterKeeps(Otp.SpentTest(), rows);
    hide Rows.Filter, Sound;
    if o in rows {
      assert o in Otp.Live(rows) <==> o.attempts < 5;
      assert o in Rows.Filter(Otp.SpentTest(), rows) <==> o.attempts >= 5;
    }
  }

  lemma AfterCheckAt(otps: seq<Otp.OtpRow>, phone: Otp.Phone, check: Otp.Check, accepted: bool, now: Time, i: nat)
    requires i < |otps|
    ensures var after, o := Otp.AfterCheck(otps, phone, check, accepted, now), otps[i];
      && |after| == |otps|
      && after[i] == match check
                     case NoCode => o
                     case AllSpent(lock) => Otp.Apply(Otp.Lock(lock), o, now)
                     case Wrong(lock, counted) => Otp.Apply(Otp.Count(counted), Otp.Apply(Otp.Lock(lock), o, now), now)
                     case Right(lock, _) =>
                       if accepted then Otp.Apply(Otp.Burn(phone), Otp.Apply(Otp.Lock(lock), o, now), now) else Otp.Apply(Otp.Lock(lock), o, now)
  {
  }
}
