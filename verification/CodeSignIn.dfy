/** Typing a sign-in code, on the stored rows: which codes it is compared with, whom it signs in, and what it leaves. */
module CodeSignIn {
  import opened Base
  import Rows
  import Otp = OtpCodes
  import Ses = SessionTokens
  import opened Credentials
  import OtpBounds

  /** The places after i, up to n, of the phone's unused and unexpired codes. */
  ghost function UsableAfter(otps: seq<Otp.OtpRow>, phone: Otp.Phone, now: Time, i: int, n: nat): set<nat>
    requires n <= |otps|
  {
    set j: nat | i < j < n && otps[j].phone == phone && otps[j].usedAt.None? && otps[j].expiresAt > now
  }

  /** One of the phone's five newest unused, unexpired codes. */
  ghost predicate IsCompared(otps: seq<Otp.OtpRow>, phone: Otp.Phone, now: Time, i: nat) {
    && i < |otps| && otps[i].phone == phone && otps[i].usedAt.None? && otps[i].expiresAt > now
    && |UsableAfter(otps, phone, now, i, |otps|)| < 5
  }

  /** The newest of them that has attempts left and is the code typed. */
  ghost predicate IsTyped(otps: seq<Otp.OtpRow>, phone: Otp.Phone, code: Otp.Code, now: Time, i: nat) {
    && IsCompared(otps, phone, now, i) && otps[i].attempts < 5 && otps[i].code == code
    && forall j :: j > i && IsCompared(otps, phone, now, j) && otps[j].attempts < 5 ==> otps[j].code != code
  }

  lemma {:induction false} UsableAreSelected(otps: seq<Otp.OtpRow>, phone: Otp.Phone, now: Time, i: nat, n: nat)
    requires i <= n <= |otps|
    ensures |UsableAfter(otps, phone, now, i - 1, n)| == |Rows.Filter(Otp.PendingTest(phone, now), otps[i..n])|
  {
    if i == n {
      assert UsableAfter(otps, phone, now, i - 1, n) == {};
    } else {
      UsableAreSelected(otps, phone, now, i, n - 1);
      var before, o := UsableAfter(otps, phone, now, i - 1, n - 1), otps[n - 1];
      assert otps[i..n] == otps[i..n - 1] + [o];
      Rows.FilterAppend(Otp.PendingTest(phone, now), otps[i..n - 1], o);
      assert UsableAfter(otps, phone, now, i - 1, n) == if Otp.IsPending(o, phone, now) then before + {n - 1} else before;
    }
  }

  /** The newest n selected rows are those selected from some tail of the table. */
  lemma {:induction false} NewestAreATail(otps: seq<Otp.OtpRow>, test: Otp.OtpRow -> bool, n: nat, from: nat) returns (k: nat)
    requires from <= |otps| && |Rows.Filter(test, otps[from..])| <= n
    ensures k <= |otps| && Otp.Newest(Rows.Filter(test, otps), n) == Rows.Filter(test, otps[k..])
    ensures k == 0 || |Rows.Filter(test, otps[k..])| == n
  {
    k := from;
    if |Rows.Filter(test, otps[k..])| == n {
      assert otps == otps[..k] + otps[k..];
      Rows.FilterConcat(test, otps[..k], otps[k..]);
    } else if from == 0 {
      assert otps[0..] == otps;
    } else {
      assert otps[from - 1..] == [otps[from - 1]] + otps[from..];
      Rows.FilterConcat(test, [otps[from - 1]], otps[from..]);
      Rows.FilterAppend(test, [], otps[from - 1]);
      assert [] + [otps[from - 1]] == [otps[from - 1]];
      k := NewestAreATail(otps, test, n, from - 1);
    }
  }

  /** The codes a guess is compared with are those from some place on. */
  lemma ComparedAreATail(otps: seq<Otp.OtpRow>, phone: Otp.Phone, now: Time) returns (k: nat)
    ensures k <= |otps| && Otp.Considered(otps, phone, now) == Rows.Filter(Otp.PendingTest(phone, now), otps[k..])
    ensures forall i: nat :: IsCompared(otps, phone, now, i) <==> k <= i < |otps| && Otp.IsPending(otps[i], phone, now)
  {
    var test, n := Otp.PendingTest(phone, now), |otps|;
    assert otps[n..] == [];
    k := NewestAreATail(otps, test, 5, n);
    forall i: nat ensures IsCompared(otps, phone, now, i) <==> k <= i < n && Otp.IsPending(otps[i], phone, now) {
      if i < n && Otp.IsPending(otps[i], phone, now) {
        UsableAreSelected(otps, phone, now, i + 1, n);
        assert otps[i + 1..n] == otps[i + 1..];
        if i < k {
          assert otps[i + 1..] == otps[i + 1..k] + otps[k..];
          Rows.FilterConcat(test, otps[i + 1..k], otps[k..]);
        } else {
          assert otps[k..] == otps[k..i] + ([otps[i]] + otps[i + 1..]);
          Rows.FilterConcat(test, otps[k..i], [otps[i]] + otps[i + 1..]);
          Rows.FilterConcat(test, [otps[i]], otps[i + 1..]);
          Rows.FilterAppend(test, [], otps[i]);
          assert [] + [otps[i]] == [otps[i]];
        }
      }
    }
  }

  ghost predicate IsLast(test: Otp.OtpRow -> bool, rows: seq<Otp.OtpRow>, code: Otp.Code, i: int) {
    && 0 <= i < |rows| && test(rows[i]) && rows[i].code == code
    && forall j :: i < j < |rows| && test(rows[j]) ==> rows[j].code != code
  }

  lemma {:induction false} FindsTheLast(test: Otp.OtpRow -> bool, rows: seq<Otp.OtpRow>, code: Otp.Code)
    ensures var found := Otp.FindCode(Rows.Filter(test, rows), code);
      if found.None? then forall i :: 0 <= i < |rows| && test(rows[i]) ==> rows[i].code != code
      else exists i :: IsLast(test, rows, code, i) && rows[i] == found.value
  {
    if rows != [] {
      var init, last := rows[..|rows| - 1], rows[|rows| - 1];
      FindsTheLast(test, init, code);
      assert rows == init + [last];
      var before := Rows.Filter(test, init);
      assert test(last) ==> (before + [last])[..|before|] == before;
      if test(last) && last.code == code {
        assert IsLast(test, rows, code, |init|);
      } else if Otp.FindCode(before, code).Some? {
        var i :| IsLast(test, init, code, i) && init[i] == Otp.FindCode(before, code).value;
        assert IsLast(test, rows, code, i);
      }
    }
  }

  /** Looking a code up among selected rows finds the newest selected one that carries it. */
  lemma FoundIsNewest(test: Otp.OtpRow -> bool, rows: seq<Otp.OtpRow>, code: Otp.Code)
    ensures var found := Otp.FindCode(Rows.Filter(test, rows), code);
      && (found.Some? ==> exists i :: IsLast(test, rows, code, i) && found.value == rows[i])
      && (forall i :: IsLast(test, rows, code, i) ==> found == Some(rows[i]))
  {
    FindsTheLast(test, rows, code);
    hide Rows.Filter, Otp.FindCode;
  }

  /** The compared codes with attempts left, as the comparison walks them. */
  lemma LiveAreATail(otps: seq<Otp.OtpRow>, phone: Otp.Phone, now: Time, k: nat, both: Otp.OtpRow -> bool)
    requires k <= |otps| && Otp.Considered(otps, phone, now) == Rows.Filter(Otp.PendingTest(phone, now), otps[k..])
    requires forall o :: both(o) == (Otp.IsPending(o, phone, now) && o.attempts < 5)
    ensures Otp.Live(Otp.Considered(otps, phone, now)) == Rows.Filter(both, otps[k..])
  {
    Rows.FiltersNest(Otp.PendingTest(phone, now), Otp.LiveTest(), both, otps[k..]);
  }

  lemma EmptyMeansNone(test: Otp.OtpRow -> bool, otps: seq<Otp.OtpRow>, k: nat)
    requires k <= |otps|
    ensures Rows.Filter(test, otps[k..]) == [] <==> forall i: nat :: k <= i < |otps| ==> !test(otps[i])
  {
    var tail := otps[k..];
    Rows.FilterKeeps(test, tail);
    if Rows.Filter(test, tail) != [] {
      assert Rows.Filter(test, tail)[0] in tail;
    }
    forall i: nat | k <= i < |otps| && test(otps[i]) ensures Rows.Filter(test, tail) != [] {
      assert tail[i - k] == otps[i];
    }
  }

  /** The last match in the tail is the typed code. */
  lemma LastIsTyped(otps: seq<Otp.OtpRow>, phone: Otp.Phone, code: Otp.Code, now: Time, k: nat, both: Otp.OtpRow -> bool, i: nat)
    requires k <= i < |otps| && forall o :: both(o) == (Otp.IsPending(o, phone, now) && o.attempts < 5)
    requires forall j: nat :: IsCompared(otps, phone, now, j) <==> k <= j < |otps| && Otp.IsPending(otps[j], phone, now)
    ensures IsLast(both, otps[k..], code, i - k) <==> IsTyped(otps, phone, code, now, i)
  {
    hide IsCompared;
    var tail := otps[k..];
    assert tail[i - k] == otps[i];
    if IsTyped(otps, phone, code, now, i) {
      forall j | i - k < j < |tail| && both(tail[j]) ensures tail[j].code != code {
        assert tail[j] == otps[j + k];
      }
    }
    if IsLast(both, tail, code, i - k) {
      forall j | j > i && IsCompared(otps, phone, now, j) && otps[j].attempts < 5 ensures otps[j].code != code {
        assert otps[j] == tail[j - k];
      }
    }
  }

  /** What the comparison finds, on the rows. */
  lemma CheckOnRows(otps: seq<Otp.OtpRow>, phone: Otp.Phone, code: Otp.Code, now: Time)
    ensures var check := Otp.CheckCode(otps, phone, code, now);
      && (check.NoCode? <==> forall i: nat :: !IsCompared(otps, phone, now, i))
      && (check.AllSpent? <==> (exists i: nat :: IsCompared(otps, phone, now, i))
                               && forall i: nat :: IsCompared(otps, phone, now, i) ==> otps[i].attempts >= 5)
      && (check.Right? ==> exists i: nat :: IsTyped(otps, phone, code, now, i) && check.row == otps[i])
      && (forall i: nat :: IsTyped(otps, phone, code, now, i) ==> check.Right? && check.row == otps[i])
  {
    var k := ComparedAreATail(otps, phone, now);
    var both := (o: Otp.OtpRow) => Otp.IsPending(o, phone, now) && o.attempts < 5;
    LiveAreATail(otps, phone, now, k, both);
    EmptyMeansNone(Otp.PendingTest(phone, now), otps, k);
    EmptyMeansNone(both, otps, k);
    FoundIsNewest(both, otps[k..], code);
    hide IsCompared, IsTyped, IsLast, Rows.Filter, Otp.Considered, Otp.Live;
    forall i: nat | k <= i < |otps| ensures IsLast(both, otps[k..], code, i - k) <==> IsTyped(otps, phone, code, now, i) {
      LastIsTyped(otps, phone, code, now, k, both, i);
    }
    forall i: nat | IsTyped(otps, phone, code, now, i) ensures k <= i < |otps| && otps[i] == otps[k..][i - k] {
      TypedIsCompared(otps, phone, code, now, i);
    }
    var check := Otp.CheckCode(otps, phone, code, now);
    if check.Right? {
      var j :| IsLast(both, otps[k..], code, j) && check.row == otps[k..][j];
      LastIsThere(both, otps[k..], code, j);
      assert IsTyped(otps, phone, code, now, j + k);
    }
  }

  lemma TypedIsCompared(otps: seq<Otp.OtpRow>, phone: Otp.Phone, code: Otp.Code, now: Time, i: nat)
    requires IsTyped(otps, phone, code, now, i)
    ensures IsCompared(otps, phone, now, i)
  {
  }

  lemma LastIsThere(test: Otp.OtpRow -> bool, rows: seq<Otp.OtpRow>, code: Otp.Code, i: int)
    requires IsLast(test, rows, code, i)
    ensures 0 <= i < |rows|
  {
  }

  /** Main result: whom a code signs in, and when and why it is refused. A sign-in stores one session, of the owner of
      the typed code and for 90 days, and one audit entry; a refusal stores neither. */
  lemma WhoSignsIn(s: State, phone: Otp.Phone, code: Otp.Code, token: Token, ip: Option<nat>, now: Time)
    ensures var r, otps, users := VerifyOtp(s, Some(phone), code, token, ip, now), s.otps, s.users;
      && (forall u :: r.answer == SignedIn(u, token) <==>
            && (exists i: nat :: IsTyped(otps, phone, code, now, i) && otps[i].user == u)
            && u in users && users[u].role.Driver? && users[u].active)
      && (r.answer == Denied(DriverNotActive) <==>
            exists i: nat :: IsTyped(otps, phone, code, now, i)
                             && !(otps[i].user in users && users[otps[i].user].role.Driver? && users[otps[i].user].active))
      && (r.answer == Denied(TooManyAttempts) <==>
            && (exists i: nat :: IsCompared(otps, phone, now, i))
            && forall i: nat :: IsCompared(otps, phone, now, i) ==> otps[i].attempts >= 5)
      && (r.answer == Denied(CodeInvalid) <==>
            && (forall i: nat :: !IsTyped(otps, phone, code, now, i))
            && ((exists i: nat :: IsCompared(otps, phone, now, i) && otps[i].attempts < 5) || forall i: nat :: !IsCompared(otps, phone, now, i)))
      && (r.answer.SignedIn? ==>
            && r.answer.token == token
            && r.state.refresh == s.refresh[token := Ses.RefreshRow(r.answer.user, now + 90 * 24 * 3600 * 1000, None)]
            && r.state.audit == s.audit + [AuditRow(now, r.answer.user, r.answer.user, ip)])
      && (!r.answer.SignedIn? ==> r.state == s.(otps := r.state.otps))
      && (r.answer.SignedIn? || r.answer in {Denied(CodeInvalid), Denied(TooManyAttempts), Denied(DriverNotActive)})
  {
    CheckOnRows(s.otps, phone, code, now);
    hide IsCompared, IsTyped, Otp.CheckCode, Otp.AfterCheck;
    var check, r := Otp.CheckCode(s.otps, phone, code, now), VerifyOtp(s, Some(phone), code, token, ip, now);
    assert r == Conclude(s, phone, check, token, ip, now);
    forall i: nat | IsTyped(s.otps, phone, code, now, i) ensures i < |s.otps| && IsCompared(s.otps, phone, now, i) && s.otps[i].attempts < 5 {
      TypedIsLive(s.otps, phone, code, now, i);
    }
  }

  lemma TypedIsLive(otps: seq<Otp.OtpRow>, phone: Otp.Phone, code: Otp.Code, now: Time, i: nat)
    requires IsTyped(otps, phone, code, now, i)
    ensures IsCompared(otps, phone, now, i) && otps[i].attempts < 5
  {
  }

  /** Without a phone nothing happens. */
  lemma NoPhoneNoSignIn(s: State, code: Otp.Code, token: Token, ip: Option<nat>, now: Time)
    ensures VerifyOtp(s, None, code, token, ip, now) == Outcome(s, Denied(CodeInvalid))
  {
  }

  /** What a guess does to the stored codes: a compared one out of attempts is locked, a sign-in uses up every unused
      code of the phone, a miss counts against the compared ones that have attempts left, and no other row changes. */
  lemma CodesAfterGuess(s: State, phone: Otp.Phone, code: Otp.Code, token: Token, ip: Option<nat>, now: Time, i: nat)
    requires OtpBounds.Sound(s.otps, s.nextOtp) && i < |s.otps|
    ensures var r, o := VerifyOtp(s, Some(phone), code, token, ip, now), s.otps[i];
      && |r.state.otps| == |s.otps|
      && r.state.otps[i] ==
           if (IsCompared(s.otps, phone, now, i) && o.attempts >= 5) || (r.answer.SignedIn? && o.phone == phone && o.usedAt.None?)
           then o.(usedAt := Some(now))
           else if IsCompared(s.otps, phone, now, i) && r.answer == Denied(CodeInvalid) then o.(attempts := o.attempts + 1)
           else o
  {
    OtpBounds.GuessRowByRow(s, phone, code, token, ip, now, i);
    var k := ComparedAreATail(s.otps, phone, now);
    var tail := s.otps[k..];
    Rows.FilterKeeps(Otp.PendingTest(phone, now), tail);
    hide IsCompared, Otp.Considered, VerifyOtp, Rows.Filter;
    if s.otps[i] in Otp.Considered(s.otps, phone, now) {
      var j :| 0 <= j < |tail| && tail[j] == s.otps[i];
      assert s.otps[k + j] == s.otps[i];
      assert k + j == i;
    } else if k <= i {
      assert tail[i - k] == s.otps[i];
    }
  }
}
