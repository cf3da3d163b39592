/** Company invite links: registrations and re-issues running at the same time.
    Looking a link up, claiming it, and creating the team lead are separate steps. Claiming locks the company's
    row until the transaction commits or rolls back; other writers of the row wait, readers see the old row. */
module InviteLinks {
  import opened Base

  type CompanyId = nat
  type Token = nat
  type Email = string
  type WorkerId = nat

  datatype Company = Company(inviteToken: Option<Token>, inviteExpiry: Time, lockedBy: Option<WorkerId>)

  /** A team lead created through a link. */
  datatype Lead = Lead(company: CompanyId, token: Token, email: Email)

  datatype Phase =
    | Idle
    | Looked(company: CompanyId, token: Token, email: Email)
    | Claimed(company: CompanyId, token: Token, email: Email)

  /** `minted` are the tokens ever drawn; a fresh draw is none of them. */
  datatype State = State(
    companies: map<CompanyId, Company>, emails: set<Email>, leads: seq<Lead>, workers: map<WorkerId, Phase>, minted: set<Token>)

  datatype Action =
    | NewCompany(id: CompanyId, drawn: Token, expiry: Time)
    | Reissue(id: CompanyId, drawn: Token, expiry: Time)
    | DropCompany(id: CompanyId)
    | NewUser(email: Email)
    | Look(w: WorkerId, token: Token, email: Email, now: Time, id: CompanyId)
    | Claim(w: WorkerId)
    | Create(w: WorkerId)

  function PhaseOf(s: State, w: WorkerId): Phase {
    if w in s.workers then s.workers[w] else Idle
  }

  predicate IsFree(s: State, id: CompanyId) {
    id in s.companies && s.companies[id].lockedBy.None?
  }

  predicate CanDo(s: State, a: Action) {
    match a
    case NewCompany(id, drawn, _) => id !in s.companies && drawn !in s.minted
    case Reissue(id, drawn, _) => IsFree(s, id) && drawn !in s.minted
    case DropCompany(id) => IsFree(s, id)
    case NewUser(email) => email !in s.emails
    case Look(w, _, _, _, _) => PhaseOf(s, w).Idle?
    case Claim(w) => PhaseOf(s, w).Looked? && (PhaseOf(s, w).company in s.companies ==> IsFree(s, PhaseOf(s, w).company))
    case Create(w) => PhaseOf(s, w).Claimed? && PhaseOf(s, w).company in s.companies
  }

  /** The claim compares the token with the row as it is now. */
  predicate Claims(s: State, w: WorkerId) {
    PhaseOf(s, w).Looked? && IsFree(s, PhaseOf(s, w).company)
    && s.companies[PhaseOf(s, w).company].inviteToken == Some(PhaseOf(s, w).token)
  }

  function Do(s: State, a: Action): State
    requires CanDo(s, a)
  {
    match a
    case NewCompany(id, drawn, expiry) =>
      s.(companies := s.companies[id := Company(Some(drawn), expiry, None)], minted := s.minted + {drawn})
    case Reissue(id, drawn, expiry) =>
      s.(companies := s.companies[id := Company(Some(drawn), expiry, None)], minted := s.minted + {drawn})
    case DropCompany(id) => s.(companies := s.companies - {id})
    case NewUser(email) => s.(emails := s.emails + {email})
    case Look(w, token, email, now, id) =>
      if id in s.companies && s.companies[id].inviteToken == Some(token) && s.companies[id].inviteExpiry > now
      then s.(workers := s.workers[w := Looked(id, token, email)])
      else s
    case Claim(w) =>
      var p := PhaseOf(s, w);
      if Claims(s, w)
      then s.(companies := s.companies[p.company := s.companies[p.company].(lockedBy := Some(w))],
              workers := s.workers[w := Claimed(p.company, p.token, p.email)])
      else s.(workers := s.workers[w := Idle])
    case Create(w) =>
      var p := PhaseOf(s, w);
      if p.email in s.emails then RollBack(s, w)
      else s.(companies := s.companies[p.company := Company(None, 0, None)], emails := s.emails + {p.email},
              leads := s.leads + [Lead(p.company, p.token, p.email)], workers := s.workers[w := Idle])
  }

  /** The claim never happened; the row is as it was. */
  function RollBack(s: State, w: WorkerId): State
    requires PhaseOf(s, w).Claimed? && PhaseOf(s, w).company in s.companies
  {
    var id := PhaseOf(s, w).company;
    s.(companies := s.companies[id := s.companies[id].(lockedBy := None)], workers := s.workers[w := Idle])
  }

  ghost predicate IsRun(s: State, actions: seq<Action>)
    decreases |actions|
  {
    actions == [] || (CanDo(s, actions[0]) && IsRun(Do(s, actions[0]), actions[1..]))
  }

  ghost function Final(s: State, actions: seq<Action>): State
    requires IsRun(s, actions)
    decreases |actions|
  {
    if actions == [] then s else Final(Do(s, actions[0]), actions[1..])
  }

  function Start(): State {
    State(map[], {}, [], map[], {})
  }

  // ----- invariants

  /** Tokens are drawn before they are used, by one company at a time, and never again once a lead came of them. */
  ghost predicate TokensOk(s: State) {
    && (forall c :: c in s.companies && s.companies[c].inviteToken.Some? ==> s.companies[c].inviteToken.value in s.minted)
    && (forall c, d :: c in s.companies && d in s.companies && c != d && s.companies[c].inviteToken.Some? ==>
          s.companies[c].inviteToken != s.companies[d].inviteToken)
    && (forall i :: 0 <= i < |s.leads| ==> s.leads[i].token in s.minted)
    && (forall i, c :: 0 <= i < |s.leads| && c in s.companies ==> s.companies[c].inviteToken != Some(s.leads[i].token))
    && (forall i, j :: 0 <= i < j < |s.leads| ==> s.leads[i].token != s.leads[j].token)
  }

  /** Whoever has claimed a link holds its row, which still has the token. */
  ghost predicate ClaimsOk(s: State) {
    forall w :: w in s.workers && s.workers[w].Claimed? ==>
      && s.workers[w].company in s.companies
      && s.companies[s.workers[w].company].lockedBy == Some(w)
      && s.companies[s.workers[w].company].inviteToken == Some(s.workers[w].token)
  }

  ghost predicate Valid(s: State) {
    TokensOk(s) && ClaimsOk(s)
  }

  lemma DoKeeps(s: State, a: Action)
    requires Valid(s) && CanDo(s, a)
    ensures Valid(Do(s, a))
  {
    hide TokensOk;
    match a
    case NewCompany(id, drawn, expiry) => DrawKeeps(s, id, drawn, expiry);
    case Reissue(id, drawn, expiry) => DrawKeeps(s, id, drawn, expiry);
    case DropCompany(id) => DropKeeps(s, id);
    case NewUser(email) => SameRows(s, Do(s, a));
    case Look(w, _, _, _, _) => SameRows(s, Do(s, a));
    case Claim(w) => SameRows(s, Do(s, a));
    case Create(w) =>
      if PhaseOf(s, w).email in s.emails { SameRows(s, Do(s, a)); } else { CreateKeeps(s, w); }
  }

  lemma DrawKeeps(s: State, id: CompanyId, drawn: Token, expiry: Time)
    requires TokensOk(s) && drawn !in s.minted
    ensures TokensOk(s.(companies := s.companies[id := Company(Some(drawn), expiry, None)], minted := s.minted + {drawn}))
  {
  }

  lemma DropKeeps(s: State, id: CompanyId)
    requires TokensOk(s)
    ensures TokensOk(s.(companies := s.companies - {id}))
  {
  }

  lemma SameRows(s: State, t: State)
    requires TokensOk(s) && t.leads == s.leads && t.minted == s.minted && t.companies.Keys == s.companies.Keys
    requires forall c :: c in s.companies ==> t.companies[c].inviteToken == s.companies[c].inviteToken
    ensures TokensOk(t)
  {
  }

  lemma CreateKeeps(s: State, w: WorkerId)
    requires Valid(s) && CanDo(s, Create(w)) && PhaseOf(s, w).email !in s.emails
    ensures TokensOk(Do(s, Create(w)))
  {
    var p, t := PhaseOf(s, w), Do(s, Create(w));
    assert s.companies[p.company].inviteToken == Some(p.token);
  }

  lemma {:induction false} ValidAlways(s: State, actions: seq<Action>)
    requires Valid(s) && IsRun(s, actions)
    ensures Valid(Final(s, actions))
    decreases |actions|
  {
    hide Valid, Do, CanDo;
    if actions != [] {
      DoKeeps(s, actions[0]);
      ValidAlways(Do(s, actions[0]), actions[1..]);
    }
  }

  /** Main result: however registrations and re-issues interleave, a company link makes at most one team lead. */
  lemma OneLeadPerLink(actions: seq<Action>, i: nat, j: nat)
    requires IsRun(Start(), actions)
    requires i < |Final(Start(), actions).leads| && j < |Final(Start(), actions).leads|
    requires Final(Start(), actions).leads[i].token == Final(Start(), actions).leads[j].token
    ensures i == j
  {
    ValidAlways(Start(), actions);
  }

  /** A create that fails leaves the link as usable as before: anyone else who has looked it up can claim it,
      and a new visitor still finds it until it expires. */
  lemma FailedCreateLeavesTheLink(actions: seq<Action>, w: WorkerId, other: WorkerId, email: Email, now: Time)
    requires IsRun(Start(), actions)
    requires var s := Final(Start(), actions); CanDo(s, Create(w)) && PhaseOf(s, w).email in s.emails && other != w
    ensures var s := Final(Start(), actions); var p, t := PhaseOf(s, w), Do(s, Create(w));
      && t.leads == s.leads && t.emails == s.emails
      && t.companies[p.company] == s.companies[p.company].(lockedBy := None)
      && (PhaseOf(t, other).Looked? && PhaseOf(t, other).company == p.company && PhaseOf(t, other).token == p.token ==> Claims(t, other))
      && (PhaseOf(t, other).Idle? && now < s.companies[p.company].inviteExpiry ==>
            PhaseOf(Do(t, Look(other, p.token, email, now, p.company)), other) == Looked(p.company, p.token, email))
  {
    ValidAlways(Start(), actions);
    hide TokensOk;
  }

  /** A link is found while its company still has its token and it has not expired. It is claimed if the token is still
      there and nobody else holds the row – whatever became of it since the look-up, expiry aside. The claimed link then
      makes one team lead and is gone, unless the e-mail is taken, which leaves it as it was. A re-issue puts a new link
      in its place. */
  lemma RegistrationOnRows(s: State, w: WorkerId, token: Token, email: Email, now: Time, id: CompanyId)
    ensures CanDo(s, Look(w, token, email, now, id)) ==>
      Do(s, Look(w, token, email, now, id)) ==
        if id in s.companies && s.companies[id].inviteToken == Some(token) && now < s.companies[id].inviteExpiry
        then s.(workers := s.workers[w := Looked(id, token, email)]) else s
    ensures CanDo(s, Claim(w)) ==>
      w in s.workers && s.workers[w].Looked?
      && var p := s.workers[w];
         Do(s, Claim(w)) ==
           if p.company in s.companies && s.companies[p.company].inviteToken == Some(p.token)
           then s.(workers := s.workers[w := Claimed(p.company, p.token, p.email)],
                   companies := s.companies[p.company := s.companies[p.company].(lockedBy := Some(w))])
           else s.(workers := s.workers[w := Idle])
    ensures CanDo(s, Create(w)) ==>
      w in s.workers && s.workers[w].Claimed?
      && var p := s.workers[w];
         Do(s, Create(w)) ==
           if p.email in s.emails
           then s.(workers := s.workers[w := Idle], companies := s.companies[p.company := s.companies[p.company].(lockedBy := None)])
           else s.(workers := s.workers[w := Idle], companies := s.companies[p.company := Company(None, 0, None)],
                   emails := s.emails + {p.email}, leads := s.leads + [Lead(p.company, p.token, p.email)])
    ensures CanDo(s, Reissue(id, token, now)) ==>
      id in s.companies && Do(s, Reissue(id, token, now)) == s.(companies := s.companies[id := Company(Some(token), now, None)], minted := s.minted + {token})
  {
  }

  /** A create that succeeds ends the link for everyone: whoever looked it up before can no longer claim it. */
  lemma CreateEndsTheLink(s: State, w: WorkerId, actions: seq<Action>, other: WorkerId)
    requires Valid(s) && CanDo(s, Create(w)) && PhaseOf(s, w).email !in s.emails
    requires IsRun(Do(s, Create(w)), actions)
    requires var t := Final(Do(s, Create(w)), actions); PhaseOf(t, other).Looked? && PhaseOf(t, other).token == PhaseOf(s, w).token
    ensures !Claims(Final(Do(s, Create(w)), actions), other)
  {
    var s1 := Do(s, Create(w));
    DoKeeps(s, Create(w));
    assert s1.leads[|s.leads|].token == PhaseOf(s, w).token;
    hide Do, CanDo;
    LeadsStay(s1, actions);
    ValidAlways(s1, actions);
  }

  lemma {:induction false} LeadsStay(s: State, actions: seq<Action>)
    requires IsRun(s, actions)
    ensures s.leads <= Final(s, actions).leads
    decreases |actions|
  {
    if actions != [] {
      LeadsStay(Do(s, actions[0]), actions[1..]);
    }
  }
}
