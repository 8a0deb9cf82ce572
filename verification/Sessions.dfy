/** Refresh-token rotation (section 4.14.2 of RFC 9700): login, refresh and logout against
    the Redis store of active token ids. Requests run one after another. */
module Sessions {
  import opened Common

  type UserId = string
  type FamilyId = nat
  type Jti = nat

  /** Tokens are unforgeable records; `expiresAt` is in whole seconds, like the claim `exp`. */
  datatype Token = Token(sub: UserId, fam: FamilyId, jti: Jti, expiresAt: int)

  /** A Redis entry: the active id of a family and the millisecond at which it is dropped. */
  datatype Entry = Entry(jti: Jti, dropAt: int)

  /** history: the tokens issued in a family, oldest first, and those accepted, in order. */
  datatype Family = Family(issued: seq<Token>, accepted: seq<Token>)

  datatype State = State(
    now: int,                          // milliseconds
    active: map<FamilyId, Entry>,      // the store
    inactiveUsers: set<UserId>,
    families: seq<Family>,             // indexed by family id, so ids are fresh
    nextJti: Jti                       // ids never repeat
  )

  datatype Request =
    | Login(user: UserId)              // credentials already verified
    | Refresh(token: Token)
    | Logout(token: Token)
    | SetActive(user: UserId, active: bool)
    | Tick(ms: nat)

  datatype Answer = Issued(token: Token) | Unauthenticated | Acknowledged

  function Seconds(ms: int): int { ms / 1000 }

  /** jwt.verify: the token was signed here and has not expired. */
  predicate Verifies(s: State, t: Token) {
    && t.fam < |s.families| && t in s.families[t.fam].issued
    && Seconds(s.now) < t.expiresAt
  }

  /** GET of the family's entry. */
  function GetActiveJti(s: State, fam: FamilyId): Option<Jti> {
    if fam in s.active && s.now < s.active[fam].dropAt then Some(s.active[fam].jti) else None
  }

  function Sign(s: State, user: UserId, fam: FamilyId, ttl: nat): Token {
    Token(user, fam, s.nextJti, Seconds(s.now) + ttl)
  }

  function SaveActiveJti(s: State, fam: FamilyId, jti: Jti, ttl: nat): State {
    s.(active := s.active[fam := Entry(jti, s.now + 1000 * ttl)], nextJti := s.nextJti + 1)
  }

  function RevokeFamily(s: State, fam: FamilyId): State {
    s.(active := s.active - {fam})
  }

  function LoginStep(s: State, user: UserId, ttl: nat): (State, Answer) {
    if user in s.inactiveUsers then (s, Unauthenticated)
    else
      var fam := |s.families|;
      var token := Sign(s, user, fam, ttl);
      (SaveActiveJti(s, fam, token.jti, ttl).(families := s.families + [Family([token], [])]), Issued(token))
  }

  function RefreshStep(s: State, t: Token, ttl: nat): (State, Answer) {
    if !Verifies(s, t) then (s, Unauthenticated)
    else
      var jti := GetActiveJti(s, t.fam);
      if jti.None? then (s, Unauthenticated)                                        // session revoked
      else if jti.value != t.jti then (RevokeFamily(s, t.fam), Unauthenticated)     // reuse detected
      else if t.sub in s.inactiveUsers then (RevokeFamily(s, t.fam), Unauthenticated)
      else
        var token := Sign(s, t.sub, t.fam, ttl);
        var f := s.families[t.fam];
        (SaveActiveJti(s, t.fam, token.jti, ttl).(
           families := s.families[t.fam := Family(f.issued + [token], f.accepted + [t])]), Issued(token))
  }

  function LogoutStep(s: State, t: Token): (State, Answer) {
    (if Verifies(s, t) then RevokeFamily(s, t.fam) else s, Acknowledged)
  }

  function Serve(s: State, r: Request, ttl: nat): (State, Answer) {
    match r
    case Login(user) => LoginStep(s, user, ttl)
    case Refresh(t) => RefreshStep(s, t, ttl)
    case Logout(t) => LogoutStep(s, t)
    case SetActive(user, active) =>
      (s.(inactiveUsers := if active then s.inactiveUsers - {user} else s.inactiveUsers + {user}), Acknowledged)
    case Tick(ms) => (s.(now := s.now + ms), Acknowledged)
  }

  function Next(s: State, r: Request, ttl: nat): State { Serve(s, r, ttl).0 }

  function Run(s: State, rs: seq<Request>, ttl: nat): State
    decreases |rs|
  {
    if rs == [] then s else Run(Next(s, rs[0], ttl), rs[1..], ttl)
  }

  function Initial(now: int): State { State.State(now, map[], {}, [], 0) }

  // ----- the chain -----

  /** The accepted tokens are all issued tokens but the newest: each acceptance issued the
      token that is accepted next. Ids are distinct; an entry names the newest token. */
  predicate FamilyOk(s: State, fam: FamilyId) {
    fam < |s.families| ==>
      var f := s.families[fam];
      && f.issued != []
      && f.accepted == f.issued[..|f.issued| - 1]
      && (forall i :: 0 <= i < |f.issued| ==> f.issued[i].fam == fam && f.issued[i].sub == f.issued[0].sub)
      && (forall i, j :: 0 <= i < j < |f.issued| ==> f.issued[i].jti < f.issued[j].jti)
      && (forall i :: 0 <= i < |f.issued| ==> f.issued[i].jti < s.nextJti)
      && (fam in s.active ==> EntryOk(s.active[fam], f.issued[|f.issued| - 1]))
  }

  /** The entry of a family names its newest token and outlives it by less than a second. */
  predicate EntryOk(e: Entry, newest: Token) {
    e.jti == newest.jti && 0 <= e.dropAt - 1000 * newest.expiresAt < 1000
  }

  predicate StoreOk(s: State) {
    && (forall fam <- s.active :: fam < |s.families|)
    && forall fam: nat :: fam < |s.families| ==> FamilyOk(s, fam)
  }

  function Newest(f: Family): Token
    requires f.issued != []
  {
    f.issued[|f.issued| - 1]
  }

  /** The only issued token with the newest id is the newest token. */
  lemma NewestById(s: State, t: Token)
    requires t.fam < |s.families| && FamilyOk(s, t.fam)
    requires t in s.families[t.fam].issued && t.jti == Newest(s.families[t.fam]).jti
    ensures t == Newest(s.families[t.fam])
  {}

  predicate Accepts(s: State, r: Request, ttl: nat) {
    r.Refresh? && Serve(s, r, ttl).1.Issued?
  }

  /** A refresh is accepted only for the newest token of its family, and appends one link. */
  lemma AcceptedIsNewest(s: State, t: Token, ttl: nat)
    requires StoreOk(s) && Accepts(s, Refresh(t), ttl)
    ensures t.fam < |s.families| && t == Newest(s.families[t.fam])
    ensures
      var f := s.families[t.fam];
      var token := Serve(s, Refresh(t), ttl).1.token;
      && Next(s, Refresh(t), ttl).families == s.families[t.fam := Family(f.issued + [token], f.issued)]
      && token.jti == s.nextJti && token.fam == t.fam && token.sub == f.issued[0].sub
  {
    assert FamilyOk(s, t.fam);
    NewestById(s, t);
    var f := s.families[t.fam];
    assert f.issued[..|f.issued| - 1] + [t] == f.issued;
  }

  /** What happens to one family does not disturb another. */
  lemma FamilyUntouched(s: State, s': State, fam: FamilyId)
    requires fam < |s.families| && fam < |s'.families| && s'.families[fam] == s.families[fam]
    requires FamilyOk(s, fam) && s.nextJti <= s'.nextJti
    requires fam in s'.active ==> fam in s.active && s'.active[fam] == s.active[fam]
    ensures FamilyOk(s', fam)
  {}

  lemma FamilyGrows(s: State, t: Token, ttl: nat)
    requires StoreOk(s) && Accepts(s, Refresh(t), ttl)
    ensures FamilyOk(Next(s, Refresh(t), ttl), t.fam)
  {
    AcceptedIsNewest(s, t, ttl);
    assert FamilyOk(s, t.fam);
    var f := s.families[t.fam];
    var token := Serve(s, Refresh(t), ttl).1.token;
    assert (f.issued + [token])[..|f.issued|] == f.issued;
  }

  lemma StepKeepsStore(s: State, r: Request, ttl: nat)
    requires StoreOk(s)
    ensures StoreOk(Next(s, r, ttl))
  {
    var s' := Next(s, r, ttl);
    forall fam: nat | fam < |s'.families| ensures FamilyOk(s', fam) {
      if fam < |s.families| {
        assert FamilyOk(s, fam);
        if Accepts(s, r, ttl) && r.token.fam == fam {
          FamilyGrows(s, r.token, ttl);
        } else {
          FamilyUntouched(s, s', fam);
        }
      }
    }
  }

  lemma {:induction false} RunKeepsStore(s: State, rs: seq<Request>, ttl: nat)
    requires StoreOk(s)
    ensures StoreOk(Run(s, rs, ttl)) && s.now <= Run(s, rs, ttl).now
    decreases |rs|
  {
    if rs != [] {
      StepKeepsStore(s, rs[0], ttl);
      RunKeepsStore(Next(s, rs[0], ttl), rs[1..], ttl);
    }
  }

  /** Rotation over whole runs: the accepted tokens of a family form one chain that starts at
      its login, each issued when the one before it was accepted, and none is accepted twice. */
  lemma SingleChain(now: int, rs: seq<Request>, ttl: nat, fam: FamilyId)
    requires fam < |Run(Initial(now), rs, ttl).families|
    ensures
      var f := Run(Initial(now), rs, ttl).families[fam];
      && |f.issued| == |f.accepted| + 1
      && (forall i :: 0 <= i < |f.accepted| ==> f.accepted[i] == f.issued[i])
      && (forall i, j :: 0 <= i < j < |f.accepted| ==> f.accepted[i] != f.accepted[j])
      && (forall i :: 0 <= i < |f.issued| ==> f.issued[i].sub == f.issued[0].sub && f.issued[i].fam == fam)
  {
    RunKeepsStore(Initial(now), rs, ttl);
    assert FamilyOk(Run(Initial(now), rs, ttl), fam);
  }

  /** A refresh is accepted exactly for the newest token of a family that is still in the
      store, before the token expires, while its user is active: the store entry never runs
      out before the token it names. */
  lemma AcceptedExactly(s: State, t: Token, ttl: nat)
    requires StoreOk(s) && t.fam < |s.families| && t in s.families[t.fam].issued
    ensures Accepts(s, Refresh(t), ttl)
       <==> && t == Newest(s.families[t.fam])
            && t.fam in s.active
            && Seconds(s.now) < t.expiresAt
            && t.sub !in s.inactiveUsers
  {
    assert FamilyOk(s, t.fam);
    if Accepts(s, Refresh(t), ttl) {
      AcceptedIsNewest(s, t, ttl);
    }
  }

  /** No entry that a request could still see. */
  predicate Revoked(s: State, fam: FamilyId) {
    fam < |s.families| && GetActiveJti(s, fam).None?
  }

  lemma {:induction false} RevokedForEver(s: State, rs: seq<Request>, ttl: nat, fam: FamilyId)
    requires Revoked(s, fam)
    ensures Revoked(Run(s, rs, ttl), fam)
    ensures Run(s, rs, ttl).families[fam] == s.families[fam]
    decreases |rs|
  {
    if rs != [] {
      RevokedForEver(Next(s, rs[0], ttl), rs[1..], ttl, fam);
    }
  }

  /** Reuse detection. Presenting any issued, unexpired token but the newest is refused, and
      from then on no token of the family, the newest included, is ever accepted. */
  lemma ReplayKillsFamily(s: State, t: Token, rs: seq<Request>, ttl: nat, later: Token)
    requires StoreOk(s) && Verifies(s, t) && t != Newest(s.families[t.fam])
    requires later.fam == t.fam
    ensures Serve(s, Refresh(t), ttl).1 == Unauthenticated
    ensures !Accepts(Run(Next(s, Refresh(t), ttl), rs, ttl), Refresh(later), ttl)
  {
    AcceptedExactly(s, t, ttl);
    assert FamilyOk(s, t.fam);
    var s' := Next(s, Refresh(t), ttl);
    if GetActiveJti(s, t.fam).Some? && GetActiveJti(s, t.fam).value == t.jti {
      NewestById(s, t);
    }
    assert Revoked(s', t.fam);
    RevokedForEver(s', rs, ttl, t.fam);
  }

  /** After a logout with a token of the family, no token of it is ever accepted. */
  lemma LogoutKillsFamily(s: State, t: Token, rs: seq<Request>, ttl: nat, later: Token)
    requires Verifies(s, t) && later.fam == t.fam
    ensures !Accepts(Run(Next(s, Logout(t), ttl), rs, ttl), Refresh(later), ttl)
  {
    RevokedForEver(Next(s, Logout(t), ttl), rs, ttl, t.fam);
  }

  /** The requests that end a family: a logout, a replay, or a refresh by a deactivated user,
      each with a token that verifies. */
  predicate Ends(s: State, r: Request, fam: FamilyId)
    requires fam < |s.families| && s.families[fam].issued != []
  {
    || (r.Logout? && r.token.fam == fam && Verifies(s, r.token))
    || (r.Refresh? && r.token.fam == fam && Verifies(s, r.token) && GetActiveJti(s, fam).Some?
        && (r.token != Newest(s.families[fam]) || r.token.sub in s.inactiveUsers))
  }

  /** A family leaves the store exactly when one of them is served. */
  lemma LeavesStoreExactly(s: State, r: Request, ttl: nat, fam: FamilyId)
    requires StoreOk(s) && fam in s.active
    ensures FamilyOk(s, fam)
    ensures fam !in Next(s, r, ttl).active <==> Ends(s, r, fam)
  {
    assert FamilyOk(s, fam);
    if r.Refresh? && r.token.fam == fam && Verifies(s, r.token) && r.token.jti == Newest(s.families[fam]).jti {
      NewestById(s, r.token);
    }
  }

  predicate NeverEnds(s: State, rs: seq<Request>, ttl: nat, fam: FamilyId)
    decreases |rs|
  {
    rs == [] ||
    (fam < |s.families| && s.families[fam].issued != [] && !Ends(s, rs[0], fam)
     && NeverEnds(Next(s, rs[0], ttl), rs[1..], ttl, fam))
  }

  lemma {:induction false} StaysInStore(s: State, rs: seq<Request>, ttl: nat, fam: FamilyId)
    requires StoreOk(s) && fam in s.active && NeverEnds(s, rs, ttl, fam)
    ensures StoreOk(Run(s, rs, ttl)) && fam in Run(s, rs, ttl).active && FamilyOk(Run(s, rs, ttl), fam)
    decreases |rs|
  {
    if rs == [] {
      assert FamilyOk(s, fam);
    } else {
      StepKeepsStore(s, rs[0], ttl);
      LeavesStoreExactly(s, rs[0], ttl, fam);
      StaysInStore(Next(s, rs[0], ttl), rs[1..], ttl, fam);
    }
  }

  /** The newest token of a family that no request has ended is accepted until it expires. */
  lemma NewestUntilExpiry(s: State, rs: seq<Request>, ttl: nat, fam: FamilyId)
    requires StoreOk(s) && fam in s.active && NeverEnds(s, rs, ttl, fam)
    ensures
      var end := Run(s, rs, ttl);
      && fam < |end.families| && end.families[fam].issued != []
      && var t := Newest(end.families[fam]);
         Accepts(end, Refresh(t), ttl) <==> Seconds(end.now) < t.expiresAt && t.sub !in end.inactiveUsers
  {
    StaysInStore(s, rs, ttl, fam);
    var end := Run(s, rs, ttl);
    AcceptedExactly(end, Newest(end.families[fam]), ttl);
  }

  // ----- from the answer of a login to the last moment of its token -----

  /** Whether the user is active after some requests: what the last `SetActive` said. */
  function ActiveAfter(rs: seq<Request>, user: UserId, before: bool): bool {
    if rs == [] then before
    else ActiveAfter(rs[1..], user, if rs[0].SetActive? && rs[0].user == user then rs[0].active else before)
  }

  function Elapsed(rs: seq<Request>): nat {
    if rs == [] then 0 else (if rs[0].Tick? then rs[0].ms else 0) + Elapsed(rs[1..])
  }

  lemma {:induction false} UsersAndClock(s: State, rs: seq<Request>, ttl: nat, user: UserId)
    ensures user !in Run(s, rs, ttl).inactiveUsers <==> ActiveAfter(rs, user, user !in s.inactiveUsers)
    ensures Run(s, rs, ttl).now == s.now + Elapsed(rs)
    decreases |rs|
  {
    if rs != [] {
      UsersAndClock(Next(s, rs[0], ttl), rs[1..], ttl, user);
    }
  }

  /** What each handler can answer, and a login exactly. */
  lemma AnswersExactly(s: State, r: Request, ttl: nat)
    ensures
      var answer := Serve(s, r, ttl).1;
      && (r.Login? ==> if r.user in s.inactiveUsers then answer == Unauthenticated && Next(s, r, ttl) == s
                       else answer == Issued(Token(r.user, |s.families|, s.nextJti, s.now / 1000 + ttl)))
      && (r.Refresh? && answer != Unauthenticated ==>
            answer == Issued(Token(r.token.sub, r.token.fam, s.nextJti, s.now / 1000 + ttl)))
      && (r.Logout? ==> answer == Acknowledged)
  {}

  /** No refresh of the family is accepted in a run. */
  predicate NoneAccepted(s: State, rs: seq<Request>, ttl: nat, fam: FamilyId)
    decreases |rs|
  {
    rs == [] ||
    (!(Accepts(s, rs[0], ttl) && rs[0].token.fam == fam) && NoneAccepted(Next(s, rs[0], ttl), rs[1..], ttl, fam))
  }

  lemma {:induction false} FamilyStays(s: State, rs: seq<Request>, ttl: nat, fam: FamilyId)
    requires fam < |s.families| && NoneAccepted(s, rs, ttl, fam)
    ensures fam < |Run(s, rs, ttl).families| && Run(s, rs, ttl).families[fam] == s.families[fam]
    decreases |rs|
  {
    if rs != [] {
      FamilyStays(Next(s, rs[0], ttl), rs[1..], ttl, fam);
    }
  }

  /** The newest token of a family, until it is used or the family ended, is accepted at
      exactly the times before it expires at which its user is active. */
  lemma TokenLasts(s: State, t: Token, rs: seq<Request>, ttl: nat)
    requires StoreOk(s) && t.fam in s.active
    requires s.families[t.fam].issued != [] && t == Newest(s.families[t.fam])
    requires NeverEnds(s, rs, ttl, t.fam) && NoneAccepted(s, rs, ttl, t.fam)
    ensures Accepts(Run(s, rs, ttl), Refresh(t), ttl)
       <==> (s.now + Elapsed(rs)) / 1000 < t.expiresAt && ActiveAfter(rs, t.sub, t.sub !in s.inactiveUsers)
  {
    NewestUntilExpiry(s, rs, ttl, t.fam);
    FamilyStays(s, rs, ttl, t.fam);
    UsersAndClock(s, rs, ttl, t.sub);
  }

  /** A login, at any moment of any run, is refused if and only if its user was deactivated
      last; otherwise it issues a token for that user in a fresh family, and if nobody uses the
      token or ends the family, the token is accepted at exactly the times less than `ttl`
      seconds later, by the clock in whole seconds, while its user is active. */
  lemma LoginExactly(now: int, rs: seq<Request>, user: UserId, later: seq<Request>, ttl: nat)
    ensures
      var s := Run(Initial(now), rs, ttl);
      var (s', answer) := Serve(s, Login(user), ttl);
      if !ActiveAfter(rs, user, true) then answer == Unauthenticated
      else
        && answer.Issued? && answer.token.sub == user && answer.token.fam == |s.families|
        && (NeverEnds(s', later, ttl, answer.token.fam) && NoneAccepted(s', later, ttl, answer.token.fam) ==>
              (Accepts(Run(s', later, ttl), Refresh(answer.token), ttl) <==>
                && (now + Elapsed(rs) + Elapsed(later)) / 1000 < (now + Elapsed(rs)) / 1000 + ttl
                && ActiveAfter(rs + later, user, true)))
  {
    var s := Run(Initial(now), rs, ttl);
    UsersAndClock(Initial(now), rs, ttl, user);
    RunKeepsStore(Initial(now), rs, ttl);
    StepKeepsStore(s, Login(user), ttl);
    AnswersExactly(s, Login(user), ttl);
    var (s', answer) := Serve(s, Login(user), ttl);
    if answer.Issued? && NeverEnds(s', later, ttl, answer.token.fam) && NoneAccepted(s', later, ttl, answer.token.fam) {
      TokenLasts(s', answer.token, later, ttl);
      ActiveAppends(rs, later, user, true);
    }
  }

  lemma {:induction false} ActiveAppends(rs: seq<Request>, later: seq<Request>, user: UserId, before: bool)
    ensures ActiveAfter(rs + later, user, before) == ActiveAfter(later, user, ActiveAfter(rs, user, before))
  {
    if rs == [] {
      assert rs + later == later;
    } else {
      assert (rs + later)[1..] == rs[1..] + later;
      ActiveAppends(rs[1..], later, user, if rs[0].SetActive? && rs[0].user == user then rs[0].active else before);
    }
  }

  /** So does the token that a refresh issues. */
  lemma RefreshedTokenLasts(s: State, t: Token, later: seq<Request>, ttl: nat)
    requires StoreOk(s) && Accepts(s, Refresh(t), ttl)
    ensures
      var (s', answer) := Serve(s, Refresh(t), ttl);
      && answer.token.sub == t.sub && answer.token.fam == t.fam
      && (NeverEnds(s', later, ttl, t.fam) && NoneAccepted(s', later, ttl, t.fam) ==>
            (Accepts(Run(s', later, ttl), Refresh(answer.token), ttl) <==>
              && (s.now + Elapsed(later)) / 1000 < s.now / 1000 + ttl
              && ActiveAfter(later, t.sub, true)))
  {
    AcceptedIsNewest(s, t, ttl);
    AcceptedExactly(s, t, ttl);
    StepKeepsStore(s, Refresh(t), ttl);
    AnswersExactly(s, Refresh(t), ttl);
    var (s', answer) := Serve(s, Refresh(t), ttl);
    if NeverEnds(s', later, ttl, t.fam) && NoneAccepted(s', later, ttl, t.fam) {
      TokenLasts(s', answer.token, later, ttl);
    }
  }
}
