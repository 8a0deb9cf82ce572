/** The auth handlers in their own form: they replace and delete the family's active id in
    Redis. Each method is proved to be the step of `Sessions`. */
module SessionStore {
  import opened Sessions

  class Auth {
    const ttl: nat
    var now: int
    var active: map<FamilyId, Entry>
    var inactiveUsers: set<UserId>
    var families: seq<Family>
    var nextJti: Jti

    function Snapshot(): State
      reads this
    {
      State.State(now, active, inactiveUsers, families, nextJti)
    }

    constructor (ttl: nat, now: int)
      ensures this.ttl == ttl && Snapshot() == Initial(now)
    {
      this.ttl, this.now := ttl, now;
      active, inactiveUsers, families, nextJti := map[], {}, [], 0;
    }

    /** signRefresh and saveActiveJti. */
    method IssueToken(user: UserId, fam: FamilyId) returns (token: Token)
      modifies this`active, this`nextJti
      ensures token == Sign(old(Snapshot()), user, fam, ttl)
      ensures active == old(active)[fam := Entry(token.jti, now + 1000 * ttl)] && nextJti == old(nextJti) + 1
    {
      token := Token(user, fam, nextJti, now / 1000 + ttl);
      nextJti := nextJti + 1;
      active := active[fam := Entry(token.jti, now + 1000 * ttl)];
    }

    method RevokeFamily(fam: FamilyId)
      modifies this`active
      ensures active == old(active) - {fam}
    {
      active := active - {fam};
    }

    method Login(user: UserId) returns (answer: Answer)
      modifies this
      ensures (Snapshot(), answer) == Serve(old(Snapshot()), Request.Login(user), ttl)
      ensures answer == Unauthenticated <==> user in old(inactiveUsers)
      ensures answer.Issued? ==> answer.token.sub == user && answer.token.fam == |old(families)|
    {
      if user in inactiveUsers {
        return Unauthenticated;
      }
      var fam := |families|;
      var token := IssueToken(user, fam);
      families := families + [Family([token], [])];
      answer := Issued(token);
    }

    method Refresh(t: Token) returns (answer: Answer)
      modifies this
      ensures (Snapshot(), answer) == Serve(old(Snapshot()), Request.Refresh(t), ttl)
    {
      if !Verifies(Snapshot(), t) {
        return Unauthenticated;
      }
      if t.fam !in active || now >= active[t.fam].dropAt {
        return Unauthenticated;
      }
      if active[t.fam].jti != t.jti {
        RevokeFamily(t.fam);
        return Unauthenticated;
      }
      if t.sub in inactiveUsers {
        RevokeFamily(t.fam);
        return Unauthenticated;
      }
      var f := families[t.fam];
      var token := IssueToken(t.sub, t.fam);
      families := families[t.fam := Family(f.issued + [token], f.accepted + [t])];
      answer := Issued(token);
    }

    method Logout(t: Token) returns (answer: Answer)
      modifies this
      ensures (Snapshot(), answer) == Serve(old(Snapshot()), Request.Logout(t), ttl)
    {
      if Verifies(Snapshot(), t) {
        RevokeFamily(t.fam);
      }
      answer := Acknowledged;
    }
  }
}
