/** What clients are told, over whole runs of the selling system. Every call in flight serves
    the request it was started for, every answer is true of the documents, every document has
    one client who was told about it, and every call ends. */
module Requests {
  import opened Common
  import opened Reservations
  import P = Purchase
  import O = OrderPipeline
  import opened Ledger
  import C = Conservation
  import A = Arbitration
  import L = Linearization

  // ----- every answer is true -----

  /** `a` answers a purchase of `qty` units of `pid`, made to reserve or to order them: the
      document exists and is for that product and quantity. */
  predicate AnswersPurchase(s: State, a: Answer, goal: Goal, pid: Pid, qty: nat) {
    match a
    case Declined(result) => !result.Ok?
    case Reserved(rid, _) =>
      goal == ToReserve && rid < |s.holds| && s.holds[rid].pid == pid && s.holds[rid].qty == qty
    case Ordered(oid, _) =>
      goal == ToOrder && oid < |s.orders| && s.orders[oid].pid == pid && s.orders[oid].qty == qty
    case _ => false
  }

  predicate ServesPurchase(s: State, p: Proc, goal: Goal, pid: Pid, qty: nat) {
    match p
    case Buying(g, x, call) => g == goal && x == pid && call.qty == qty
    case Recording(g, x, n, _) => g == goal && x == pid && n == qty
    case GivingBack(x, n) => goal == ToReserve && x == pid && n == qty
    case Answering(a) => AnswersPurchase(s, a, goal, pid, qty)
    case Finished(a) => a.Threw? || a.Died? || AnswersPurchase(s, a, goal, pid, qty)
    case _ => false
  }

  /** The hold has left `held`, or was due by the reading `hi`. */
  predicate TooLate(s: State, rid: Rid, hi: int) {
    rid < |s.holds| && (s.holds[rid].status != Held || s.holds[rid].expiresAt <= hi)
  }

  predicate InStatus(s: State, rid: Rid, status: HoldStatus) {
    rid < |s.holds| && s.holds[rid].status == status
  }

  predicate HasLeft(s: State, rid: Rid) {
    rid < |s.holds| && s.holds[rid].status != Held
  }

  /** `known`: the reservation existed when the request came in. */
  predicate AnswersConfirm(s: State, a: Answer, rid: Rid, known: bool, hi: int) {
    match a
    case SaidConfirmed(r) => r == rid && InStatus(s, rid, Confirmed)
    case SaidExpired(r) => r == rid && rid < |s.holds| && (known ==> TooLate(s, rid, hi))
    case NoSuchHold(r) => r == rid && !known
    case _ => false
  }

  predicate ServesConfirm(s: State, p: Proc, rid: Rid, known: bool, hi: int) {
    match p
    case Confirming(r) => r == rid
    case ConfirmingAt(r, now) => r == rid && now <= hi
    case ConfirmLookup(r) => r == rid && (known ==> TooLate(s, rid, hi))
    case Answering(a) => AnswersConfirm(s, a, rid, known, hi)
    case Finished(a) => a.Threw? || a.Died? || AnswersConfirm(s, a, rid, known, hi)
    case _ => false
  }

  predicate AnswersRelease(s: State, a: Answer, rid: Rid, known: bool) {
    match a
    case SaidReleased(r) => r == rid && InStatus(s, rid, Released)
    case NotHoldable(r) => r == rid && rid < |s.holds| && (known ==> HasLeft(s, rid))
    case NoSuchHold(r) => r == rid && !known
    case _ => false
  }

  predicate ServesRelease(s: State, p: Proc, rid: Rid, known: bool) {
    match p
    case Releasing(r) => r == rid
    case Refunding(r, _, _, after) => r == rid && after == ReportRelease && InStatus(s, rid, Released)
    case ReleaseLookup(r) => r == rid && (known ==> HasLeft(s, rid))
    case Answering(a) => AnswersRelease(s, a, rid, known)
    case Finished(a) => a.Threw? || a.Died? || AnswersRelease(s, a, rid, known)
    case _ => false
  }

  /** A sweep takes at most 100 holds. */
  predicate ServesSweep(s: State, p: Proc, hi: int) {
    match p
    case SweepStart => true
    case Sweeping(now, i) => now <= hi && i <= 100
    case Refunding(r, _, _, after) =>
      after.KeepSweeping? && after.now <= hi && after.i < 100 && InStatus(s, r, Expired)
    case Finished(a) => a.Threw? || a.Died? || (a.Reclaimed? && a.count <= 100)
    case _ => false
  }

  /** `p` is where the call that came in as `p0` may stand, given what the documents say. */
  predicate Serves(s: State, p: Proc, p0: Proc, known: bool, hi: int) {
    match p0
    case Buying(goal, pid, call) => ServesPurchase(s, p, goal, pid, call.qty)
    case Confirming(rid) => ServesConfirm(s, p, rid, known, hi)
    case Releasing(rid) => ServesRelease(s, p, rid, known)
    case SweepStart => ServesSweep(s, p, hi)
    case _ => false
  }

  /** The reservation a request names exists. */
  predicate Known(s: State, p0: Proc) {
    (p0.Confirming? || p0.Releasing?) && p0.rid < |s.holds|
  }

  /** Documents stay: their product and quantity, a hold's deadline and its final status. */
  predicate Remembers(s: State, s': State) {
    && |s.holds| <= |s'.holds| && |s.orders| <= |s'.orders|
    && (forall i: nat :: i < |s.holds| ==>
          s'.holds[i].pid == s.holds[i].pid && s'.holds[i].qty == s.holds[i].qty && A.Stable(s, s', i))
    && (forall i: nat :: i < |s.orders| ==> s'.orders[i].pid == s.orders[i].pid && s'.orders[i].qty == s.orders[i].qty)
  }

  lemma StepRemembers(s: State, e: Event)
    requires C.WellFormed(s) && Enabled(s, e)
    ensures Remembers(s, Next(s, e))
  {
    C.StepWellFormed(s, e);
    forall i: nat | i < |s.holds| ensures A.Stable(s, Next(s, e), i) {
      A.StepStable(s, e, i);
    }
    if !e.Spawn? && !e.Pipe? {
      WrittenRemembers(s, EffectOf(s, e).write);
    }
  }

  lemma WrittenRemembers(s: State, w: Write)
    ensures
      var s' := Written(s, w);
      && |s.orders| <= |s'.orders|
      && (forall i: nat :: i < |s.orders| ==> s'.orders[i] == s.orders[i])
  {}

  lemma ServesOn(s: State, s': State, p: Proc, p0: Proc, known: bool, hi: int)
    requires Remembers(s, s') && Serves(s, p, p0, known, hi)
    ensures Serves(s', p, p0, known, hi)
  {
    assert forall i: nat :: i < |s.holds| ==> A.Stable(s, s', i);
  }

  lemma ActServes(s: State, p: Proc, now: int, k: nat, p0: Proc, known: bool, hi: int)
    requires C.ProcOk(s, p) && CanAct(s, p, k) && !p.Finished? && now <= hi
    requires Serves(s, p, p0, known, hi) && (known ==> Known(s, p0))
    ensures
      var f := Act(s, p, now, k);
      Serves(Written(s, f.write), f.become, p0, known, hi)
  {}

  lemma FaultServes(s: State, e: Event, p0: Proc, known: bool, hi: int)
    requires Enabled(s, e) && (e.Throw? || e.Crash?) && Serves(s, s.procs[e.i], p0, known, hi)
    ensures
      var f := EffectOf(s, e);
      Serves(Written(s, f.write), f.become, p0, known, hi)
  {}

  lemma StepServes(s: State, e: Event, i: nat, p0: Proc, known: bool, hi: int)
    requires C.WellFormed(s) && Enabled(s, e) && i < |s.procs| && (e.Go? ==> e.now <= hi)
    requires Serves(s, s.procs[i], p0, known, hi) && (known ==> Known(s, p0))
    ensures i < |Next(s, e).procs| && Serves(Next(s, e), Next(s, e).procs[i], p0, known, hi)
    ensures known ==> Known(Next(s, e), p0)
  {
    StepRemembers(s, e);
    if e.Spawn? || e.Pipe? || e.i != i {
      ServesOn(s, Next(s, e), s.procs[i], p0, known, hi);
    } else if e.Go? && s.procs[i].Finished? {
      assert false;
    } else if e.Go? {
      ActServes(s, s.procs[i], e.now, e.k, p0, known, hi);
      SameDocuments(s, e, p0, known, hi);
    } else {
      FaultServes(s, e, p0, known, hi);
      SameDocuments(s, e, p0, known, hi);
    }
  }

  /** `Serves` looks at the documents, not at the other calls. */
  lemma SameDocuments(s: State, e: Event, p0: Proc, known: bool, hi: int)
    requires Enabled(s, e) && !e.Pipe? && !e.Spawn?
    ensures
      var f := EffectOf(s, e);
      Serves(Written(s, f.write), f.become, p0, known, hi) ==> Serves(Next(s, e), Next(s, e).procs[e.i], p0, known, hi)
  {}

  /** Every clock reading of a run is at most `hi`. */
  predicate ReadsBy(es: seq<Event>, hi: int) {
    forall e <- es :: e.Go? ==> e.now <= hi
  }

  lemma {:induction false} RunServes(s: State, es: seq<Event>, i: nat, p0: Proc, known: bool, hi: int)
    requires C.WellFormed(s) && Possible(s, es) && i < |s.procs| && ReadsBy(es, hi)
    requires Serves(s, s.procs[i], p0, known, hi) && (known ==> Known(s, p0))
    ensures i < |Run(s, es).procs| && Serves(Run(s, es), Run(s, es).procs[i], p0, known, hi)
    decreases |es|
  {
    if es != [] {
      assert es[0] in es;
      C.StepWellFormed(s, es[0]);
      StepServes(s, es[0], i, p0, known, hi);
      RunServes(Next(s, es[0]), es[1..], i, p0, known, hi);
    }
  }

  /** Every answer is true, over whole runs. A request that comes in at any moment, whatever
      else is going on, is served as what it is: a client told of a reservation or an order
      finds that document, made for its product and quantity; "confirmed" and "released" are
      said of holds in that state; "expired" and "not holdable" only of holds that left `held`
      or were due by the latest clock reading; "not found" only if the hold was not there when
      the request came in; and a sweep takes at most 100 holds. */
  lemma AnswersAreTrue(catalog: map<Pid, P.Product>, es: seq<Event>, p0: Proc, later: seq<Event>, hi: int)
    requires Possible(Initial(catalog), es) && Ledger.Fresh(p0)
    requires Possible(Next(Run(Initial(catalog), es), Event.Spawn(p0)), later) && ReadsBy(later, hi)
    ensures
      var s := Run(Initial(catalog), es);
      var end := Run(Next(s, Event.Spawn(p0)), later);
      |s.procs| < |end.procs| && Serves(end, end.procs[|s.procs|], p0, Known(s, p0), hi)
  {
    var s := Run(Initial(catalog), es);
    C.RunWellFormed(Initial(catalog), es);
    C.StepWellFormed(s, Event.Spawn(p0));
    RunServes(Next(s, Event.Spawn(p0)), later, |s.procs|, p0, Known(s, p0), hi);
  }

  /** A lookup tells a missing hold from one that can no longer be changed. */
  lemma LookupExactly(s: State, i: nat, now: int, k: nat)
    requires Enabled(s, Go(i, now, k)) && (s.procs[i].ConfirmLookup? || s.procs[i].ReleaseLookup?)
    ensures
      var rid, p := s.procs[i].rid, Next(s, Go(i, now, k)).procs[i];
      && (p == Finished(NoSuchHold(rid)) <==> rid >= |s.holds|)
      && (p == Finished(if s.procs[i].ConfirmLookup? then SaidExpired(rid) else NotHoldable(rid)) <==> rid < |s.holds|)
  {}

  /** A sweep ends when it has taken 100 holds or finds none overdue, and takes one otherwise. */
  lemma SweepEndsExactly(s: State, i: nat, now: int, k: nat)
    requires Enabled(s, Go(i, now, k)) && s.procs[i].Sweeping? && s.procs[i].i <= 100
    ensures
      var at, s' := s.procs[i].now, Next(s, Go(i, now, k));
      && (s'.procs[i].Finished?
          <==> || s.procs[i].i == 100
               || forall j: nat :: j < |s.holds| ==> !(s.holds[j].status == Held && s.holds[j].expiresAt <= at))
      && (!s'.procs[i].Finished? ==>
            && k < |s.holds| && s.holds[k].status == Held && s.holds[k].expiresAt <= at
            && s'.holds == s.holds[k := s.holds[k].(status := Expired)])
  {}

  // ----- errors have causes -----

  /** The call has thrown, or gives stock back because it did. */
  predicate HasThrown(p: Proc) {
    p.GivingBack? || Says(p, Answer.Threw)
  }

  predicate Says(p: Proc, a: Answer) {
    p == Answering(a) || p == Finished(a)
  }

  lemma StepSucceeds(s: State, e: Event, i: nat)
    requires Enabled(s, e) && i < |s.procs|
    ensures i < |Next(s, e).procs|
    ensures !HasThrown(s.procs[i]) && e != Event.Throw(i) ==> !HasThrown(Next(s, e).procs[i])
    ensures !Says(s.procs[i], Died) && e != Event.Crash(i) ==> !Says(Next(s, e).procs[i], Died)
  {
    if e.Go? && e.i == i && s.procs[i].Buying? {
      assert !HasThrown(EffectOf(s, e).become) && !Says(EffectOf(s, e).become, Died);
    }
  }

  /** A call answers with an error only if one of its own store calls threw, and dies only if
      its own process did. */
  lemma {:induction false} ErrorsHaveCauses(s: State, es: seq<Event>, i: nat)
    requires Possible(s, es) && i < |s.procs|
    ensures i < |Run(s, es).procs|
    ensures !HasThrown(s.procs[i]) && HasThrown(Run(s, es).procs[i]) ==> Event.Throw(i) in es
    ensures !Says(s.procs[i], Died) && Says(Run(s, es).procs[i], Died) ==> Event.Crash(i) in es
    decreases |es|
  {
    if es != [] {
      StepSucceeds(s, es[0], i);
      ErrorsHaveCauses(Next(s, es[0]), es[1..], i);
    }
  }

  // ----- the result of a purchase is that of the atomic counter -----

  /** The result of `purchase` that a call carries to its client. */
  function Carries(p: Proc): Option<P.Result> {
    match p
    case Recording(_, _, _, remaining) => Some(P.Ok(remaining))
    case Answering(a) => ResultIn(a)
    case Finished(a) => ResultIn(a)
    case _ => None
  }

  function ResultIn(a: Answer): Option<P.Result> {
    match a
    case Reserved(_, remaining) => Some(P.Ok(remaining))
    case Ordered(_, remaining) => Some(P.Ok(remaining))
    case Declined(result) => Some(result)
    case _ => None
  }

  lemma StepCarries(s: State, e: Event, i: nat)
    requires Enabled(s, e) && i < |s.procs|
    ensures
      var p, p' := s.procs[i], Next(s, e).procs[i];
      && (p'.Buying? ==> p.Buying? && p'.pid == p.pid && p'.call.qty == p.call.qty)
      && (Carries(p').Some? ==>
            || Carries(p) == Carries(p')
            || (p.Buying? && L.Completed(s, e, p.pid) == [P.Bought(p.call.qty, Carries(p').value)]))
  {}

  /** The result a client is told, remaining units included, is that of an operation in the
      sequential history of the product's atomic counter. */
  lemma {:induction false} ResultsAreLinear(s: State, es: seq<Event>, i: nat)
    requires Possible(s, es) && i < |s.procs| && s.procs[i].Buying?
    ensures i < |Run(s, es).procs|
    ensures
      var result := Carries(Run(s, es).procs[i]);
      result.Some? ==> P.Bought(s.procs[i].call.qty, result.value) in L.Trace(s, es, s.procs[i].pid)
    decreases |es|
  {
    if es != [] {
      var s' := Next(s, es[0]);
      StepCarries(s, es[0], i);
      if s'.procs[i].Buying? {
        ResultsAreLinear(s', es[1..], i);
      } else {
        CarriesOn(s', es[1..], i);
      }
    }
  }

  lemma {:induction false} CarriesOn(s: State, es: seq<Event>, i: nat)
    requires Possible(s, es) && i < |s.procs| && !s.procs[i].Buying?
    ensures i < |Run(s, es).procs|
    ensures Carries(Run(s, es).procs[i]).Some? ==> Carries(Run(s, es).procs[i]) == Carries(s.procs[i])
    decreases |es|
  {
    if es != [] {
      StepCarries(s, es[0], i);
      CarriesOn(Next(s, es[0]), es[1..], i);
    }
  }

  // ----- every document has its client -----

  function Told(p: Proc): Option<Answer> {
    match p
    case Answering(a) => Some(a)
    case Finished(a) => Some(a)
    case _ => None
  }

  /** 1 for a client told, or about to be told, of order `oid`, or of hold `rid`. */
  function ToldOrder(oid: Oid): Proc -> int {
    (p: Proc) => Bit(Told(p).Some? && Told(p).value.Ordered? && Told(p).value.oid == oid)
  }

  function ToldHold(rid: Rid): Proc -> int {
    (p: Proc) => Bit(Told(p).Some? && Told(p).value.Reserved? && Told(p).value.rid == rid)
  }

  /** 1 for a client told, or about to be told, of any order, or of any hold. */
  function ToldAnyOrder(): Proc -> int {
    (p: Proc) => Bit(Told(p).Some? && Told(p).value.Ordered?)
  }

  function ToldAnyHold(): Proc -> int {
    (p: Proc) => Bit(Told(p).Some? && Told(p).value.Reserved?)
  }

  /** A call's step tells of a document exactly if it creates it, or passes on what it knew. */
  lemma CallTells(s: State, e: Event, id: nat)
    requires Enabled(s, e) && !e.Pipe? && !e.Spawn?
    ensures
      var p, f := s.procs[e.i], EffectOf(s, e);
      var orders, holds := Written(s, f.write).orders, Written(s, f.write).holds;
      var quiet := e.Throw? || e.Crash?;
      && ToldOrder(id)(f.become) == (if quiet then 0 else ToldOrder(id)(p)) + Bit(id < |orders|) - Bit(id < |s.orders|)
      && ToldHold(id)(f.become) == (if quiet then 0 else ToldHold(id)(p)) + Bit(id < |holds|) - Bit(id < |s.holds|)
      && ToldAnyOrder()(f.become) == (if quiet then 0 else ToldAnyOrder()(p)) + |orders| - |s.orders|
      && ToldAnyHold()(f.become) == (if quiet then 0 else ToldAnyHold()(p)) + |holds| - |s.holds|
  {
    if e.Go? {
      ActTells(s, s.procs[e.i], e.now, e.k, id);
    }
  }

  lemma ActTells(s: State, p: Proc, now: int, k: nat, id: nat)
    requires CanAct(s, p, k) && !p.Finished?
    ensures
      var f := Act(s, p, now, k);
      var orders, holds := Written(s, f.write).orders, Written(s, f.write).holds;
      && ToldOrder(id)(f.become) == ToldOrder(id)(p) + Bit(id < |orders|) - Bit(id < |s.orders|)
      && ToldHold(id)(f.become) == ToldHold(id)(p) + Bit(id < |holds|) - Bit(id < |s.holds|)
      && ToldAnyOrder()(f.become) == ToldAnyOrder()(p) + |orders| - |s.orders|
      && ToldAnyHold()(f.become) == ToldAnyHold()(p) + |holds| - |s.holds|
  {}

  /** Sums of the clients told and of those silenced, against the documents. */
  ghost predicate Accounted(s: State, id: nat, order: int, hold: int, orders: int, holds: int) {
    && Sum(s.procs, ToldOrder(id)) + order == Bit(id < |s.orders|)
    && Sum(s.procs, ToldHold(id)) + hold == Bit(id < |s.holds|)
    && Sum(s.procs, ToldAnyOrder()) + orders == |s.orders|
    && Sum(s.procs, ToldAnyHold()) + holds == |s.holds|
  }

  lemma StepAccounted(s: State, e: Event, id: nat, order: int, hold: int, orders: int, holds: int)
    requires Accounted(s, id, order, hold, orders, holds) && Enabled(s, e)
    ensures Accounted(Next(s, e), id,
                      order + A.Silenced(s, e, ToldOrder(id)), hold + A.Silenced(s, e, ToldHold(id)),
                      orders + A.Silenced(s, e, ToldAnyOrder()), holds + A.Silenced(s, e, ToldAnyHold()))
  {
    if e.Spawn? {
      SumAppend(s.procs, e.p, ToldOrder(id));
      SumAppend(s.procs, e.p, ToldHold(id));
      SumAppend(s.procs, e.p, ToldAnyOrder());
      SumAppend(s.procs, e.p, ToldAnyHold());
    } else if !e.Pipe? {
      var f := EffectOf(s, e);
      CallTells(s, e, id);
      SumUpdate(s.procs, e.i, f.become, ToldOrder(id));
      SumUpdate(s.procs, e.i, f.become, ToldHold(id));
      SumUpdate(s.procs, e.i, f.become, ToldAnyOrder());
      SumUpdate(s.procs, e.i, f.become, ToldAnyHold());
      assert Written(s, f.write).orders == Next(s, e).orders && Written(s, f.write).holds == Next(s, e).holds;
    }
  }

  lemma {:induction false} RunAccounted(s: State, es: seq<Event>, id: nat,
                                        order: int, hold: int, orders: int, holds: int)
    requires Accounted(s, id, order, hold, orders, holds) && Possible(s, es)
    ensures Accounted(Run(s, es), id,
                      order + A.AllSilenced(s, es, ToldOrder(id)), hold + A.AllSilenced(s, es, ToldHold(id)),
                      orders + A.AllSilenced(s, es, ToldAnyOrder()), holds + A.AllSilenced(s, es, ToldAnyHold()))
    decreases |es|
  {
    if es != [] {
      var e := es[0];
      StepAccounted(s, e, id, order, hold, orders, holds);
      RunAccounted(Next(s, e), es[1..], id,
                   order + A.Silenced(s, e, ToldOrder(id)), hold + A.Silenced(s, e, ToldHold(id)),
                   orders + A.Silenced(s, e, ToldAnyOrder()), holds + A.Silenced(s, e, ToldAnyHold()));
    }
  }

  /** Every order and every reservation has one client. For each document, the clients who are
      told of it, and those whose process threw or died before they could be, are exactly one;
      nobody is told of a document that does not exist, and no two of the same one; all such
      answers and silenced answers together number exactly the documents. */
  lemma OneClientPerDocument(catalog: map<Pid, P.Product>, es: seq<Event>, id: nat)
    requires Possible(Initial(catalog), es)
    ensures
      var s0 := Initial(catalog);
      var end := Run(s0, es);
      && Sum(end.procs, ToldOrder(id)) + A.AllSilenced(s0, es, ToldOrder(id)) == Bit(id < |end.orders|)
      && Sum(end.procs, ToldHold(id)) + A.AllSilenced(s0, es, ToldHold(id)) == Bit(id < |end.holds|)
      && Sum(end.procs, ToldAnyOrder()) + A.AllSilenced(s0, es, ToldAnyOrder()) == |end.orders|
      && Sum(end.procs, ToldAnyHold()) + A.AllSilenced(s0, es, ToldAnyHold()) == |end.holds|
      && Sum(end.procs, ToldOrder(id)) <= Bit(id < |end.orders|)
      && Sum(end.procs, ToldHold(id)) <= Bit(id < |end.holds|)
  {
    var s0 := Initial(catalog);
    RunAccounted(s0, es, id, 0, 0, 0, 0);
    A.AllSilencedNonNegative(s0, es, ToldOrder(id));
    A.AllSilencedNonNegative(s0, es, ToldHold(id));
  }

  /** So an answer names a document that exists, and no two clients are told of the same. */
  lemma AnswersNameDocuments(catalog: map<Pid, P.Product>, es: seq<Event>, i: nat, j: nat)
    requires Possible(Initial(catalog), es)
    requires i < j < |Run(Initial(catalog), es).procs|
    ensures
      var end := Run(Initial(catalog), es);
      var a, b := Told(end.procs[i]), Told(end.procs[j]);
      && (a.Some? && a.value.Ordered? ==> a.value.oid < |end.orders|)
      && (a.Some? && a.value.Reserved? ==> a.value.rid < |end.holds|)
      && (a.Some? && b.Some? && a.value.Ordered? && b.value.Ordered? ==> a.value.oid != b.value.oid)
      && (a.Some? && b.Some? && a.value.Reserved? && b.value.Reserved? ==> a.value.rid != b.value.rid)
  {
    var end := Run(Initial(catalog), es);
    var a := Told(end.procs[i]);
    if a.Some? && (a.value.Ordered? || a.value.Reserved?) {
      var id := if a.value.Ordered? then a.value.oid else a.value.rid;
      OneClientPerDocument(catalog, es, id);
      SumAtLeastTwo(end.procs, i, j, ToldOrder(id));
      SumAtLeastTwo(end.procs, i, j, ToldHold(id));
    }
  }

  // ----- a new reservation lasts 90 seconds -----

  /** A hold made when the clock showed `now` is not swept while all clocks show less than
      `now + 90_000`, and not confirmed once all show at least that. */
  lemma HoldsLast(s: State, i: nat, now: int, k: nat, es: seq<Event>, lo: int, hi: int)
    requires C.WellFormed(s) && i < |s.procs| && s.procs[i].Recording? && s.procs[i].goal == ToReserve
    requires var s' := Next(s, Go(i, now, k)); Possible(s', es) && A.AllWithin(s', lo, hi)
    requires forall e <- es :: A.ReadsWithin(e, lo, hi)
    ensures
      var rid, end := |s.holds|, Run(Next(s, Go(i, now, k)), es);
      && rid < |end.holds| && end.holds[rid].pid == s.procs[i].pid && end.holds[rid].qty == s.procs[i].qty
      && (hi < now + 90_000 ==> end.holds[rid].status != Expired)
      && (lo >= now + 90_000 ==> end.holds[rid].status != HoldStatus.Confirmed)
  {
    var s' := Next(s, Go(i, now, k));
    C.StepWellFormed(s, Go(i, now, k));
    C.RunWellFormed(s', es);
    NewHoldLasts(s.procs[i].pid, s.procs[i].qty, now, now);
    A.DeadlinesHold(s', es, |s.holds|, lo, hi);
  }
}
