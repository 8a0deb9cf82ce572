/** Who wins a reservation: confirm, release, the API sweep and the worker sweep race on it,
    each reading its clock before its update lands. */
module Arbitration {
  import opened Common
  import opened Reservations
  import P = Purchase
  import opened Ledger
  import opened Conservation

  function StatusAt(holds: seq<Hold>, rid: Rid): HoldStatus {
    if rid < |holds| then holds[rid].status else Held
  }

  function PaidAt(holds: seq<Hold>, rid: Rid): nat {
    if rid < |holds| then holds[rid].paid else 0
  }

  function UnpaidAt(holds: seq<Hold>, rid: Rid): nat {
    if rid < |holds| then holds[rid].unpaid else 0
  }

  /** Statuses that give the stock back. */
  predicate Refundable(status: HoldStatus) { status == Expired || status == Released }

  /** 1 for a caller that flipped the hold and has not run its INCRBY. */
  function Owing(rid: Rid): Proc -> int {
    (p: Proc) => Bit(p.Refunding? && p.rid == rid)
  }

  /** 1 for a caller that told its client "confirmed", or is about to. */
  function Confirmer(rid: Rid): Proc -> int {
    (p: Proc) => Bit(p == Answering(SaidConfirmed(rid)) || p == Finished(SaidConfirmed(rid)))
  }

  /** 1 for a caller that told its client "released", or is about to. */
  function Releaser(rid: Rid): Proc -> int {
    (p: Proc) => Bit(p == Answering(SaidReleased(rid)) || p == Finished(SaidReleased(rid))
                     || (p.Refunding? && p.rid == rid && p.after == ReportRelease))
  }

  /** 1 for a release, or for a sweep, that flipped the hold and has not run its INCRBY. */
  function OwingRelease(rid: Rid): Proc -> int {
    (p: Proc) => Bit(p.Refunding? && p.rid == rid && p.after == ReportRelease)
  }

  function OwingSweep(rid: Rid): Proc -> int {
    (p: Proc) => Bit(p.Refunding? && p.rid == rid && p.after != ReportRelease)
  }

  /** Refunds of the hold, owed, executed and lost, make up its one refundable transition, and
      those who owe a refund stand behind the status they set. */
  ghost predicate RefundsSettled(procs: seq<Proc>, holds: seq<Hold>, rid: Rid) {
    var status := StatusAt(holds, rid);
    && Sum(procs, Owing(rid)) + PaidAt(holds, rid) + UnpaidAt(holds, rid) == Bit(Refundable(status))
    && Sum(procs, OwingRelease(rid)) <= Bit(status == Released)
    && Sum(procs, OwingSweep(rid)) <= Bit(status == Expired)
  }

  ghost predicate Arbitrated(s: State, rid: Rid) {
    RefundsSettled(s.procs, s.holds, rid)
  }

  /** What a write does to one hold. */
  predicate Flips(s: State, w: Write, rid: Rid, to: HoldStatus) {
    w == Flip(rid, to) && rid < |s.holds|
  }

  predicate Pays(s: State, w: Write, rid: Rid) {
    w.Credit? && w.paying == Some(rid) && rid < |s.holds|
  }

  predicate Loses(s: State, w: Write, rid: Rid) {
    w.Lose? && w.owing == Some(rid) && rid < |s.holds|
  }

  /** A caller's step is balanced for every hold. */
  predicate Fair(s: State, p: Proc, f: Effect, rid: Rid) {
    var b, w := f.become, f.write;
    && Owing(rid)(b) + Bit(Pays(s, w, rid)) + Bit(Loses(s, w, rid))
         == Owing(rid)(p) + Bit(Flips(s, w, rid, Expired)) + Bit(Flips(s, w, rid, Released))
    && OwingRelease(rid)(b) <= OwingRelease(rid)(p) + Bit(Flips(s, w, rid, Released))
    && OwingSweep(rid)(b) <= OwingSweep(rid)(p) + Bit(Flips(s, w, rid, Expired))
  }

  /** Only held holds are flipped, and new ones are held. */
  predicate Orderly(s: State, w: Write) {
    && (w.Flip? ==> w.rid < |s.holds| && s.holds[w.rid].status == Held && w.status != Held)
    && (w.InsertHold? ==> w.hold.status == Held && w.hold.paid == 0 && w.hold.unpaid == 0)
  }

  lemma ActFair(s: State, p: Proc, now: int, k: nat, rid: Rid)
    requires ProcOk(s, p) && CanAct(s, p, k)
    ensures Fair(s, p, Act(s, p, now, k), rid)
  {}

  lemma DieFair(s: State, p: Proc, answer: Answer, rid: Rid)
    requires ProcOk(s, p) && !p.Finished? && (answer == Ledger.Threw || answer == Died)
    ensures Fair(s, p, Die(p, answer), rid)
  {}

  lemma FailFair(s: State, p: Proc, rid: Rid)
    requires ProcOk(s, p) && !p.Finished?
    ensures Fair(s, p, Fail(p), rid)
  {
    if !(p.Recording? && p.goal == ToReserve) {
      DieFair(s, p, Ledger.Threw, rid);
    }
  }

  lemma EffectFair(s: State, e: Event, rid: Rid)
    requires WellFormed(s) && Enabled(s, e) && !e.Pipe? && !e.Spawn?
    ensures Fair(s, s.procs[e.i], EffectOf(s, e), rid)
  {
    if e.Go? {
      ActFair(s, s.procs[e.i], e.now, e.k, rid);
    } else if e.Throw? {
      FailFair(s, s.procs[e.i], rid);
    } else {
      DieFair(s, s.procs[e.i], Died, rid);
    }
  }

  lemma EffectOrderly(s: State, e: Event)
    requires Enabled(s, e) && !e.Pipe? && !e.Spawn?
    ensures Orderly(s, EffectOf(s, e).write)
  {}

  lemma WrittenArbitrates(s: State, w: Write, rid: Rid)
    requires WriteOk(s, w) && Orderly(s, w)
    ensures
      var holds, holds' := s.holds, Written(s, w).holds;
      && PaidAt(holds', rid) == PaidAt(holds, rid) + Bit(Pays(s, w, rid))
      && UnpaidAt(holds', rid) == UnpaidAt(holds, rid) + Bit(Loses(s, w, rid))
      && StatusAt(holds', rid) == (if w.Flip? && w.rid == rid then w.status else StatusAt(holds, rid))
  {}

  lemma RefundsApply(s: State, i: nat, f: Effect, rid: Rid)
    requires i < |s.procs| && RefundsSettled(s.procs, s.holds, rid)
    requires WriteOk(s, f.write) && Orderly(s, f.write) && Fair(s, s.procs[i], f, rid)
    ensures RefundsSettled(s.procs[i := f.become], Written(s, f.write).holds, rid)
  {
    WrittenArbitrates(s, f.write, rid);
    SumUpdate(s.procs, i, f.become, Owing(rid));
    SumUpdate(s.procs, i, f.become, OwingRelease(rid));
    SumUpdate(s.procs, i, f.become, OwingSweep(rid));
    SumNonNegative(s.procs, Owing(rid));
  }

  lemma CallArbitrates(s: State, e: Event, rid: Rid)
    requires WellFormed(s) && Arbitrated(s, rid) && Enabled(s, e) && !e.Pipe? && !e.Spawn?
    ensures Arbitrated(Next(s, e), rid)
  {
    EffectOk(s, e);
    EffectOrderly(s, e);
    EffectFair(s, e, rid);
    RefundsApply(s, e.i, EffectOf(s, e), rid);
  }

  lemma StepArbitrates(s: State, e: Event, rid: Rid)
    requires WellFormed(s) && Arbitrated(s, rid) && Enabled(s, e)
    ensures Arbitrated(Next(s, e), rid)
  {
    if e.Spawn? {
      SumAppend(s.procs, e.p, Owing(rid));
      SumAppend(s.procs, e.p, OwingRelease(rid));
      SumAppend(s.procs, e.p, OwingSweep(rid));
    } else if !e.Pipe? {
      CallArbitrates(s, e, rid);
    }
  }

  lemma {:induction false} RunArbitrates(s: State, es: seq<Event>, rid: Rid)
    requires WellFormed(s) && Arbitrated(s, rid) && Possible(s, es)
    ensures WellFormed(Run(s, es)) && Arbitrated(Run(s, es), rid)
    decreases |es|
  {
    if es != [] {
      StepWellFormed(s, es[0]);
      StepArbitrates(s, es[0], rid);
      RunArbitrates(Next(s, es[0]), es[1..], rid);
    }
  }

  /** A hold's deadline never moves and a hold that left `held` never changes again. */
  predicate Stable(s: State, s': State, rid: Rid) {
    rid < |s.holds| ==>
      && rid < |s'.holds|
      && s'.holds[rid].expiresAt == s.holds[rid].expiresAt
      && (s.holds[rid].status != Held ==> s'.holds[rid].status == s.holds[rid].status)
      && (s'.holds[rid].status == Held ==> s.holds[rid].status == Held)
  }

  lemma WrittenStable(s: State, w: Write, rid: Rid)
    requires Orderly(s, w)
    ensures Stable(s, Written(s, w), rid)
  {}

  lemma StepStable(s: State, e: Event, rid: Rid)
    requires WellFormed(s) && Enabled(s, e)
    ensures Stable(s, Next(s, e), rid)
  {
    if !e.Spawn? && !e.Pipe? {
      EffectOrderly(s, e);
      WrittenStable(s, EffectOf(s, e).write, rid);
    }
  }

  lemma {:induction false} RunStable(s: State, es: seq<Event>, rid: Rid)
    requires WellFormed(s) && Possible(s, es)
    ensures WellFormed(Run(s, es)) && Stable(s, Run(s, es), rid)
    decreases |es|
  {
    if es != [] {
      StepWellFormed(s, es[0]);
      StepStable(s, es[0], rid);
      RunStable(Next(s, es[0]), es[1..], rid);
    }
  }

  // ----- who reports what happened -----

  /** What a process that throws or dies takes with it. */
  ghost function Silenced(s: State, e: Event, w: Proc -> int): int
    requires Enabled(s, e)
  {
    if e.Throw? || e.Crash? then w(s.procs[e.i]) else 0
  }

  ghost function AllSilenced(s: State, es: seq<Event>, w: Proc -> int): int
    requires Possible(s, es)
    decreases |es|
  {
    if es == [] then 0 else Silenced(s, es[0], w) + AllSilenced(Next(s, es[0]), es[1..], w)
  }

  lemma {:induction false} AllSilencedNonNegative(s: State, es: seq<Event>, w: Proc -> int)
    requires Possible(s, es) && forall p :: w(p) >= 0
    ensures AllSilenced(s, es, w) >= 0
    decreases |es|
  {
    if es != [] {
      AllSilencedNonNegative(Next(s, es[0]), es[1..], w);
    }
  }

  /** Reports about one hold and those silenced make up its transition. */
  ghost predicate Reported(s: State, silenced: int, rid: Rid, w: Proc -> int, status: HoldStatus) {
    Sum(s.procs, w) + silenced == Bit(StatusAt(s.holds, rid) == status)
  }

  /** The count a sweep carries, or reported. */
  function Tally(): Proc -> int {
    (p: Proc) =>
      match p
      case Sweeping(_, i) => i
      case Refunding(_, _, _, KeepSweeping(_, i)) => i
      case Answering(Reclaimed(count)) => count
      case Finished(Reclaimed(count)) => count
      case _ => 0
  }

  /** Whoever flips a hold to confirmed or released reports it, and a sweep counts what it refunds. */
  predicate Reports(s: State, p: Proc, f: Effect, rid: Rid) {
    && Confirmer(rid)(f.become) == Confirmer(rid)(p) + Bit(Flips(s, f.write, rid, Confirmed))
    && Releaser(rid)(f.become) == Releaser(rid)(p) + Bit(Flips(s, f.write, rid, Released))
    && Tally()(f.become) == Tally()(p) + Bit(p.Refunding? && p.after != ReportRelease)
  }

  lemma ActReports(s: State, p: Proc, now: int, k: nat, rid: Rid)
    requires CanAct(s, p, k) && !p.Finished?
    ensures Reports(s, p, Act(s, p, now, k), rid)
  {}

  /** A process that threw or died reports nothing, and its last step flips and refunds nothing. */
  lemma SilentReports(s: State, e: Event, rid: Rid)
    requires Enabled(s, e) && (e.Throw? || e.Crash?)
    ensures
      var f := EffectOf(s, e);
      && Confirmer(rid)(f.become) == Releaser(rid)(f.become) == Tally()(f.become) == 0
      && !f.write.Flip? && !f.write.Credit?
  {}

  lemma ReportedStep(s: State, e: Event, rid: Rid, confirmed: int, released: int)
    requires WellFormed(s) && Enabled(s, e)
    requires Reported(s, confirmed, rid, Confirmer(rid), Confirmed)
    requires Reported(s, released, rid, Releaser(rid), Released)
    ensures Reported(Next(s, e), confirmed + Silenced(s, e, Confirmer(rid)), rid, Confirmer(rid), Confirmed)
    ensures Reported(Next(s, e), released + Silenced(s, e, Releaser(rid)), rid, Releaser(rid), Released)
  {
    if e.Spawn? {
      SumAppend(s.procs, e.p, Confirmer(rid));
      SumAppend(s.procs, e.p, Releaser(rid));
    } else if !e.Pipe? {
      CallReported(s, e, rid);
    }
  }

  lemma CallReported(s: State, e: Event, rid: Rid)
    requires WellFormed(s) && Enabled(s, e) && !e.Pipe? && !e.Spawn?
    ensures
      var s' := Next(s, e);
      && Sum(s'.procs, Confirmer(rid)) + Silenced(s, e, Confirmer(rid)) - Sum(s.procs, Confirmer(rid))
           == Bit(StatusAt(s'.holds, rid) == Confirmed) - Bit(StatusAt(s.holds, rid) == Confirmed)
      && Sum(s'.procs, Releaser(rid)) + Silenced(s, e, Releaser(rid)) - Sum(s.procs, Releaser(rid))
           == Bit(StatusAt(s'.holds, rid) == Released) - Bit(StatusAt(s.holds, rid) == Released)
  {
    var f := EffectOf(s, e);
    EffectOk(s, e);
    EffectOrderly(s, e);
    WrittenArbitrates(s, f.write, rid);
    SumUpdate(s.procs, e.i, f.become, Confirmer(rid));
    SumUpdate(s.procs, e.i, f.become, Releaser(rid));
    if e.Go? {
      ActReports(s, s.procs[e.i], e.now, e.k, rid);
    } else {
      SilentReports(s, e, rid);
    }
    assert Written(s, f.write).holds == Next(s, e).holds;
  }

  lemma {:induction false} RunReported(s: State, es: seq<Event>, rid: Rid, confirmed: int, released: int)
    requires WellFormed(s) && Possible(s, es)
    requires Reported(s, confirmed, rid, Confirmer(rid), Confirmed)
    requires Reported(s, released, rid, Releaser(rid), Released)
    ensures Reported(Run(s, es), confirmed + AllSilenced(s, es, Confirmer(rid)), rid, Confirmer(rid), Confirmed)
    ensures Reported(Run(s, es), released + AllSilenced(s, es, Releaser(rid)), rid, Releaser(rid), Released)
    decreases |es|
  {
    if es != [] {
      StepWellFormed(s, es[0]);
      ReportedStep(s, es[0], rid, confirmed, released);
      RunReported(Next(s, es[0]), es[1..], rid,
                  confirmed + Silenced(s, es[0], Confirmer(rid)), released + Silenced(s, es[0], Releaser(rid)));
    }
  }

  /** Holds a sweep has counted: swept ones that it refunded. */
  function Counted(): Hold -> int {
    (h: Hold) => Bit(h.status == Expired && h.paid > 0)
  }

  function TallyReported(): Proc -> int {
    (p: Proc) => if p.Finished? && p.answer.Reclaimed? then p.answer.count else 0
  }

  function TallyCarried(): Proc -> int {
    (p: Proc) => if p.Finished? then 0 else Tally()(p)
  }

  /** The hold that a step refunds, if any, has one owner of its refund. */
  lemma RefundFound(s: State, i: nat)
    requires WellFormed(s) && i < |s.procs| && s.procs[i].Refunding? && Arbitrated(s, s.procs[i].rid)
    ensures
      var h := s.holds[s.procs[i].rid];
      h.paid == 0 && h.status == if s.procs[i].after == ReportRelease then Released else Expired
  {
    var rid := s.procs[i].rid;
    SumAtLeast(s.procs, i, Owing(rid));
    SumAtLeast(s.procs, i, OwingRelease(rid));
    SumAtLeast(s.procs, i, OwingSweep(rid));
  }

  lemma HeldIsUnpaid(s: State, rid: Rid)
    requires Arbitrated(s, rid) && rid < |s.holds| && s.holds[rid].status == Held
    ensures s.holds[rid].paid == 0
  {
    SumNonNegative(s.procs, Owing(rid));
  }

  lemma CountedMoves(s: State, w: Write)
    requires WriteOk(s, w) && Orderly(s, w)
    requires w.Flip? ==> s.holds[w.rid].paid == 0
    requires w.Credit? && w.paying.Some? ==> w.paying.value < |s.holds| && s.holds[w.paying.value].paid == 0
    ensures Sum(Written(s, w).holds, Counted()) == Sum(s.holds, Counted())
         + Bit(w.Credit? && w.paying.Some? && s.holds[w.paying.value].status == Expired)
  {
    match w
    case InsertHold(hold) => SumAppend(s.holds, hold, Counted());
    case Flip(rid, status) => SumUpdate(s.holds, rid, s.holds[rid].(status := status), Counted());
    case Credit(_, _, Some(rid)) => SumUpdate(s.holds, rid, Settle(s.holds, Some(rid), true)[rid], Counted());
    case Lose(_, _, Some(rid)) =>
      if rid < |s.holds| {
        SumUpdate(s.holds, rid, Settle(s.holds, Some(rid), false)[rid], Counted());
      }
    case _ =>
  }

  lemma ActRefunds(s: State, p: Proc, now: int, k: nat)
    requires CanAct(s, p, k)
    ensures var w := Act(s, p, now, k).write;
      (p.Refunding? ==> w.Credit? && w.paying == Some(p.rid)) && (w.Credit? && w.paying.Some? ==> p.Refunding?)
  {}

  /** A call moves the number of counted holds exactly if it is a sweep's INCRBY. */
  lemma CallCounts(s: State, e: Event)
    requires WellFormed(s) && Enabled(s, e) && !e.Pipe? && !e.Spawn?
    requires forall rid :: Arbitrated(s, rid)
    ensures
      var p := s.procs[e.i];
      Sum(Next(s, e).holds, Counted()) - Sum(s.holds, Counted())
        == Bit(e.Go? && p.Refunding? && p.after != ReportRelease)
  {
    var f := EffectOf(s, e);
    EffectOk(s, e);
    EffectOrderly(s, e);
    if s.procs[e.i].Refunding? {
      RefundFound(s, e.i);
    }
    if f.write.Flip? {
      HeldIsUnpaid(s, f.write.rid);
    }
    if e.Go? {
      ActRefunds(s, s.procs[e.i], e.now, e.k);
    } else {
      SilentReports(s, e, 0);
    }
    CountedMoves(s, f.write);
    assert Written(s, f.write).holds == Next(s, e).holds;
  }

  lemma CallTallies(s: State, e: Event)
    requires WellFormed(s) && Enabled(s, e) && !e.Pipe? && !e.Spawn?
    requires forall rid :: Arbitrated(s, rid)
    ensures Sum(Next(s, e).procs, Tally()) + Silenced(s, e, Tally()) - Sum(s.procs, Tally())
         == Sum(Next(s, e).holds, Counted()) - Sum(s.holds, Counted())
  {
    var f := EffectOf(s, e);
    CallCounts(s, e);
    SumUpdate(s.procs, e.i, f.become, Tally());
    if e.Go? {
      ActReports(s, s.procs[e.i], e.now, e.k, 0);
    } else {
      SilentReports(s, e, 0);
    }
  }

  lemma {:induction false} RunTallies(s: State, es: seq<Event>)
    requires WellFormed(s) && Possible(s, es) && forall rid :: Arbitrated(s, rid)
    ensures Sum(Run(s, es).procs, Tally()) + AllSilenced(s, es, Tally()) - Sum(s.procs, Tally())
         == Sum(Run(s, es).holds, Counted()) - Sum(s.holds, Counted())
    decreases |es|
  {
    if es != [] {
      var e := es[0];
      StepWellFormed(s, e);
      forall rid ensures Arbitrated(Next(s, e), rid) {
        StepArbitrates(s, e, rid);
      }
      if e.Spawn? {
        SumAppend(s.procs, e.p, Tally());
      } else if !e.Pipe? {
        CallTallies(s, e);
      }
      RunTallies(Next(s, e), es[1..]);
    }
  }

  /** The sweeps' reports. The counts of all sweeps, of both sweepers, reported, carried or
      silenced, add up to the expired holds whose stock was given back. So the reports never
      exceed the number of these holds, and make it up once all calls are done, short of
      exactly the counts of sweeps that threw or died. */
  lemma SweepsReport(catalog: map<Pid, P.Product>, es: seq<Event>)
    requires Possible(Initial(catalog), es)
    ensures
      var end, silenced := Run(Initial(catalog), es), AllSilenced(Initial(catalog), es, Tally());
      && silenced >= 0
      && Sum(end.procs, TallyReported()) + Sum(end.procs, TallyCarried()) + silenced == Sum(end.holds, Counted())
      && Sum(end.procs, TallyReported()) <= Sum(end.holds, Counted())
      && ((forall p <- end.procs :: p.Finished?) ==>
            Sum(end.procs, TallyReported()) + silenced == Sum(end.holds, Counted()))
  {
    var s0 := Initial(catalog);
    var end := Run(s0, es);
    RunTallies(s0, es);
    AllSilencedNonNegative(s0, es, Tally());
    SumPlus(end.procs, Tally(), TallyReported(), TallyCarried());
    SumNonNegative(end.procs, TallyCarried());
    if forall p <- end.procs :: p.Finished? {
      SumOfConstant(end.procs, TallyCarried(), 0);
    }
  }

  /** The refunds of one hold, whoever owes, paid or lost them. */
  lemma RefundedOnce(s: State, rid: Rid)
    requires Arbitrated(s, rid) && rid < |s.holds|
    ensures
      var h := s.holds[rid];
      && h.paid + h.unpaid <= Bit(Refundable(h.status))
      && (Refundable(h.status) && h.unpaid == 0
          && (forall i :: 0 <= i < |s.procs| ==> !(s.procs[i].Refunding? && s.procs[i].rid == rid))
          ==> h.paid == 1)
  {
    SumNonNegative(s.procs, Owing(rid));
    if forall i :: 0 <= i < |s.procs| ==> !(s.procs[i].Refunding? && s.procs[i].rid == rid) {
      SumOfConstant(s.procs, Owing(rid), 0);
    }
  }

  /** Arbitration. However confirms, releases and both sweepers interleave, a hold makes at
      most one transition out of held. Callers who say "confirmed", and callers who threw or
      died before they could, make up a confirmed hold: nobody else says so, and exactly one
      does if its process survives; the same holds of "released". A confirmed hold is never
      refunded; stock is given back at most once, only for an expired or released hold, and
      exactly once if no refunder died and none is still on its way. */
  lemma OneWinner(catalog: map<Pid, P.Product>, es: seq<Event>, later: seq<Event>, rid: Rid)
    requires Possible(Initial(catalog), es) && Possible(Run(Initial(catalog), es), later)
    requires rid < |Run(Initial(catalog), es).holds|
    ensures
      var s0 := Initial(catalog);
      var s := Run(s0, es);
      var end := Run(s, later);
      && rid < |end.holds|
      && (s.holds[rid].status != Held ==> end.holds[rid].status == s.holds[rid].status)
      && var h := end.holds[rid];
         && Sum(end.procs, Confirmer(rid)) <= Bit(h.status == Confirmed)
         && Sum(end.procs, Confirmer(rid)) + AllSilenced(s0, es, Confirmer(rid))
              + AllSilenced(s, later, Confirmer(rid)) == Bit(h.status == Confirmed)
         && Sum(end.procs, Releaser(rid)) <= Bit(h.status == Released)
         && Sum(end.procs, Releaser(rid)) + AllSilenced(s0, es, Releaser(rid))
              + AllSilenced(s, later, Releaser(rid)) == Bit(h.status == Released)
         && h.paid + h.unpaid <= Bit(Refundable(h.status))
         && (Refundable(h.status) && h.unpaid == 0
             && (forall i :: 0 <= i < |end.procs| ==> !(end.procs[i].Refunding? && end.procs[i].rid == rid))
             ==> h.paid == 1)
  {
    var s0 := Initial(catalog);
    var s := Run(s0, es);
    var end := Run(s, later);
    RunArbitrates(s0, es, rid);
    RunArbitrates(s, later, rid);
    RunStable(s, later, rid);
    RefundedOnce(end, rid);
    RunReported(s0, es, rid, 0, 0);
    RunReported(s, later, rid, AllSilenced(s0, es, Confirmer(rid)), AllSilenced(s0, es, Releaser(rid)));
    AllSilencedNonNegative(s0, es, Confirmer(rid));
    AllSilencedNonNegative(s0, es, Releaser(rid));
    AllSilencedNonNegative(s, later, Confirmer(rid));
    AllSilencedNonNegative(s, later, Releaser(rid));
  }

  // ----- deadlines: what the clocks decide -----

  /** Every clock reading that a call in flight still carries lies in the interval. */
  predicate CarriesWithin(p: Proc, lo: int, hi: int) {
    match p
    case ConfirmingAt(_, now) => lo <= now <= hi
    case Sweeping(now, _) => lo <= now <= hi
    case Refunding(_, _, _, KeepSweeping(now, _)) => lo <= now <= hi
    case _ => true
  }

  predicate ReadsWithin(e: Event, lo: int, hi: int) {
    (e.Go? ==> lo <= e.now <= hi) && (e.Spawn? ==> CarriesWithin(e.p, lo, hi))
  }

  predicate AllWithin(s: State, lo: int, hi: int) {
    forall i :: 0 <= i < |s.procs| ==> CarriesWithin(s.procs[i], lo, hi)
  }

  /** A hold that was held in `s` has expired only if some clock reached its deadline, and
      was confirmed only if some clock had not. */
  predicate Timely(s: State, s': State, rid: Rid, lo: int, hi: int) {
    rid < |s.holds| && rid < |s'.holds| && s.holds[rid].status == Held ==>
      && (s'.holds[rid].status == Expired ==> s.holds[rid].expiresAt <= hi)
      && (s'.holds[rid].status == Confirmed ==> s.holds[rid].expiresAt > lo)
  }

  lemma EffectTimely(s: State, e: Event, lo: int, hi: int)
    requires Enabled(s, e) && !e.Pipe? && !e.Spawn?
    requires CarriesWithin(s.procs[e.i], lo, hi) && ReadsWithin(e, lo, hi)
    ensures
      var f := EffectOf(s, e);
      && CarriesWithin(f.become, lo, hi)
      && (f.write.Flip? && f.write.rid < |s.holds| ==>
            && (f.write.status == Expired ==> s.holds[f.write.rid].expiresAt <= hi)
            && (f.write.status == Confirmed ==> s.holds[f.write.rid].expiresAt > lo))
  {}

  lemma WrittenTimely(s: State, w: Write, rid: Rid, lo: int, hi: int)
    requires w.Flip? && w.rid < |s.holds| ==>
      && (w.status == Expired ==> s.holds[w.rid].expiresAt <= hi)
      && (w.status == Confirmed ==> s.holds[w.rid].expiresAt > lo)
    ensures Timely(s, Written(s, w), rid, lo, hi) && Written(s, w).procs == s.procs
  {}

  lemma StepTimely(s: State, e: Event, rid: Rid, lo: int, hi: int)
    requires Enabled(s, e) && AllWithin(s, lo, hi) && ReadsWithin(e, lo, hi)
    ensures AllWithin(Next(s, e), lo, hi) && Timely(s, Next(s, e), rid, lo, hi)
  {
    if !e.Pipe? && !e.Spawn? {
      EffectTimely(s, e, lo, hi);
      WrittenTimely(s, EffectOf(s, e).write, rid, lo, hi);
    }
  }

  /** If every clock reading of a run lies between `lo` and `hi`, no hold whose deadline is
      after `hi` is swept and no hold whose deadline is at or before `lo` is confirmed. */
  lemma {:induction false} DeadlinesHold(s: State, es: seq<Event>, rid: Rid, lo: int, hi: int)
    requires WellFormed(s) && Possible(s, es)
    requires AllWithin(s, lo, hi) && forall e <- es :: ReadsWithin(e, lo, hi)
    requires rid < |s.holds| && s.holds[rid].status == Held
    ensures
      var end := Run(s, es);
      && rid < |end.holds|
      && (end.holds[rid].status == Expired ==> s.holds[rid].expiresAt <= hi)
      && (end.holds[rid].status == Confirmed ==> s.holds[rid].expiresAt > lo)
    decreases |es|
  {
    if es != [] {
      var s' := Next(s, es[0]);
      assert es[0] in es;
      StepWellFormed(s, es[0]);
      StepStable(s, es[0], rid);
      StepTimely(s, es[0], rid, lo, hi);
      if s'.holds[rid].status == Held {
        DeadlinesHold(s', es[1..], rid, lo, hi);
      } else {
        RunStable(s', es[1..], rid);
      }
    }
  }
}
