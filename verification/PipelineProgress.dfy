/** Progress of the order pipeline: every run ends, and where it can end. */
module PipelineProgress {
  import opened Common
  import opened OrderPipeline

  // ----- every run ends -----

  /** What is left of an activity, larger than everything it can still spawn. */
  function Remaining(a: Activity): nat {
    match a
    case Idle => 0
    case Producer => 22
    case Refunder(Claim) => 2
    case Refunder(Pay) => 1
    case Attempt(stage, pc) => Base(stage) + PcRank(pc)
  }

  function Base(stage: Stage): nat {
    match stage case Process => 14 case Fulfill => 7 case Notify => 0
  }

  function PcRank(pc: Pc): nat {
    match pc case Start => 6 case Save(_) => 5 case Work => 4 case Cas => 3 case Publish => 2 case Hand => 1
  }

  function Weight(): Activity -> int { (a: Activity) => Remaining(a) }

  function Backlog(waiting: Tally): nat {
    21 * waiting.process + 14 * waiting.fulfill + 7 * waiting.notify
  }

  ghost function Load(o: Order): int {
    Sum(o.active, Weight()) + Backlog(o.waiting)
  }

  function Left(failures: nat): nat {
    if failures < JOB_ATTEMPTS then JOB_ATTEMPTS - failures else 0
  }

  function AttemptsLeft(o: Order): nat {
    Left(o.failures.process) + Left(o.failures.fulfill) + Left(o.failures.notify)
  }

  /** (redeliveries left, attempts left, load), lexicographically. */
  ghost predicate Less(o': Order, o: Order) {
    || o'.spare < o.spare
    || (o'.spare == o.spare && AttemptsLeft(o') < AttemptsLeft(o))
    || (o'.spare == o.spare && AttemptsLeft(o') == AttemptsLeft(o) && 0 <= Load(o') < Load(o))
  }

  /** The part of the measure that a single activity and its write decide. */
  lemma EffectDecreases(o: Order, e: Event)
    requires Enabled(o, e)
    ensures
      var a, f := At(o.active, Slot(o, e)), EffectOf(o, e);
      var o' := Written(o, f.write);
      || o'.spare < o.spare
      || (o'.spare == o.spare && AttemptsLeft(o') < AttemptsLeft(o))
      || (o'.spare == o.spare && AttemptsLeft(o') == AttemptsLeft(o)
          && Remaining(f.become) + Backlog(o'.waiting) < Remaining(a) + Backlog(o.waiting))
  {
  }

  /** Every step, faults included, decreases the measure: with finitely many redeliveries
      no run is infinite. */
  lemma StepDecreases(o: Order, e: Event)
    requires Enabled(o, e)
    ensures Less(Step(o, e), o)
  {
    EffectDecreases(o, e);
    var f := EffectOf(o, e);
    PutSum(o.active, Slot(o, e), f.become, Weight());
    SumNonNegative(Step(o, e).active, Weight());
  }

  /** The first `n` events of an endless schedule. */
  function Prefix(schedule: nat -> Event, n: nat): seq<Event> {
    seq(n, i requires 0 <= i < n => schedule(i))
  }

  /** No scheduler, however unfair or faulty, runs an order for ever. */
  lemma {:induction false} EveryRunEnds(o: Order, schedule: nat -> Event)
    ensures exists n: nat :: !Possible(o, Prefix(schedule, n))
    decreases o.spare, AttemptsLeft(o), Load(o)
  {
    var e := schedule(0);
    if !Enabled(o, e) {
      assert Prefix(schedule, 1)[0] == e;
      assert !Possible(o, Prefix(schedule, 1));
    } else {
      StepDecreases(o, e);
      SumNonNegative(o.active, Weight());
      var rest := (i: nat) => schedule(i + 1);
      EveryRunEnds(Step(o, e), rest);
      var n: nat :| !Possible(Step(o, e), Prefix(rest, n));
      assert Prefix(schedule, n + 1)[1..] == Prefix(rest, n);
      assert !Possible(o, Prefix(schedule, n + 1));
    }
  }

  // ----- where a run can end -----

  /** Deliveries that wait for `stage`; for the process stage also the compensations that
      are known to have died. */
  function Kept(o: Order, stage: Stage): nat {
    o.waiting.At(stage) + (if stage == Process then o.lapses.unclaimed else 0)
  }

  /** 1 for an activity that can still move an order past `stage` or fail it there. */
  function Driver(stage: Stage): Activity -> int {
    (a: Activity) => Bit((a.Attempt? && a.stage == stage && !a.pc.Publish? && !a.pc.Hand?)
                         || (stage == Process && a == Refunder(Claim)))
  }

  /** Somebody can still move an order that stands at the source status of `stage`, or the
      stage has run out of attempts, or the compensation has died. */
  ghost predicate Driven(o: Order, stage: Stage) {
    || Kept(o, stage) + Sum(o.active, Driver(stage)) > 0
    || (stage != Process && o.failures.At(stage) >= JOB_ATTEMPTS)
  }

  /** An order whose stage has its job is driven; and an order gets past a stage only through
      that stage's job. */
  ghost predicate ProgressInv(o: Order) {
    && Inv(o)
    && (forall stage: Stage :: o.status == Source(stage) && o.enqueued.At(stage) > 0 ==> Driven(o, stage))
    && (ReachedPaid(o) || o.status == Failed ==> o.enqueued.process > 0)
    && (forall i :: 0 <= i < |o.active| && o.active[i].Refunder? ==> o.enqueued.process > 0)
    && (ReachedFulfilled(o) ==> o.enqueued.fulfill > 0)
    && (o.status == Confirmed ==> o.enqueued.notify > 0)
  }

  /** A step that leaves the status alone passes the drive on: to the activity's next state,
      to a queue, or to the record of what died. */
  predicate PassesOn(o: Order, a: Activity, f: Effect, stage: Stage)
    requires Applicable(o, f.write)
  {
    var o' := Written(o, f.write);
    || Driver(stage)(f.become) + Kept(o', stage) >= Driver(stage)(a) + Kept(o, stage)
    || Driver(stage)(f.become) + Kept(o', stage) > 0
    || (stage != Process && o'.failures.At(stage) >= JOB_ATTEMPTS)
  }

  lemma EffectPassesOn(o: Order, e: Event, stage: Stage)
    requires Enabled(o, e) && o.status == Source(stage)
    requires Applicable(o, EffectOf(o, e).write) && !EffectOf(o, e).write.MoveTo?
    ensures PassesOn(o, At(o.active, Slot(o, e)), EffectOf(o, e), stage)
    ensures o.failures.At(stage) <= Written(o, EffectOf(o, e).write).failures.At(stage)
  {}

  lemma PutAtLeast(active: seq<Activity>, slot: nat, a: Activity, w: Activity -> int)
    requires slot <= |active| && w(Idle) == 0 && forall x :: w(x) >= 0
    ensures Sum(Put(active, slot, a), w) >= w(a)
  {
    PutSum(active, slot, a, w);
    PutSum(active, slot, Idle, w);
    SumNonNegative(Put(active, slot, Idle), w);
  }

  lemma StaysDriven(o: Order, slot: nat, f: Effect, stage: Stage)
    requires slot <= |o.active| && Applicable(o, f.write) && Driven(o, stage)
    requires PassesOn(o, At(o.active, slot), f, stage)
    requires o.failures.At(stage) <= Written(o, f.write).failures.At(stage)
    ensures Driven(Apply(o, slot, f), stage)
  {
    PutSum(o.active, slot, f.become, Driver(stage));
    PutAtLeast(o.active, slot, f.become, Driver(stage));
  }

  /** Fresh jobs come with a waiting delivery; a move comes from a run of the stage before. */
  lemma EffectOrigins(o: Order, e: Event)
    requires Enabled(o, e) && SupportOk(o)
    requires forall i :: 0 <= i < |o.active| && o.active[i].Refunder? ==> o.enqueued.process > 0
    requires Applicable(o, EffectOf(o, e).write)
    ensures
      var w := EffectOf(o, e).write;
      && (w == MoveTo(Failed) || EffectOf(o, e).become.Refunder? ==> o.enqueued.process > 0)
      && (w.Enqueue? ==> Written(o, w).waiting.At(w.stage) > 0)
      && (w == MoveTo(Paid) ==> o.enqueued.process > 0)
      && (w == MoveTo(Fulfilled) ==> o.enqueued.fulfill > 0)
      && (w == MoveTo(Confirmed) ==> o.enqueued.notify > 0)
  {}

  /** Right after a winning compare-and-set the next stage has no job yet. */
  lemma FreshlyMoved(o: Order, e: Event, stage: Stage)
    requires Inv(o) && Enabled(o, e) && EffectOf(o, e).write.MoveTo?
    requires Step(o, e).status == Source(stage)
    ensures Step(o, e).enqueued.At(stage) == 0
  {
    var f, slot, before := EffectOf(o, e), Slot(o, e), if stage == Fulfill then Process else Fulfill;
    StepKeepsInv(o, e);
    EffectSupported(o, e);
    assert Owes(before)(f.become) == 1;
    PutAtLeast(o.active, slot, f.become, Owes(before));
  }

  lemma DrivenStay(o: Order, e: Event, stage: Stage)
    requires ProgressInv(o) && Enabled(o, e) && o.status == Source(stage) && o.enqueued.At(stage) > 0
    requires Applicable(o, EffectOf(o, e).write) && !EffectOf(o, e).write.MoveTo?
    ensures Driven(Apply(o, Slot(o, e), EffectOf(o, e)), stage)
  {
    EffectPassesOn(o, e, stage);
    StaysDriven(o, Slot(o, e), EffectOf(o, e), stage);
  }

  lemma DrivenStep(o: Order, e: Event, stage: Stage)
    requires ProgressInv(o) && Enabled(o, e)
    requires var o' := Step(o, e); o'.status == Source(stage) && o'.enqueued.At(stage) > 0
    ensures Driven(Step(o, e), stage)
  {
    var w := EffectOf(o, e).write;
    EffectSupported(o, e);
    WrittenCounts(o, w);
    if w.MoveTo? {
      FreshlyMoved(o, e, stage);
    } else if w == Enqueue(stage) {
      EffectOrigins(o, e);
      SumNonNegative(Step(o, e).active, Driver(stage));
    } else {
      WrittenKeepsStatus(o, w);
      DrivenStay(o, e, stage);
    }
  }

  lemma WrittenKeepsStatus(o: Order, w: Write)
    requires Applicable(o, w) && !w.MoveTo?
    ensures Written(o, w).status == o.status
  {}

  lemma ReachedStep(o: Order, e: Event)
    requires ProgressInv(o) && Enabled(o, e)
    ensures
      var o' := Step(o, e);
      && (ReachedPaid(o') || o'.status == Failed ==> o'.enqueued.process > 0)
      && (forall i :: 0 <= i < |o'.active| && o'.active[i].Refunder? ==> o'.enqueued.process > 0)
      && (ReachedFulfilled(o') ==> o'.enqueued.fulfill > 0)
      && (o'.status == Confirmed ==> o'.enqueued.notify > 0)
  {
    EffectSupported(o, e);
    EffectOrigins(o, e);
    WrittenCounts(o, EffectOf(o, e).write);
  }

  lemma ProgressStep(o: Order, e: Event)
    requires ProgressInv(o) && Enabled(o, e)
    ensures ProgressInv(Step(o, e))
  {
    StepKeepsInv(o, e);
    ReachedStep(o, e);
    var o' := Step(o, e);
    forall stage: Stage | o'.status == Source(stage) && o'.enqueued.At(stage) > 0 ensures Driven(o', stage) {
      DrivenStep(o, e, stage);
    }
  }

  lemma {:induction false} ProgressRun(o: Order, es: seq<Event>)
    requires ProgressInv(o) && Possible(o, es)
    ensures ProgressInv(Run(o, es))
    decreases |es|
  {
    if es != [] {
      ProgressStep(o, es[0]);
      ProgressRun(Step(o, es[0]), es[1..]);
    }
  }

  /** Nothing waits and nothing runs: only a spurious redelivery could still happen. */
  predicate Quiescent(o: Order) {
    o.waiting == ZERO && forall i :: 0 <= i < |o.active| ==> o.active[i] == Idle
  }

  /** The order ended well: confirmed, or failed with its stock given back. */
  predicate Settled(o: Order) {
    o.status == Confirmed || (o.status == Failed && o.refunds == 1)
  }

  /** Something died between a compare-and-set (or the creation of the order) and the call
      that had to follow it. */
  predicate Fatal(o: Order) {
    o.lapses.orphaned > 0 || o.lapses.dropped.process > 0 || o.lapses.dropped.fulfill > 0 || o.lapses.unpaid > 0
  }

  /** The stage the order stands at has used up its attempts, or its compensation died. */
  predicate Exhausted(o: Order) {
    match o.status
    case Pending => o.lapses.unclaimed > 0
    case Paid => o.failures.fulfill >= JOB_ATTEMPTS
    case Fulfilled => o.failures.notify >= JOB_ATTEMPTS
    case _ => false
  }

  /** Where a run that has come to rest can stand: settled, unless a call after a
      compare-and-set died or the attempts of the current stage are used up. */
  lemma QuiescentDiagnosis(spare: nat, es: seq<Event>)
    requires Possible(Created(spare), es) && Quiescent(Run(Created(spare), es))
    ensures
      var o := Run(Created(spare), es);
      Settled(o) <==> !Fatal(o) && !Exhausted(o)
  {
    var o := Run(Created(spare), es);
    CreatedInv(spare);
    ProgressRun(Created(spare), es);
    QuiescentSums(o);
  }

  lemma QuiescentSums(o: Order)
    requires ProgressInv(o) && Quiescent(o)
    ensures Settled(o) <==> !Fatal(o) && !Exhausted(o)
  {
    SumOfConstant(o.active, Producing(), 0);
    SumOfConstant(o.active, Paying(), 0);
    SumOfConstant(o.active, Owes(Process), 0);
    SumOfConstant(o.active, Owes(Fulfill), 0);
    forall stage: Stage ensures Sum(o.active, Driver(stage)) == 0 {
      SumOfConstant(o.active, Driver(stage), 0);
    }
    match o.status
    case Pending => assert o.enqueued.At(Process) > 0 ==> Driven(o, Process);
    case Paid => assert o.enqueued.At(Fulfill) > 0 ==> Driven(o, Fulfill);
    case Fulfilled => assert o.enqueued.At(Notify) > 0 ==> Driven(o, Notify);
    case _ =>
  }

  lemma LapsesGrow(o: Order, e: Event)
    requires Enabled(o, e)
    ensures Fatal(o) ==> Fatal(Step(o, e))
  {}

  lemma {:induction false} FatalGrows(o: Order, es: seq<Event>)
    requires Possible(o, es) && Fatal(o)
    ensures Fatal(Run(o, es))
    decreases |es|
  {
    if es != [] {
      LapsesGrow(o, es[0]);
      FatalGrows(Step(o, es[0]), es[1..]);
    }
  }

  lemma FatalIsNotSettled(o: Order)
    requires ProgressInv(o) && Fatal(o)
    ensures !Settled(o)
  {
    BitsAreNatural(o.active);
  }

  /** A death after a compare-and-set is never repaired: from then on no continuation, however
      many redeliveries it makes, settles the order. */
  lemma FatalForEver(spare: nat, es: seq<Event>, later: seq<Event>)
    requires Possible(Created(spare), es) && Fatal(Run(Created(spare), es))
    requires Possible(Run(Created(spare), es), later)
    ensures !Settled(Run(Run(Created(spare), es), later))
  {
    var o := Run(Created(spare), es);
    CreatedInv(spare);
    ProgressRun(Created(spare), es);
    ProgressRun(o, later);
    FatalGrows(o, later);
    FatalIsNotSettled(Run(o, later));
  }

  /** The only calls whose death is fatal: the first enqueue, the calls between a winning
      compare-and-set and the next enqueue, and the INCRBY of a claimed refund. */
  predicate Critical(a: Activity) {
    a == Producer || Owing(a) || a == Refunder(Pay)
  }

  /** An event makes an order fatal exactly when it throws from, or crashes, a critical call. */
  lemma FatalExactly(o: Order, e: Event)
    requires Enabled(o, e) && !Fatal(o)
    ensures Fatal(Step(o, e)) <==> ((e.Throw? || e.Crash?) && Critical(o.active[e.i]))
  {
    WrittenCounts(o, EffectOf(o, e).write);
  }

  /** Work in hand can always take a step without a fault. */
  lemma GoodStep(o: Order) returns (e: Event)
    requires !Quiescent(o)
    ensures Enabled(o, e)
    ensures Step(o, e).lapses == o.lapses && Step(o, e).failures == o.failures
  {
    if o.waiting != ZERO {
      var stage: Stage :| o.waiting.At(stage) > 0;
      e := Deliver(stage);
    } else {
      var i :| 0 <= i < |o.active| && o.active[i] != Idle;
      e := Advance(i);
    }
  }

  /** From any state the work in hand can be brought to rest without a fault. */
  lemma {:induction false} CanFinish(o: Order) returns (es: seq<Event>)
    ensures Possible(o, es) && Quiescent(Run(o, es))
    ensures Run(o, es).lapses == o.lapses && Run(o, es).failures == o.failures
    decreases o.spare, AttemptsLeft(o), Load(o)
  {
    if Quiescent(o) {
      es := [];
    } else {
      var e := GoodStep(o);
      StepDecreases(o, e);
      SumNonNegative(o.active, Weight());
      var o' := Step(o, e);
      var rest := CanFinish(o');
      es := [e] + rest;
      assert es[1..] == rest;
    }
  }

  /** An order that has met no fatal death and has attempts left can always still settle. */
  lemma CanSettle(spare: nat, es: seq<Event>) returns (later: seq<Event>)
    requires Possible(Created(spare), es)
    requires
      var o := Run(Created(spare), es);
      !Fatal(o) && o.lapses.unclaimed == 0
      && o.failures.fulfill < JOB_ATTEMPTS && o.failures.notify < JOB_ATTEMPTS
    ensures
      var o := Run(Created(spare), es);
      Possible(o, later) && Settled(Run(o, later))
  {
    var o := Run(Created(spare), es);
    later := CanFinish(o);
    CreatedInv(spare);
    ProgressRun(Created(spare), es);
    ProgressRun(o, later);
    QuiescentSums(Run(o, later));
  }

  lemma {:induction false} RunSnoc(o: Order, es: seq<Event>, e: Event)
    requires Possible(o, es) && Enabled(Run(o, es), e)
    ensures Possible(o, es + [e]) && Run(o, es + [e]) == Step(Run(o, es), e)
    decreases |es|
  {
    if es == [] {
      assert ([] + [e])[1..] == [];
    } else {
      RunSnoc(Step(o, es[0]), es[1..], e);
      assert (es + [e])[1..] == es[1..] + [e];
    }
  }

  /** The first handler run of a fresh order, up to its winning compare-and-set. */
  lemma FirstPayment(spare: nat) returns (es: seq<Event>)
    ensures Possible(Created(spare), es)
    ensures
      var o := Run(Created(spare), es);
      o.status == Paid && o.active == [Idle, Attempt(Process, Publish)] && o.waiting == ZERO
  {
    var o := Created(spare);
    es := [];
    var script := [Advance(0), Deliver(Process), Advance(1), Advance(1), Advance(1), Advance(1)];
    for i := 0 to |script|
      invariant Possible(o, es)
      invariant
        var s := Run(o, es);
        s.active == [[Producer], [Idle], [Idle, Attempt(Process, Start)], [Idle, Attempt(Process, Save(1))],
                     [Idle, Attempt(Process, Work)], [Idle, Attempt(Process, Cas)],
                     [Idle, Attempt(Process, Publish)]][i]
        && s.status == (if i < 6 then Pending else Paid)
        && s.paymentAttempts == (if i < 4 then 0 else 1)
        && s.waiting == (if i == 1 then ZERO.Plus(Process) else ZERO)
    {
      RunSnoc(o, es, script[i]);
      es := es + [script[i]];
    }
  }

  lemma DroppingIsFatal(o: Order, i: nat)
    requires Enabled(o, Throw(i)) && Owing(o.active[i])
    ensures Fatal(Step(o, Throw(i))) && Step(o, Throw(i)).status == o.status
  {}

  /** The pipeline does not always finish: if the status event of a paid order cannot be
      published, the order has won its compare-and-set, the retry sees that it is past
      pending, and no fulfill job is ever added. */
  lemma PublishFailureStrands(spare: nat) returns (es: seq<Event>)
    ensures Possible(Created(spare), es)
    ensures Run(Created(spare), es).status == Paid && Fatal(Run(Created(spare), es))
  {
    es := FirstPayment(spare);
    DroppingIsFatal(Run(Created(spare), es), 1);
    RunSnoc(Created(spare), es, Throw(1));
    es := es + [Throw(1)];
  }
}
