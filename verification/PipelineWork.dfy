/** What the handlers do to the world, and when an order may fail: the side effects that a
    status stands for, the attempts that are recorded and counted, and the third failure that
    starts a compensation. */
module PipelineWork {
  import opened Common
  import opened OrderPipeline
  import G = PipelineProgress

  // ----- an order fails only after three failed payment attempts -----

  /** A handler run of `stage` throws. */
  function Throws(o: Order, e: Event, stage: Stage): nat
    requires Enabled(o, e)
  {
    Bit(e.Throw? && o.active[e.i].Attempt? && o.active[e.i].stage == stage)
  }

  function AllThrows(o: Order, es: seq<Event>, stage: Stage): nat
    requires Possible(o, es)
    decreases |es|
  {
    if es == [] then 0 else Throws(o, es[0], stage) + AllThrows(Step(o, es[0]), es[1..], stage)
  }

  lemma StepFailures(o: Order, e: Event, stage: Stage)
    requires Enabled(o, e)
    ensures Step(o, e).failures.At(stage) == o.failures.At(stage) + Throws(o, e, stage)
  {}

  /** `attemptsMade` counts the runs of the stage that threw. */
  lemma {:induction false} FailuresCount(o: Order, es: seq<Event>, stage: Stage)
    requires Possible(o, es)
    ensures Run(o, es).failures.At(stage) == o.failures.At(stage) + AllThrows(o, es, stage)
    decreases |es|
  {
    if es != [] {
      StepFailures(o, es[0], stage);
      FailuresCount(Step(o, es[0]), es[1..], stage);
    }
  }

  /** Some compensation of the order was started. */
  predicate Compensated(o: Order) {
    || o.status == Failed || o.refunds > 0 || o.lapses.unpaid > 0 || o.lapses.unclaimed > 0
    || exists i :: 0 <= i < |o.active| && o.active[i].Refunder?
  }

  lemma StepCompensates(o: Order, e: Event)
    requires Enabled(o, e) && (Compensated(o) ==> o.failures.process >= 3)
    ensures Compensated(Step(o, e)) ==> Step(o, e).failures.process >= 3
  {
    StepFailures(o, e, Process);
  }

  lemma {:induction false} RunCompensates(o: Order, es: seq<Event>)
    requires Possible(o, es) && (Compensated(o) ==> o.failures.process >= 3)
    ensures Compensated(Run(o, es)) ==> Run(o, es).failures.process >= 3
    decreases |es|
  {
    if es != [] {
      StepCompensates(o, es[0]);
      RunCompensates(Step(o, es[0]), es[1..]);
    }
  }

  /** A compensation starts with this event. */
  function Starts(o: Order, e: Event): nat
    requires Enabled(o, e)
  {
    Bit(!e.Deliver? && !e.Redeliver? && !o.active[e.i].Refunder? && Step(o, e).active[e.i].Refunder?)
  }

  function AllStarts(o: Order, es: seq<Event>): nat
    requires Possible(o, es)
    decreases |es|
  {
    if es == [] then 0 else Starts(o, es[0]) + AllStarts(Step(o, es[0]), es[1..])
  }

  lemma StepStarts(o: Order, e: Event)
    requires Enabled(o, e)
    ensures Starts(o, e) == Bit(Throws(o, e, Process) == 1 && o.failures.process >= 2)
  {}

  lemma {:induction false} RunStarts(o: Order, es: seq<Event>)
    requires Possible(o, es)
    ensures
      var from, to := o.failures.process, Run(o, es).failures.process;
      from <= to && AllStarts(o, es) == (if to < 2 then 2 else to) - (if from < 2 then 2 else from)
    decreases |es|
  {
    if es != [] {
      StepFailures(o, es[0], Process);
      StepStarts(o, es[0]);
      RunStarts(Step(o, es[0]), es[1..]);
    }
  }

  /** An order fails, or owes or had a refund, only after three payment attempts threw; and
      from the third on, and not before, each one that throws starts one compensation. */
  lemma FailsAfterThree(spare: nat, es: seq<Event>)
    requires Possible(Created(spare), es)
    ensures
      var end, thrown := Run(Created(spare), es), AllThrows(Created(spare), es, Process);
      && (Compensated(end) ==> thrown >= 3)
      && AllStarts(Created(spare), es) == (if thrown < 3 then 0 else thrown - 2)
  {
    FailuresCount(Created(spare), es, Process);
    RunCompensates(Created(spare), es);
    RunStarts(Created(spare), es);
  }

  // ----- no status without its work -----

  /** The side effect of `stage` is carried out: the charge, the warehouse, the e-mail. */
  function Works(o: Order, e: Event, stage: Stage): nat
    requires Enabled(o, e)
  {
    Bit(e.Advance? && o.active[e.i] == Attempt(stage, Work))
  }

  function AllWorks(o: Order, es: seq<Event>, stage: Stage): nat
    requires Possible(o, es)
    decreases |es|
  {
    if es == [] then 0 else Works(o, es[0], stage) + AllWorks(Step(o, es[0]), es[1..], stage)
  }

  /** The attempt is recorded: `order.save()` succeeds. */
  function Saves(o: Order, e: Event): nat
    requires Enabled(o, e)
  {
    Bit(e.Advance? && o.active[e.i].Attempt? && o.active[e.i].pc.Save?)
  }

  function AllSaves(o: Order, es: seq<Event>): nat
    requires Possible(o, es)
    decreases |es|
  {
    if es == [] then 0 else Saves(o, es[0]) + AllSaves(Step(o, es[0]), es[1..])
  }

  predicate ReachedTarget(status: Status, stage: Stage) {
    match stage
    case Process => status == Paid || status == Fulfilled || status == Confirmed
    case Fulfill => status == Fulfilled || status == Confirmed
    case Notify => status == Confirmed
  }

  /** With `works` side effects carried out so far, some run is past its side effect, or the
      order past the stage, only if `works > 0`. */
  predicate WorkedFor(o: Order, stage: Stage, works: nat) {
    && (ReachedTarget(o.status, stage) ==> works > 0)
    && (forall i :: 0 <= i < |o.active| && o.active[i] == Attempt(stage, Cas) ==> works > 0)
  }

  lemma StepWorked(o: Order, e: Event, stage: Stage, works: nat)
    requires Enabled(o, e) && WorkedFor(o, stage, works)
    ensures WorkedFor(Step(o, e), stage, works + Works(o, e, stage))
  {}

  lemma {:induction false} RunWorked(o: Order, es: seq<Event>, stage: Stage, works: nat)
    requires Possible(o, es) && WorkedFor(o, stage, works)
    ensures WorkedFor(Run(o, es), stage, works + AllWorks(o, es, stage))
    decreases |es|
  {
    if es != [] {
      StepWorked(o, es[0], stage, works);
      RunWorked(Step(o, es[0]), es[1..], stage, works + Works(o, es[0], stage));
    }
  }

  /** 1 for a payment attempt that was recorded and has not been charged yet. */
  function Charging(): Activity -> int { (a: Activity) => Bit(a == Attempt(Process, Work)) }

  lemma StepRecorded(o: Order, e: Event)
    requires Enabled(o, e)
    ensures Sum(Step(o, e).active, Charging()) + Works(o, e, Process) <= Sum(o.active, Charging()) + Saves(o, e)
  {
    PutSum(o.active, Slot(o, e), EffectOf(o, e).become, Charging());
  }

  lemma {:induction false} RunRecorded(o: Order, es: seq<Event>)
    requires Possible(o, es)
    ensures Sum(Run(o, es).active, Charging()) + AllWorks(o, es, Process) <= Sum(o.active, Charging()) + AllSaves(o, es)
    decreases |es|
  {
    if es != [] {
      StepRecorded(o, es[0]);
      RunRecorded(Step(o, es[0]), es[1..]);
    }
  }

  /** No status without its work: a paid order was charged, a fulfilled one went through the
      warehouse, a confirmed one was mailed; and no charge is made that was not recorded first. */
  lemma NoStatusWithoutWork(spare: nat, es: seq<Event>)
    requires Possible(Created(spare), es)
    ensures
      var o, status := Created(spare), Run(Created(spare), es).status;
      && (status == Paid || status == Fulfilled || status == Confirmed ==> AllWorks(o, es, Process) > 0)
      && (status == Fulfilled || status == Confirmed ==> AllWorks(o, es, Fulfill) > 0)
      && (status == Confirmed ==> AllWorks(o, es, Notify) > 0)
      && AllWorks(o, es, Process) <= AllSaves(o, es)
  {
    var o := Created(spare);
    RunWorked(o, es, Process, 0);
    RunWorked(o, es, Fulfill, 0);
    RunWorked(o, es, Notify, 0);
    RunRecorded(o, es);
    SumOfConstant(o.active, Charging(), 0);
    SumNonNegative(Run(o, es).active, Charging());
  }

  // ----- duplicates of a past stage do nothing -----

  /** The order has moved past the stage, and no run of the stage is between its gate and its
      compare-and-set. */
  predicate PastStage(o: Order, stage: Stage) {
    && (match stage
        case Process => o.status != Pending
        case Fulfill => o.status == Fulfilled || o.status == Confirmed || o.status == Failed
        case Notify => o.status == Confirmed || o.status == Failed)
    && forall i :: 0 <= i < |o.active| && o.active[i].Attempt? && o.active[i].stage == stage ==>
         !o.active[i].pc.Save? && o.active[i].pc != Work
  }

  lemma StepStaysPast(o: Order, e: Event, stage: Stage)
    requires Enabled(o, e) && PastStage(o, stage)
    ensures PastStage(Step(o, e), stage) && Works(o, e, stage) == 0
  {}

  /** Saves are made by runs of the process stage only. */
  predicate SavesAreProcess(o: Order) {
    forall i :: 0 <= i < |o.active| && o.active[i].Attempt? && o.active[i].pc.Save? ==> o.active[i].stage == Process
  }

  lemma StepSaves(o: Order, e: Event)
    requires Enabled(o, e) && SavesAreProcess(o)
    ensures SavesAreProcess(Step(o, e))
    ensures Saves(o, e) == 0 ==> Step(o, e).paymentAttempts == o.paymentAttempts
    ensures PastStage(o, Process) ==> Saves(o, e) == 0
  {}

  /** Duplicate deliveries are safe: once the order is past a stage, and the runs that passed
      its gate are through, no delivery of that stage, however late or often, carries out its
      side effect again, or touches the recorded attempts. */
  lemma {:induction false} LateDeliveriesDoNothing(o: Order, es: seq<Event>, stage: Stage)
    requires Possible(o, es) && PastStage(o, stage)
    ensures PastStage(Run(o, es), stage) && AllWorks(o, es, stage) == 0
    ensures stage == Process && SavesAreProcess(o) ==> Run(o, es).paymentAttempts == o.paymentAttempts
    decreases |es|
  {
    if es != [] {
      StepStaysPast(o, es[0], stage);
      if SavesAreProcess(o) {
        StepSaves(o, es[0]);
      }
      LateDeliveriesDoNothing(Step(o, es[0]), es[1..], stage);
    }
  }

  // ----- the recorded attempts -----

  /** No run reads the document while another is about to save it. */
  predicate OneAtATime(o: Order, e: Event)
    requires Enabled(o, e)
  {
    e.Advance? && o.active[e.i] == Attempt(Process, Start) ==>
      forall i :: 0 <= i < |o.active| && o.active[i].Attempt? ==> !o.active[i].pc.Save?
  }

  predicate AllOneAtATime(o: Order, es: seq<Event>)
    requires Possible(o, es)
    decreases |es|
  {
    es == [] || (OneAtATime(o, es[0]) && AllOneAtATime(Step(o, es[0]), es[1..]))
  }

  /** At most one run is about to save, and what it will write is the next number. */
  predicate NextNumber(o: Order) {
    && SavesAreProcess(o)
    && (forall i :: 0 <= i < |o.active| && o.active[i].Attempt? && o.active[i].pc.Save? ==>
          o.active[i].pc.attempts == o.paymentAttempts + 1)
    && (forall i, j :: 0 <= i < j < |o.active| && o.active[i].Attempt? && o.active[j].Attempt? ==>
          !(o.active[i].pc.Save? && o.active[j].pc.Save?))
  }

  lemma StepNumbers(o: Order, e: Event)
    requires Enabled(o, e) && NextNumber(o) && OneAtATime(o, e)
    ensures NextNumber(Step(o, e)) && Step(o, e).paymentAttempts == o.paymentAttempts + Saves(o, e)
  {}

  /** When no two runs overlap between reading and saving, `paymentAttempts` counts the saves. */
  lemma {:induction false} AttemptsCounted(o: Order, es: seq<Event>)
    requires Possible(o, es) && NextNumber(o) && AllOneAtATime(o, es)
    ensures Run(o, es).paymentAttempts == o.paymentAttempts + AllSaves(o, es)
    decreases |es|
  {
    if es != [] {
      StepNumbers(o, es[0]);
      AttemptsCounted(Step(o, es[0]), es[1..]);
    }
  }

  /** Overlapping runs may write the same number, but never one that was not reached. */
  predicate NumbersReached(o: Order, saves: nat) {
    && o.paymentAttempts <= saves
    && forall i :: 0 <= i < |o.active| && o.active[i].Attempt? && o.active[i].pc.Save? ==>
         1 <= o.active[i].pc.attempts <= saves + 1
  }

  lemma {:induction false} AttemptsNeverExceed(o: Order, es: seq<Event>, saves: nat)
    requires Possible(o, es) && NumbersReached(o, saves)
    ensures NumbersReached(Run(o, es), saves + AllSaves(o, es))
    decreases |es|
  {
    if es != [] {
      AttemptsNeverExceed(Step(o, es[0]), es[1..], saves + Saves(o, es[0]));
    }
  }

  /** The number on an order is at most the attempts that were recorded, and exactly that when
      no two runs overlap. */
  lemma RecordedAttempts(spare: nat, es: seq<Event>)
    requires Possible(Created(spare), es)
    ensures
      var o, n := Created(spare), Run(Created(spare), es).paymentAttempts;
      && n <= AllSaves(o, es)
      && (AllOneAtATime(o, es) ==> n == AllSaves(o, es))
  {
    AttemptsNeverExceed(Created(spare), es, 0);
    if AllOneAtATime(Created(spare), es) {
      AttemptsCounted(Created(spare), es);
    }
  }

  // ----- every status change is announced once -----

  /** 1 for the winner of `stage` whose status event is still to be published. */
  function Announcing(stage: Stage): Activity -> int { (a: Activity) => Bit(a == Attempt(stage, Publish)) }

  /** A status event of `stage` is published, or its publisher throws or dies. */
  function Announces(o: Order, e: Event, stage: Stage): nat
    requires Enabled(o, e)
  {
    Bit(e.Advance? && o.active[e.i] == Attempt(stage, Publish))
  }

  function Hushes(o: Order, e: Event, stage: Stage): nat
    requires Enabled(o, e)
  {
    Bit((e.Throw? || e.Crash?) && o.active[e.i] == Attempt(stage, Publish))
  }

  function AllAnnounces(o: Order, es: seq<Event>, stage: Stage): nat
    requires Possible(o, es)
    decreases |es|
  {
    if es == [] then 0 else Announces(o, es[0], stage) + AllAnnounces(Step(o, es[0]), es[1..], stage)
  }

  function AllHushes(o: Order, es: seq<Event>, stage: Stage): nat
    requires Possible(o, es)
    decreases |es|
  {
    if es == [] then 0 else Hushes(o, es[0], stage) + AllHushes(Step(o, es[0]), es[1..], stage)
  }

  lemma SlotAnnounces(o: Order, e: Event, stage: Stage)
    requires Enabled(o, e)
    ensures
      var a, b := At(o.active, Slot(o, e)), EffectOf(o, e).become;
      Announcing(stage)(b) + Announces(o, e, stage) + Hushes(o, e, stage)
        == Announcing(stage)(a) + Bit(ReachedTarget(Step(o, e).status, stage)) - Bit(ReachedTarget(o.status, stage))
  {}

  lemma {:induction false} RunAnnounces(o: Order, es: seq<Event>, stage: Stage)
    requires Possible(o, es)
    ensures
      var end := Run(o, es);
      Sum(end.active, Announcing(stage)) + AllAnnounces(o, es, stage) + AllHushes(o, es, stage)
        == Sum(o.active, Announcing(stage))
           + Bit(ReachedTarget(end.status, stage)) - Bit(ReachedTarget(o.status, stage))
    decreases |es|
  {
    if es != [] {
      SlotAnnounces(o, es[0], stage);
      PutSum(o.active, Slot(o, es[0]), EffectOf(o, es[0]).become, Announcing(stage));
      RunAnnounces(Step(o, es[0]), es[1..], stage);
    }
  }

  /** The status event of each stage is published at most once, and exactly once for an order
      that reached the status, unless its publisher is still on its way, threw or died. */
  lemma AnnouncedOnce(spare: nat, es: seq<Event>, stage: Stage)
    requires Possible(Created(spare), es)
    ensures
      var o, end := Created(spare), Run(Created(spare), es);
      && AllAnnounces(o, es, stage) <= Bit(ReachedTarget(end.status, stage))
      && Sum(end.active, Announcing(stage)) + AllAnnounces(o, es, stage) + AllHushes(o, es, stage)
           == Bit(ReachedTarget(end.status, stage))
  {
    RunAnnounces(Created(spare), es, stage);
    SumOfConstant(Created(spare).active, Announcing(stage), 0);
    SumNonNegative(Run(Created(spare), es).active, Announcing(stage));
  }

  // ----- redelivery -----

  /** A redelivered job of the stage the order stands at moves it on, whatever became of all
      earlier deliveries: one handler run without a fault is enough. */
  lemma RedeliveryMoves(o: Order, stage: Stage) returns (es: seq<Event>)
    requires Enabled(o, Redeliver(stage)) && o.status == Source(stage)
    ensures Possible(o, [Redeliver(stage)] + es) && Run(o, [Redeliver(stage)] + es).status == Target(stage)
    ensures forall e <- es :: e == Advance(|o.active|)
  {
    var i, all, n := |o.active|, [], if stage == Process then 4 else 3;
    G.RunSnoc(o, all, Redeliver(stage));
    all := all + [Redeliver(stage)];
    es := [];
    for k := 0 to n - 1
      invariant all == [Redeliver(stage)] + es && Possible(o, all) && |Run(o, all).active| == i + 1
      invariant Run(o, all).status == o.status && Run(o, all).active[i].Attempt? && Run(o, all).active[i].stage == stage
      invariant
        var pc := Run(o, all).active[i].pc;
        && (k == 0 ==> pc == Start) && (k == n - 1 ==> pc == Cas) && (k == n - 2 ==> pc == Work)
        && (0 < k < n - 2 ==> pc.Save?)
      invariant forall e <- es :: e == Advance(i)
    {
      G.RunSnoc(o, all, Advance(i));
      all, es := all + [Advance(i)], es + [Advance(i)];
      assert all == [Redeliver(stage)] + es;
    }
    G.RunSnoc(o, all, Advance(i));
    es := es + [Advance(i)];
    assert all + [Advance(i)] == [Redeliver(stage)] + es;
  }
}
