/** The life of one order from its creation to the end of the three-stage pipeline.

    Handlers touch only their own order (and give its stock back), so one order is a closed
    system: its document, the deliveries waiting in the three queues, and every handler run,
    compensation and producer call in flight. Any number of them interleave; one event runs
    one store or queue call of one of them. Deliveries may be duplicated, reordered and
    overlapped. */
module OrderPipeline {
  import opened Common

  datatype Status = Pending | Paid | Fulfilled | Confirmed | Failed

  datatype Stage = Process | Fulfill | Notify

  const JOB_ATTEMPTS := 3

  function Source(stage: Stage): Status {
    match stage case Process => Pending case Fulfill => Paid case Notify => Fulfilled
  }

  function Target(stage: Stage): Status {
    match stage case Process => Paid case Fulfill => Fulfilled case Notify => Confirmed
  }

  function Following(stage: Stage): Stage {
    if stage == Process then Fulfill else Notify
  }

  /** One number per stage. */
  datatype Tally = Tally(process: nat, fulfill: nat, notify: nat) {
    function At(stage: Stage): nat {
      match stage case Process => process case Fulfill => fulfill case Notify => notify
    }
    function Plus(stage: Stage): Tally {
      match stage
      case Process => this.(process := process + 1)
      case Fulfill => this.(fulfill := fulfill + 1)
      case Notify => this.(notify := notify + 1)
    }
    function Minus(stage: Stage): Tally
      requires At(stage) > 0
    {
      match stage
      case Process => this.(process := process - 1)
      case Fulfill => this.(fulfill := fulfill - 1)
      case Notify => this.(notify := notify - 1)
    }
  }

  const ZERO := Tally(0, 0, 0)

  /** Where a handler stands: before its first read, before `order.save()` with the value it
      is about to write, before the side effect (charge, warehouse, e-mail), before the
      compare-and-set, before the status event, before it enqueues the next stage. */
  datatype Pc = Start | Save(attempts: nat) | Work | Cas | Publish | Hand

  /** Compensation: before the compare-and-set to failed, then before INCRBY. */
  datatype RefundPc = Claim | Pay

  /** Something in flight: the purchase call that created the order and still has to enqueue
      it, a handler run, or a compensation. Whatever ends leaves its slot idle. */
  datatype Activity =
    | Idle
    | Producer
    | Attempt(stage: Stage, pc: Pc)
    | Refunder(rpc: RefundPc)

  datatype Order = Order(
    status: Status,
    paymentAttempts: nat,
    enqueued: Tally,              // jobs ever added, by stage
    waiting: Tally,               // deliveries a worker may pick up
    failures: Tally,              // attemptsMade of the stage's job
    spare: nat,                   // redeliveries the broker will still make
    past: seq<Status>,            // history: every status the document had, oldest first
    refunds: nat,                 // history: INCRBYs executed for this order
    lapses: Lapses,               // history: what was lost to exceptions and crashes
    active: seq<Activity>
  )

  /** unpaid: refunds claimed but never executed; unclaimed: compensations that died before
      their compare-and-set; dropped: winners that died owing the next stage its job;
      orphaned: the purchase call died before enqueueing the order. */
  datatype Lapses = Lapses(unpaid: nat, unclaimed: nat, dropped: Tally, orphaned: nat)

  /** A freshly created order: pending, nothing queued, its purchase call about to enqueue. */
  function Created(spare: nat): Order {
    Order(Pending, 0, ZERO, ZERO, ZERO, spare, [Pending], 0, Lapses(0, 0, ZERO, 0), [Producer])
  }

  datatype Event =
    | Deliver(stage: Stage)
    | Redeliver(stage: Stage)
    | Advance(i: nat)     // the next call of activity `i` succeeds
    | Throw(i: nat)       // the next call of activity `i` throws without landing
    | Crash(i: nat)       // the process running activity `i` dies

  predicate Enabled(o: Order, e: Event) {
    match e
    case Deliver(stage) => o.waiting.At(stage) > 0
    case Redeliver(stage) => o.enqueued.At(stage) > 0 && o.spare > 0
    case Advance(i) => i < |o.active| && o.active[i] != Idle
    case Throw(i) => i < |o.active| && o.active[i] != Idle
    case Crash(i) => i < |o.active| && o.active[i] != Idle && (o.active[i].Attempt? ==> o.spare > 0)
  }

  /** What one event writes besides the set of activities. */
  datatype Write =
    | Nothing
    | Take(stage: Stage)
    | Spend
    | SetAttempts(n: nat)
    | MoveTo(status: Status)
    | Enqueue(stage: Stage)
    | Refund
    | LoseRefund
    | LoseClaim
    | Orphan
    | FailAttempt(stage: Stage, owing: bool)
    | Stall(stage: Stage, owing: bool)

  /** What an activity becomes, and what it writes. */
  datatype Effect = Effect(become: Activity, write: Write)

  /** `a` won its compare-and-set and still owes the next stage its job. */
  predicate Owing(a: Activity) {
    a.Attempt? && a.stage != Notify && (a.pc == Publish || a.pc == Hand)
  }

  /** The handlers of the three stages: the same gate, side effect, compare-and-set and
      hand-over, except that only `process` counts its attempts and `notify` has no next. */
  function AttemptAdvanced(o: Order, stage: Stage, pc: Pc): Effect {
    match pc
    case Start =>
      if o.status != Source(stage) then Effect(Idle, Nothing)     // already past this stage
      else Effect(Attempt(stage, if stage == Process then Save(o.paymentAttempts + 1) else Work), Nothing)
    case Save(n) => Effect(Attempt(stage, Work), SetAttempts(n))
    case Work => Effect(Attempt(stage, Cas), Nothing)
    case Cas =>
      if o.status != Source(stage) then Effect(Idle, Nothing)     // someone else won
      else Effect(Attempt(stage, Publish), MoveTo(Target(stage)))
    case Publish => Effect(if stage == Notify then Idle else Attempt(stage, Hand), Nothing)
    case Hand => Effect(Idle, if stage == Notify then Nothing else Enqueue(Following(stage)))
  }

  function Advanced(o: Order, a: Activity): Effect {
    match a
    case Idle => Effect(Idle, Nothing)
    case Producer => Effect(Idle, Enqueue(Process))
    case Attempt(stage, pc) => AttemptAdvanced(o, stage, pc)
    case Refunder(Claim) =>
      if o.status != Pending then Effect(Idle, Nothing)
      else Effect(Refunder(Pay), MoveTo(Failed))
    case Refunder(Pay) => Effect(Idle, Refund)
  }

  /** A handler's exception fails the attempt: the job is retried while attempts are left,
      and the failed event of the process stage starts a compensation once `attemptsMade`
      has reached the limit. A compensation that dies before its claim did nothing; after
      it, the stock stays owed. */
  function Thrown(o: Order, a: Activity): Effect {
    match a
    case Idle => Effect(Idle, Nothing)
    case Producer => Effect(Idle, Orphan)
    case Refunder(rpc) => Effect(Idle, if rpc == Claim then LoseClaim else LoseRefund)
    case Attempt(stage, _) =>
      var terminal := o.failures.At(stage) + 1 >= JOB_ATTEMPTS;
      Effect(if terminal && stage == Process then Refunder(Claim) else Idle, FailAttempt(stage, Owing(a)))
  }

  /** The broker redelivers the job of a run that died. */
  function Crashed(o: Order, a: Activity): Effect {
    if a.Attempt? then Effect(Idle, Stall(a.stage, Owing(a))) else Thrown(o, a)
  }

  function EffectOf(o: Order, e: Event): Effect
    requires Enabled(o, e)
  {
    match e
    case Deliver(stage) => Effect(Attempt(stage, Start), Take(stage))
    case Redeliver(stage) => Effect(Attempt(stage, Start), Spend)
    case Advance(i) => Advanced(o, o.active[i])
    case Throw(i) => Thrown(o, o.active[i])
    case Crash(i) => Crashed(o, o.active[i])
  }

  function Drop(l: Lapses, stage: Stage, owing: bool): Lapses {
    if owing then l.(dropped := l.dropped.Plus(stage)) else l
  }

  function Written(o: Order, w: Write): Order
    requires Applicable(o, w)
  {
    match w
    case Nothing => o
    case Take(stage) => o.(waiting := o.waiting.Minus(stage))
    case Spend => o.(spare := o.spare - 1)
    case SetAttempts(n) => o.(paymentAttempts := n)
    case MoveTo(status) => o.(status := status, past := o.past + [status])
    case Enqueue(stage) => o.(enqueued := o.enqueued.Plus(stage), waiting := o.waiting.Plus(stage))
    case Refund => o.(refunds := o.refunds + 1)
    case LoseRefund => o.(lapses := o.lapses.(unpaid := o.lapses.unpaid + 1))
    case LoseClaim => o.(lapses := o.lapses.(unclaimed := o.lapses.unclaimed + 1))
    case Orphan => o.(lapses := o.lapses.(orphaned := o.lapses.orphaned + 1))
    case FailAttempt(stage, owing) =>
      var failures := o.failures.Plus(stage);
      o.(failures := failures,
         waiting := if failures.At(stage) < JOB_ATTEMPTS then o.waiting.Plus(stage) else o.waiting,
         lapses := Drop(o.lapses, stage, owing))
    case Stall(stage, owing) =>
      o.(spare := o.spare - 1, waiting := o.waiting.Plus(stage), lapses := Drop(o.lapses, stage, owing))
  }

  /** The slot an event moves; a delivery opens a new one. */
  function Slot(o: Order, e: Event): nat
    requires Enabled(o, e)
  {
    match e
    case Deliver(_) => |o.active|
    case Redeliver(_) => |o.active|
    case Advance(i) => i
    case Throw(i) => i
    case Crash(i) => i
  }

  function At(active: seq<Activity>, slot: nat): Activity {
    if slot < |active| then active[slot] else Idle
  }

  function Put(active: seq<Activity>, slot: nat, a: Activity): seq<Activity> {
    if slot < |active| then active[slot := a] else active + [a]
  }

  predicate Applicable(o: Order, w: Write) {
    && (w.Take? ==> o.waiting.At(w.stage) > 0)
    && (w.Spend? || w.Stall? ==> o.spare > 0)
  }

  function Apply(o: Order, slot: nat, f: Effect): Order
    requires Applicable(o, f.write)
  {
    Written(o, f.write).(active := Put(o.active, slot, f.become))
  }

  function Step(o: Order, e: Event): Order
    requires Enabled(o, e)
  {
    Apply(o, Slot(o, e), EffectOf(o, e))
  }

  predicate Possible(o: Order, es: seq<Event>)
    decreases |es|
  {
    es == [] || (Enabled(o, es[0]) && Possible(Step(o, es[0]), es[1..]))
  }

  function Run(o: Order, es: seq<Event>): Order
    requires Possible(o, es)
    decreases |es|
  {
    if es == [] then o else Run(Step(o, es[0]), es[1..])
  }

  // ----- safety -----

  /** The one history that ends in each status. */
  function PathTo(status: Status): seq<Status> {
    match status
    case Pending => [Pending]
    case Paid => [Pending, Paid]
    case Fulfilled => [Pending, Paid, Fulfilled]
    case Confirmed => [Pending, Paid, Fulfilled, Confirmed]
    case Failed => [Pending, Failed]
  }

  function Producing(): Activity -> int { (a: Activity) => Bit(a == Producer) }

  /** 1 for a winner of `stage` that still owes the next stage its job. */
  function Owes(stage: Stage): Activity -> int { (a: Activity) => Bit(Owing(a) && a.stage == stage) }

  /** 1 for a compensation that flipped the status and has not paid yet. */
  function Paying(): Activity -> int { (a: Activity) => Bit(a == Refunder(Pay)) }

  /** The history is the one path to the current status. */
  predicate HistoryOk(o: Order) {
    o.past == PathTo(o.status)
  }

  predicate ReachedPaid(o: Order) { o.status == Paid || o.status == Fulfilled || o.status == Confirmed }

  predicate ReachedFulfilled(o: Order) { o.status == Fulfilled || o.status == Confirmed }

  /** The job of a stage is owed by the winner of the stage before, added, or dropped. */
  ghost predicate JobsOk(o: Order) {
    && Sum(o.active, Producing()) + o.enqueued.process + o.lapses.orphaned == 1
    && Sum(o.active, Owes(Process)) + o.enqueued.fulfill + o.lapses.dropped.process == Bit(ReachedPaid(o))
    && Sum(o.active, Owes(Fulfill)) + o.enqueued.notify + o.lapses.dropped.fulfill == Bit(ReachedFulfilled(o))
  }

  /** A refund is owed, executed or lost exactly when the order failed. */
  ghost predicate RefundsOk(o: Order) {
    Sum(o.active, Paying()) + o.refunds + o.lapses.unpaid == Bit(o.status == Failed)
  }

  /** Nothing waits or runs that was never enqueued. */
  ghost predicate SupportOk(o: Order) {
    && (forall stage: Stage :: o.waiting.At(stage) > 0 ==> o.enqueued.At(stage) > 0)
    && (forall i :: 0 <= i < |o.active| && o.active[i].Attempt? ==> o.enqueued.At(o.active[i].stage) > 0)
  }

  ghost predicate Inv(o: Order) {
    HistoryOk(o) && JobsOk(o) && RefundsOk(o) && SupportOk(o)
  }

  lemma CreatedInv(spare: nat)
    ensures Inv(Created(spare))
  {}

  // One event moves each of these counts in a balanced way. The facts about an event are
  // separated from the facts about the state, so that no proof sees both.

  predicate Edge(from: Status, to: Status) {
    match to
    case Pending => false
    case Paid => from == Pending
    case Fulfilled => from == Paid
    case Confirmed => from == Fulfilled
    case Failed => from == Pending
  }

  function Drops(w: Write, stage: Stage): nat {
    Bit((w.FailAttempt? || w.Stall?) && w.owing && w.stage == stage)
  }

  predicate Balanced(a: Activity, f: Effect) {
    var b, w := f.become, f.write;
    && Producing()(a) == Producing()(b) + Bit(w == Enqueue(Process)) + Bit(w == Orphan)
    && Owes(Process)(b) + Bit(w == Enqueue(Fulfill)) + Drops(w, Process)
         == Owes(Process)(a) + Bit(w == MoveTo(Paid))
    && Owes(Fulfill)(b) + Bit(w == Enqueue(Notify)) + Drops(w, Fulfill)
         == Owes(Fulfill)(a) + Bit(w == MoveTo(Fulfilled))
    && Paying()(b) + Bit(w == Refund) + Bit(w == LoseRefund) == Paying()(a) + Bit(w == MoveTo(Failed))
  }

  /** What a slot becomes continues what it was or comes from a queue; status moves follow
      the edges. */
  predicate Supported(o: Order, a: Activity, f: Effect) {
    var b, w := f.become, f.write;
    && (w.FailAttempt? || w.Stall? ==> a.Attempt? && a.stage == w.stage)
    && (b.Attempt? ==> (a.Attempt? && a.stage == b.stage) || w == Take(b.stage) || o.enqueued.At(b.stage) > 0)
    && (w.MoveTo? ==> Edge(o.status, w.status))
    && Applicable(o, w)
  }

  lemma AdvanceBalanced(o: Order, a: Activity)
    ensures Balanced(a, Advanced(o, a))
  {}

  lemma FaultBalanced(o: Order, a: Activity)
    ensures Balanced(a, Thrown(o, a)) && Balanced(a, Crashed(o, a))
  {}

  lemma EffectBalanced(o: Order, e: Event)
    requires Enabled(o, e)
    ensures Balanced(At(o.active, Slot(o, e)), EffectOf(o, e))
  {
    var a := At(o.active, Slot(o, e));
    if e.Advance? {
      AdvanceBalanced(o, a);
    } else if e.Throw? || e.Crash? {
      FaultBalanced(o, a);
    }
  }

  lemma EffectSupported(o: Order, e: Event)
    requires Enabled(o, e)
    ensures Supported(o, At(o.active, Slot(o, e)), EffectOf(o, e))
  {}

  lemma WrittenCounts(o: Order, w: Write)
    requires Applicable(o, w)
    ensures
      var o' := Written(o, w);
      && (forall stage: Stage :: o'.enqueued.At(stage) == o.enqueued.At(stage) + Bit(w == Enqueue(stage)))
      && (forall stage: Stage :: o'.lapses.dropped.At(stage) == o.lapses.dropped.At(stage) + Drops(w, stage))
      && o'.lapses.orphaned == o.lapses.orphaned + Bit(w == Orphan)
      && o'.refunds == o.refunds + Bit(w == Refund)
      && o'.lapses.unpaid == o.lapses.unpaid + Bit(w == LoseRefund)
      && (forall stage: Stage :: o'.waiting.At(stage) > 0 ==>
            o.waiting.At(stage) > 0 || w == Enqueue(stage) || ((w.FailAttempt? || w.Stall?) && w.stage == stage))
  {}

  lemma WrittenStatus(o: Order, w: Write)
    requires Applicable(o, w)
    requires w.MoveTo? ==> Edge(o.status, w.status)
    ensures
      var o' := Written(o, w);
      && o.past <= o'.past && (HistoryOk(o) ==> HistoryOk(o'))
      && Bit(ReachedPaid(o')) == Bit(ReachedPaid(o)) + Bit(w == MoveTo(Paid))
      && Bit(ReachedFulfilled(o')) == Bit(ReachedFulfilled(o)) + Bit(w == MoveTo(Fulfilled))
      && Bit(o'.status == Failed) == Bit(o.status == Failed) + Bit(w == MoveTo(Failed))
  {}

  lemma PutSum(active: seq<Activity>, slot: nat, a: Activity, w: Activity -> int)
    requires w(Idle) == 0 && slot <= |active|
    ensures Sum(Put(active, slot, a), w) == Sum(active, w) - w(At(active, slot)) + w(a)
  {
    if slot < |active| {
      SumUpdate(active, slot, a, w);
    } else {
      SumAppend(active, a, w);
    }
  }

  lemma JobsApply(o: Order, slot: nat, f: Effect)
    requires JobsOk(o) && slot <= |o.active| && Applicable(o, f.write)
    requires Balanced(At(o.active, slot), f) && (f.write.MoveTo? ==> Edge(o.status, f.write.status))
    ensures JobsOk(Apply(o, slot, f))
  {
    WrittenCounts(o, f.write);
    WrittenStatus(o, f.write);
    PutSum(o.active, slot, f.become, Producing());
    PutSum(o.active, slot, f.become, Owes(Process));
    PutSum(o.active, slot, f.become, Owes(Fulfill));
  }

  lemma RefundsApply(o: Order, slot: nat, f: Effect)
    requires RefundsOk(o) && slot <= |o.active| && Applicable(o, f.write)
    requires Balanced(At(o.active, slot), f) && (f.write.MoveTo? ==> Edge(o.status, f.write.status))
    ensures RefundsOk(Apply(o, slot, f))
  {
    WrittenCounts(o, f.write);
    WrittenStatus(o, f.write);
    PutSum(o.active, slot, f.become, Paying());
  }

  lemma SupportApply(o: Order, slot: nat, f: Effect)
    requires SupportOk(o) && slot <= |o.active| && Supported(o, At(o.active, slot), f)
    ensures SupportOk(Apply(o, slot, f))
  {
    WrittenCounts(o, f.write);
  }

  lemma StepKeepsInv(o: Order, e: Event)
    requires Inv(o) && Enabled(o, e)
    ensures Inv(Step(o, e)) && o.past <= Step(o, e).past
  {
    EffectBalanced(o, e);
    EffectSupported(o, e);
    WrittenStatus(o, EffectOf(o, e).write);
    JobsApply(o, Slot(o, e), EffectOf(o, e));
    RefundsApply(o, Slot(o, e), EffectOf(o, e));
    SupportApply(o, Slot(o, e), EffectOf(o, e));
  }

  lemma {:induction false} RunKeepsInv(o: Order, es: seq<Event>)
    requires Inv(o) && Possible(o, es)
    ensures Inv(Run(o, es)) && o.past <= Run(o, es).past
    decreases |es|
  {
    if es != [] {
      StepKeepsInv(o, es[0]);
      RunKeepsInv(Step(o, es[0]), es[1..]);
    }
  }

  lemma BitsAreNatural(active: seq<Activity>)
    ensures Sum(active, Producing()) >= 0 && Sum(active, Paying()) >= 0
    ensures forall stage: Stage :: Sum(active, Owes(stage)) >= 0
  {
    SumNonNegative(active, Producing());
    SumNonNegative(active, Paying());
    forall stage: Stage ensures Sum(active, Owes(stage)) >= 0 {
      SumNonNegative(active, Owes(stage));
    }
  }

  /** The refund columns of an order: at most one of them is filled, and only by a failure. */
  lemma RefundColumns(o: Order)
    requires Inv(o)
    ensures o.refunds + o.lapses.unpaid <= Bit(o.status == Failed)
  {
    BitsAreNatural(o.active);
  }

  /** The one step that gives stock back. */
  predicate PaysBack(o: Order, e: Event)
    requires Enabled(o, e)
  {
    e.Advance? && o.active[e.i] == Refunder(Pay)
  }

  lemma PaysBackWrites(o: Order, e: Event)
    requires Enabled(o, e)
    ensures PaysBack(o, e) <==> EffectOf(o, e).write == Refund
  {}

  lemma RefundStep(o: Order, e: Event)
    requires Inv(o) && Enabled(o, e)
    ensures Step(o, e).refunds == o.refunds + Bit(PaysBack(o, e))
    ensures PaysBack(o, e) ==> o.refunds == 0
  {
    PaysBackWrites(o, e);
    EffectSupported(o, e);
    WrittenCounts(o, EffectOf(o, e).write);
    StepKeepsInv(o, e);
    RefundColumns(Step(o, e));
  }

  /** Pipeline safety, under any duplication, reordering and overlap of deliveries, crashes
      and compensations: the status history is a prefix of pending, paid, fulfilled, confirmed
      or is pending, failed; every edge is taken at most once; each stage gets at most one
      job; a fulfill job exists only for an order that reached paid and a notify job only for
      one that reached fulfilled. */
  lemma PipelineSafety(spare: nat, es: seq<Event>)
    requires Possible(Created(spare), es)
    ensures
      var o := Run(Created(spare), es);
      && (o.past <= [Pending, Paid, Fulfilled, Confirmed] || o.past == [Pending, Failed])
      && o.past != [] && o.past[|o.past| - 1] == o.status
      && (forall i, j :: 0 <= i < j < |o.past| ==> o.past[i] != o.past[j])
      && (forall stage: Stage :: o.enqueued.At(stage) <= 1)
      && (o.enqueued.fulfill == 1 ==> Paid in o.past)
      && (o.enqueued.notify == 1 ==> Fulfilled in o.past)
  {
    var o := Run(Created(spare), es);
    RunKeepsInv(Created(spare), es);
    BitsAreNatural(o.active);
    assert o.past == PathTo(o.status);
    assert o.past[|o.past| - 1] in o.past;
    assert ReachedPaid(o) ==> o.past[1] == Paid;
    assert ReachedFulfilled(o) ==> o.past[2] == Fulfilled;
  }

  /** Compensation is exact. The stock of an order is given back at most once over the whole
      run and only if the order failed; an order that ever reached paid is never refunded, not
      even later, whatever its remaining attempts throw; and a failed order whose compensation
      neither died nor is still in flight has been refunded. */
  lemma CompensationExact(spare: nat, es: seq<Event>, later: seq<Event>)
    requires Possible(Created(spare), es) && Possible(Run(Created(spare), es), later)
    ensures
      var o := Run(Created(spare), es);
      var end := Run(o, later);
      && o.refunds <= end.refunds <= 1
      && (end.refunds == 1 ==> end.status == Failed)
      && (Paid in o.past ==> end.refunds == 0 && end.status != Failed)
      && (end.status == Failed && end.lapses.unpaid == 0
          && (forall i :: 0 <= i < |end.active| ==> end.active[i] != Refunder(Pay))
          ==> end.refunds == 1)
  {
    var o := Run(Created(spare), es);
    var end := Run(o, later);
    RunKeepsInv(Created(spare), es);
    RunKeepsInv(o, later);
    RefundsGrow(o, later);
    BitsAreNatural(end.active);
    if Paid in o.past {
      var i :| 0 <= i < |o.past| && o.past[i] == Paid;
      assert end.past[i] == Paid;
    }
    if forall i :: 0 <= i < |end.active| ==> end.active[i] != Refunder(Pay) {
      SumOfConstant(end.active, Paying(), 0);
    }
  }

  lemma {:induction false} RefundsGrow(o: Order, es: seq<Event>)
    requires Possible(o, es)
    ensures o.refunds <= Run(o, es).refunds
    decreases |es|
  {
    if es != [] {
      RefundsGrow(Step(o, es[0]), es[1..]);
    }
  }
}
