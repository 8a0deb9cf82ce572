/** The pipeline worker in its own form: one order document and its queues, updated in place
    by one store or queue call at a time. Each method is one atomic call of a handler, of the
    `failed` hook or of the broker, and is proved to be the step of `OrderPipeline`. */
module OrderWorker {
  import opened OrderPipeline

  class OrderRow {
    var status: Status
    var paymentAttempts: nat
    var enqueued: Tally
    var waiting: Tally
    var failures: Tally
    var spare: nat
    var past: seq<Status>
    var refunds: nat
    var lapses: Lapses
    var active: seq<Activity>

    function Snapshot(): Order
      reads this
    {
      Order(status, paymentAttempts, enqueued, waiting, failures, spare, past, refunds, lapses, active)
    }

    constructor (spare: nat)
      ensures Snapshot() == Created(spare)
    {
      status, paymentAttempts, this.spare := Pending, 0, spare;
      enqueued, waiting, failures := ZERO, ZERO, ZERO;
      past, refunds, lapses := [Pending], 0, Lapses(0, 0, ZERO, 0);
      active := [Producer];
    }

    /** A worker picks up a waiting delivery. */
    method Deliver(stage: Stage)
      requires Enabled(Snapshot(), Event.Deliver(stage))
      modifies this
      ensures Snapshot() == Step(old(Snapshot()), Event.Deliver(stage))
    {
      waiting := waiting.Minus(stage);
      active := active + [Attempt(stage, Start)];
    }

    /** The broker delivers a job once more. */
    method Redeliver(stage: Stage)
      requires Enabled(Snapshot(), Event.Redeliver(stage))
      modifies this
      ensures Snapshot() == Step(old(Snapshot()), Event.Redeliver(stage))
    {
      spare := spare - 1;
      active := active + [Attempt(stage, Start)];
    }

    method SetStatus(to: Status)
      modifies this`status, this`past
      ensures status == to && past == old(past) + [to]
    {
      status := to;
      past := past + [to];
    }

    method Add(stage: Stage)
      modifies this`enqueued, this`waiting
      ensures enqueued == old(enqueued).Plus(stage) && waiting == old(waiting).Plus(stage)
    {
      enqueued := enqueued.Plus(stage);
      waiting := waiting.Plus(stage);
    }

    /** The next call of a stage handler succeeds. */
    method AdvanceHandler(i: nat)
      requires i < |active| && active[i].Attempt?
      modifies this
      ensures Snapshot() == Step(old(Snapshot()), Advance(i))
    {
      var stage := active[i].stage;
      match active[i].pc
      case Start =>
        if status != Source(stage) {
          active := active[i := Idle];
        } else if stage == Process {
          active := active[i := Attempt(stage, Save(paymentAttempts + 1))];
        } else {
          active := active[i := Attempt(stage, Work)];
        }
      case Save(n) =>
        paymentAttempts := n;
        active := active[i := Attempt(stage, Work)];
      case Work =>
        active := active[i := Attempt(stage, Cas)];
      case Cas =>
        if status == Source(stage) {
          SetStatus(Target(stage));
          active := active[i := Attempt(stage, Publish)];
        } else {
          active := active[i := Idle];
        }
      case Publish =>
        active := active[i := if stage == Notify then Idle else Attempt(stage, Hand)];
      case Hand =>
        if stage != Notify {
          Add(Following(stage));
        }
        active := active[i := Idle];
    }

    /** The purchase call enqueues the order, or the compensation takes its next call. */
    method AdvanceOther(i: nat)
      requires i < |active| && (active[i].Producer? || active[i].Refunder?)
      modifies this
      ensures Snapshot() == Step(old(Snapshot()), Advance(i))
    {
      match active[i]
      case Producer =>
        Add(Process);
        active := active[i := Idle];
      case Refunder(Claim) =>
        if status == Pending {
          SetStatus(Failed);
          active := active[i := Refunder(Pay)];
        } else {
          active := active[i := Idle];
        }
      case Refunder(Pay) =>
        refunds := refunds + 1;
        active := active[i := Idle];
    }

    /** A handler's call throws: the attempt fails, and the `failed` hook compensates a
        process job that has no attempts left. */
    method FailHandler(i: nat)
      requires i < |active| && active[i].Attempt?
      modifies this
      ensures Snapshot() == Step(old(Snapshot()), Throw(i))
      ensures active[i] == Refunder(Claim) <==> old(active[i].stage) == Process && failures.process >= 3
    {
      var a := active[i];
      if Owing(a) {
        lapses := lapses.(dropped := lapses.dropped.Plus(a.stage));
      }
      failures := failures.Plus(a.stage);
      active := active[i := Idle];
      if failures.At(a.stage) < JOB_ATTEMPTS {
        waiting := waiting.Plus(a.stage);
      } else if a.stage == Process {
        active := active[i := Refunder(Claim)];
      }
    }
  }
}
