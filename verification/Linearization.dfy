/** Purchases inside the whole system: however reservations, releases, sweeps, compensations,
    exceptions and crashes interleave with them, each product is one atomic counter. */
module Linearization {
  import opened Common
  import opened Reservations
  import P = Purchase
  import O = OrderPipeline
  import opened Ledger
  import C = Conservation

  /** The live stock of the abstract counter. */
  function LiveOf(s: State, pid: Pid): Option<int> {
    P.Live(Cell(s, pid), ProductOf(s, pid))
  }

  /** What `purchase` told the caller that goes on as `p`. */
  function ResultOf(p: Proc): P.Result {
    match p
    case Recording(_, _, _, remaining) => P.Ok(remaining)
    case Finished(Declined(result)) => result
    case _ => P.NotFound
  }

  /** The operation on the counter of `pid` that a call of a process completes: a purchase at
      its last step, a refund at its INCRBY. */
  function CallOps(p: Proc, f: Effect, pid: Pid): seq<P.Op> {
    if p.Buying? then
      if p.pid == pid && !f.become.Buying? then [P.Bought(p.call.qty, ResultOf(f.become))] else []
    else if f.write.Credit? && f.write.pid == pid then [P.Refunded(f.write.qty)]
    else []
  }

  function Completed(s: State, e: Event, pid: Pid): seq<P.Op>
    requires Enabled(s, e)
  {
    match e
    case Go(i, _, _) => CallOps(s.procs[i], EffectOf(s, e), pid)
    case Pipe(oid, pe) =>
      var doc := s.orders[oid];
      if doc.pid == pid && O.PaysBack(doc.life, pe) then [P.Refunded(doc.qty)] else []
    case _ => []
  }

  function Trace(s: State, es: seq<Event>, pid: Pid): seq<P.Op>
    requires Possible(s, es)
    decreases |es|
  {
    if es == [] then [] else Completed(s, es[0], pid) + Trace(Next(s, es[0]), es[1..], pid)
  }

  /** A purchase keeps what it was called for, and returns the units it took to its caller. */
  predicate Continues(p: Proc, become: Proc) {
    p.Buying? ==>
      match become
      case Buying(goal, pid, call) => goal == p.goal && pid == p.pid && call.qty == p.call.qty
      case Recording(goal, pid, qty, _) => goal == p.goal && pid == p.pid && qty == p.call.qty
      case Finished(Declined(result)) => !result.Ok?
      case _ => false
  }

  lemma BuyIsAtomic(s: State, e: Event, pid: Pid)
    requires C.WellFormed(s) && Enabled(s, e) && e.Go? && s.procs[e.i].Buying?
    ensures Continues(s.procs[e.i], Next(s, e).procs[e.i])
    ensures P.Sequential(LiveOf(s, pid), Completed(s, e, pid), LiveOf(Next(s, e), pid))
  {
    var p := s.procs[e.i];
    P.StepRefines(Cell(s, p.pid), ProductOf(s, p.pid), p.call);
  }

  lemma StepIsAtomic(s: State, e: Event, pid: Pid)
    requires C.WellFormed(s) && Enabled(s, e)
    ensures P.Sequential(LiveOf(s, pid), Completed(s, e, pid), LiveOf(Next(s, e), pid))
  {
    if e.Go? && s.procs[e.i].Buying? {
      BuyIsAtomic(s, e, pid);
    }
  }

  /** Linearizability in the whole system. For every product, the purchases and refunds that
      complete in a run, in completion order, are a sequential history of one atomic counter
      from the live stock at its start to the live stock at its end. */
  lemma {:induction false} SystemLinearizable(s: State, es: seq<Event>, pid: Pid)
    requires C.WellFormed(s) && Possible(s, es)
    ensures P.Sequential(LiveOf(s, pid), Trace(s, es, pid), LiveOf(Run(s, es), pid))
    decreases |es|
  {
    if es != [] {
      var s' := Next(s, es[0]);
      C.StepWellFormed(s, es[0]);
      StepIsAtomic(s, es[0], pid);
      SystemLinearizable(s', es[1..], pid);
      P.SequentialJoin(LiveOf(s, pid), Completed(s, es[0], pid), LiveOf(s', pid),
                       Trace(s', es[1..], pid), LiveOf(Run(s, es), pid));
    }
  }
}
