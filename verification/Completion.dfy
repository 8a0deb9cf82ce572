/** Every call of the selling system ends, and every order in it lives the life of
    `OrderPipeline`: what is proved of one order alone holds of each order in the shop. */
module Completion {
  import opened Common
  import opened Reservations
  import P = Purchase
  import O = OrderPipeline
  import W = PipelineWork
  import opened Ledger

  // ----- every call ends -----

  /** How many of its own steps a call can still take. */
  function StepsLeft(p: Proc): nat {
    match p
    case Buying(_, _, call) => 3 + P.StepsLeft(call.pc)
    case Recording(_, _, _, _) => 3
    case GivingBack(_, _) => 2
    case Confirming(_) => 3
    case ConfirmingAt(_, _) => 2
    case ConfirmLookup(_) => 1
    case Releasing(_) => 3
    case ReleaseLookup(_) => 1
    case SweepStart => 202
    case Sweeping(_, i) => if i < 100 then 2 * (100 - i) + 1 else 1
    case Refunding(_, _, _, KeepSweeping(_, i)) => if i < 100 then 2 * (100 - i) else 2
    case Refunding(_, _, _, ReportRelease) => 2
    case Answering(_) => 1
    case Finished(_) => 0
  }

  function ProcStepsLeft(): Proc -> int { (p: Proc) => StepsLeft(p) }

  lemma StepEnds(s: State, e: Event)
    requires Enabled(s, e) && !e.Spawn? && !e.Pipe? && !s.procs[e.i].Finished?
    ensures StepsLeft(EffectOf(s, e).become) < StepsLeft(s.procs[e.i])
  {
    var p := s.procs[e.i];
    if p.Buying? && e.Go? {
      P.CallStepEnds(Cell(s, p.pid), ProductOf(s, p.pid), p.call);
    }
  }

  /** The steps that process `i` takes in a run. */
  function OwnSteps(es: seq<Event>, i: nat): nat {
    if es == [] then 0
    else Bit((es[0].Go? || es[0].Throw? || es[0].Crash?) && es[0].i == i) + OwnSteps(es[1..], i)
  }

  lemma StepTakes(s: State, e: Event, i: nat)
    requires Enabled(s, e) && i < |s.procs|
    ensures i < |Next(s, e).procs|
    ensures OwnSteps([e], i) + StepsLeft(Next(s, e).procs[i]) <= StepsLeft(s.procs[i])
  {
    if !e.Spawn? && !e.Pipe? {
      StepEnds(s, e);
    }
  }

  /** Whatever all others do, a call ends within the steps it has left: a purchase within 7, a
      confirm or release within 3, a sweep within 202. */
  lemma {:induction false} CallsEnd(s: State, es: seq<Event>, i: nat)
    requires Possible(s, es) && i < |s.procs|
    ensures i < |Run(s, es).procs|
    ensures OwnSteps(es, i) + StepsLeft(Run(s, es).procs[i]) <= StepsLeft(s.procs[i])
    ensures StepsLeft(s.procs[i]) <= 202 && (StepsLeft(s.procs[i]) == 0 <==> s.procs[i].Finished?)
    ensures s.procs[i].Buying? ==> StepsLeft(s.procs[i]) <= 7
    ensures s.procs[i].Confirming? || s.procs[i].Releasing? ==> StepsLeft(s.procs[i]) == 3
    decreases |es|
  {
    if es != [] {
      StepTakes(s, es[0], i);
      CallsEnd(Next(s, es[0]), es[1..], i);
    }
  }

  /** A call in flight always has a next step that succeeds. */
  lemma CanStep(s: State, i: nat, now: int) returns (k: nat)
    requires i < |s.procs| && !s.procs[i].Finished?
    requires s.procs[i].Buying? ==> !s.procs[i].call.pc.Done?
    ensures Enabled(s, Go(i, now, k))
  {
    k := 0;
    if s.procs[i].Sweeping? {
      var at := s.procs[i].now;
      if j: nat :| j < |s.holds| && Sweepable(s.holds[j], at) {
        k := j;
      }
    }
  }

  predicate AllCanStep(s: State) {
    forall i :: 0 <= i < |s.procs| && s.procs[i].Buying? ==> !s.procs[i].call.pc.Done?
  }

  lemma GoKeepsCanStep(s: State, e: Event)
    requires AllCanStep(s) && Enabled(s, e) && e.Go?
    ensures AllCanStep(Next(s, e))
  {}

  /** From any state all calls in flight can be answered without a fault, at any times. */
  lemma {:induction false} AllCanEnd(s: State, now: int) returns (es: seq<Event>)
    requires AllCanStep(s)
    ensures Possible(s, es) && forall e <- es :: e.Go?
    ensures forall p <- Run(s, es).procs :: p.Finished?
    decreases Sum(s.procs, ProcStepsLeft())
  {
    if i :| 0 <= i < |s.procs| && !s.procs[i].Finished? {
      var k := CanStep(s, i, now);
      var e := Go(i, now, k);
      StepEnds(s, e);
      GoKeepsCanStep(s, e);
      SumUpdate(s.procs, i, EffectOf(s, e).become, ProcStepsLeft());
      SumNonNegative(Next(s, e).procs, ProcStepsLeft());
      var rest := AllCanEnd(Next(s, e), now);
      es := [e] + rest;
      assert es[1..] == rest;
    } else {
      es := [];
    }
  }

  // ----- every order is an order of the pipeline -----

  /** The pipeline events of one order. */
  function PipeEvents(es: seq<Event>, oid: Oid): seq<O.Event> {
    if es == [] then []
    else (if es[0].Pipe? && es[0].oid == oid then [es[0].e] else []) + PipeEvents(es[1..], oid)
  }

  /** Only its own pipeline events move an order. */
  lemma OrderSteps(s: State, e: Event, oid: Oid)
    requires Enabled(s, e) && oid < |s.orders|
    ensures
      var s', mine := Next(s, e), e.Pipe? && e.oid == oid;
      && oid < |s'.orders|
      && (mine ==> O.Enabled(s.orders[oid].life, e.e))
      && s'.orders[oid] == if mine then s.orders[oid].(life := O.Step(s.orders[oid].life, e.e)) else s.orders[oid]
  {
    if !e.Spawn? && !e.Pipe? {
      assert Written(s, EffectOf(s, e).write).orders == Next(s, e).orders;
    }
  }

  lemma {:induction false} OrderRuns(s: State, es: seq<Event>, oid: Oid)
    requires Possible(s, es) && oid < |s.orders|
    ensures oid < |Run(s, es).orders|
    ensures O.Possible(s.orders[oid].life, PipeEvents(es, oid))
    ensures Run(s, es).orders[oid] == s.orders[oid].(life := O.Run(s.orders[oid].life, PipeEvents(es, oid)))
    decreases |es|
  {
    if es != [] {
      OrderSteps(s, es[0], oid);
      OrderRuns(Next(s, es[0]), es[1..], oid);
      PipeCons(es, oid);
    }
  }

  lemma PipeCons(es: seq<Event>, oid: Oid)
    requires es != []
    ensures
      var all, rest := PipeEvents(es, oid), PipeEvents(es[1..], oid);
      if es[0].Pipe? && es[0].oid == oid then all != [] && all[0] == es[0].e && all[1..] == rest else all == rest
  {}

  /** Every order that a run creates is created pending, with its purchase about to enqueue it,
      and from then on runs through the pipeline: all its theorems hold of it. */
  lemma {:induction false} OrdersLivePipelineLives(s: State, es: seq<Event>, oid: Oid)
      returns (spare: nat, oes: seq<O.Event>)
    requires Possible(s, es) && |s.orders| <= oid < |Run(s, es).orders|
    ensures O.Possible(O.Created(spare), oes) && Run(s, es).orders[oid].life == O.Run(O.Created(spare), oes)
    decreases |es|
  {
    var s' := Next(s, es[0]);
    if oid < |s'.orders| {
      NewOrderIsCreated(s, es[0], oid);
      OrderRuns(s', es[1..], oid);
      spare, oes := s'.orders[oid].life.spare, PipeEvents(es[1..], oid);
    } else {
      spare, oes := OrdersLivePipelineLives(s', es[1..], oid);
    }
  }

  lemma NewOrderIsCreated(s: State, e: Event, oid: Oid)
    requires Enabled(s, e) && |s.orders| <= oid < |Next(s, e).orders|
    ensures e.Go? && Next(s, e).orders[oid].life == O.Created(e.k)
  {}

  /** Orders in the shop are safe: whatever buyers, reservations and sweeps do meanwhile, each
      moves along the one path, fails only after three payment attempts threw, and its stock is
      given back at most once and only if it failed. */
  lemma OrdersAreSafe(catalog: map<Pid, P.Product>, es: seq<Event>, oid: Oid)
    requires Possible(Initial(catalog), es) && oid < |Run(Initial(catalog), es).orders|
    ensures
      var o := Run(Initial(catalog), es).orders[oid].life;
      && (o.past <= [O.Pending, O.Paid, O.Fulfilled, O.Confirmed] || o.past == [O.Pending, O.Failed])
      && (forall stage: O.Stage :: o.enqueued.At(stage) <= 1)
      && (o.status == O.Failed ==> o.failures.process >= 3)
      && o.refunds <= 1 && (o.refunds == 1 ==> o.status == O.Failed)
  {
    var spare, oes := OrdersLivePipelineLives(Initial(catalog), es, oid);
    O.PipelineSafety(spare, oes);
    O.CompensationExact(spare, oes, []);
    W.RunCompensates(O.Created(spare), oes);
  }
}
