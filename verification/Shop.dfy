/** The selling system in its own form: Redis counters and Mongo documents updated in place.
    Each method is the next store call of one process, its failure, its death, or a step of an
    order's pipeline. It is proved to be the step of `Ledger` of that kind, and so to keep the
    books of every product balanced and every reservation settled. */
module Shop {
  import opened Common
  import opened Reservations
  import P = Purchase
  import O = OrderPipeline
  import opened Ledger
  import C = Conservation
  import A = Arbitration

  /** What every reachable state satisfies: calls in flight agree with the stores, each
      product's ledger adds up to its catalog stock, each hold has at most one refund. */
  ghost predicate Sound(s: State) {
    && C.WellFormed(s)
    && (forall pid :: C.Balanced(s, pid))
    && (forall rid :: A.Arbitrated(s, rid))
  }

  lemma InitiallySound(catalog: map<Pid, P.Product>)
    ensures Sound(Initial(catalog))
  {}

  lemma StepKeepsSound(s: State, e: Event)
    requires Sound(s) && Enabled(s, e)
    ensures Sound(Next(s, e))
  {
    C.StepWellFormed(s, e);
    forall pid ensures C.Balanced(Next(s, e), pid) {
      assert C.Balanced(s, pid);
      C.StepBalanced(s, e, pid);
    }
    forall rid ensures A.Arbitrated(Next(s, e), rid) {
      A.StepArbitrates(s, e, rid);
    }
  }

  /** The live stock is what is neither committed, in transit nor lost. */
  lemma SoundLive(s: State, pid: Pid)
    requires Sound(s)
    ensures pid in s.stock ==> pid in s.catalog
    ensures C.Live(s, pid) == C.Base(s, pid) - C.Committed(s, pid) - C.InTransit(s, pid) - C.Lost(s, pid)
    ensures 0 <= C.Live(s, pid) <= C.Base(s, pid)
  {
    assert C.Balanced(s, pid);
    C.ColumnsAddUp(s, pid);
  }

  class System {
    var catalog: map<Pid, P.Product>
    var stock: map<Pid, int>
    var holds: seq<Hold>
    var orders: seq<OrderDoc>
    var procs: seq<Proc>
    var lost: map<Pid, nat>

    function Snapshot(): State
      reads this
    {
      State.State(catalog, stock, holds, orders, procs, lost)
    }

    ghost predicate Valid()
      reads this
    {
      Sound(Snapshot())
    }

    constructor (catalog: map<Pid, P.Product>)
      ensures Valid() && Snapshot() == Initial(catalog)
    {
      this.catalog := catalog;
      stock, holds, orders, procs, lost := map[], [], [], [], map[];
      new;
      InitiallySound(catalog);
    }

    /** A request, or a sweep, arrives. */
    method Spawn(p: Proc)
      requires Valid() && Ledger.Fresh(p)
      modifies this`procs
      ensures Valid() && Snapshot() == Next(old(Snapshot()), Event.Spawn(p))
    {
      StepKeepsSound(Snapshot(), Event.Spawn(p));
      procs := procs + [p];
    }

    /** The number a client is shown: a product's catalog stock less what is committed, in
        transit or lost, primed or not. */
    method GetLiveStock(pid: Pid) returns (live: Option<int>)
      requires Valid()
      ensures live.Some? <==> pid in catalog
      ensures live.Some? ==>
        && live.value == catalog[pid].stock - C.Committed(Snapshot(), pid) - C.InTransit(Snapshot(), pid)
                           - C.Lost(Snapshot(), pid)
        && 0 <= live.value <= catalog[pid].stock
    {
      SoundLive(Snapshot(), pid);
      if pid in stock {
        return Some(stock[pid]);
      }
      live := if pid in catalog then Some(catalog[pid].stock) else None;
    }

    method IncrBy(pid: Pid, qty: nat)
      modifies this`stock
      ensures stock == Incr(old(stock), pid, qty)
    {
      if pid !in stock {
        stock := stock[pid := 0];
      }
      stock := stock[pid := stock[pid] + qty];
    }

    /** `purchase`: the script, the catalog read, SET NX, the script again. */
    method BuyStep(i: nat, now: int, k: nat)
      requires Valid() && Enabled(Snapshot(), Go(i, now, k)) && procs[i].Buying?
      modifies this
      ensures Valid() && Snapshot() == Next(old(Snapshot()), Go(i, now, k))
    {
      StepKeepsSound(Snapshot(), Go(i, now, k));
      var goal, pid, call := procs[i].goal, procs[i].pid, procs[i].call;
      var pc := call.pc;
      if call.pc == P.Load {
        pc := if pid in catalog && catalog[pid].active then P.SetNx(catalog[pid].stock) else P.Done(P.NotFound);
      } else if call.pc.SetNx? {
        if pid !in stock {
          stock := stock[pid := call.pc.stock];
        }
        pc := P.Retry;
      } else if pid !in stock {
        pc := if call.pc == P.Try then P.Load else P.Done(P.NotFound);
      } else if stock[pid] < call.qty {
        pc := P.Done(P.SoldOut);
      } else {
        stock := stock[pid := stock[pid] - call.qty];
        pc := P.Done(P.Decode(stock[pid]));
        assert call.qty == 0 ==> stock == old(stock);
      }
      var p := if !pc.Done? then Buying(goal, pid, call.(pc := pc))
               else if pc.result.Ok? then Recording(goal, pid, call.qty, pc.result.remaining)
               else Finished(Declined(pc.result));
      procs := procs[i := p];
    }

    /** `reserve` and `doPurchase` create their document; `reserve` gives stock back. */
    method RecordStep(i: nat, now: int, k: nat)
      requires Valid() && Enabled(Snapshot(), Go(i, now, k)) && (procs[i].Recording? || procs[i].GivingBack?)
      modifies this
      ensures Valid() && Snapshot() == Next(old(Snapshot()), Go(i, now, k))
      ensures
        var p := old(procs)[i];
        && |orders| == |old(orders)| + (if p.Recording? && p.goal == ToOrder then 1 else 0)
        && |holds| == |old(holds)| + (if p.Recording? && p.goal == ToReserve then 1 else 0)
    {
      StepKeepsSound(Snapshot(), Go(i, now, k));
      var p := procs[i];
      if p.GivingBack? {
        IncrBy(p.pid, p.qty);
        procs := procs[i := Finished(Threw)];
      } else if p.goal == ToReserve {
        procs := procs[i := Answering(Reserved(|holds|, p.remaining))];
        holds := holds + [NewHold(p.pid, p.qty, now)];
      } else {
        procs := procs[i := Answering(Ordered(|orders|, p.remaining))];
        orders := orders + [OrderDoc(p.pid, p.qty, O.Created(k))];
      }
    }

    /** `confirmReservation` up to its answer. */
    method ConfirmStep(i: nat, now: int, k: nat)
      requires Valid() && Enabled(Snapshot(), Go(i, now, k))
      requires procs[i].Confirming? || procs[i].ConfirmingAt? || procs[i].ConfirmLookup?
      modifies this`holds, this`procs
      ensures Valid() && Snapshot() == Next(old(Snapshot()), Go(i, now, k))
    {
      StepKeepsSound(Snapshot(), Go(i, now, k));
      var rid := procs[i].rid;
      if procs[i].Confirming? {
        procs := procs[i := ConfirmingAt(rid, now)];
      } else if procs[i].ConfirmLookup? {
        procs := procs[i := Finished(if rid < |holds| then SaidExpired(rid) else NoSuchHold(rid))];
      } else if rid < |holds| && holds[rid].status == Held && holds[rid].expiresAt > procs[i].now {
        holds := holds[rid := holds[rid].(status := Confirmed)];
        procs := procs[i := Answering(SaidConfirmed(rid))];
      } else {
        procs := procs[i := ConfirmLookup(rid)];
      }
    }

    /** `releaseReservation` up to its answer or its refund. */
    method ReleaseStep(i: nat, now: int, k: nat)
      requires Valid() && Enabled(Snapshot(), Go(i, now, k)) && (procs[i].Releasing? || procs[i].ReleaseLookup?)
      modifies this`holds, this`procs
      ensures Valid() && Snapshot() == Next(old(Snapshot()), Go(i, now, k))
    {
      StepKeepsSound(Snapshot(), Go(i, now, k));
      var rid := procs[i].rid;
      if procs[i].ReleaseLookup? {
        procs := procs[i := Finished(if rid < |holds| then NotHoldable(rid) else NoSuchHold(rid))];
      } else if rid < |holds| && holds[rid].status == Held {
        procs := procs[i := Refunding(rid, holds[rid].pid, holds[rid].qty, ReportRelease)];
        holds := holds[rid := holds[rid].(status := Released)];
      } else {
        procs := procs[i := ReleaseLookup(rid)];
      }
    }

    /** A sweeper reads its clock, flips the next expired hold, or stops. */
    method SweepStep(i: nat, now: int, k: nat)
      requires Valid() && Enabled(Snapshot(), Go(i, now, k)) && (procs[i].SweepStart? || procs[i].Sweeping?)
      modifies this`holds, this`procs
      ensures Valid() && Snapshot() == Next(old(Snapshot()), Go(i, now, k))
    {
      StepKeepsSound(Snapshot(), Go(i, now, k));
      if procs[i].SweepStart? {
        procs := procs[i := Sweeping(now, 0)];
        return;
      }
      var at, n := procs[i].now, procs[i].i;
      if n < MAX_PER_TICK && k < |holds| && holds[k].status == Held && holds[k].expiresAt <= at {
        procs := procs[i := Refunding(k, holds[k].pid, holds[k].qty, KeepSweeping(at, n))];
        holds := holds[k := holds[k].(status := Expired)];
      } else {
        procs := procs[i := Finished(Reclaimed(n))];
      }
    }

    /** INCRBY on behalf of a hold. */
    method PayBack(rid: Rid, pid: Pid, qty: nat)
      modifies this`stock, this`holds
      ensures Snapshot() == Written(old(Snapshot()), Credit(pid, qty, Some(rid)))
    {
      IncrBy(pid, qty);
      if rid < |holds| {
        holds := holds[rid := holds[rid].(paid := holds[rid].paid + 1)];
      }
    }

    /** The refund of a release or a sweep. */
    method RefundStep(i: nat, now: int, k: nat)
      requires Valid() && Enabled(Snapshot(), Go(i, now, k)) && procs[i].Refunding?
      modifies this`stock, this`holds, this`procs
      ensures Valid() && Snapshot() == Next(old(Snapshot()), Go(i, now, k))
    {
      StepKeepsSound(Snapshot(), Go(i, now, k));
      var p := procs[i];
      PayBack(p.rid, p.pid, p.qty);
      procs := procs[i := match p.after
                          case ReportRelease => Answering(SaidReleased(p.rid))
                          case KeepSweeping(at, n) => Sweeping(at, n + 1)];
    }

    /** The client is told what the last store call decided. */
    method AnswerStep(i: nat, now: int, k: nat)
      requires Valid() && Enabled(Snapshot(), Go(i, now, k)) && procs[i].Answering?
      modifies this`procs
      ensures Valid() && Snapshot() == Next(old(Snapshot()), Go(i, now, k))
    {
      StepKeepsSound(Snapshot(), Go(i, now, k));
      procs := procs[i := Finished(procs[i].answer)];
    }

    /** The history of what a dying process takes with it: its units, and the refund it owes. */
    method Abandon(p: Proc)
      modifies this`lost, this`holds
      ensures Snapshot() == Written(old(Snapshot()), Die(p, Died).write)
    {
      if p.Recording? || p.GivingBack? || p.Refunding? {
        lost := lost[p.pid := (if p.pid in lost then lost[p.pid] else 0) + p.qty];
      }
      if p.Refunding? && p.rid < |holds| {
        holds := holds[p.rid := holds[p.rid].(unpaid := holds[p.rid].unpaid + 1)];
      }
    }

    /** The next store call throws without landing. Only `reserve` has a handler for it. */
    method Throw(i: nat)
      requires Valid() && Enabled(Snapshot(), Event.Throw(i))
      modifies this`procs, this`lost, this`holds
      ensures Valid() && Snapshot() == Next(old(Snapshot()), Event.Throw(i))
    {
      StepKeepsSound(Snapshot(), Event.Throw(i));
      var p := procs[i];
      if p.Recording? && p.goal == ToReserve {
        procs := procs[i := GivingBack(p.pid, p.qty)];
      } else {
        Abandon(p);
        procs := procs[i := Finished(Threw)];
      }
    }

    /** The process dies. */
    method Crash(i: nat)
      requires Valid() && Enabled(Snapshot(), Event.Crash(i))
      modifies this`procs, this`lost, this`holds
      ensures Valid() && Snapshot() == Next(old(Snapshot()), Event.Crash(i))
    {
      StepKeepsSound(Snapshot(), Event.Crash(i));
      Abandon(procs[i]);
      procs := procs[i := Finished(Died)];
    }

    /** A step of an order's pipeline; a compensation's INCRBY pays the order's units back. */
    method PipeStep(oid: Oid, e: O.Event)
      requires Valid() && Enabled(Snapshot(), Pipe(oid, e))
      modifies this`orders, this`stock
      ensures Valid() && Snapshot() == Next(old(Snapshot()), Pipe(oid, e))
    {
      StepKeepsSound(Snapshot(), Pipe(oid, e));
      var doc := orders[oid];
      if O.PaysBack(doc.life, e) {
        IncrBy(doc.pid, doc.qty);
      }
      orders := orders[oid := doc.(life := O.Step(doc.life, e))];
    }
  }
}
