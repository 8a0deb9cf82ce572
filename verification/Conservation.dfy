/** Conservation of stock over every run of the selling system. */
module Conservation {
  import opened Common
  import opened Reservations
  import P = Purchase
  import O = OrderPipeline
  import opened Ledger

  // ----- what the shared state and the calls in flight must agree on -----

  predicate ProcOk(s: State, p: Proc) {
    match p
    case Buying(_, pid, call) => P.CallOk(Cell(s, pid), ProductOf(s, pid), call) && !call.pc.Done?
    case Recording(_, pid, _, _) => pid in s.stock
    case GivingBack(pid, _) => pid in s.stock
    case Refunding(rid, pid, qty, _) =>
      pid in s.stock && rid < |s.holds| && s.holds[rid].pid == pid && s.holds[rid].qty == qty
    case _ => true
  }

  predicate StockOk(s: State) {
    forall pid <- s.stock :: s.stock[pid] >= 0 && pid in s.catalog && s.catalog[pid].active
  }

  predicate HoldsOk(s: State) {
    forall i :: 0 <= i < |s.holds| ==> s.holds[i].pid in s.stock
  }

  ghost predicate OrdersOk(s: State) {
    forall i :: 0 <= i < |s.orders| ==> s.orders[i].pid in s.stock && O.Inv(s.orders[i].life)
  }

  predicate ProcsOk(s: State) {
    forall i :: 0 <= i < |s.procs| ==> ProcOk(s, s.procs[i])
  }

  ghost predicate WellFormed(s: State) {
    StockOk(s) && HoldsOk(s) && OrdersOk(s) && ProcsOk(s)
  }

  /** Counters are never removed, documents keep their product and quantity. */
  predicate Extends(s: State, s': State) {
    && s'.catalog == s.catalog
    && s.stock.Keys <= s'.stock.Keys
    && |s.holds| <= |s'.holds|
    && forall i :: 0 <= i < |s.holds| ==> s'.holds[i].pid == s.holds[i].pid && s'.holds[i].qty == s.holds[i].qty
  }

  /** A write that keeps the state well formed. */
  predicate WriteOk(s: State, w: Write) {
    match w
    case Nothing => true
    case SetCell(pid, n) => n >= 0 && pid in s.catalog && s.catalog[pid].active
    case Credit(pid, _, _) => pid in s.stock
    case InsertHold(hold) => hold.pid in s.stock
    case InsertOrder(order) => order.pid in s.stock && order.life == O.Created(order.life.spare)
    case Flip(rid, _) => rid < |s.holds|
    case Lose(pid, _, _) => pid in s.stock
  }

  lemma EffectOk(s: State, e: Event)
    requires WellFormed(s) && Enabled(s, e) && !e.Pipe? && !e.Spawn?
    ensures WriteOk(s, EffectOf(s, e).write)
    ensures ProcOk(Written(s, EffectOf(s, e).write), EffectOf(s, e).become)
  {
    var p := s.procs[e.i];
    if p.Buying? && e.Go? {
      P.StepRefines(Cell(s, p.pid), ProductOf(s, p.pid), p.call);
    }
  }

  lemma WrittenExtends(s: State, w: Write)
    requires StockOk(s) && HoldsOk(s) && OrdersOk(s) && WriteOk(s, w)
    ensures
      var s' := Written(s, w);
      StockOk(s') && HoldsOk(s') && OrdersOk(s') && Extends(s, s') && s'.procs == s.procs
  {
    forall k: nat ensures O.Inv(O.Created(k)) {
      O.CreatedInv(k);
    }
  }

  lemma ProcOkExtends(s: State, s': State, p: Proc)
    requires Extends(s, s') && StockOk(s') && ProcOk(s, p)
    ensures ProcOk(s', p)
  {}

  lemma StepWellFormed(s: State, e: Event)
    requires WellFormed(s) && Enabled(s, e)
    ensures WellFormed(Next(s, e)) && Extends(s, Next(s, e))
  {
    var s' := Next(s, e);
    match e
    case Spawn(p) =>
    case Pipe(oid, pe) =>
      O.StepKeepsInv(s.orders[oid].life, pe);
      forall i | 0 <= i < |s.procs| ensures ProcOk(s', s.procs[i]) {
        ProcOkExtends(s, s', s.procs[i]);
      }
    case _ =>
      var f := EffectOf(s, e);
      EffectOk(s, e);
      WrittenExtends(s, f.write);
      forall i | 0 <= i < |s.procs| ensures ProcOk(s', s.procs[i]) && ProcOk(s', f.become) {
        ProcOkExtends(s, s', s.procs[i]);
      }
  }

  // ----- the ledger of one product -----

  /** Catalog stock: where the counter starts when somebody primes it. */
  function Base(s: State, pid: Pid): int {
    if pid in s.catalog then s.catalog[pid].stock else 0
  }

  /** The counter, or what it will be primed with. */
  function Live(s: State, pid: Pid): int {
    if pid in s.stock then s.stock[pid] else Base(s, pid)
  }

  function ProcUnits(pid: Pid): Proc -> int {
    (p: Proc) =>
      match p
      case Recording(_, x, qty, _) => (if x == pid then qty else 0)
      case GivingBack(x, qty) => (if x == pid then qty else 0)
      case Refunding(_, x, qty, _) => (if x == pid then qty else 0)
      case _ => 0
  }

  /** An order accounts for its units until they are given back. */
  function OrderUnits(pid: Pid): OrderDoc -> int {
    (d: OrderDoc) => if d.pid == pid && d.life.refunds == 0 then d.qty else 0
  }

  /** Everything but the calls in flight. */
  ghost function Recorded(s: State, pid: Pid): int {
    Live(s, pid) + Sum(s.holds, UnitsOf(pid)) + Sum(s.orders, OrderUnits(pid)) + LostAt(s, pid)
  }

  ghost predicate Balanced(s: State, pid: Pid) {
    Recorded(s, pid) + Sum(s.procs, ProcUnits(pid)) == Base(s, pid)
  }

  /** How a write moves `Recorded`. */
  function Delta(s: State, w: Write, pid: Pid): int {
    match w
    case Nothing => 0
    case SetCell(x, n) => if x == pid then n - Live(s, pid) else 0
    case Credit(x, qty, _) => if x == pid then qty else 0
    case InsertHold(hold) => UnitsOf(pid)(hold)
    case InsertOrder(order) => OrderUnits(pid)(order)
    case Flip(rid, status) =>
      if rid < |s.holds| then UnitsOf(pid)(s.holds[rid].(status := status)) - UnitsOf(pid)(s.holds[rid]) else 0
    case Lose(x, qty, _) => if x == pid then qty else 0
  }

  /** A call's step moves units between the call and the books. */
  predicate Moves(s: State, p: Proc, f: Effect, pid: Pid) {
    ProcUnits(pid)(f.become) + Delta(s, f.write, pid) == ProcUnits(pid)(p)
  }

  lemma ActMoves(s: State, p: Proc, now: int, k: nat, pid: Pid)
    requires ProcOk(s, p) && StockOk(s) && CanAct(s, p, k)
    ensures Moves(s, p, Act(s, p, now, k), pid)
  {
    if p.Buying? {
      P.StepRefines(Cell(s, p.pid), ProductOf(s, p.pid), p.call);
    }
  }

  lemma FaultMoves(s: State, e: Event, pid: Pid)
    requires WellFormed(s) && Enabled(s, e) && (e.Throw? || e.Crash?)
    ensures Moves(s, s.procs[e.i], EffectOf(s, e), pid)
  {}

  lemma EffectBalanced(s: State, e: Event, pid: Pid)
    requires WellFormed(s) && Enabled(s, e) && !e.Pipe? && !e.Spawn?
    ensures Moves(s, s.procs[e.i], EffectOf(s, e), pid)
  {
    if e.Go? {
      ActMoves(s, s.procs[e.i], e.now, e.k, pid);
    } else {
      FaultMoves(s, e, pid);
    }
  }

  lemma SettleKeeps(holds: seq<Hold>, rid: Option<Rid>, paid: bool, pid: Pid)
    ensures Sum(Settle(holds, rid, paid), UnitsOf(pid)) == Sum(holds, UnitsOf(pid))
  {
    if rid.Some? && rid.value < |holds| {
      SumUpdate(holds, rid.value, Settle(holds, rid, paid)[rid.value], UnitsOf(pid));
    }
  }

  lemma HoldsMove(s: State, w: Write, pid: Pid)
    requires WriteOk(s, w)
    ensures Sum(Written(s, w).holds, UnitsOf(pid))
         == Sum(s.holds, UnitsOf(pid)) + (if w.InsertHold? || w.Flip? then Delta(s, w, pid) else 0)
  {
    match w
    case Credit(_, _, paying) => SettleKeeps(s.holds, paying, true, pid);
    case InsertHold(hold) => SumAppend(s.holds, hold, UnitsOf(pid));
    case Flip(rid, status) => SumUpdate(s.holds, rid, s.holds[rid].(status := status), UnitsOf(pid));
    case Lose(_, _, owing) => SettleKeeps(s.holds, owing, false, pid);
    case _ =>
  }

  lemma WrittenMoves(s: State, w: Write, pid: Pid)
    requires WriteOk(s, w)
    ensures Recorded(Written(s, w), pid) == Recorded(s, pid) + Delta(s, w, pid)
  {
    HoldsMove(s, w, pid);
    if w.InsertOrder? {
      SumAppend(s.orders, w.order, OrderUnits(pid));
    }
  }

  lemma PipeBalanced(s: State, oid: Oid, e: O.Event, pid: Pid)
    requires WellFormed(s) && Enabled(s, Pipe(oid, e))
    ensures Recorded(PipeStep(s, oid, e), pid) == Recorded(s, pid)
  {
    var doc := s.orders[oid];
    O.RefundStep(doc.life, e);
    SumUpdate(s.orders, oid, doc.(life := O.Step(doc.life, e)), OrderUnits(pid));
  }

  lemma CallBalanced(s: State, e: Event, pid: Pid)
    requires WellFormed(s) && Enabled(s, e) && !e.Pipe? && !e.Spawn?
    ensures Recorded(Next(s, e), pid) + Sum(Next(s, e).procs, ProcUnits(pid))
         == Recorded(s, pid) + Sum(s.procs, ProcUnits(pid))
  {
    var f := EffectOf(s, e);
    EffectOk(s, e);
    EffectBalanced(s, e, pid);
    WrittenMoves(s, f.write, pid);
    SumUpdate(s.procs, e.i, f.become, ProcUnits(pid));
    assert Recorded(Next(s, e), pid) == Recorded(Written(s, f.write), pid);
  }

  lemma StepBalanced(s: State, e: Event, pid: Pid)
    requires WellFormed(s) && Enabled(s, e)
    ensures Recorded(Next(s, e), pid) + Sum(Next(s, e).procs, ProcUnits(pid))
         == Recorded(s, pid) + Sum(s.procs, ProcUnits(pid))
  {
    match e
    case Spawn(p) => SumAppend(s.procs, p, ProcUnits(pid));
    case Pipe(oid, pe) => PipeBalanced(s, oid, pe, pid);
    case _ => CallBalanced(s, e, pid);
  }

  lemma {:induction false} RunWellFormed(s: State, es: seq<Event>)
    requires WellFormed(s) && Possible(s, es)
    ensures WellFormed(Run(s, es)) && Extends(s, Run(s, es))
    decreases |es|
  {
    if es != [] {
      StepWellFormed(s, es[0]);
      RunWellFormed(Next(s, es[0]), es[1..]);
    }
  }

  lemma {:induction false} RunBalanced(s: State, es: seq<Event>, pid: Pid)
    requires WellFormed(s) && Balanced(s, pid) && Possible(s, es)
    ensures WellFormed(Run(s, es)) && Balanced(Run(s, es), pid) && Extends(s, Run(s, es))
    decreases |es|
  {
    if es != [] {
      StepWellFormed(s, es[0]);
      StepBalanced(s, es[0], pid);
      RunBalanced(Next(s, es[0]), es[1..], pid);
    }
  }

  // ----- the columns -----

  /** Units of held, or of confirmed, reservations. */
  function InStatus(pid: Pid, status: HoldStatus): Hold -> int {
    (h: Hold) => if h.pid == pid && h.status == status then h.qty else 0
  }

  /** Units of orders that have not failed. */
  function Sold(pid: Pid): OrderDoc -> int {
    (d: OrderDoc) => if d.pid == pid && d.life.status != O.Failed then d.qty else 0
  }

  /** Units of failed orders whose compensation is about to pay. */
  function OwedByOrder(pid: Pid): OrderDoc -> int {
    (d: OrderDoc) =>
      if d.pid == pid && d.life.status == O.Failed && d.life.refunds == 0 && d.life.lapses.unpaid == 0 then d.qty else 0
  }

  /** Units of failed orders whose compensation died after its claim. */
  function LostByOrder(pid: Pid): OrderDoc -> int {
    (d: OrderDoc) => if d.pid == pid && d.life.lapses.unpaid > 0 then d.qty else 0
  }

  /** Units decremented by a call that has not recorded them. */
  function Unrecorded(pid: Pid): Proc -> int {
    (p: Proc) => if (p.Recording? || p.GivingBack?) && p.pid == pid then p.qty else 0
  }

  /** Units of flipped reservations whose INCRBY has not run. */
  function OwedByCall(pid: Pid): Proc -> int {
    (p: Proc) => if p.Refunding? && p.pid == pid then p.qty else 0
  }

  /** Units of failed orders that were not given back. */
  function Unreturned(pid: Pid): OrderDoc -> int {
    (d: OrderDoc) => if d.pid == pid && d.life.status == O.Failed && d.life.refunds == 0 then d.qty else 0
  }

  ghost function Committed(s: State, pid: Pid): int {
    Sum(s.holds, InStatus(pid, Held)) + Sum(s.holds, InStatus(pid, Confirmed)) + Sum(s.orders, Sold(pid))
  }

  ghost function InTransit(s: State, pid: Pid): int {
    Sum(s.procs, Unrecorded(pid)) + Sum(s.procs, OwedByCall(pid)) + Sum(s.orders, OwedByOrder(pid))
  }

  ghost function Lost(s: State, pid: Pid): int {
    LostAt(s, pid) + Sum(s.orders, LostByOrder(pid))
  }

  lemma ColumnsAddUp(s: State, pid: Pid)
    requires WellFormed(s)
    ensures Recorded(s, pid) + Sum(s.procs, ProcUnits(pid))
         == Live(s, pid) + Committed(s, pid) + InTransit(s, pid) + Lost(s, pid)
    ensures Committed(s, pid) >= 0 && InTransit(s, pid) >= 0 && Lost(s, pid) >= 0
  {
    SumPlus(s.holds, UnitsOf(pid), InStatus(pid, Held), InStatus(pid, Confirmed));
    SumPlus(s.procs, ProcUnits(pid), Unrecorded(pid), OwedByCall(pid));
    OrderColumns(s, pid);
    SumNonNegative(s.holds, InStatus(pid, Held));
    SumNonNegative(s.holds, InStatus(pid, Confirmed));
    SumNonNegative(s.procs, Unrecorded(pid));
    SumNonNegative(s.procs, OwedByCall(pid));
  }

  lemma OrderColumns(s: State, pid: Pid)
    requires OrdersOk(s)
    ensures Sum(s.orders, OrderUnits(pid))
         == Sum(s.orders, Sold(pid)) + Sum(s.orders, OwedByOrder(pid)) + Sum(s.orders, LostByOrder(pid))
    ensures Sum(s.orders, Sold(pid)) >= 0 && Sum(s.orders, OwedByOrder(pid)) >= 0
    ensures Sum(s.orders, LostByOrder(pid)) >= 0
  {
    forall i | 0 <= i < |s.orders|
      ensures OrderUnits(pid)(s.orders[i]) == Sold(pid)(s.orders[i]) + Unreturned(pid)(s.orders[i])
      ensures Unreturned(pid)(s.orders[i]) == OwedByOrder(pid)(s.orders[i]) + LostByOrder(pid)(s.orders[i])
    {
      O.RefundColumns(s.orders[i].life);
    }
    SumPlus(s.orders, OrderUnits(pid), Sold(pid), Unreturned(pid));
    SumPlus(s.orders, Unreturned(pid), OwedByOrder(pid), LostByOrder(pid));
    SumNonNegative(s.orders, Sold(pid));
    SumNonNegative(s.orders, OwedByOrder(pid));
    SumNonNegative(s.orders, LostByOrder(pid));
  }

  /** Conservation. In every reachable state of every interleaving, for every product, the
      counter (or the catalog stock it will be primed with), the held and confirmed
      reservations, the orders that have not failed, the units between two calls, the refunds
      owed and the units lost to crashes add up to the catalog stock. Hence the counter stays
      between zero and the catalog stock and the committed units never exceed it: nothing is
      oversold, whatever dies. */
  lemma StockIsConserved(catalog: map<Pid, P.Product>, es: seq<Event>, pid: Pid)
    requires Possible(Initial(catalog), es)
    ensures
      var s := Run(Initial(catalog), es);
      var total := if pid in catalog then catalog[pid].stock else 0;
      && Live(s, pid) + Committed(s, pid) + InTransit(s, pid) + Lost(s, pid) == total
      && 0 <= Live(s, pid) <= total
      && 0 <= Committed(s, pid) <= total
      && (pid in s.stock ==> pid in catalog && 0 <= s.stock[pid] <= total)
  {
    var s0 := Initial(catalog);
    RunBalanced(s0, es, pid);
    ColumnsAddUp(Run(s0, es), pid);
  }

  /** Nothing runs and every failed order has been compensated. */
  predicate AtRest(s: State) {
    && (forall i :: 0 <= i < |s.procs| ==> s.procs[i].Finished?)
    && (forall i :: 0 <= i < |s.orders| && s.orders[i].life.status == O.Failed ==> s.orders[i].life.refunds == 1)
  }

  /** Once everything has come to rest, the counter and the committed units make up the
      catalog stock, short of exactly the units the crashed calls held. */
  lemma AtRestNothingIsMissing(catalog: map<Pid, P.Product>, es: seq<Event>, pid: Pid)
    requires Possible(Initial(catalog), es) && AtRest(Run(Initial(catalog), es))
    ensures
      var s := Run(Initial(catalog), es);
      Live(s, pid) + Committed(s, pid) + LostAt(s, pid) == if pid in catalog then catalog[pid].stock else 0
  {
    var s := Run(Initial(catalog), es);
    StockIsConserved(catalog, es, pid);
    RunBalanced(Initial(catalog), es, pid);
    AtRestNothingMoves(s, pid);
  }

  lemma AtRestNothingMoves(s: State, pid: Pid)
    requires OrdersOk(s) && AtRest(s)
    ensures InTransit(s, pid) == 0 && Lost(s, pid) == LostAt(s, pid)
  {
    SumOfConstant(s.procs, Unrecorded(pid), 0);
    SumOfConstant(s.procs, OwedByCall(pid), 0);
    forall i | 0 <= i < |s.orders|
      ensures OwedByOrder(pid)(s.orders[i]) == 0 && LostByOrder(pid)(s.orders[i]) == 0
    {
      O.RefundColumns(s.orders[i].life);
    }
    SumOfConstant(s.orders, OwedByOrder(pid), 0);
    SumOfConstant(s.orders, LostByOrder(pid), 0);
  }

  lemma ActLosesNothing(s: State, p: Proc, now: int, k: nat)
    requires CanAct(s, p, k)
    ensures !Act(s, p, now, k).write.Lose?
  {}

  /** Units of `pid` that a write loses. */
  function UnitsLost(w: Write, pid: Pid): nat {
    if w.Lose? && w.pid == pid then w.qty else 0
  }

  lemma WriteLoses(s: State, w: Write, pid: Pid)
    ensures LostAt(Written(s, w), pid) == LostAt(s, pid) + UnitsLost(w, pid)
  {}

  lemma FaultLoses(s: State, e: Event, pid: Pid)
    requires Enabled(s, e) && (e.Throw? || e.Crash?)
    ensures UnitsLost(EffectOf(s, e).write, pid)
         == if e.Throw? && s.procs[e.i].Recording? && s.procs[e.i].goal == ToReserve then 0
            else ProcUnits(pid)(s.procs[e.i])
  {}

  /** A call loses units exactly when it dies holding them; of the calls that throw, only
      `reserve` with its document not created keeps them. */
  lemma LossExactly(s: State, e: Event, pid: Pid)
    requires Enabled(s, e)
    ensures
      var dies := e.Crash? || (e.Throw? && !(s.procs[e.i].Recording? && s.procs[e.i].goal == ToReserve));
      LostAt(Next(s, e), pid) - LostAt(s, pid) == if dies then ProcUnits(pid)(s.procs[e.i]) else 0
  {
    if e.Go? {
      ActLosesNothing(s, s.procs[e.i], e.now, e.k);
    } else if e.Throw? || e.Crash? {
      FaultLoses(s, e, pid);
    }
    if !e.Spawn? && !e.Pipe? {
      WriteLoses(s, EffectOf(s, e).write, pid);
    }
  }

  /** Unlike `reserve`, `doPurchase` does not give stock back when its document cannot be
      created: from any state in which an order is about to be recorded, one exception burns
      its units for good, while the same exception in `reserve` keeps them in transit. */
  lemma FailedCreateBurnsOnlyOrders(s: State, i: nat, pid: Pid)
    requires WellFormed(s) && i < |s.procs| && s.procs[i].Recording? && s.procs[i].pid == pid
    ensures
      var s', qty := Next(s, Event.Throw(i)), s.procs[i].qty;
      && Live(s', pid) == Live(s, pid) && Committed(s', pid) == Committed(s, pid)
      && Lost(s', pid) == Lost(s, pid) + (if s.procs[i].goal == ToOrder then qty else 0)
      && InTransit(s', pid) == InTransit(s, pid) - (if s.procs[i].goal == ToOrder then qty else 0)
  {
    var s' := Next(s, Event.Throw(i));
    SumUpdate(s.procs, i, s'.procs[i], Unrecorded(pid));
    SumUpdate(s.procs, i, s'.procs[i], OwedByCall(pid));
  }
}
