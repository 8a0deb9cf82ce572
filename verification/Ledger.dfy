/** The whole selling system as one state machine: the Redis counters, the reservation and
    order documents, and every call in flight.

    Buyers, reservers, confirmers, releasers, the two sweepers and the order pipeline
    interleave at the granularity of one store call. A clock is read in its own step before
    the update that uses it, and may show anything. A call may throw without landing and a
    process may die between any two calls. */
module Ledger {
  import opened Common
  import opened Reservations
  import opened P = Purchase
  import O = OrderPipeline

  type Rid = nat
  type Oid = nat

  datatype OrderDoc = OrderDoc(pid: Pid, qty: nat, life: O.Order)

  /** Why `purchase` was called: by `reserve` or by `doPurchase`. */
  datatype Goal = ToReserve | ToOrder

  datatype Answer =
    | Declined(result: Result)
    | Reserved(rid: Rid, remaining: int)
    | Ordered(oid: Oid, remaining: int)
    | SaidConfirmed(rid: Rid)
    | SaidExpired(rid: Rid)
    | SaidReleased(rid: Rid)
    | NotHoldable(rid: Rid)
    | NoSuchHold(rid: Rid)
    | Reclaimed(count: nat)
    | Threw
    | Died

  /** What a refunder does after its INCRBY. */
  datatype After = ReportRelease | KeepSweeping(now: int, i: nat)

  /** A call in flight, by where it stands. */
  datatype Proc =
    | Buying(goal: Goal, pid: Pid, call: Call)           // inside `purchase`
    | Recording(goal: Goal, pid: Pid, qty: nat, remaining: int) // stock taken, document not yet created
    | GivingBack(pid: Pid, qty: nat)                     // `reserve` compensating a failed create
    | Confirming(rid: Rid)                               // about to read the clock
    | ConfirmingAt(rid: Rid, now: int)                   // about to compare-and-set
    | ConfirmLookup(rid: Rid)
    | Releasing(rid: Rid)
    | ReleaseLookup(rid: Rid)
    | SweepStart                                         // about to read the clock
    | Sweeping(now: int, i: nat)                         // about to look for an expired hold
    | Refunding(rid: Rid, pid: Pid, qty: nat, after: After) // status flipped, INCRBY not run
    | Answering(answer: Answer)                          // the last write landed, the client not yet told
    | Finished(answer: Answer)

  datatype State = State(
    catalog: map<Pid, Product>,
    stock: map<Pid, int>,         // the Redis counters
    holds: seq<Hold>,             // documents, indexed by id; never deleted
    orders: seq<OrderDoc>,
    procs: seq<Proc>,
    lost: map<Pid, nat>           // history: units no document and no caller accounts for
  )

  function Cell(s: State, pid: Pid): Option<int> {
    Get(s.stock, pid)
  }

  function ProductOf(s: State, pid: Pid): Option<Product> {
    Get(s.catalog, pid)
  }

  /** What one store call writes, besides the state of its caller. */
  datatype Write =
    | Nothing
    | SetCell(pid: Pid, n: int)                          // the buy script, or SET NX landing
    | Credit(pid: Pid, qty: nat, paying: Option<Rid>)    // INCRBY, maybe for a hold
    | InsertHold(hold: Hold)
    | InsertOrder(order: OrderDoc)
    | Flip(rid: Rid, status: HoldStatus)                 // a reservation compare-and-set
    | Lose(pid: Pid, qty: nat, owing: Option<Rid>)       // nobody will ever return these units

  datatype Effect = Effect(become: Proc, write: Write)

  predicate Fresh(p: Proc) {
    match p
    case Buying(_, _, call) => call.pc == Try
    case Confirming(_) => true
    case Releasing(_) => true
    case SweepStart => true
    case _ => false
  }

  /** `k` is the document that the sweeper's query returns; it may return none only if none
      matches. */
  predicate CanAct(s: State, p: Proc, k: nat) {
    match p
    case Finished(_) => false
    case Buying(_, _, call) => !call.pc.Done?
    case Sweeping(now, i) =>
      i < MAX_PER_TICK ==>
        || (k < |s.holds| && Sweepable(s.holds[k], now))
        || (forall j :: 0 <= j < |s.holds| ==> !Sweepable(s.holds[j], now))
    case _ => true
  }

  function BuyEffect(s: State, goal: Goal, pid: Pid, call: Call): Effect
    requires !call.pc.Done?
  {
    var (cell, call') := CallStep(Cell(s, pid), ProductOf(s, pid), call);
    Effect(if !call'.pc.Done? then Buying(goal, pid, call')
           else if call'.pc.result.Ok? then Recording(goal, pid, call.qty, call'.pc.result.remaining)
           else Finished(Declined(call'.pc.result)),
           if cell == Cell(s, pid) || cell.None? then Nothing else SetCell(pid, cell.value))
  }

  /** The next store call of `p` succeeds. `now` is what its clock shows, if it reads one;
      `k` is the document found by a sweep, or the redelivery budget of a new order. */
  function Act(s: State, p: Proc, now: int, k: nat): Effect
    requires CanAct(s, p, k)
  {
    match p
    case Buying(goal, pid, call) => BuyEffect(s, goal, pid, call)
    case Recording(ToReserve, pid, qty, remaining) =>
      Effect(Answering(Reserved(|s.holds|, remaining)), InsertHold(NewHold(pid, qty, now)))
    case Recording(ToOrder, pid, qty, remaining) =>
      Effect(Answering(Ordered(|s.orders|, remaining)), InsertOrder(OrderDoc(pid, qty, O.Created(k))))
    case GivingBack(pid, qty) => Effect(Finished(Threw), Credit(pid, qty, None))
    case Confirming(rid) => Effect(ConfirmingAt(rid, now), Nothing)
    case ConfirmingAt(rid, at) =>
      if rid < |s.holds| && Confirmable(s.holds[rid], at)
      then Effect(Answering(SaidConfirmed(rid)), Flip(rid, Confirmed))
      else Effect(ConfirmLookup(rid), Nothing)
    case ConfirmLookup(rid) =>
      Effect(Finished(if rid < |s.holds| then SaidExpired(rid) else NoSuchHold(rid)), Nothing)
    case Releasing(rid) =>
      if rid < |s.holds| && Releasable(s.holds[rid])
      then Effect(Refunding(rid, s.holds[rid].pid, s.holds[rid].qty, ReportRelease), Flip(rid, Released))
      else Effect(ReleaseLookup(rid), Nothing)
    case ReleaseLookup(rid) =>
      Effect(Finished(if rid < |s.holds| then NotHoldable(rid) else NoSuchHold(rid)), Nothing)
    case SweepStart => Effect(Sweeping(now, 0), Nothing)
    case Sweeping(at, i) =>
      if i < MAX_PER_TICK && k < |s.holds| && Sweepable(s.holds[k], at)
      then Effect(Refunding(k, s.holds[k].pid, s.holds[k].qty, KeepSweeping(at, i)), Flip(k, Expired))
      else Effect(Finished(Reclaimed(i)), Nothing)
    case Refunding(rid, pid, qty, after) =>
      Effect(match after
             case ReportRelease => Answering(SaidReleased(rid))
             case KeepSweeping(at, i) => Sweeping(at, i + 1),
             Credit(pid, qty, Some(rid)))
    case Answering(answer) => Effect(Finished(answer), Nothing)
    case Finished(_) => Effect(p, Nothing)
  }

  /** The process running `p` dies. Units it holds are gone. */
  function Die(p: Proc, answer: Answer): Effect {
    Effect(Finished(answer),
           match p
           case Recording(_, pid, qty, _) => Lose(pid, qty, None)
           case GivingBack(pid, qty) => Lose(pid, qty, None)
           case Refunding(rid, pid, qty, _) => Lose(pid, qty, Some(rid))
           case _ => Nothing)
  }

  /** The next store call of `p` throws without landing. Only `reserve` compensates:
      `doPurchase` has no handler around the creation of the order. */
  function Fail(p: Proc): Effect {
    match p
    case Recording(ToReserve, pid, qty, _) => Effect(GivingBack(pid, qty), Nothing)
    case _ => Die(p, Threw)
  }

  datatype Event =
    | Spawn(p: Proc)
    | Go(i: nat, now: int, k: nat)
    | Throw(i: nat)
    | Crash(i: nat)
    | Pipe(oid: Oid, e: O.Event)

  predicate Enabled(s: State, e: Event) {
    match e
    case Spawn(p) => Fresh(p)
    case Go(i, _, k) => i < |s.procs| && CanAct(s, s.procs[i], k)
    case Throw(i) => i < |s.procs| && !s.procs[i].Finished?
    case Crash(i) => i < |s.procs| && !s.procs[i].Finished?
    case Pipe(oid, e) => oid < |s.orders| && O.Enabled(s.orders[oid].life, e)
  }

  function EffectOf(s: State, e: Event): Effect
    requires Enabled(s, e) && !e.Pipe? && !e.Spawn?
  {
    match e
    case Go(i, now, k) => Act(s, s.procs[i], now, k)
    case Throw(i) => Fail(s.procs[i])
    case Crash(i) => Die(s.procs[i], Died)
  }

  function LostAt(s: State, pid: Pid): nat { if pid in s.lost then s.lost[pid] else 0 }

  /** INCRBY creates a missing counter at zero. */
  function Incr(stock: map<Pid, int>, pid: Pid, qty: nat): map<Pid, int> {
    stock[pid := (if pid in stock then stock[pid] else 0) + qty]
  }

  function Settle(holds: seq<Hold>, rid: Option<Rid>, paid: bool): seq<Hold> {
    if rid.None? || rid.value >= |holds| then holds
    else var h := holds[rid.value];
      holds[rid.value := if paid then h.(paid := h.paid + 1) else h.(unpaid := h.unpaid + 1)]
  }

  function Written(s: State, w: Write): State {
    match w
    case Nothing => s
    case SetCell(pid, n) => s.(stock := s.stock[pid := n])
    case Credit(pid, qty, paying) =>
      s.(stock := Incr(s.stock, pid, qty), holds := Settle(s.holds, paying, true))
    case InsertHold(hold) => s.(holds := s.holds + [hold])
    case InsertOrder(order) => s.(orders := s.orders + [order])
    case Flip(rid, status) =>
      if rid < |s.holds| then s.(holds := s.holds[rid := s.holds[rid].(status := status)]) else s
    case Lose(pid, qty, owing) =>
      s.(lost := s.lost[pid := LostAt(s, pid) + qty], holds := Settle(s.holds, owing, false))
  }

  /** A pipeline step; the one that pays back runs INCRBY. */
  function PipeStep(s: State, oid: Oid, e: O.Event): State
    requires Enabled(s, Pipe(oid, e))
  {
    var doc := s.orders[oid];
    s.(orders := s.orders[oid := doc.(life := O.Step(doc.life, e))],
       stock := if O.PaysBack(doc.life, e) then Incr(s.stock, doc.pid, doc.qty) else s.stock)
  }

  function Next(s: State, e: Event): State
    requires Enabled(s, e)
  {
    match e
    case Spawn(p) => s.(procs := s.procs + [p])
    case Pipe(oid, pe) => PipeStep(s, oid, pe)
    case _ =>
      var f := EffectOf(s, e);
      Written(s, f.write).(procs := s.procs[e.i := f.become])
  }

  predicate Possible(s: State, es: seq<Event>)
    decreases |es|
  {
    es == [] || (Enabled(s, es[0]) && Possible(Next(s, es[0]), es[1..]))
  }

  function Run(s: State, es: seq<Event>): State
    requires Possible(s, es)
    decreases |es|
  {
    if es == [] then s else Run(Next(s, es[0]), es[1..])
  }

  function Initial(catalog: map<Pid, Product>): State {
    State.State(catalog, map[], [], [], [], map[])
  }
}
