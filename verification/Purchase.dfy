/** The stock counter of one product and the `purchase` calls racing on it.

    A call is a sequence of atomic store calls: the buy script, and, when the counter is
    missing, one catalog read, one SET NX and the buy script again. Any number of calls
    interleave, so a call is a program counter and one event runs one atomic step of one
    call. `Refund` is an INCRBY by somebody else (a release, a sweep, a compensation). */
module Purchase {
  import opened Common

  datatype Product = Product(stock: nat, active: bool)

  datatype Result = Ok(remaining: int) | SoldOut | NotFound

  datatype Pc = Try | Load | SetNx(stock: nat) | Retry | Done(result: Result)

  datatype Call = Call(qty: nat, pc: Pc)

  const SOLD_OUT := -1
  const NOT_PRIMED := -2

  /** BUY_LUA: the new counter and the script's integer reply. */
  function BuyLua(cell: Option<int>, qty: nat): (Option<int>, int) {
    match cell
    case None => (cell, NOT_PRIMED)
    case Some(stock) =>
      if stock < qty then (cell, SOLD_OUT) else (Some(stock - qty), stock - qty)
  }

  /** How `purchase` reads a reply that it does not retry. */
  function Decode(reply: int): Result {
    if reply == NOT_PRIMED then NotFound
    else if reply == SOLD_OUT then SoldOut
    else Ok(reply)
  }

  /** One atomic step of one call, against the counter and the catalog record. */
  function CallStep(cell: Option<int>, product: Option<Product>, c: Call): (Option<int>, Call)
    requires !c.pc.Done?
  {
    match c.pc
    case Try =>
      var (cell', reply) := BuyLua(cell, c.qty);
      (cell', c.(pc := if reply == NOT_PRIMED then Load else Done(Decode(reply))))
    case Load =>
      if product.None? || !product.value.active then (cell, c.(pc := Done(NotFound)))
      else (cell, c.(pc := SetNx(product.value.stock)))
    case SetNx(stock) =>
      (if cell.None? then Some(stock) else cell, c.(pc := Retry))
    case Retry =>
      var (cell', reply) := BuyLua(cell, c.qty);
      (cell', c.(pc := Done(Decode(reply))))
  }

  // ----- the abstract object: one counter that starts at the catalog stock -----

  /** The live stock of a product: the counter once primed, the catalog stock before. */
  function Live(cell: Option<int>, product: Option<Product>): Option<int> {
    if cell.Some? then cell
    else if product.Some? && product.value.active then Some(product.value.stock)
    else None
  }

  /** What one indivisible purchase does to the live stock. */
  function AtomicBuy(live: Option<int>, qty: nat): (Option<int>, Result) {
    match live
    case None => (None, NotFound)
    case Some(n) => if n < qty then (live, SoldOut) else (Some(n - qty), Ok(n - qty))
  }

  /** What a call must know about the shared state at each program counter. */
  predicate CallOk(cell: Option<int>, product: Option<Product>, c: Call) {
    && (c.pc.Load? && cell.Some? ==> product.Some? && product.value.active)
    && (c.pc.SetNx? ==> product == Some(Product(c.pc.stock, true)))
    && (c.pc.Retry? ==> cell.Some?)
  }

  predicate CellOk(cell: Option<int>) {
    cell.Some? ==> cell.value >= 0
  }

  /** One step of a call either leaves the live stock alone or is the atomic purchase,
      result included. Priming never changes the live stock. */
  lemma StepRefines(cell: Option<int>, product: Option<Product>, c: Call)
    requires !c.pc.Done? && CallOk(cell, product, c) && CellOk(cell)
    ensures
      var (cell', c') := CallStep(cell, product, c);
      && c'.qty == c.qty && CallOk(cell', product, c') && CellOk(cell')
      && (cell.Some? ==> cell'.Some?)
      && (cell'.Some? && cell.None? ==> product.Some? && product.value.active)
      && if c'.pc.Done?
         then (Live(cell', product), c'.pc.result) == AtomicBuy(Live(cell, product), c.qty)
         else Live(cell', product) == Live(cell, product)
  {
    // the result of the script is never one of its own error codes by accident
    var (cell', reply) := BuyLua(cell, c.qty);
    assert cell'.Some? && cell'.value != cell.value ==> reply >= 0;
  }

  // ----- all interleavings -----

  datatype State = State(cell: Option<int>, product: Option<Product>, calls: seq<Call>)

  datatype Event = Step(i: nat) | Refund(qty: nat)

  predicate Enabled(s: State, e: Event) {
    match e
    case Step(i) => i < |s.calls| && !s.calls[i].pc.Done?
    case Refund(_) => s.cell.Some?
  }

  function Next(s: State, e: Event): State
    requires Enabled(s, e)
  {
    match e
    case Step(i) =>
      var (cell', c') := CallStep(s.cell, s.product, s.calls[i]);
      s.(cell := cell', calls := s.calls[i := c'])
    case Refund(qty) => s.(cell := Some(s.cell.value + qty))
  }

  predicate Possible(s: State, es: seq<Event>)
    decreases |es|
  {
    es == [] || (Enabled(s, es[0]) && Possible(Next(s, es[0]), es[1..]))
  }

  function Run(s: State, es: seq<Event>): State
    requires Possible(s, es)
    decreases |es|
  {
    if es == [] then s else Run(Next(s, es[0]), es[1..])
  }

  predicate Inv(s: State) {
    CellOk(s.cell) && forall i :: 0 <= i < |s.calls| ==> CallOk(s.cell, s.product, s.calls[i])
  }

  /** An operation on the abstract counter, in the order in which calls completed. */
  datatype Op = Bought(qty: nat, result: Result) | Refunded(qty: nat)

  function Completed(s: State, e: Event): seq<Op>
    requires Enabled(s, e)
  {
    match e
    case Step(i) =>
      var c := Next(s, e).calls[i];
      if c.pc.Done? then [Bought(c.qty, c.pc.result)] else []
    case Refund(qty) => [Refunded(qty)]
  }

  function Trace(s: State, es: seq<Event>): seq<Op>
    requires Possible(s, es)
    decreases |es|
  {
    if es == [] then [] else Completed(s, es[0]) + Trace(Next(s, es[0]), es[1..])
  }

  /** `ops` is a sequential history of the atomic counter from `before` to `after`. */
  predicate Sequential(before: Option<int>, ops: seq<Op>, after: Option<int>)
    decreases |ops|
  {
    if ops == [] then before == after
    else match ops[0]
      case Bought(qty, result) =>
        var (next, expected) := AtomicBuy(before, qty);
        result == expected && Sequential(next, ops[1..], after)
      case Refunded(qty) =>
        before.Some? && Sequential(Some(before.value + qty), ops[1..], after)
  }

  lemma {:induction false} SequentialJoin(before: Option<int>, ops: seq<Op>, middle: Option<int>,
                                          rest: seq<Op>, after: Option<int>)
    requires Sequential(before, ops, middle) && Sequential(middle, rest, after)
    ensures Sequential(before, ops + rest, after)
    decreases |ops|
  {
    if ops == [] {
      assert ops + rest == rest;
    } else {
      assert (ops + rest)[0] == ops[0] && (ops + rest)[1..] == ops[1..] + rest;
      var next := if ops[0].Bought? then AtomicBuy(before, ops[0].qty).0 else Some(before.value + ops[0].qty);
      SequentialJoin(next, ops[1..], middle, rest, after);
    }
  }

  lemma StepKeepsInv(s: State, e: Event)
    requires Inv(s) && Enabled(s, e)
    ensures Inv(Next(s, e))
    ensures Next(s, e).product == s.product && |Next(s, e).calls| == |s.calls|
  {
    if e.Step? {
      StepRefines(s.cell, s.product, s.calls[e.i]);
    }
  }

  /** Linearizability. Whatever the interleaving, including many callers that see a missing
      counter and prime it late, the completed calls in completion order are a sequential
      history of one atomic counter that starts at the live stock. Every call takes effect
      at its own last step, so the history also respects real time. */
  lemma {:induction false} Linearizable(s: State, es: seq<Event>)
    requires Inv(s) && Possible(s, es)
    ensures Inv(Run(s, es))
    ensures Sequential(Live(s.cell, s.product), Trace(s, es),
                       Live(Run(s, es).cell, s.product))
    decreases |es|
  {
    if es != [] {
      var s' := Next(s, es[0]);
      StepKeepsInv(s, es[0]);
      Linearizable(s', es[1..]);
      if es[0].Step? {
        StepRefines(s.cell, s.product, s.calls[es[0].i]);
      }
      var done, rest := Completed(s, es[0]), Trace(s', es[1..]);
      SequentialJoin(Live(s.cell, s.product), done, Live(s'.cell, s.product), rest,
                     Live(Run(s, es).cell, s.product));
    }
  }

  // ----- every call ends -----

  /** How many of its own steps a call can still take. */
  function StepsLeft(pc: Pc): nat {
    match pc case Try => 4 case Load => 3 case SetNx(_) => 2 case Retry => 1 case Done(_) => 0
  }

  function CallStepsLeft(): Call -> int { (c: Call) => StepsLeft(c.pc) }

  lemma CallStepEnds(cell: Option<int>, product: Option<Product>, c: Call)
    requires !c.pc.Done?
    ensures StepsLeft(CallStep(cell, product, c).1.pc) < StepsLeft(c.pc)
  {}

  /** The steps that call `i` takes in a run. */
  function OwnSteps(es: seq<Event>, i: nat): nat {
    if es == [] then 0 else Bit(es[0] == Step(i)) + OwnSteps(es[1..], i)
  }

  lemma {:induction false} RunStepsLeft(s: State, es: seq<Event>, i: nat)
    requires Possible(s, es) && i < |s.calls|
    ensures i < |Run(s, es).calls|
    ensures OwnSteps(es, i) + StepsLeft(Run(s, es).calls[i].pc) <= StepsLeft(s.calls[i].pc)
    decreases |es|
  {
    if es != [] {
      if es[0].Step? {
        CallStepEnds(s.cell, s.product, s.calls[es[0].i]);
      }
      RunStepsLeft(Next(s, es[0]), es[1..], i);
    }
  }

  /** Whatever the others do, a call takes at most four store calls, and is answered by the
      fourth at the latest. */
  lemma CallsEnd(s: State, es: seq<Event>, i: nat)
    requires Possible(s, es) && i < |s.calls| && s.calls[i].pc == Try
    ensures OwnSteps(es, i) <= 4
    ensures OwnSteps(es, i) == 4 ==> i < |Run(s, es).calls| && Run(s, es).calls[i].pc.Done?
  {
    RunStepsLeft(s, es, i);
  }

  /** From any state the calls in flight can all be answered. */
  lemma {:induction false} CanComplete(s: State) returns (es: seq<Event>)
    ensures Possible(s, es) && (forall e <- es :: e.Step?)
    ensures |Run(s, es).calls| == |s.calls|
    ensures forall i :: 0 <= i < |s.calls| ==> Run(s, es).calls[i].pc.Done?
    decreases Sum(s.calls, CallStepsLeft())
  {
    if i :| 0 <= i < |s.calls| && !s.calls[i].pc.Done? {
      var s' := Next(s, Step(i));
      CallStepEnds(s.cell, s.product, s.calls[i]);
      SumUpdate(s.calls, i, s'.calls[i], CallStepsLeft());
      SumNonNegative(s'.calls, CallStepsLeft());
      var rest := CanComplete(s');
      es := [Step(i)] + rest;
      assert es[1..] == rest;
    } else {
      es := [];
    }
  }

  // ----- exact sell-out -----

  /** 1 for a call that succeeded, else 0. */
  function Succeeded(): Call -> int {
    (c: Call) => if c.pc.Done? && c.pc.result.Ok? then 1 else 0
  }

  /** 1 for a call that succeeded and was told that `v` units remain, else 0. */
  function ToldRemaining(v: int): Call -> int {
    (c: Call) => if c.pc == Done(Ok(v)) then 1 else 0
  }

  /** What one call of the sale may have been told after `sold` units went out. */
  predicate SellerOk(c: Call, stock: nat, sold: nat) {
    && c.qty == 1
    && c.pc != Done(NotFound)
    && (c.pc == Done(SoldOut) ==> sold == stock)
  }

  /** The sale so far: `sold` units went out, each with its own remaining value, and nobody
      was told "sold out" before the counter reached zero. */
  ghost predicate Selling(s: State, stock: nat, sold: nat) {
    && Inv(s)
    && sold <= stock && Live(s.cell, s.product) == Some(stock - sold)
    && Sum(s.calls, Succeeded()) == sold
    && (forall v :: Sum(s.calls, ToldRemaining(v)) == if stock - sold <= v < stock then 1 else 0)
    && forall i :: 0 <= i < |s.calls| ==> SellerOk(s.calls[i], stock, sold)
  }

  lemma SellingStep(s: State, e: Event, stock: nat, sold: nat) returns (sold': nat)
    requires Selling(s, stock, sold) && Enabled(s, e) && e.Step?
    ensures Selling(Next(s, e), stock, sold')
  {
    StepKeepsInv(s, e);
    StepRefines(s.cell, s.product, s.calls[e.i]);
    var c' := Next(s, e).calls[e.i];
    sold' := sold + Succeeded()(c');
    SumUpdate(s.calls, e.i, c', Succeeded());
    forall v ensures Sum(Next(s, e).calls, ToldRemaining(v)) == if stock - sold' <= v < stock then 1 else 0 {
      SumUpdate(s.calls, e.i, c', ToldRemaining(v));
    }
  }

  lemma {:induction false} SellingRun(s: State, es: seq<Event>, stock: nat, sold: nat) returns (sold': nat)
    requires Selling(s, stock, sold) && Possible(s, es) && forall e <- es :: e.Step?
    ensures Selling(Run(s, es), stock, sold') && |Run(s, es).calls| == |s.calls|
    decreases |es|
  {
    if es == [] {
      sold' := sold;
    } else {
      StepKeepsInv(s, es[0]);
      var k := SellingStep(s, es[0], stock, sold);
      sold' := SellingRun(Next(s, es[0]), es[1..], stock, k);
    }
  }

  lemma {:induction false} SuccessesAtMostAll(calls: seq<Call>)
    ensures Sum(calls, Succeeded()) <= |calls|
  {
    if calls != [] {
      SuccessesAtMostAll(calls[..|calls| - 1]);
    }
  }

  /** N callers of one unit each against a live stock of S, primed or not, and no refunds:
      every complete schedule ends with exactly min(N, S) successes, their `remaining` values are exactly
      S - min(N, S) .. S - 1, each told to one caller, and every other caller is told
      "sold out". */
  lemma ExactSellOut(s: State, es: seq<Event>, stock: nat)
    requires CellOk(s.cell) && Live(s.cell, s.product) == Some(stock)
    requires forall i :: 0 <= i < |s.calls| ==> s.calls[i] == Call(1, Try)
    requires Possible(s, es) && forall e <- es :: e.Step?
    requires forall i :: 0 <= i < |Run(s, es).calls| ==> Run(s, es).calls[i].pc.Done?
    ensures
      var end, k := Run(s, es), Min(|s.calls|, stock);
      && |end.calls| == |s.calls|
      && Sum(end.calls, Succeeded()) == k
      && (forall v :: Sum(end.calls, ToldRemaining(v)) == if stock - k <= v < stock then 1 else 0)
      && (forall i :: 0 <= i < |end.calls| ==> end.calls[i].pc.result.Ok? || end.calls[i].pc.result == SoldOut)
      && Live(end.cell, end.product) == Some(stock - k)
  {
    SumOfConstant(s.calls, Succeeded(), 0);
    forall v ensures Sum(s.calls, ToldRemaining(v)) == 0 {
      SumOfConstant(s.calls, ToldRemaining(v), 0);
    }
    var sold := SellingRun(s, es, stock, 0);
    var end := Run(s, es);
    SuccessesAtMostAll(end.calls);
    if forall i :: 0 <= i < |end.calls| ==> end.calls[i].pc.result.Ok? {
      SumOfConstant(end.calls, Succeeded(), 1);
    }
  }

  /** The sale can always be run to its end, and then it has sold out exactly. */
  lemma SellOutHappens(s: State, stock: nat) returns (es: seq<Event>)
    requires CellOk(s.cell) && Live(s.cell, s.product) == Some(stock)
    requires forall i :: 0 <= i < |s.calls| ==> s.calls[i] == Call(1, Try)
    ensures Possible(s, es) && Sum(Run(s, es).calls, Succeeded()) == Min(|s.calls|, stock)
  {
    es := CanComplete(s);
    ExactSellOut(s, es, stock);
  }
}
