/** The inventory engine as it runs when nobody interferes: the Redis counters and the
    reservation documents, changed in place, one call at a time. `Ledger` takes the same
    calls apart into the steps that interleave. */
module Inventory {
  import opened Common
  import opened Reservations
  import P = Purchase

  datatype ReserveResult =
    | Placed(rid: nat, remaining: int)
    | Refused(result: P.Result)
    | Threw

  datatype ConfirmResult = Confirmation(pid: Pid, qty: nat) | TooLate | NoSuchHold

  datatype ReleaseResult = Returned(pid: Pid, qty: nat) | NotHoldable | NoSuchRelease

  /** 1 for a hold that a sweep at `now` may flip. */
  function Overdue(now: int): Hold -> int {
    (h: Hold) => if Sweepable(h, now) then 1 else 0
  }

  function CountOf(stock: map<Pid, int>, pid: Pid): int {
    if pid in stock then stock[pid] else 0
  }

  function Swept(h: Hold): Hold { h.(status := Expired, paid := h.paid + 1) }

  /** `n` overdue holds were flipped, each once, every counter was raised by the units this
      took out of the holds, and the other holds were left alone. */
  ghost predicate Reclaims(holds: seq<Hold>, stock: map<Pid, int>, holds': seq<Hold>, stock': map<Pid, int>,
                           now: int, n: int)
  {
    && |holds'| == |holds|
    && (forall i :: 0 <= i < |holds| ==>
          holds'[i] == holds[i] || (Sweepable(holds[i], now) && holds'[i] == Swept(holds[i])))
    && Sum(holds', Overdue(now)) == Sum(holds, Overdue(now)) - n
    && forall pid :: CountOf(stock', pid) + Sum(holds', UnitsOf(pid)) == CountOf(stock, pid) + Sum(holds, UnitsOf(pid))
  }

  /** How many of the overdue holds one sweep takes. */
  ghost function SweepSize(holds: seq<Hold>, now: int): int {
    var n := Sum(holds, Overdue(now));
    if n < MAX_PER_TICK then n else MAX_PER_TICK
  }

  /** One findOneAndUpdate that finds hold `k`, and the INCRBY that follows it. */
  predicate SweepsOne(holds: seq<Hold>, stock: map<Pid, int>, holds': seq<Hold>, stock': map<Pid, int>,
                      now: int, k: nat)
  {
    && k < |holds| && Sweepable(holds[k], now)
    && holds' == holds[k := Swept(holds[k])]
    && stock' == stock[holds[k].pid := CountOf(stock, holds[k].pid) + holds[k].qty]
  }

  lemma ReclaimOneMore(h0: seq<Hold>, s0: map<Pid, int>, holds: seq<Hold>, stock: map<Pid, int>,
                       holds': seq<Hold>, stock': map<Pid, int>, now: int, n: int, k: nat)
    requires Reclaims(h0, s0, holds, stock, now, n) && SweepsOne(holds, stock, holds', stock', now, k)
    ensures Reclaims(h0, s0, holds', stock', now, n + 1)
  {
    SumUpdate(holds, k, Swept(holds[k]), Overdue(now));
    forall pid
      ensures CountOf(stock', pid) + Sum(holds', UnitsOf(pid)) == CountOf(s0, pid) + Sum(h0, UnitsOf(pid))
    {
      SumUpdate(holds, k, Swept(holds[k]), UnitsOf(pid));
    }
  }

  // ----- a sweep that throws -----

  /** Which call of a sweep throws, and in which turn of its loop. */
  datatype Fault = NoFault | FindThrows(at: nat) | RefundThrows(at: nat)

  /** A flipped hold whose INCRBY threw. */
  function Dropped(h: Hold): Hold { h.(status := Expired, unpaid := h.unpaid + 1) }

  /** The sweep gets as far as the call that throws. */
  ghost predicate Strikes(fault: Fault, holds: seq<Hold>, now: int) {
    match fault
    case NoFault => false
    case FindThrows(at) => at < MAX_PER_TICK && at <= Sum(holds, Overdue(now))
    case RefundThrows(at) => at < SweepSize(holds, now)
  }

  /** What a sweep leaves: all it can take, or what it took before it threw, and, if a refund
      threw, one more hold `k` that was flipped for nothing. */
  ghost predicate SweepEnds(holds: seq<Hold>, stock: map<Pid, int>, holds': seq<Hold>, stock': map<Pid, int>,
                            now: int, fault: Fault, n: int, k: nat)
  {
    if !Strikes(fault, holds, now) then
      n == SweepSize(holds, now) && Reclaims(holds, stock, holds', stock', now, n)
    else if fault.FindThrows? then
      n == fault.at && Reclaims(holds, stock, holds', stock', now, n)
    else
      && n == fault.at && k < |holds| == |holds'| && Sweepable(holds[k], now)
      && holds'[k] == holds[k].(status := Expired, unpaid := holds[k].unpaid + 1)
      && Reclaims(holds, stock, holds'[k := holds[k]], stock', now, n)
  }

  /** The loop ran out of holds or of turns before the call that would have thrown. */
  lemma SweepCompletes(h0: seq<Hold>, s0: map<Pid, int>, holds: seq<Hold>, stock: map<Pid, int>,
                       now: int, fault: Fault, n: nat, k: nat)
    requires Reclaims(h0, s0, holds, stock, now, n) && n <= MAX_PER_TICK
    requires n == MAX_PER_TICK || Sum(holds, Overdue(now)) == 0
    requires fault.NoFault? || n <= fault.at
    requires fault.FindThrows? && n < MAX_PER_TICK ==> n < fault.at
    ensures !Strikes(fault, h0, now) && SweepEnds(h0, s0, holds, stock, now, fault, n, k)
  {
    SumNonNegative(holds, Overdue(now));
  }

  lemma FindFails(h0: seq<Hold>, s0: map<Pid, int>, holds: seq<Hold>, stock: map<Pid, int>,
                  now: int, n: nat, k: nat)
    requires Reclaims(h0, s0, holds, stock, now, n) && n < MAX_PER_TICK
    ensures Strikes(FindThrows(n), h0, now) && SweepEnds(h0, s0, holds, stock, now, FindThrows(n), n, k)
  {
    SumNonNegative(holds, Overdue(now));
  }

  lemma RefundFails(h0: seq<Hold>, s0: map<Pid, int>, holds: seq<Hold>, stock: map<Pid, int>,
                    now: int, n: nat, k: nat)
    requires Reclaims(h0, s0, holds, stock, now, n) && n < MAX_PER_TICK
    requires k < |holds| && Sweepable(holds[k], now)
    ensures Strikes(RefundThrows(n), h0, now)
    ensures SweepEnds(h0, s0, holds[k := Dropped(holds[k])], stock, now, RefundThrows(n), n, k)
  {
    SumAtLeast(holds, k, Overdue(now));
    assert holds[k] == h0[k];
    assert holds[k := Dropped(holds[k])][k := h0[k]] == holds;
  }

  // ----- the backlog over many sweeps, each with its own clock -----

  predicate Forward(clock: seq<int>) {
    forall i, j :: 0 <= i <= j < |clock| ==> clock[i] <= clock[j]
  }

  /** 1 for a hold that falls due after one reading and by another. */
  function DueBetween(from: int, to: int): Hold -> int {
    (h: Hold) => if h.status == Held && from < h.expiresAt <= to then 1 else 0
  }

  /** How many holds sweeps `j` to `k - 1` are the first to find overdue. */
  ghost function DueIn(holds: seq<Hold>, clock: seq<int>, j: nat, k: nat): int
    requires j <= k <= |clock|
  {
    if j == k then 0
    else if j == 0 then Sum(holds, Overdue(clock[k - 1]))
    else Sum(holds, DueBetween(clock[j - 1], clock[k - 1]))
  }

  /** Overdue holds that `k` sweeps leave behind. */
  ghost function Backlog(holds: seq<Hold>, clock: seq<int>, k: nat): int
    requires k <= |clock|
  {
    if k == 0 then 0
    else
      var n := Backlog(holds, clock, k - 1) + DueIn(holds, clock, k - 1, k);
      if n < MAX_PER_TICK then 0 else n - MAX_PER_TICK
  }

  lemma DueAdds(holds: seq<Hold>, clock: seq<int>, j: nat, k: nat)
    requires Forward(clock) && j < k <= |clock|
    ensures DueIn(holds, clock, j, k) == DueIn(holds, clock, j, k - 1) + DueIn(holds, clock, k - 1, k)
  {
    if 0 == j < k - 1 {
      SumPlus(holds, Overdue(clock[k - 1]), Overdue(clock[k - 2]), DueBetween(clock[k - 2], clock[k - 1]));
    } else if j < k - 1 {
      SumPlus(holds, DueBetween(clock[j - 1], clock[k - 1]), DueBetween(clock[j - 1], clock[k - 2]),
              DueBetween(clock[k - 2], clock[k - 1]));
    }
  }

  /** The backlog is the worst excess, over all windows of sweeps that end now, of the holds
      that fell due over what the sweeps of the window can take. */
  lemma {:induction false} BacklogIsWorstWindow(holds: seq<Hold>, clock: seq<int>, k: nat)
    requires Forward(clock) && k <= |clock|
    ensures forall j | 0 <= j <= k :: DueIn(holds, clock, j, k) - MAX_PER_TICK * (k - j) <= Backlog(holds, clock, k)
    ensures exists j | 0 <= j <= k :: DueIn(holds, clock, j, k) - MAX_PER_TICK * (k - j) == Backlog(holds, clock, k)
  {
    assert DueIn(holds, clock, k, k) == 0;
    if k > 0 {
      BacklogIsWorstWindow(holds, clock, k - 1);
      forall j | 0 <= j < k
        ensures DueIn(holds, clock, j, k) - MAX_PER_TICK * (k - j) <= Backlog(holds, clock, k)
      {
        DueAdds(holds, clock, j, k);
      }
      var j :| 0 <= j <= k - 1
            && DueIn(holds, clock, j, k - 1) - MAX_PER_TICK * (k - 1 - j) == Backlog(holds, clock, k - 1);
      DueAdds(holds, clock, j, k);
      assert Backlog(holds, clock, k) == DueIn(holds, clock, j, k) - MAX_PER_TICK * (k - j)
          || Backlog(holds, clock, k) == DueIn(holds, clock, k, k) - MAX_PER_TICK * (k - k);
    }
  }

  /** The holds after `k` sweeps of `h0`: only overdue ones were flipped, and the backlog is left. */
  ghost predicate SweptUpTo(h0: seq<Hold>, holds: seq<Hold>, clock: seq<int>, k: nat)
    requires k <= |clock|
  {
    && |holds| == |h0|
    && (forall i :: 0 <= i < |h0| ==>
          holds[i] == h0[i] || (k > 0 && Sweepable(h0[i], clock[k - 1]) && holds[i].status == Expired))
    && (k > 0 ==> Sum(holds, Overdue(clock[k - 1])) == Backlog(h0, clock, k))
  }

  lemma SweepAdvances(h0: seq<Hold>, holds: seq<Hold>, stock: map<Pid, int>, holds': seq<Hold>,
                      stock': map<Pid, int>, clock: seq<int>, k: nat)
    requires Forward(clock) && k < |clock| && SweptUpTo(h0, holds, clock, k)
    requires Reclaims(holds, stock, holds', stock', clock[k], SweepSize(holds, clock[k]))
    ensures SweptUpTo(h0, holds', clock, k + 1)
  {
    if k == 0 {
      assert holds == h0;
    } else {
      var due := DueBetween(clock[k - 1], clock[k]);
      SumPlus(holds, Overdue(clock[k]), Overdue(clock[k - 1]), due);
      forall i | 0 <= i < |h0| ensures due(holds[i]) == due(h0[i]) {}
      SumSame(holds, h0, due);
    }
    SumNonNegative(holds, Overdue(clock[k]));
  }

  /** Undisturbed sweeps, each reading its own clock, leave exactly the backlog; nothing is
      overdue after the last one if and only if no window of sweeps up to it had more holds
      fall due than the sweeps of the window can take. */
  lemma {:induction false} SweepsDrain(holds: seq<seq<Hold>>, stocks: seq<map<Pid, int>>, clock: seq<int>)
    requires |holds| == |stocks| == |clock| + 1 > 1 && Forward(clock)
    requires forall i :: 0 < i < |holds| ==>
      Reclaims(holds[i - 1], stocks[i - 1], holds[i], stocks[i], clock[i - 1], SweepSize(holds[i - 1], clock[i - 1]))
    ensures
      var k := |clock|;
      && Sum(holds[k], Overdue(clock[k - 1])) == Backlog(holds[0], clock, k)
      && (Sum(holds[k], Overdue(clock[k - 1])) == 0
          <==> forall j | 0 <= j <= k :: DueIn(holds[0], clock, j, k) <= MAX_PER_TICK * (k - j))
  {
    var k := |clock|;
    SweepsAdvance(holds, stocks, clock, k);
    BacklogIsWorstWindow(holds[0], clock, k);
    assert DueIn(holds[0], clock, k, k) == 0;
  }

  lemma {:induction false} SweepsAdvance(holds: seq<seq<Hold>>, stocks: seq<map<Pid, int>>, clock: seq<int>, k: nat)
    requires |holds| == |stocks| == |clock| + 1 && Forward(clock) && k <= |clock|
    requires forall i :: 0 < i < |holds| ==>
      Reclaims(holds[i - 1], stocks[i - 1], holds[i], stocks[i], clock[i - 1], SweepSize(holds[i - 1], clock[i - 1]))
    ensures SweptUpTo(holds[0], holds[k], clock, k)
  {
    if k > 0 {
      SweepsAdvance(holds, stocks, clock, k - 1);
      SweepAdvances(holds[0], holds[k - 1], stocks[k - 1], holds[k], stocks[k], clock, k - 1);
    }
  }

  /** If no hold falls due after the first reading, `ceil(n / 100)` sweeps drain a backlog of
      n overdue holds, and no fewer do. */
  lemma {:induction false} FixedBacklogDrains(holds: seq<Hold>, clock: seq<int>, k: nat)
    requires Forward(clock) && 0 < k <= |clock| && DueIn(holds, clock, 1, |clock|) == 0
    ensures
      var n := Sum(holds, Overdue(clock[0]));
      && Backlog(holds, clock, k) == (if n <= MAX_PER_TICK * k then 0 else n - MAX_PER_TICK * k)
      && (Backlog(holds, clock, k) == 0 <==> k >= (n + MAX_PER_TICK - 1) / MAX_PER_TICK)
  {
    SumNonNegative(holds, Overdue(clock[0]));
    if k > 1 {
      FixedBacklogDrains(holds, clock, k - 1);
      NoneDueBetween(holds, clock, k);
    }
  }

  lemma NoneDueBetween(holds: seq<Hold>, clock: seq<int>, k: nat)
    requires Forward(clock) && 1 < k <= |clock| && DueIn(holds, clock, 1, |clock|) == 0
    ensures DueIn(holds, clock, k - 1, k) == 0
  {
    var all, some := DueBetween(clock[0], clock[|clock| - 1]), DueBetween(clock[k - 2], clock[k - 1]);
    var others := (h: Hold) => all(h) - some(h);
    SumPlus(holds, all, some, others);
    SumNonNegative(holds, some);
    SumNonNegative(holds, others);
  }

  class Store {
    const catalog: map<Pid, P.Product>
    var stock: map<Pid, int>
    var holds: seq<Hold>

    predicate Valid()
      reads this
    {
      && (forall pid <- stock :: stock[pid] >= 0 && pid in catalog && catalog[pid].active)
      && (forall i :: 0 <= i < |holds| ==> holds[i].pid in stock)
    }

    /** The live stock of the abstract counter. */
    function Live(pid: Pid): Option<int>
      reads this
    {
      P.Live(Get(stock, pid), Get(catalog, pid))
    }

    constructor (catalog: map<Pid, P.Product>)
      ensures Valid() && this.catalog == catalog && stock == map[] && holds == []
    {
      this.catalog := catalog;
      stock, holds := map[], [];
    }

    /** BUY_LUA. */
    method BuyStock(pid: Pid, qty: nat) returns (reply: int)
      requires Valid()
      modifies this`stock
      ensures Valid()
      ensures Get(stock, pid) == P.BuyLua(old(Get(stock, pid)), qty).0
      ensures reply == P.BuyLua(old(Get(stock, pid)), qty).1
      ensures forall x :: x != pid ==> Live(x) == old(Live(x))
      ensures stock.Keys == old(stock.Keys)
    {
      if pid !in stock {
        return P.NOT_PRIMED;
      }
      if stock[pid] < qty {
        return P.SOLD_OUT;
      }
      stock := stock[pid := stock[pid] - qty];
      reply := stock[pid];
    }

    method IncrBy(pid: Pid, qty: nat)
      requires Valid() && pid in stock
      modifies this`stock
      ensures Valid() && stock == old(stock)[pid := old(stock)[pid] + qty]
    {
      stock := stock[pid := stock[pid] + qty];
    }

    method PrimeFromMongo(pid: Pid) returns (known: bool)
      requires Valid()
      modifies this`stock
      ensures Valid() && old(stock.Keys) <= stock.Keys
      ensures known <==> pid in catalog && catalog[pid].active
      ensures known ==> pid in stock
      ensures forall x :: Live(x) == old(Live(x))
      ensures forall x <- old(stock) :: stock[x] == old(stock)[x]
    {
      if pid !in catalog || !catalog[pid].active {
        return false;
      }
      if pid !in stock {
        stock := stock[pid := catalog[pid].stock];
      }
      known := true;
    }

    /** An undisturbed purchase is the atomic purchase of the abstract counter. */
    method Purchase(pid: Pid, qty: nat) returns (r: P.Result)
      requires Valid()
      modifies this`stock
      ensures Valid() && old(stock.Keys) <= stock.Keys
      ensures Live(pid) == P.AtomicBuy(old(Live(pid)), qty).0
      ensures r == P.AtomicBuy(old(Live(pid)), qty).1
      ensures forall x :: x != pid ==> Live(x) == old(Live(x))
      ensures r.Ok? ==> pid in stock
    {
      var result := BuyStock(pid, qty);
      assert Get(stock, pid) == P.BuyLua(old(Get(stock, pid)), qty).0;
      if result == P.NOT_PRIMED {
        assert Live(pid) == old(Live(pid));
        var known := PrimeFromMongo(pid);
        if !known {
          return P.NotFound;
        }
        result := BuyStock(pid, qty);
      }
      r := P.Decode(result);
    }

    /** `created` says whether the document lands. If it does not, the stock goes back. */
    method Reserve(pid: Pid, qty: nat, now: int, created: bool) returns (r: ReserveResult)
      requires Valid()
      modifies this
      ensures Valid()
      ensures forall x :: x != pid ==> Live(x) == old(Live(x))
      ensures
        var (after, bought) := P.AtomicBuy(old(Live(pid)), qty);
        if !bought.Ok? then r == Refused(bought) && holds == old(holds) && Live(pid) == old(Live(pid))
        else if !created then r == Threw && holds == old(holds) && Live(pid) == old(Live(pid))
        else
          && r == Placed(|old(holds)|, bought.remaining) && Live(pid) == after
          && holds == old(holds) + [NewHold(pid, qty, now)]
          && holds[|old(holds)|].expiresAt == now + 90_000
    {
      var purchased := Purchase(pid, qty);
      if !purchased.Ok? {
        return Refused(purchased);
      }
      if created {
        r := Placed(|holds|, purchased.remaining);
        holds := holds + [NewHold(pid, qty, now)];
      } else {
        IncrBy(pid, qty);
        r := Threw;
      }
    }

    /** Held and not expired becomes confirmed; the counter never moves. */
    method ConfirmReservation(rid: nat, now: int) returns (r: ConfirmResult)
      requires Valid()
      modifies this`holds
      ensures Valid()
      ensures r == NoSuchHold <==> rid >= |old(holds)|
      ensures r.Confirmation? <==> rid < |old(holds)| && Confirmable(old(holds)[rid], now)
      ensures r.Confirmation? ==>
        && r == Confirmation(old(holds)[rid].pid, old(holds)[rid].qty)
        && holds == old(holds)[rid := old(holds)[rid].(status := Confirmed)]
        && forall pid :: Sum(holds, UnitsOf(pid)) == Sum(old(holds), UnitsOf(pid))
      ensures !r.Confirmation? ==> holds == old(holds)
    {
      if rid >= |holds| {
        return NoSuchHold;
      }
      if holds[rid].status == Held && holds[rid].expiresAt > now {
        var h := holds[rid].(status := Confirmed);
        forall pid ensures Sum(holds[rid := h], UnitsOf(pid)) == Sum(holds, UnitsOf(pid)) {
          SumUpdate(holds, rid, h, UnitsOf(pid));
        }
        holds := holds[rid := h];
        return Confirmation(h.pid, h.qty);
      }
      r := TooLate;
    }

    /** A held reservation becomes released and its units go back to the counter. */
    method ReleaseReservation(rid: nat) returns (r: ReleaseResult)
      requires Valid()
      modifies this
      ensures Valid()
      ensures r == NoSuchRelease <==> rid >= |old(holds)|
      ensures r.Returned? <==> rid < |old(holds)| && Releasable(old(holds)[rid])
      ensures r.Returned? ==>
        var h := old(holds)[rid];
        && r == Returned(h.pid, h.qty)
        && holds == old(holds)[rid := h.(status := Released, paid := h.paid + 1)]
        && stock == old(stock)[h.pid := old(stock)[h.pid] + h.qty]
      ensures !r.Returned? ==> holds == old(holds) && stock == old(stock)
    {
      if rid >= |holds| {
        return NoSuchRelease;
      }
      if holds[rid].status != Held {
        return NotHoldable;
      }
      var h := holds[rid];
      holds := holds[rid := h.(status := Released, paid := h.paid + 1)];
      IncrBy(h.pid, h.qty);
      r := Returned(h.pid, h.qty);
    }

    /** One findOneAndUpdate, and the INCRBY for the hold it finds, unless that throws. */
    method SweepOne(now: int, pays: bool) returns (found: bool, ghost k: nat)
      requires Valid()
      modifies this
      ensures Valid()
      ensures found <==> Sum(old(holds), Overdue(now)) != 0
      ensures !found ==> holds == old(holds) && stock == old(stock)
      ensures found && pays ==> SweepsOne(old(holds), old(stock), holds, stock, now, k)
      ensures found && !pays ==>
        && k < |old(holds)| && Sweepable(old(holds)[k], now)
        && holds == old(holds)[k := Dropped(old(holds)[k])] && stock == old(stock)
    {
      k := 0;
      if j :| 0 <= j < |holds| && Sweepable(holds[j], now) {
        SumAtLeast(holds, j, Overdue(now));
        var h := holds[j];
        if pays {
          holds := holds[j := Swept(h)];
          IncrBy(h.pid, h.qty);
        } else {
          holds := holds[j := Dropped(h)];
        }
        found, k := true, j;
      } else {
        SumOfConstant(holds, Overdue(now), 0);
        found := false;
      }
    }

    /** sweepExpiredReservations: exactly min(100, n) of the n overdue holds, unless a call throws. */
    method SweepExpiredReservations(now: int, fault: Fault) returns (threw: bool, reclaimed: nat, ghost k: nat)
      requires Valid()
      modifies this
      ensures Valid()
      ensures threw <==> Strikes(fault, old(holds), now)
      ensures SweepEnds(old(holds), old(stock), holds, stock, now, fault, reclaimed, k)
    {
      threw, reclaimed, k := false, 0, 0;
      for i := 0 to MAX_PER_TICK
        invariant Valid() && reclaimed == i
        invariant Reclaims(old(holds), old(stock), holds, stock, now, reclaimed)
        invariant fault.NoFault? || i <= fault.at
      {
        ghost var hs, st := holds, stock;
        if fault == FindThrows(i) {
          FindFails(old(holds), old(stock), holds, stock, now, i, k);
          return true, reclaimed, k;
        }
        var found;
        found, k := SweepOne(now, fault != RefundThrows(i));
        if !found {
          SweepCompletes(old(holds), old(stock), hs, st, now, fault, i, k);
          return;
        }
        if fault == RefundThrows(i) {
          RefundFails(old(holds), old(stock), hs, st, now, i, k);
          return true, reclaimed, k;
        }
        ReclaimOneMore(old(holds), old(stock), hs, st, holds, stock, now, reclaimed, k);
        reclaimed := reclaimed + 1;
      }
      SweepCompletes(old(holds), old(stock), holds, stock, now, fault, reclaimed, k);
    }
  }

  /** The worker's sweep loop: overlapping and late ticks do nothing, and a tick that throws
      does not keep the next one from running. */
  class Sweeper {
    const store: Store
    var stopped: bool
    var inflight: bool

    constructor (store: Store)
      ensures this.store == store && !stopped && !inflight
    {
      this.store := store;
      stopped, inflight := false, false;
    }

    method Tick(now: int, fault: Fault) returns (reclaimed: nat, ghost k: nat)
      requires store.Valid()
      modifies this`inflight, store
      ensures store.Valid() && inflight == old(inflight)
      ensures old(stopped || inflight) ==>
        reclaimed == 0 && store.holds == old(store.holds) && store.stock == old(store.stock)
      ensures !old(stopped || inflight) ==>
        SweepEnds(old(store.holds), old(store.stock), store.holds, store.stock, now, fault, reclaimed, k)
    {
      reclaimed, k := 0, 0;
      if stopped || inflight {
        return;
      }
      inflight := true;
      var threw;
      threw, reclaimed, k := store.SweepExpiredReservations(now, fault);
      inflight := false;
    }

    method Stop()
      modifies this`stopped
      ensures stopped
    {
      stopped := true;
    }

    /** The interval timer: a tick for every reading of the clock, until tick `last` finds the
        sweeper stopped. The sweeps before it leave exactly the backlog. */
    method Run(clock: seq<int>, last: nat)
      requires store.Valid() && !stopped && !inflight && Forward(clock) && last <= |clock|
      modifies this, store
      ensures store.Valid() && SweptUpTo(old(store.holds), store.holds, clock, last)
      ensures forall pid :: CountOf(store.stock, pid) + Sum(store.holds, UnitsOf(pid))
                         == old(CountOf(store.stock, pid)) + Sum(old(store.holds), UnitsOf(pid))
    {
      for i := 0 to |clock|
        invariant store.Valid() && !inflight && (stopped <==> i > last)
        invariant SweptUpTo(old(store.holds), store.holds, clock, if i < last then i else last)
        invariant forall pid :: CountOf(store.stock, pid) + Sum(store.holds, UnitsOf(pid))
                             == old(CountOf(store.stock, pid)) + Sum(old(store.holds), UnitsOf(pid))
      {
        if i == last {
          Stop();
        }
        ghost var holds, stock := store.holds, store.stock;
        var reclaimed, k := Tick(clock[i], NoFault);
        if i < last {
          SweepAdvances(old(store.holds), holds, stock, store.holds, store.stock, clock, i);
        }
      }
    }
  }
}
