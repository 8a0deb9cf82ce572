/** `withIdempotency` around `doPurchase`, for one idempotency key.

    Any number of callers with the same key interleave, one Redis or Mongo call at a time, on
    one clock. The winner of SET NX runs the purchase (stock, then the order document) and
    stores its answer; losers poll. A call may throw without landing, and a process may die. */
module Idempotency {
  import opened Common

  type Oid = nat

  const LOCK_TTL_MS := 30_000
  const RESULT_TTL_MS := 86_400_000
  const POLL_TIMEOUT_MS := 5_000

  /** The Redis key: absent, the pending marker, or the stored answer (its order id). */
  datatype Key =
    | Absent
    | Marker(expiresAt: int)
    | Stored(value: Oid, expiresAt: int)

  /** What a command at `now` sees of a key that may have expired. */
  function Visible(key: Key, now: int): Key {
    if !key.Absent? && now >= key.expiresAt then Absent else key
  }

  /** How far the winner's purchase has come. */
  datatype Phase = Begin | Taken | Created(oid: Oid)

  datatype Caller =
    | Fresh                                        // about to SET NX
    | Executing(claimedAt: int, phase: Phase)      // won the lock, inside fn or about to store
    | Releasing(claimedAt: int)                    // fn or the store threw, about to DEL
    | Polling(deadline: int)                       // lost the lock
    | Returned(replayed: bool, value: Oid)
    | Rejected                                     // threw to its client
    | Dead

  datatype State = State(
    key: Key,
    now: int,
    callers: seq<Caller>,
    orders: nat,          // order documents created under this key; their ids are 0, 1, ...
    decrements: nat,      // purchases that took stock
    burned: nat           // purchases that took stock and died before the order was created
  )

  datatype Event =
    | Tick(ms: nat)
    | Arrive
    | Claim(i: nat)
    | Buy(i: nat, ok: bool)        // ok: stock was taken; else sold out, not found or an error
    | Create(i: nat, ok: bool)
    | Store(i: nat, ok: bool)
    | Release(i: nat, ok: bool)
    | Poll(i: nat)
    | Crash(i: nat)

  predicate InPhase(s: State, i: nat, phase: Phase) {
    i < |s.callers| && s.callers[i].Executing? && s.callers[i].phase == phase
  }

  predicate Enabled(s: State, e: Event) {
    match e
    case Tick(_) => true
    case Arrive => true
    case Claim(i) => i < |s.callers| && s.callers[i] == Fresh
    case Buy(i, _) => InPhase(s, i, Begin)
    case Create(i, _) => InPhase(s, i, Taken)
    case Store(i, _) => i < |s.callers| && s.callers[i].Executing? && s.callers[i].phase.Created?
    case Release(i, _) => i < |s.callers| && s.callers[i].Releasing?
    case Poll(i) => i < |s.callers| && s.callers[i].Polling?
    case Crash(i) => i < |s.callers| && !s.callers[i].Returned? && !s.callers[i].Rejected? && !s.callers[i].Dead?
  }

  function Become(s: State, i: nat, c: Caller): State
    requires i < |s.callers|
  {
    s.(callers := s.callers[i := c])
  }

  /** SET NX EX: claims an absent key. */
  function SetNx(key: Key, now: int): (Key, bool) {
    if Visible(key, now).Absent? then (Marker(now + LOCK_TTL_MS), true) else (key, false)
  }

  function Next(s: State, e: Event): State
    requires Enabled(s, e)
  {
    match e
    case Tick(ms) => s.(now := s.now + ms)
    case Arrive => s.(callers := s.callers + [Fresh])
    case Claim(i) =>
      var (key, won) := SetNx(s.key, s.now);
      Become(s, i, if won then Executing(s.now, Begin) else Polling(s.now + POLL_TIMEOUT_MS)).(key := key)
    case Buy(i, ok) =>
      var at := s.callers[i].claimedAt;
      if ok then Become(s, i, Executing(at, Taken)).(decrements := s.decrements + 1)
      else Become(s, i, Releasing(at))
    case Create(i, ok) =>
      var at := s.callers[i].claimedAt;
      if ok then Become(s, i, Executing(at, Created(s.orders))).(orders := s.orders + 1)
      else Become(s, i, Releasing(at)).(burned := s.burned + 1)
    case Store(i, ok) =>
      var c := s.callers[i];
      if ok then Become(s, i, Returned(false, c.phase.oid)).(key := Stored(c.phase.oid, s.now + RESULT_TTL_MS))
      else Become(s, i, Releasing(c.claimedAt))      // the store is inside the try block
    case Release(i, ok) =>
      Become(s, i, Rejected).(key := if ok then Absent else s.key)
    case Poll(i) =>
      var seen := Visible(s.key, s.now);
      if s.now >= s.callers[i].deadline then Become(s, i, Rejected)
      else if seen.Stored? then Become(s, i, Returned(true, seen.value))
      else s
    case Crash(i) =>
      Become(s, i, Dead).(burned := s.burned + (if InPhase(s, i, Taken) then 1 else 0))
  }

  predicate Possible(s: State, es: seq<Event>)
    decreases |es|
  {
    es == [] || (Enabled(s, es[0]) && Possible(Next(s, es[0]), es[1..]))
  }

  function Run(s: State, es: seq<Event>): State
    requires Possible(s, es)
    decreases |es|
  {
    if es == [] then s else Run(Next(s, es[0]), es[1..])
  }

  function Initial(now: int): State {
    State.State(Absent, now, [], 0, 0, 0)
  }

  // ----- one execution at a time -----

  /** The caller holds the lock: inside fn, storing, or about to delete the key. */
  predicate Busy(c: Caller) { c.Executing? || c.Releasing? }

  /** At most one caller is busy, and the key is its marker. */
  predicate Exclusive(s: State) {
    && (forall i, j :: 0 <= i < j < |s.callers| ==> !(Busy(s.callers[i]) && Busy(s.callers[j])))
    && (forall i :: 0 <= i < |s.callers| && Busy(s.callers[i]) ==>
          s.key == Marker(s.callers[i].claimedAt + LOCK_TTL_MS))
  }

  /** No claim lands while a busy caller has outlived its lock. It holds of every run whose
      winners store or delete within the lock's lifetime. */
  predicate InTime(s: State, e: Event) {
    e.Claim? ==> forall j :: 0 <= j < |s.callers| && Busy(s.callers[j]) ==> s.now < s.callers[j].claimedAt + LOCK_TTL_MS
  }

  lemma ExclusiveStep(s: State, e: Event)
    requires Exclusive(s) && Enabled(s, e) && InTime(s, e)
    ensures Exclusive(Next(s, e))
  {}

  /** A claim starts a second execution beside a running one exactly when the running one has
      outlived its lock: the assumption on the winner cannot be weakened. */
  lemma SecondExecutionExactly(s: State, i: nat, j: nat)
    requires Exclusive(s) && Enabled(s, Claim(i)) && j < |s.callers| && Busy(s.callers[j])
    ensures Next(s, Claim(i)).callers[j] == s.callers[j]
    ensures Busy(Next(s, Claim(i)).callers[i]) <==> s.now >= s.callers[j].claimedAt + LOCK_TTL_MS
  {}

  predicate AllInTime(s: State, es: seq<Event>)
    requires Possible(s, es)
    decreases |es|
  {
    es == [] || (InTime(s, es[0]) && AllInTime(Next(s, es[0]), es[1..]))
  }

  /** Every busy caller is younger than its lock. */
  predicate Prompt(s: State) {
    forall j :: 0 <= j < |s.callers| && Busy(s.callers[j]) ==> s.now < s.callers[j].claimedAt + LOCK_TTL_MS
  }

  predicate AllPrompt(s: State, es: seq<Event>)
    requires Possible(s, es)
    decreases |es|
  {
    Prompt(s) && (es == [] || AllPrompt(Next(s, es[0]), es[1..]))
  }

  /** Winners that store or delete within the lock's 30 seconds meet the assumption. */
  lemma {:induction false} PromptRunsAreInTime(s: State, es: seq<Event>)
    requires Possible(s, es) && AllPrompt(s, es)
    ensures AllInTime(s, es)
    decreases |es|
  {
    if es != [] {
      PromptRunsAreInTime(Next(s, es[0]), es[1..]);
    }
  }

  /** Mutual exclusion over whole runs: if no claim lands beside an outlived lock, at most one
      caller is ever inside `fn`, whatever else throws or crashes. */
  lemma {:induction false} OneExecutionAtATime(s: State, es: seq<Event>)
    requires Exclusive(s) && Possible(s, es) && AllInTime(s, es)
    ensures Exclusive(Run(s, es))
    decreases |es|
  {
    if es != [] {
      ExclusiveStep(s, es[0]);
      OneExecutionAtATime(Next(s, es[0]), es[1..]);
    }
  }

  /** A caller that lost SET NX never runs `fn`. */
  lemma {:induction false} LoserNeverRuns(s: State, es: seq<Event>, i: nat)
    requires Possible(s, es) && i < |s.callers|
    requires s.callers[i].Polling? || s.callers[i] == Dead || s.callers[i] == Rejected
          || (s.callers[i].Returned? && s.callers[i].replayed)
    ensures i < |Run(s, es).callers|
    ensures var c := Run(s, es).callers[i];
      c.Polling? || c == Dead || c == Rejected || (c.Returned? && c.replayed)
    decreases |es|
  {
    if es != [] {
      LoserNeverRuns(Next(s, es[0]), es[1..], i);
    }
  }

  lemma {:induction false} ClockMonotone(s: State, es: seq<Event>)
    requires Possible(s, es)
    ensures s.now <= Run(s, es).now
    decreases |es|
  {
    if es != [] {
      ClockMonotone(Next(s, es[0]), es[1..]);
    }
  }

  /** From the first stored answer until it expires, `fn` never starts again, no stock is
      taken, no order is created, and every caller that gets a value gets that answer. */
  lemma {:induction false} StoredAnswerSticks(s: State, es: seq<Event>)
    requires Exclusive(s) && s.key.Stored? && Possible(s, es) && Run(s, es).now < s.key.expiresAt
    ensures
      var end := Run(s, es);
      && end.key == s.key && end.orders == s.orders && end.decrements == s.decrements
      && |end.callers| >= |s.callers|
      && (forall i :: 0 <= i < |end.callers| ==> !Busy(end.callers[i]))
      && (forall i :: 0 <= i < |end.callers| && end.callers[i].Returned? ==>
            (i < |s.callers| && s.callers[i] == end.callers[i]) || end.callers[i].value == s.key.value)
    decreases |es|
  {
    if es != [] {
      ClockMonotone(Next(s, es[0]), es[1..]);
      ExclusiveStep(s, es[0]);
      StoredAnswerSticks(Next(s, es[0]), es[1..]);
    }
  }

  // ----- idempotent buy, end to end -----

  /** Stock taken by a caller that has not created its order yet. */
  function HasStock(): Caller -> int {
    (c: Caller) => if c.Executing? && c.phase == Taken then 1 else 0
  }

  predicate HasOrder(c: Caller) { c.Executing? && c.phase.Created? }

  ghost predicate OneOrder(s: State) {
    && Exclusive(s)
    && s.orders <= 1
    && (forall i :: 0 <= i < |s.callers| && HasOrder(s.callers[i]) ==> s.orders == 1 && s.callers[i].phase.oid == 0)
    && (forall i :: 0 <= i < |s.callers| && s.callers[i].Returned? ==> s.key.Stored? && s.callers[i].value == 0)
    && (s.key.Stored? ==> s.orders == 1 && s.key.value == 0)
    && (s.orders == 1 && !s.key.Stored? ==> exists i :: 0 <= i < |s.callers| && HasOrder(s.callers[i]))
  }

  ghost predicate StockAccounted(s: State) {
    s.decrements == s.orders + s.burned + Sum(s.callers, HasStock())
  }

  /** The assumption of the end-to-end claim: winners are in time, the store of a result does
      not fail, no process dies between creating the order and storing the answer, and the
      key is not claimed again after the answer's day is over. */
  predicate Sound(s: State, e: Event) {
    && InTime(s, e)
    && (e.Store? ==> e.ok)
    && (e.Crash? && e.i < |s.callers| ==> !HasOrder(s.callers[e.i]))
    && (e.Claim? && s.key.Stored? ==> s.now < s.key.expiresAt)
  }

  predicate AllSound(s: State, es: seq<Event>)
    requires Possible(s, es)
    decreases |es|
  {
    es == [] || (Sound(s, es[0]) && AllSound(Next(s, es[0]), es[1..]))
  }

  lemma OneOrderStep(s: State, e: Event)
    requires OneOrder(s) && Enabled(s, e) && Sound(s, e)
    ensures OneOrder(Next(s, e))
  {
    ExclusiveStep(s, e);
    var s' := Next(s, e);
    if e.Create? && e.ok {
      assert HasOrder(s'.callers[e.i]);
    } else if s.orders == 1 && !s'.key.Stored? {
      if !s.key.Stored? {
        var j :| 0 <= j < |s.callers| && HasOrder(s.callers[j]);
        assert HasOrder(s'.callers[j]);
      }
    }
  }

  lemma StockStep(s: State, e: Event)
    requires StockAccounted(s) && Enabled(s, e)
    ensures StockAccounted(Next(s, e))
  {
    if e.Arrive? {
      SumAppend(s.callers, Fresh, HasStock());
    } else if !e.Tick? {
      SumUpdate(s.callers, e.i, Next(s, e).callers[e.i], HasStock());
    }
  }

  lemma {:induction false} SoundRun(s: State, es: seq<Event>)
    requires OneOrder(s) && Possible(s, es) && AllSound(s, es)
    ensures OneOrder(Run(s, es))
    ensures StockAccounted(s) ==> StockAccounted(Run(s, es))
    decreases |es|
  {
    if es != [] {
      OneOrderStep(s, es[0]);
      if StockAccounted(s) {
        StockStep(s, es[0]);
      }
      SoundRun(Next(s, es[0]), es[1..]);
    }
  }

  /** Idempotent buy, end to end. All answers for one (user, product, key) carry the same order
      id; once one has been given exactly one order exists; and the units deducted are the
      quantity times one plus the executions that died after taking stock. */
  lemma IdempotentBuy(now: int, es: seq<Event>, qty: nat)
    requires Possible(Initial(now), es) && AllSound(Initial(now), es)
    ensures
      var end := Run(Initial(now), es);
      && end.orders <= 1
      && (forall i, j | 0 <= i < j < |end.callers| && end.callers[i].Returned? && end.callers[j].Returned? ::
            end.callers[i].value == end.callers[j].value)
      && ((exists i :: 0 <= i < |end.callers| && end.callers[i].Returned?) ==>
            end.orders == 1 && qty * end.decrements == qty * (1 + end.burned))
  {
    var end := Run(Initial(now), es);
    SoundRun(Initial(now), es);
    if exists i :: 0 <= i < |end.callers| && end.callers[i].Returned? {
      SumOfConstant(end.callers, HasStock(), 0);
    }
  }

  // ----- the assumption is exact -----

  /** The invariant behind the claim survives exactly the sound events. */
  lemma OneOrderExactly(s: State, e: Event)
    requires OneOrder(s) && Enabled(s, e)
    ensures OneOrder(Next(s, e)) <==> Sound(s, e)
  {
    if Sound(s, e) {
      OneOrderStep(s, e);
    } else if e.Claim? && s.key.Stored? {
      assert !Next(s, e).key.Stored? && Next(s, e).orders == 1;
    } else if e.Claim? {
      var j :| 0 <= j < |s.callers| && Busy(s.callers[j]) && s.now >= s.callers[j].claimedAt + LOCK_TTL_MS;
      assert Busy(Next(s, e).callers[j]) && Busy(Next(s, e).callers[e.i]);
    } else {
      assert HasOrder(s.callers[e.i]) && !HasOrder(Next(s, e).callers[e.i]);
    }
  }

  lemma {:induction false} RunSnoc(s: State, es: seq<Event>, e: Event)
    requires Possible(s, es) && Enabled(Run(s, es), e)
    ensures Possible(s, es + [e]) && Run(s, es + [e]) == Next(Run(s, es), e)
    ensures AllInTime(s, es) && InTime(Run(s, es), e) ==> AllInTime(s, es + [e])
    ensures AllSound(s, es) && Sound(Run(s, es), e) ==> AllSound(s, es + [e])
    decreases |es|
  {
    if es == [] {
      assert ([] + [e])[1..] == [];
    } else {
      RunSnoc(Next(s, es[0]), es[1..], e);
      assert (es + [e])[1..] == es[1..] + [e];
    }
  }

  /** The caller `i`, inside its purchase, creates its order. */
  lemma FinishBuying(s: State, es: seq<Event>, i: nat) returns (es': seq<Event>)
    requires Possible(s, es) && (InPhase(Run(s, es), i, Begin) || InPhase(Run(s, es), i, Taken))
    ensures
      var s0 := Run(s, es);
      && Possible(s, es')
      && var s1 := Run(s, es');
         && s1.orders == s0.orders + 1 && s1.key == s0.key && s1.now == s0.now
         && s1.callers == s0.callers[i := Executing(s0.callers[i].claimedAt, Created(s0.orders))]
    ensures AllInTime(s, es) ==> AllInTime(s, es')
    ensures AllSound(s, es) ==> AllSound(s, es')
  {
    es' := es;
    if InPhase(Run(s, es), i, Begin) {
      RunSnoc(s, es', Buy(i, true));
      es' := es' + [Buy(i, true)];
    }
    RunSnoc(s, es', Create(i, true));
    es' := es' + [Create(i, true)];
  }

  /** One execution of a new caller up to its created order. */
  lemma BuyOnce(s: State, es: seq<Event>) returns (es': seq<Event>)
    requires Possible(s, es) && Visible(Run(s, es).key, Run(s, es).now).Absent?
    ensures Possible(s, es') && Run(s, es').orders == Run(s, es).orders + 1
    ensures Run(s, es').callers == Run(s, es).callers + [Executing(Run(s, es).now, Created(Run(s, es).orders))]
    ensures Run(s, es').key == Marker(Run(s, es).now + LOCK_TTL_MS) && Run(s, es').now == Run(s, es).now
    ensures AllInTime(s, es) && (forall j :: 0 <= j < |Run(s, es).callers| ==> !Busy(Run(s, es).callers[j]))
        ==> AllInTime(s, es')
    ensures AllSound(s, es) && Prompt(Run(s, es)) && !Run(s, es).key.Stored? ==> AllSound(s, es')
  {
    var i := |Run(s, es).callers|;
    RunSnoc(s, es, Arrive);
    es' := es + [Arrive];
    RunSnoc(s, es', Claim(i));
    es' := es' + [Claim(i)];
    es' := FinishBuying(s, es', i);
  }

  /** A claim that lands beside a busy caller `j` which outlived its lock: both go on to buy,
      or, if `j` is about to delete the key, it deletes the new winner's marker and a third
      caller buys. */
  lemma OutlivedBuysTwice(s: State, i: nat, j: nat) returns (es: seq<Event>)
    requires OneOrder(s) && Enabled(s, Claim(i)) && j < |s.callers| && Busy(s.callers[j])
    requires s.now >= s.callers[j].claimedAt + LOCK_TTL_MS
    ensures
      var s' := Next(s, Claim(i));
      Possible(s', es) && AllSound(s', es) && Run(s', es).orders == 2
  {
    var s' := Next(s, Claim(i));
    assert s'.callers[i] == Executing(s.now, Begin) && s'.callers[j] == s.callers[j];
    es := [];
    if s.callers[j].Releasing? {
      es := FinishBuying(s', es, i);
      RunSnoc(s', es, Release(j, true));
      es := es + [Release(j, true)];
      es := BuyOnce(s', es);
    } else {
      if !HasOrder(s.callers[j]) {
        es := FinishBuying(s', es, j);
      }
      es := FinishBuying(s', es, i);
    }
  }

  /** After any single unsound event a second order can be created without any further fault. */
  lemma UnsoundBuysTwice(s: State, e: Event) returns (es: seq<Event>)
    requires OneOrder(s) && Enabled(s, e) && !Sound(s, e)
    ensures Possible(Next(s, e), es) && AllSound(Next(s, e), es) && Run(Next(s, e), es).orders == 2
  {
    var s' := Next(s, e);
    es := [];
    if e.Store? {
      RunSnoc(s', es, Release(e.i, true));
      es := es + [Release(e.i, true)];
      es := BuyOnce(s', es);
    } else if e.Crash? {
      var lapse := Tick(if s.now < s.key.expiresAt then s.key.expiresAt - s.now else 0);
      RunSnoc(s', es, lapse);
      es := es + [lapse];
      es := BuyOnce(s', es);
    } else if s.key.Stored? {
      es := FinishBuying(s', es, e.i);
    } else {
      var j :| 0 <= j < |s.callers| && Busy(s.callers[j]) && s.now >= s.callers[j].claimedAt + LOCK_TTL_MS;
      es := OutlivedBuysTwice(s, e.i, j);
    }
  }

  /** If nothing goes wrong from here on, at most one order will exist. */
  ghost predicate Honest(s: State) {
    forall es :: Possible(s, es) && AllSound(s, es) ==> Run(s, es).orders <= 1
  }

  ghost predicate HonestThroughout(s: State, es: seq<Event>)
    requires Possible(s, es)
    decreases |es|
  {
    Honest(s) && (es == [] || HonestThroughout(Next(s, es[0]), es[1..]))
  }

  lemma OneOrderIsHonest(s: State)
    requires OneOrder(s)
    ensures Honest(s)
  {
    forall es | Possible(s, es) && AllSound(s, es) ensures Run(s, es).orders <= 1 {
      SoundRun(s, es);
    }
  }

  /** The promise of `withIdempotency`, exactly: a run keeps it at every moment if and only if
      each of its events is sound. The first event that is not puts a second order within
      reach of callers that behave perfectly. */
  lemma {:induction false} PromiseExactly(s: State, es: seq<Event>)
    requires OneOrder(s) && Possible(s, es)
    ensures AllSound(s, es) <==> HonestThroughout(s, es)
    decreases |es|
  {
    OneOrderIsHonest(s);
    if es != [] {
      var s' := Next(s, es[0]);
      if Sound(s, es[0]) {
        OneOrderStep(s, es[0]);
        PromiseExactly(s', es[1..]);
      } else {
        var twice := UnsoundBuysTwice(s, es[0]);
        assert !Honest(s');
      }
    }
  }

  // ----- one run for each of the four ways -----

  /** A winner slower than its lock: a second caller buys again while the first still runs. */
  lemma SlowWinnerBuysTwice(now: int) returns (es: seq<Event>)
    ensures Possible(Initial(now), es) && Run(Initial(now), es).orders == 2
    ensures var callers := Run(Initial(now), es).callers;
      |callers| == 2 && Busy(callers[0]) && Busy(callers[1])
  {
    var s := Initial(now);
    es := BuyOnce(s, []);
    RunSnoc(s, es, Tick(LOCK_TTL_MS));
    es := es + [Tick(LOCK_TTL_MS)];
    es := BuyOnce(s, es);
  }

  /** A store that throws is treated like a failed purchase: the key is deleted although the
      order exists, and the retry creates a second one. */
  lemma FailedStoreBuysTwice(now: int) returns (es: seq<Event>)
    ensures Possible(Initial(now), es) && AllInTime(Initial(now), es) && Run(Initial(now), es).orders == 2
  {
    var s := Initial(now);
    es := BuyOnce(s, []);
    RunSnoc(s, es, Store(0, false));
    es := es + [Store(0, false)];
    RunSnoc(s, es, Release(0, true));
    es := es + [Release(0, true)];
    es := BuyOnce(s, es);
  }

  /** A process that dies between creating the order and storing the answer leaves a lock that
      heals itself, and the retry creates a second order. */
  lemma CrashedWinnerBuysTwice(now: int) returns (es: seq<Event>)
    ensures Possible(Initial(now), es) && AllInTime(Initial(now), es) && Run(Initial(now), es).orders == 2
  {
    var s := Initial(now);
    es := BuyOnce(s, []);
    RunSnoc(s, es, Crash(0));
    es := es + [Crash(0)];
    RunSnoc(s, es, Tick(LOCK_TTL_MS));
    es := es + [Tick(LOCK_TTL_MS)];
    es := BuyOnce(s, es);
  }

  /** A day after the answer was stored the same key buys again. */
  lemma ExpiredAnswerBuysAgain(now: int) returns (es: seq<Event>)
    ensures Possible(Initial(now), es) && AllInTime(Initial(now), es) && Run(Initial(now), es).orders == 2
  {
    var s := Initial(now);
    es := BuyOnce(s, []);
    RunSnoc(s, es, Store(0, true));
    es := es + [Store(0, true)];
    RunSnoc(s, es, Tick(RESULT_TTL_MS));
    es := es + [Tick(RESULT_TTL_MS)];
    es := BuyOnce(s, es);
  }
}
