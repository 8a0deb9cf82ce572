/** What the three time limits of `withIdempotency` promise, in milliseconds: the winner has
    30 seconds, a loser waits 5, an answer is replayed for a day. */
module IdempotencyTiming {
  import opened Common
  import opened Idempotency

  // ----- the stored answer -----

  /** A winner that stores its answer at time t: every run that ends less than a day after t
      keeps it, starts no `fn`, creates no order and takes no stock, every value returned in
      it is that answer, and a claim at its end loses. */
  lemma AnswerKeptForADay(s: State, i: nat, es: seq<Event>)
    requires Exclusive(s) && Enabled(s, Store(i, true))
    requires Possible(Next(s, Store(i, true)), es) && Run(Next(s, Store(i, true)), es).now < s.now + 86_400_000
    ensures
      var value, s', end := s.callers[i].phase.oid, Next(s, Store(i, true)), Run(Next(s, Store(i, true)), es);
      && s'.callers[i] == Returned(false, value)
      && end.key == Stored(value, s.now + 86_400_000)
      && end.orders == s.orders && end.decrements == s.decrements
      && |end.callers| >= |s.callers|
      && (forall j :: 0 <= j < |end.callers| ==> !Busy(end.callers[j]))
      && (forall j :: 0 <= j < |end.callers| && end.callers[j].Returned? ==>
            end.callers[j].value == value || (j < |s.callers| && j != i && s.callers[j] == end.callers[j]))
      && (forall j: nat :: Enabled(end, Claim(j)) ==> Next(end, Claim(j)).callers[j].Polling?)
  {
    ExclusiveStep(s, Store(i, true));
    StoredAnswerSticks(Next(s, Store(i, true)), es);
  }

  /** A retry that comes within the day, at the end of any such run, gets the answer. */
  lemma RetryReplays(s: State, i: nat, es: seq<Event>)
    requires Exclusive(s) && Enabled(s, Store(i, true))
    requires Possible(Next(s, Store(i, true)), es) && Run(Next(s, Store(i, true)), es).now < s.now + 86_400_000
    ensures
      var end := Run(Next(s, Store(i, true)), es);
      var n := |end.callers|;
      var retry := [Arrive, Claim(n), Poll(n)];
      && Possible(end, retry)
      && |Run(end, retry).callers| == n + 1
      && Run(end, retry).callers[n] == Returned(true, s.callers[i].phase.oid)
  {
    AnswerKeptForADay(s, i, es);
    var end := Run(Next(s, Store(i, true)), es);
    Retries(end);
  }

  lemma Retries(s: State)
    requires s.key.Stored? && s.now < s.key.expiresAt
    ensures
      var n := |s.callers|;
      var retry := [Arrive, Claim(n), Poll(n)];
      && Possible(s, retry)
      && Run(s, retry) == s.(callers := s.callers + [Returned(true, s.key.value)])
  {
    var n := |s.callers|;
    RunSnoc(s, [], Arrive);
    RunSnoc(s, [Arrive], Claim(n));
    RunSnoc(s, [Arrive, Claim(n)], Poll(n));
    assert [] + [Arrive] == [Arrive];
    assert [Arrive] + [Claim(n)] == [Arrive, Claim(n)];
    assert [Arrive, Claim(n)] + [Poll(n)] == [Arrive, Claim(n), Poll(n)];
  }

  /** The next claim after a store wins if and only if a day has passed. */
  lemma AnswerExpiresExactly(s: State, i: nat, ms: nat, j: nat)
    requires Enabled(s, Store(i, true)) && j < |s.callers| && s.callers[j] == Fresh
    ensures
      var waited := Next(Next(s, Store(i, true)), Tick(ms));
      Enabled(waited, Claim(j)) && (Next(waited, Claim(j)).callers[j].Executing? <==> ms >= 86_400_000)
  {}

  // ----- the lock -----

  /** Caller `i` stops being busy with this event. */
  predicate Leaves(e: Event, i: nat) {
    (e.Store? && e.i == i && e.ok) || (e.Release? && e.i == i) || (e.Crash? && e.i == i)
  }

  /** A claim that wins an idle key at time t holds the lock for 30 seconds: while it is busy,
      no other caller starts, and its marker stands. */
  lemma {:induction false} LockHolds(s: State, i: nat, until: int, es: seq<Event>)
    requires Exclusive(s) && i < |s.callers| && Busy(s.callers[i]) && s.key == Marker(until)
    requires Possible(s, es) && Run(s, es).now < until && forall e <- es :: !Leaves(e, i)
    ensures
      var end := Run(s, es);
      && Exclusive(end) && i < |end.callers| && Busy(end.callers[i]) && end.key == Marker(until)
    decreases |es|
  {
    if es != [] {
      var s' := Next(s, es[0]);
      assert es[0] in es;
      ClockMonotone(s', es[1..]);
      ExclusiveStep(s, es[0]);
      LockHolds(s', i, until, es[1..]);
    }
  }

  lemma WinnerHoldsFor30Seconds(s: State, i: nat, es: seq<Event>)
    requires Enabled(s, Claim(i)) && Visible(s.key, s.now).Absent?
    requires forall j :: 0 <= j < |s.callers| ==> !Busy(s.callers[j])
    requires Possible(Next(s, Claim(i)), es) && Run(Next(s, Claim(i)), es).now < s.now + 30_000
    requires forall e <- es :: !Leaves(e, i)
    ensures
      var s', end := Next(s, Claim(i)), Run(Next(s, Claim(i)), es);
      && s'.callers[i] == Executing(s.now, Begin)
      && i < |end.callers| && Busy(end.callers[i])
      && (forall j :: 0 <= j < |end.callers| && j != i ==> !Busy(end.callers[j]))
      && (forall j: nat :: Enabled(end, Claim(j)) ==> Next(end, Claim(j)).callers[j].Polling?)
  {
    LockHolds(Next(s, Claim(i)), i, s.now + 30_000, es);
  }

  /** A lock whose owner died heals itself: the next claim wins if and only if 30 seconds have
      passed since the owner's. */
  lemma LockHealsExactly(s: State, i: nat, ms: nat, j: nat)
    requires Enabled(s, Claim(i)) && Visible(s.key, s.now).Absent?
    requires j < |s.callers| && s.callers[j] == Fresh && j != i
    ensures
      var waited := Next(Next(Next(s, Claim(i)), Crash(i)), Tick(ms));
      Enabled(waited, Claim(j)) && (Next(waited, Claim(j)).callers[j].Executing? <==> ms >= 30_000)
  {}

  /** A purchase that fails frees the key at once: after the DEL the next caller wins. */
  lemma FailureFreesKey(s: State, i: nat, e: Event, j: nat)
    requires Enabled(s, e) && (e == Buy(i, false) || e == Create(i, false) || e == Store(i, false))
    requires j < |s.callers| && s.callers[j] == Fresh
    ensures Enabled(Next(s, e), Release(i, true))
    ensures
      var freed := Next(Next(s, e), Release(i, true));
      && freed.callers[i] == Rejected && Enabled(freed, Claim(j))
      && Next(freed, Claim(j)).callers[j] == Executing(s.now, Begin)
  {}

  // ----- the losers -----

  lemma {:induction false} PollingKeepsDeadline(s: State, j: nat, es: seq<Event>)
    requires Possible(s, es) && j < |s.callers| && s.callers[j] != Fresh
    ensures j < |Run(s, es).callers| && Run(s, es).callers[j] != Fresh
    ensures Run(s, es).callers[j].Polling? ==> s.callers[j] == Run(s, es).callers[j]
    decreases |es|
  {
    if es != [] {
      PollingKeepsDeadline(Next(s, es[0]), j, es[1..]);
    }
  }

  /** A caller that lost at time t and is still polling, whenever it polls next: from
      t + 5000 on it gives up; before that it returns the answer exactly if one is there to be
      seen, and polls on otherwise. */
  lemma LoserExactly(s: State, j: nat, es: seq<Event>)
    requires Enabled(s, Claim(j)) && !Visible(s.key, s.now).Absent?
    requires Possible(Next(s, Claim(j)), es)
    ensures Next(s, Claim(j)).callers[j].Polling? && Next(s, Claim(j)).key == s.key
    ensures
      var end := Run(Next(s, Claim(j)), es);
      j < |end.callers| && (end.callers[j].Polling? ==>
        && Enabled(end, Poll(j))
        && var c := Next(end, Poll(j)).callers[j];
           if end.now >= s.now + 5_000 then c == Rejected
           else if end.key.Stored? && end.now < end.key.expiresAt then c == Returned(true, end.key.value)
           else c == end.callers[j])
  {
    PollingKeepsDeadline(Next(s, Claim(j)), j, es);
  }

  // ----- one original answer -----

  /** 1 for the caller that ran the purchase and returned its answer, not a replay. */
  function Original(): Caller -> int { (c: Caller) => Bit(c.Returned? && !c.replayed) }

  lemma OneOriginalStep(s: State, e: Event)
    requires OneOrder(s) && Enabled(s, e) && Sound(s, e) && Sum(s.callers, Original()) == Bit(s.key.Stored?)
    ensures Sum(Next(s, e).callers, Original()) == Bit(Next(s, e).key.Stored?)
  {
    if e.Arrive? {
      SumAppend(s.callers, Fresh, Original());
    } else if !e.Tick? {
      SumUpdate(s.callers, e.i, Next(s, e).callers[e.i], Original());
    }
  }

  lemma {:induction false} OneOriginalRun(s: State, es: seq<Event>)
    requires OneOrder(s) && Possible(s, es) && AllSound(s, es) && Sum(s.callers, Original()) == Bit(s.key.Stored?)
    ensures Sum(Run(s, es).callers, Original()) == Bit(Run(s, es).key.Stored?)
    decreases |es|
  {
    if es != [] {
      OneOrderStep(s, es[0]);
      OneOriginalStep(s, es[0]);
      OneOriginalRun(Next(s, es[0]), es[1..]);
    }
  }

  /** In a sound run exactly one caller is told that its answer is not a replay, once there is
      an answer; all others are told that theirs is. */
  lemma OneOriginal(now: int, es: seq<Event>)
    requires Possible(Initial(now), es) && AllSound(Initial(now), es)
    ensures Sum(Run(Initial(now), es).callers, Original()) == Bit(Run(Initial(now), es).key.Stored?)
  {
    OneOriginalRun(Initial(now), es);
  }
}
