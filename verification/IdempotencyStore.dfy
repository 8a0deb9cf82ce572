/** `withIdempotency` around a purchase in its own form: the Redis key and the caller's
    progress, updated in place, and the losers' poll loop. */
module IdempotencyStore {
  import opened Common
  import opened Idempotency

  /** The calls a winner makes: the purchase, then the store of its answer, then, after any
      exception, the DEL. Each flag says whether the call of that name lands. */
  function WinnerCalls(i: nat, took: bool, created: bool, stored: bool, deleted: bool): seq<Event> {
    [Buy(i, took)]
    + (if took then [Create(i, created)] else [])
    + (if took && created then [Store(i, stored)] else [])
    + (if took && created && stored then [] else [Release(i, deleted)])
  }

  class KeyedBuy {
    var key: Key
    var now: int
    var callers: seq<Caller>
    var orders: nat
    var decrements: nat
    var burned: nat

    function Snapshot(): State
      reads this
    {
      State.State(key, now, callers, orders, decrements, burned)
    }

    constructor (now: int)
      ensures Snapshot() == Initial(now)
    {
      this.now := now;
      key, callers, orders, decrements, burned := Absent, [], 0, 0, 0;
    }

    /** SET key marker EX 30 NX. */
    method TryClaim(i: nat) returns (won: bool)
      requires Enabled(Snapshot(), Claim(i))
      modifies this`key, this`callers
      ensures Snapshot() == Next(old(Snapshot()), Claim(i))
      ensures won <==> callers[i].Executing?
    {
      won := key.Absent? || now >= key.expiresAt;
      if won {
        key := Marker(now + LOCK_TTL_MS);
        callers := callers[i := Executing(now, Begin)];
      } else {
        callers := callers[i := Polling(now + POLL_TIMEOUT_MS)];
      }
    }

    /** The winner's try and catch, from the claim to its answer: a run of the machine. It
        answers exactly if every call landed, and the promise survives exactly if the result
        of a completed purchase was stored, whether or not the DEL lands. */
    method Execute(i: nat, took: bool, created: bool, stored: bool, deleted: bool) returns (answer: Option<Oid>)
      requires InPhase(Snapshot(), i, Begin)
      modifies this
      ensures
        var es := WinnerCalls(i, took, created, stored, deleted);
        Possible(old(Snapshot()), es) && Snapshot() == Run(old(Snapshot()), es)
      ensures answer.Some? <==> took && created && stored
      ensures key == if answer.Some? then Stored(answer.value, now + 86_400_000)
                     else if deleted then Absent else old(key)
      ensures i < |callers| && callers[i] == if answer.Some? then Returned(false, answer.value) else Rejected
      ensures OneOrder(old(Snapshot())) ==> (OneOrder(Snapshot()) <==> !(took && created && !stored))
    {
      WinnerRun(Snapshot(), i, took, created, stored, deleted);
      if OneOrder(Snapshot()) {
        WinnerKeepsPromise(Snapshot(), i, took, created, stored, deleted);
      }
      if took {
        decrements := decrements + 1;
        if created {
          var oid := orders;
          orders := orders + 1;
          if stored {
            key := Stored(oid, now + RESULT_TTL_MS);
            callers := callers[i := Returned(false, oid)];
            return Some(oid);
          }
        } else {
          burned := burned + 1;
        }
      }
      if deleted {
        key := Absent;
      }
      callers := callers[i := Rejected];
      answer := None;
    }

    /** One turn of a loser's loop. */
    method PollTurn(i: nat)
      requires Enabled(Snapshot(), Poll(i))
      modifies this`callers
      ensures Snapshot() == Next(old(Snapshot()), Poll(i))
    {
      if now >= callers[i].deadline {
        callers := callers[i := Rejected];
      } else if key.Stored? && now < key.expiresAt {
        callers := callers[i := Returned(true, key.value)];
      }
    }
  }

  /** Where a winner's calls lead. */
  function WinnerEnd(s: State, i: nat, took: bool, created: bool, stored: bool, deleted: bool): State
    requires i < |s.callers|
  {
    var done := took && created && stored;
    State.State(
      if done then Stored(s.orders, s.now + RESULT_TTL_MS) else if deleted then Absent else s.key,
      s.now,
      s.callers[i := if done then Returned(false, s.orders) else Rejected],
      s.orders + Bit(took && created), s.decrements + Bit(took), s.burned + Bit(took && !created))
  }

  lemma WinnerRun(s: State, i: nat, took: bool, created: bool, stored: bool, deleted: bool)
    requires InPhase(s, i, Begin)
    ensures
      var es := WinnerCalls(i, took, created, stored, deleted);
      && Possible(s, es) && Run(s, es) == WinnerEnd(s, i, took, created, stored, deleted)
      && (!(took && created && !stored) ==> AllSound(s, es))
  {
    var es := [];
    RunSnoc(s, es, Buy(i, took));
    es := es + [Buy(i, took)];
    if took {
      RunSnoc(s, es, Create(i, created));
      es := es + [Create(i, created)];
    }
    if took && created {
      RunSnoc(s, es, Store(i, stored));
      es := es + [Store(i, stored)];
    }
    if !(took && created && stored) {
      RunSnoc(s, es, Release(i, deleted));
      es := es + [Release(i, deleted)];
    }
    assert es == WinnerCalls(i, took, created, stored, deleted);
  }

  /** A winner keeps the promise exactly if it stores the result of a completed purchase. */
  lemma WinnerKeepsPromise(s: State, i: nat, took: bool, created: bool, stored: bool, deleted: bool)
    requires InPhase(s, i, Begin) && OneOrder(s)
    ensures OneOrder(WinnerEnd(s, i, took, created, stored, deleted)) <==> !(took && created && !stored)
  {
    if took && created && !stored {
      var end := WinnerEnd(s, i, took, created, stored, deleted);
      assert Busy(s.callers[i]) && s.key.Marker?;
      assert !end.key.Stored? && forall j :: 0 <= j < |end.callers| ==> !HasOrder(end.callers[j]);
    } else {
      WinnerRun(s, i, took, created, stored, deleted);
      SoundRun(s, WinnerCalls(i, took, created, stored, deleted));
    }
  }

  /** One turn of the loop: the clock, then what GET returned. */
  datatype Turn = Turn(now: int, seen: Key)

  /** The loop is still running before turn `i`. */
  predicate StillPolling(turns: seq<Turn>, deadline: int, i: nat)
    requires i <= |turns|
  {
    forall j :: 0 <= j < i ==> turns[j].now < deadline && !turns[j].seen.Stored?
  }

  /** Turn `i` is the first that sees an answer before the deadline. */
  predicate AnsweredAt(turns: seq<Turn>, deadline: int, i: nat) {
    i < |turns| && StillPolling(turns, deadline, i) && turns[i].now < deadline && turns[i].seen.Stored?
  }

  /** A loser polls until its deadline: it returns the first answer it sees before then, and
      otherwise times out. Some turn reaches the deadline, because time passes. */
  method PollForResult(deadline: int, turns: seq<Turn>) returns (r: Option<Oid>)
    requires turns != [] && turns[|turns| - 1].now >= deadline
    ensures r.Some? <==> exists i: nat :: AnsweredAt(turns, deadline, i)
    ensures forall i: nat :: AnsweredAt(turns, deadline, i) ==> r == Some(turns[i].seen.value)
  {
    var i := 0;
    while turns[i].now < deadline
      invariant i < |turns| && StillPolling(turns, deadline, i)
      decreases |turns| - i
    {
      if turns[i].seen.Stored? {
        assert AnsweredAt(turns, deadline, i);
        return Some(turns[i].seen.value);
      }
      i := i + 1;
    }
    r := None;
  }
}
