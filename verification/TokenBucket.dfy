/** The token-bucket rate limiter: the Lua script, its expiring key, and the 429 answer. */
module TokenBucket {
  import opened Common

  /** A bucket's configuration: burst size and tokens per second, both positive. */
  datatype Config = Config(capacity: real, refill: real) {
    predicate Valid() { capacity > 0.0 && refill > 0.0 }
  }

  /** The hash {t, l}. */
  datatype Bucket = Bucket(tokens: real, last: int)

  datatype Request = Request(now: int, cost: real)

  function MinReal(x: real, y: real): real { if x < y then x else y }

  function Ceil(x: real): (n: int)
    ensures n as real - 1.0 < x <= n as real
  {
    -((-x).Floor)
  }

  /** Tokens gained in `ms` milliseconds: an even trickle. */
  function Gain(cfg: Config, ms: nat): real {
    if ms == 0 then 0.0 else Gain(cfg, ms - 1) + cfg.refill / 1000.0
  }

  function Elapsed(last: int, now: int): nat { if now - last < 0 then 0 else now - last }

  /** The tokens a request at `now` finds; a missing bucket is full. */
  function Available(cfg: Config, b: Option<Bucket>, now: int): real {
    match b
    case None => cfg.capacity
    case Some(b) => MinReal(cfg.capacity, b.tokens + Gain(cfg, Elapsed(b.last, now)))
  }

  predicate Allowed(cfg: Config, b: Option<Bucket>, r: Request) {
    Available(cfg, b, r.now) >= r.cost
  }

  function Consume(cfg: Config, b: Option<Bucket>, r: Request): Bucket {
    var tokens := Available(cfg, b, r.now);
    Bucket(if tokens >= r.cost then tokens - r.cost else tokens, r.now)
  }

  /** Milliseconds until a refused request may be retried. */
  function RetryAfterMs(cfg: Config, b: Option<Bucket>, r: Request): int
    requires cfg.Valid()
  {
    if Allowed(cfg, b, r) then 0 else Ceil((r.cost - Available(cfg, b, r.now)) / cfg.refill * 1000.0)
  }

  /** The time to live of a key, in seconds: twice the time to fill the bucket. */
  function Ttl(cfg: Config): int
    requires cfg.Valid()
  {
    Ceil(cfg.capacity / cfg.refill * 2.0)
  }

  /** What a read at `now` sees of a key whose last check armed its expiry. */
  function Visible(cfg: Config, b: Option<Bucket>, now: int): Option<Bucket>
    requires cfg.Valid()
  {
    if b.Some? && now >= b.value.last + 1000 * Ttl(cfg) then None else b
  }

  /** A key lives for twice the time to fill its bucket, rounded up to whole seconds. */
  lemma KeyLifetime(cfg: Config)
    requires cfg.Valid()
    ensures Ttl(cfg) as real - 1.0 < 2.0 * (cfg.capacity / cfg.refill) <= Ttl(cfg) as real
  {}

  // ----- the trickle -----

  lemma {:induction false} GainAdds(cfg: Config, a: nat, b: nat)
    ensures Gain(cfg, a) + Gain(cfg, b) == Gain(cfg, a + b)
  {
    if b > 0 {
      GainAdds(cfg, a, b - 1);
    }
  }

  lemma {:induction false} GainGrows(cfg: Config, ms: nat)
    requires cfg.Valid()
    ensures Gain(cfg, ms) >= 0.0
  {
    if ms > 0 {
      GainGrows(cfg, ms - 1);
    }
  }

  /** The script's product is the trickle. */
  lemma {:induction false} GainIsProduct(cfg: Config, ms: nat)
    ensures Gain(cfg, ms) == ms as real / 1000.0 * cfg.refill
  {
    if ms > 0 {
      GainIsProduct(cfg, ms - 1);
      assert ms as real / 1000.0 == (ms - 1) as real / 1000.0 + 0.001;
    }
  }

  lemma GainAtLeast(cfg: Config, ms: nat, seconds: real)
    requires cfg.Valid() && ms as real / 1000.0 >= seconds
    ensures Gain(cfg, ms) >= seconds * cfg.refill
  {
    GainIsProduct(cfg, ms);
  }

  /** The script as it runs in Redis, on the fields of one key. */
  class RateKey {
    var present: bool
    var t: real
    var l: int
    var expiresAt: int

    function Contents(): Option<Bucket>
      reads this
    {
      if present then Some(Bucket(t, l)) else None
    }

    constructor ()
      ensures Contents() == None
    {
      present, t, l, expiresAt := false, 0.0, 0, 0;
    }

    method RateCheck(capacity: real, refill: real, now: int, cost: real)
      returns (allowed: int, remaining: int, retryAfterMs: int)
      requires Config(capacity, refill).Valid()
      modifies this
      ensures
        var cfg, r, b := Config(capacity, refill), Request(now, cost), old(Contents());
        && Contents() == Some(Consume(cfg, b, r))
        && expiresAt == now + 1000 * Ttl(cfg)
        && allowed == Bit(Allowed(cfg, b, r))
        && remaining == Consume(cfg, b, r).tokens.Floor
        && retryAfterMs == RetryAfterMs(cfg, b, r)
    {
      var tokens, last := t, l;
      if !present {
        tokens := capacity;
        last := now;
      }
      var elapsedMs := now - last;
      if elapsedMs < 0 {
        elapsedMs := 0;
      }
      ghost var cfg := Config(capacity, refill);
      GainIsProduct(cfg, elapsedMs);
      tokens := MinReal(capacity, tokens + elapsedMs as real / 1000.0 * refill);
      assert tokens == Available(cfg, Contents(), now);
      allowed, retryAfterMs := 0, 0;
      if tokens >= cost {
        tokens := tokens - cost;
        allowed := 1;
      } else {
        var deficit := cost - tokens;
        retryAfterMs := Ceil(deficit / refill * 1000.0);
      }
      present, t, l := true, tokens, now;
      expiresAt := now + 1000 * Ceil(capacity / refill * 2.0);
      remaining := tokens.Floor;
    }
  }

  // ----- sequences of requests -----

  /** The bucket after a sequence of requests, never evicted. */
  function After(cfg: Config, b: Option<Bucket>, rs: seq<Request>): Option<Bucket> {
    if rs == [] then b
    else Some(Consume(cfg, After(cfg, b, rs[..|rs| - 1]), rs[|rs| - 1]))
  }

  /** Whether the last request of `rs` is admitted. */
  predicate LastAllowed(cfg: Config, b: Option<Bucket>, rs: seq<Request>)
    requires rs != []
  {
    Allowed(cfg, After(cfg, b, rs[..|rs| - 1]), rs[|rs| - 1])
  }

  /** The total cost admitted. */
  function Spent(cfg: Config, b: Option<Bucket>, rs: seq<Request>): real {
    if rs == [] then 0.0
    else Spent(cfg, b, rs[..|rs| - 1]) + (if LastAllowed(cfg, b, rs) then rs[|rs| - 1].cost else 0.0)
  }

  predicate Ordered(rs: seq<Request>) {
    forall i, j :: 0 <= i <= j < |rs| ==> rs[i].now <= rs[j].now
  }

  predicate CostsOk(rs: seq<Request>) {
    forall i :: 0 <= i < |rs| ==> rs[i].cost >= 0.0
  }

  // ----- exactness -----

  /** The budget of the window from request `j` to request `k`: the burst and the refill since
      request `j`, less what was admitted from `j` up to `k`. */
  function Window(cfg: Config, rs: seq<Request>, j: nat, k: nat): real
    requires j <= k < |rs|
  {
    cfg.capacity + Gain(cfg, Elapsed(rs[j].now, rs[k].now))
      - (Spent(cfg, None, rs[..k]) - Spent(cfg, None, rs[..j]))
  }

  /** The tokens request `k` finds. */
  function Found(cfg: Config, rs: seq<Request>, k: nat): real
    requires k < |rs|
  {
    Available(cfg, After(cfg, None, rs[..k]), rs[k].now)
  }

  function Admitted(cfg: Config, rs: seq<Request>, k: nat): real
    requires k < |rs|
  {
    if Found(cfg, rs, k) >= rs[k].cost then rs[k].cost else 0.0
  }

  lemma WindowGrows(cfg: Config, rs: seq<Request>, j: nat, k: nat)
    requires Ordered(rs) && j < k < |rs|
    ensures Window(cfg, rs, j, k)
         == Window(cfg, rs, j, k - 1) + Gain(cfg, rs[k].now - rs[k - 1].now) - Admitted(cfg, rs, k - 1)
  {
    GainAdds(cfg, rs[k].now - rs[k - 1].now, rs[k - 1].now - rs[j].now);
    assert rs[..k][..k - 1] == rs[..k - 1];
  }

  lemma FoundStep(cfg: Config, rs: seq<Request>, k: nat)
    requires 0 < k < |rs| && rs[k - 1].now <= rs[k].now
    ensures Found(cfg, rs, k)
         == MinReal(cfg.capacity,
                    Found(cfg, rs, k - 1) - Admitted(cfg, rs, k - 1) + Gain(cfg, rs[k].now - rs[k - 1].now))
  {
    assert rs[..k][..k - 1] == rs[..k - 1];
  }

  /** From one request to the next, a bound by a window budget, and the window that meets it,
      carry over. */
  lemma BoundStep(cfg: Config, rs: seq<Request>, j: nat, k: nat)
    requires Ordered(rs) && j < k < |rs|
    requires Found(cfg, rs, k - 1) <= Window(cfg, rs, j, k - 1)
    ensures Found(cfg, rs, k) <= Window(cfg, rs, j, k)
  {
    FoundStep(cfg, rs, k);
    WindowGrows(cfg, rs, j, k);
  }

  lemma WitnessStep(cfg: Config, rs: seq<Request>, j: nat, k: nat)
    requires Ordered(rs) && j < k < |rs|
    requires Found(cfg, rs, k - 1) == Window(cfg, rs, j, k - 1)
    ensures Found(cfg, rs, k) == Window(cfg, rs, j, k) || Found(cfg, rs, k) == cfg.capacity
  {
    FoundStep(cfg, rs, k);
    WindowGrows(cfg, rs, j, k);
  }

  lemma OwnWindow(cfg: Config, rs: seq<Request>, k: nat)
    requires k < |rs|
    ensures Window(cfg, rs, k, k) == cfg.capacity && Found(cfg, rs, k) <= cfg.capacity
    ensures k == 0 ==> Found(cfg, rs, k) == cfg.capacity
  {}

  /** The tokens found by request `k` are the smallest window budget that ends at it. */
  lemma {:induction false} Exactness(cfg: Config, rs: seq<Request>, k: nat)
    requires Ordered(rs) && k < |rs|
    ensures forall j | 0 <= j <= k :: Found(cfg, rs, k) <= Window(cfg, rs, j, k)
    ensures exists j | 0 <= j <= k :: Found(cfg, rs, k) == Window(cfg, rs, j, k)
  {
    OwnWindow(cfg, rs, k);
    if k > 0 {
      Exactness(cfg, rs, k - 1);
      forall j | 0 <= j < k ensures Found(cfg, rs, k) <= Window(cfg, rs, j, k) {
        BoundStep(cfg, rs, j, k);
      }
      var j :| 0 <= j <= k - 1 && Found(cfg, rs, k - 1) == Window(cfg, rs, j, k - 1);
      WitnessStep(cfg, rs, j, k);
    }
  }

  /** A request is admitted exactly when no window that ends at it would exceed the burst plus
      the refill: the limiter never admits too much, and every refusal is forced. */
  lemma AdmittedExactly(cfg: Config, rs: seq<Request>, k: nat)
    requires Ordered(rs) && k < |rs|
    ensures Allowed(cfg, After(cfg, None, rs[..k]), rs[k])
       <==> forall j | 0 <= j <= k ::
              Spent(cfg, None, rs[..k]) - Spent(cfg, None, rs[..j]) + rs[k].cost
                <= cfg.capacity + Gain(cfg, Elapsed(rs[j].now, rs[k].now))
  {
    Exactness(cfg, rs, k);
    forall j | 0 <= j <= k
      ensures rs[k].cost <= Window(cfg, rs, j, k)
         <==> Spent(cfg, None, rs[..k]) - Spent(cfg, None, rs[..j]) + rs[k].cost
                <= cfg.capacity + Gain(cfg, Elapsed(rs[j].now, rs[k].now))
    {}
  }

  // ----- arbitrary clocks -----

  /** Total of the forward, and of the backward, moves of the request clock. */
  function Forward(rs: seq<Request>): nat {
    if |rs| <= 1 then 0 else Forward(rs[..|rs| - 1]) + Elapsed(rs[|rs| - 2].now, rs[|rs| - 1].now)
  }

  function Backward(rs: seq<Request>): nat {
    if |rs| <= 1 then 0 else Backward(rs[..|rs| - 1]) + Elapsed(rs[|rs| - 1].now, rs[|rs| - 2].now)
  }

  /** For arbitrary, even decreasing, timestamps the tokens stay within the bucket and the
      total admitted is at most the burst plus the refill over the forward clock moves, which
      are the elapsed time plus the total backward drift. */
  lemma {:induction false} SkewedClocks(cfg: Config, rs: seq<Request>)
    requires cfg.Valid() && CostsOk(rs) && rs != []
    ensures 0.0 <= After(cfg, None, rs).value.tokens <= cfg.capacity
    ensures Spent(cfg, None, rs) + After(cfg, None, rs).value.tokens <= cfg.capacity + Gain(cfg, Forward(rs))
    ensures Forward(rs) == rs[|rs| - 1].now - rs[0].now + Backward(rs)
  {
    var n := |rs| - 1;
    var front := rs[..n];
    if n > 0 {
      SkewedClocks(cfg, front);
      var ms := Elapsed(front[n - 1].now, rs[n].now);
      assert After(cfg, None, front).value.last == front[n - 1].now;
      assert Forward(rs) == Forward(front) + ms;
      GainAdds(cfg, Forward(front), ms);
      GainGrows(cfg, ms);
    } else {
      assert front == [];
    }
  }

  // ----- eviction -----

  /** The bucket after a sequence of requests when Redis drops the key on time. */
  function AfterEvicting(cfg: Config, rs: seq<Request>): Option<Bucket>
    requires cfg.Valid()
  {
    if rs == [] then None
    else
      var r := rs[|rs| - 1];
      Some(Consume(cfg, Visible(cfg, AfterEvicting(cfg, rs[..|rs| - 1]), r.now), r))
  }

  /** A key is dropped only when its bucket has long been full. */
  lemma EvictedIsFull(cfg: Config, b: Bucket, now: int)
    requires cfg.Valid() && b.tokens >= 0.0 && now >= b.last + 1000 * Ttl(cfg)
    ensures Available(cfg, Some(b), now) == cfg.capacity
  {
    var fill := cfg.capacity / cfg.refill;
    var ms := now - b.last;
    assert fill > 0.0;
    assert ms as real / 1000.0 >= Ttl(cfg) as real >= fill * 2.0 >= fill;
    GainAtLeast(cfg, ms, fill);
    assert fill * cfg.refill == cfg.capacity;
  }

  /** Eviction is unobservable: on one monotone clock the limiter that drops idle keys holds
      the same bucket as one that never does, and the next request finds the same tokens, so
      it gets the same decision, remaining count and retry time. */
  lemma {:induction false} EvictionUnobservable(cfg: Config, rs: seq<Request>, r: Request)
    requires cfg.Valid() && CostsOk(rs) && Ordered(rs)
    requires rs != [] ==> rs[|rs| - 1].now <= r.now
    ensures AfterEvicting(cfg, rs) == After(cfg, None, rs)
    ensures
      var seen, kept := Visible(cfg, AfterEvicting(cfg, rs), r.now), After(cfg, None, rs);
      && Allowed(cfg, seen, r) == Allowed(cfg, kept, r)
      && Consume(cfg, seen, r) == Consume(cfg, kept, r)
      && RetryAfterMs(cfg, seen, r) == RetryAfterMs(cfg, kept, r)
    decreases |rs|
  {
    if rs != [] {
      var n := |rs| - 1;
      EvictionUnobservable(cfg, rs[..n], rs[n]);
      SkewedClocks(cfg, rs);
      var b := After(cfg, None, rs).value;
      if r.now >= b.last + 1000 * Ttl(cfg) {
        EvictedIsFull(cfg, b, r.now);
      }
    }
  }

  // ----- retrying -----

  predicate AllRefused(cfg: Config, b: Option<Bucket>, rs: seq<Request>) {
    rs == [] || (!LastAllowed(cfg, b, rs) && AllRefused(cfg, b, rs[..|rs| - 1]))
  }

  /** Times in order from `from` to `until`. */
  predicate Between(rs: seq<Request>, from: int, until: int) {
    from <= until && (rs == [] || (rs[|rs| - 1].now <= until && Between(rs[..|rs| - 1], from, rs[|rs| - 1].now)))
  }

  /** A refused request costs nothing: whoever comes later finds what it would have found. */
  lemma RefusalIsFree(cfg: Config, b: Bucket, r: Request, later: int)
    requires cfg.Valid() && b.last <= r.now <= later && !Allowed(cfg, Some(b), r)
    ensures Available(cfg, Some(Consume(cfg, Some(b), r)), later) == Available(cfg, Some(b), later)
  {
    GainAdds(cfg, r.now - b.last, later - r.now);
    GainGrows(cfg, later - r.now);
  }

  lemma {:induction false} BetweenLast(cfg: Config, b: Bucket, rs: seq<Request>, until: int)
    requires Between(rs, b.last, until)
    ensures b.last <= After(cfg, Some(b), rs).value.last <= until
  {
    if rs != [] {
      BetweenLast(cfg, b, rs[..|rs| - 1], rs[|rs| - 1].now);
    }
  }

  /** Any number of refused probes leaves a later request the same tokens. */
  lemma {:induction false} RefusalsAreFree(cfg: Config, b: Bucket, rs: seq<Request>, later: int)
    requires cfg.Valid() && AllRefused(cfg, Some(b), rs) && Between(rs, b.last, later)
    ensures Available(cfg, After(cfg, Some(b), rs), later) == Available(cfg, Some(b), later)
    decreases |rs|
  {
    if rs != [] {
      var front, r := rs[..|rs| - 1], rs[|rs| - 1];
      BetweenLast(cfg, b, front, r.now);
      BetweenWidens(front, b.last, r.now, later);
      RefusalsAreFree(cfg, b, front, later);
      RefusalIsFree(cfg, After(cfg, Some(b), front).value, r, later);
    }
  }

  lemma BetweenWidens(rs: seq<Request>, from: int, until: int, later: int)
    requires Between(rs, from, until) && until <= later
    ensures Between(rs, from, later)
  {}

  /** Waiting `ms` gains `deficit` tokens exactly when `ms` is at least the retry time. */
  lemma RetryTime(cfg: Config, deficit: real, ms: nat)
    requires cfg.Valid() && deficit > 0.0
    ensures Gain(cfg, ms) >= deficit <==> ms >= Ceil(deficit / cfg.refill * 1000.0)
  {
    GainIsProduct(cfg, ms);
    var wait := deficit / cfg.refill;
    assert wait * cfg.refill == deficit;
    if ms as real < wait * 1000.0 {
      var s := ms as real / 1000.0;
      assert s < wait;
      assert s * cfg.refill < wait * cfg.refill;
    }
  }

  /** Retry time is sufficient and tight. After a refusal, and any number of further refused
      probes, the same request at time `later` is admitted if and only if `retryAfterMs` have
      passed; but if its cost exceeds the capacity it is never admitted, whatever it waits. */
  lemma RetryExact(cfg: Config, b: Option<Bucket>, r: Request, probes: seq<Request>, later: int)
    requires cfg.Valid() && !Allowed(cfg, b, r)
    requires AllRefused(cfg, Some(Consume(cfg, b, r)), probes) && Between(probes, r.now, later)
    ensures Allowed(cfg, After(cfg, Some(Consume(cfg, b, r)), probes), Request(later, r.cost))
       <==> r.cost <= cfg.capacity && later >= r.now + RetryAfterMs(cfg, b, r)
  {
    var refused := Consume(cfg, b, r);
    RefusalsAreFree(cfg, refused, probes, later);
    RetryTime(cfg, r.cost - refused.tokens, later - r.now);
  }

  // ----- the 429 answer -----

  /** Retry-After, in seconds (section 10.2.3 of RFC 9110). */
  function RetryAfterSec(retryAfterMs: int): int {
    var s := Ceil(retryAfterMs as real / 1000.0);
    if s < 1 then 1 else s
  }

  /** The header of a refusal is the fewest whole seconds that cover the retry time, and a
      client that waits it out is admitted, refused probes in between or not. */
  lemma HeaderSuffices(cfg: Config, b: Option<Bucket>, r: Request, probes: seq<Request>)
    requires cfg.Valid() && !Allowed(cfg, b, r) && r.cost <= cfg.capacity
    requires
      var sec := RetryAfterSec(RetryAfterMs(cfg, b, r));
      AllRefused(cfg, Some(Consume(cfg, b, r)), probes) && Between(probes, r.now, r.now + 1000 * sec)
    ensures
      var ms := RetryAfterMs(cfg, b, r);
      var sec := RetryAfterSec(ms);
      && 1000 * (sec - 1) < ms <= 1000 * sec
      && Allowed(cfg, After(cfg, Some(Consume(cfg, b, r)), probes), Request(r.now + 1000 * sec, r.cost))
  {
    var deficit := r.cost - Available(cfg, b, r.now);
    assert deficit / cfg.refill > 0.0;
    assert RetryAfterMs(cfg, b, r) >= 1;
    RetryExact(cfg, b, r, probes, r.now + 1000 * RetryAfterSec(RetryAfterMs(cfg, b, r)));
  }
}
