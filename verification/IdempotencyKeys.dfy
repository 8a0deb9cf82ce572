/** The Redis key of an idempotent request: which requests share it. */
module IdempotencyKeys {

  datatype Operation = Buy | Reserve

  function Name(op: Operation): string {
    match op case Buy => "buy" case Reserve => "reserve"
  }

  predicate KeyChar(c: char) {
    'a' <= c <= 'z' || 'A' <= c <= 'Z' || '0' <= c <= '9' || c == '_' || c == '-'
  }

  /** IDEM_KEY_RE. */
  predicate ValidRawKey(raw: string) {
    8 <= |raw| <= 128 && forall i :: 0 <= i < |raw| ==> KeyChar(raw[i])
  }

  datatype Request = Request(op: Operation, user: string, product: string, raw: string)

  function RedisKey(r: Request): string {
    "idem:" + (Name(r.op) + ":" + (r.user + ":" + (r.product + ":" + r.raw)))
  }

  /** A string splits in one way at its first colon, and in one way at its last. */
  lemma SplitFirst(a: string, x: string, b: string, y: string)
    requires ':' !in a && ':' !in b && a + ":" + x == b + ":" + y
    ensures a == b && x == y
  {
    var s, t := a + ":" + x, b + ":" + y;
    assert s[|a|] == ':' && t[|b|] == ':';
    assert |a| == |b|;
    assert a == s[..|a|] && b == t[..|b|];
    assert x == s[|a| + 1..] && y == t[|b| + 1..];
  }

  lemma SplitLast(x: string, a: string, y: string, b: string)
    requires ':' !in a && ':' !in b && x + ":" + a == y + ":" + b
    ensures x == y && a == b
  {
    var s, t := x + ":" + a, y + ":" + b;
    assert s[|x|] == ':' && t[|y|] == ':';
    assert |x| == |y|;
    assert x == s[..|x|] && y == t[..|y|];
    assert a == s[|x| + 1..] && b == t[|y| + 1..];
  }

  /** The key without its prefix and its raw key; what remains is user and product. */
  lemma SameOperationAndRawKey(r: Request, q: Request)
    requires ValidRawKey(r.raw) && ValidRawKey(q.raw) && RedisKey(r) == RedisKey(q)
    ensures r.op == q.op && r.raw == q.raw && r.user + ":" + r.product == q.user + ":" + q.product
  {
    var pairR, pairQ := r.user + ":" + r.product, q.user + ":" + q.product;
    assert RedisKey(r)[5..] == Name(r.op) + ":" + (pairR + ":" + r.raw);
    assert RedisKey(q)[5..] == Name(q.op) + ":" + (pairQ + ":" + q.raw);
    SplitFirst(Name(r.op), pairR + ":" + r.raw, Name(q.op), pairQ + ":" + q.raw);
    SplitLast(pairR, r.raw, pairQ, q.raw);
    assert Name(Buy)[0] != Name(Reserve)[0];
  }

  /** Requests whose user ids have no colon and whose raw keys match the pattern share a Redis
      key only if operation, user, product and raw key all agree, even for product ids that
      contain colons. */
  lemma KeysDoNotCollide(r: Request, q: Request)
    requires ValidRawKey(r.raw) && ValidRawKey(q.raw) && ':' !in r.user && ':' !in q.user
    requires RedisKey(r) == RedisKey(q)
    ensures r == q
  {
    SameOperationAndRawKey(r, q);
    SplitFirst(r.user, r.product, q.user, q.product);
  }

  predicate HexDigit(c: char) {
    '0' <= c <= '9' || 'a' <= c <= 'f' || 'A' <= c <= 'F'
  }

  /** The strings that name a document: 24 hexadecimal digits, or any 12 characters. */
  predicate ValidObjectId(id: string) {
    |id| == 12 || (|id| == 24 && forall i :: 0 <= i < |id| ==> HexDigit(id[i]))
  }

  /** A valid product id is all that the end of a string can name: the longer kind holds no
      colon where the shorter kind has one before it. */
  lemma ProductsSplit(u: string, x: string, v: string, y: string)
    requires ValidObjectId(x) && ValidObjectId(y) && |x| <= |y| && u + ":" + x == v + ":" + y
    ensures u == v && x == y
  {
    var s, t := u + ":" + x, v + ":" + y;
    assert s[|u|] == ':';
    assert forall k :: |v| < k < |t| ==> t[k] == y[k - |v| - 1];
    assert |x| == |y|;
    assert u == s[..|u|] && v == t[..|v|];
    assert x == s[|u| + 1..] && y == t[|v| + 1..];
  }

  /** Every request that gets as far as building its key has a valid product id, and among
      these keys never collide, whatever the user ids look like. */
  lemma AcceptedRequestsDoNotCollide(r: Request, q: Request)
    requires ValidRawKey(r.raw) && ValidRawKey(q.raw)
    requires ValidObjectId(r.product) && ValidObjectId(q.product)
    requires RedisKey(r) == RedisKey(q)
    ensures r == q
  {
    SameOperationAndRawKey(r, q);
    if |r.product| <= |q.product| {
      ProductsSplit(r.user, r.product, q.user, q.product);
    } else {
      ProductsSplit(q.user, q.product, r.user, r.product);
    }
  }
}
