/** Options, and weighted sums over sequences with the two facts every ledger argument needs:
    replacing one element moves the sum by the difference, appending adds the new weight. */
module Common {

  datatype Option<+T> = None | Some(value: T)

  function Get<K, V>(m: map<K, V>, k: K): Option<V> {
    if k in m then Some(m[k]) else None
  }

  function Min(a: nat, b: nat): nat { if a < b then a else b }

  function Bit(b: bool): nat { if b then 1 else 0 }

  ghost function Sum<T>(s: seq<T>, w: T -> int): int {
    if s == [] then 0 else Sum(s[..|s| - 1], w) + w(s[|s| - 1])
  }

  lemma {:induction false} SumAppend<T>(s: seq<T>, x: T, w: T -> int)
    ensures Sum(s + [x], w) == Sum(s, w) + w(x)
  {
    assert (s + [x])[..|s|] == s;
  }

  lemma {:induction false} SumUpdate<T>(s: seq<T>, i: nat, x: T, w: T -> int)
    requires i < |s|
    ensures Sum(s[i := x], w) == Sum(s, w) - w(s[i]) + w(x)
  {
    var n := |s| - 1;
    if i == n {
      assert s[i := x][..n] == s[..n];
    } else {
      assert s[i := x][..n] == s[..n][i := x];
      SumUpdate(s[..n], i, x, w);
    }
  }

  lemma {:induction false} SumNonNegative<T>(s: seq<T>, w: T -> int)
    requires forall x: T <- s :: w(x) >= 0
    ensures Sum(s, w) >= 0
  {
    if s != [] {
      assert forall x: T <- s[..|s| - 1] :: x in s;
      SumNonNegative(s[..|s| - 1], w);
    }
  }

  lemma {:induction false} SumPlus<T>(s: seq<T>, w: T -> int, u: T -> int, v: T -> int)
    requires forall i :: 0 <= i < |s| ==> w(s[i]) == u(s[i]) + v(s[i])
    ensures Sum(s, w) == Sum(s, u) + Sum(s, v)
  {
    if s != [] {
      SumPlus(s[..|s| - 1], w, u, v);
    }
  }

  lemma {:induction false} SumSame<T>(s: seq<T>, t: seq<T>, w: T -> int)
    requires |s| == |t| && forall i :: 0 <= i < |s| ==> w(s[i]) == w(t[i])
    ensures Sum(s, w) == Sum(t, w)
  {
    if s != [] {
      SumSame(s[..|s| - 1], t[..|t| - 1], w);
    }
  }

  lemma {:induction false} SumOfConstant<T>(s: seq<T>, w: T -> int, k: int)
    requires forall i :: 0 <= i < |s| ==> w(s[i]) == k
    ensures Sum(s, w) == k * |s|
  {
    if s != [] {
      SumOfConstant(s[..|s| - 1], w, k);
    }
  }

  lemma {:induction false} SumAtLeast<T>(s: seq<T>, i: nat, w: T -> int)
    requires i < |s| && forall x: T <- s :: w(x) >= 0
    ensures Sum(s, w) >= w(s[i])
  {
    var n := |s| - 1;
    assert forall x: T <- s[..n] :: x in s;
    if i == n {
      SumNonNegative(s[..n], w);
    } else {
      SumAtLeast(s[..n], i, w);
    }
  }

  lemma {:induction false} SumAtLeastTwo<T>(s: seq<T>, i: nat, j: nat, w: T -> int)
    requires i < j < |s| && forall x: T <- s :: w(x) >= 0
    ensures Sum(s, w) >= w(s[i]) + w(s[j])
  {
    var n := |s| - 1;
    assert forall x: T <- s[..n] :: x in s;
    if j == n {
      SumAtLeast(s[..n], i, w);
    } else {
      SumAtLeastTwo(s[..n], i, j, w);
    }
  }
}
