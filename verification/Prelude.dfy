/** Option values and the arithmetic and set facts that several components share. */
module Prelude {

  datatype Option<+T> = None | Some(value: T)

  function Max(a: int, b: int): int {
    if a < b then b else a
  }

  function Min(a: int, b: int): int {
    if a < b then a else b
  }

  /** The integers in [0, n). */
  function Below(n: nat): (r: set<int>)
    ensures forall i :: i in r <==> 0 <= i < n
  {
    if n == 0 then {} else Below(n - 1) + {n - 1}
  }

  lemma {:induction false} BelowSize(n: nat)
    ensures |Below(n)| == n
  {
    if n > 0 {
      BelowSize(n - 1);
    }
  }

  /** The integers above `low`, up to `high`. */
  function Between(low: int, high: int): (r: set<int>)
    ensures forall i :: i in r <==> low < i <= high
    decreases high - low
  {
    if high <= low then {} else Between(low, high - 1) + {high}
  }

  lemma {:induction false} BetweenSize(low: int, high: int)
    ensures |Between(low, high)| == Max(high - low, 0)
    decreases high - low
  {
    if low < high {
      BetweenSize(low, high - 1);
    }
  }

  lemma {:induction false} GreatestOf(s: set<int>) returns (m: int)
    requires |s| > 0
    ensures m in s && forall x | x in s :: x <= m
    decreases |s|
  {
    m := AnyOf(s);
    var rest := s - {m};
    if |rest| > 0 {
      var other := GreatestOf(rest);
      m := Max(m, other);
    }
    assert forall x | x in s :: x == m || x in rest || x <= m;
  }

  lemma AnyOf<T>(s: set<T>) returns (x: T)
    requires |s| > 0
    ensures x in s
  {
    x :| x in s;
  }

  lemma {:induction false} SubsetSize<T>(a: set<T>, b: set<T>)
    requires a <= b
    ensures |a| <= |b|
    ensures |a| == |b| ==> a == b
  {
    assert b == a + (b - a);
    assert |b| == |a| + |b - a|;
    if |a| == |b| {
      assert b - a == {};
    }
  }

  /** A set of ranks is full exactly when it has `n` members. */
  lemma RanksFull(ranks: set<int>, n: nat)
    requires ranks <= Below(n)
    ensures |ranks| <= n
    ensures |ranks| == n <==> ranks == Below(n)
  {
    BelowSize(n);
    SubsetSize(ranks, Below(n));
  }
}
