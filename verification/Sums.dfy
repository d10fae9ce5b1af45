/** Totals, selections and positions over sequences of stored rows. */
module Sums {

  function Sum<T>(s: seq<T>, f: T -> int): int
  {
    if |s| == 0 then 0 else Sum(s[..|s| - 1], f) + f(s[|s| - 1])
  }

  lemma TakeMore<T>(s: seq<T>, i: nat)
    requires i < |s|
    ensures s[..i + 1] == s[..i] + [s[i]]
  {
  }

  lemma SumAppend<T>(s: seq<T>, x: T, f: T -> int)
    ensures Sum(s + [x], f) == Sum(s, f) + f(x)
  {
    assert (s + [x])[..|s|] == s;
  }

  lemma {:induction false} SumConcat<T>(s: seq<T>, t: seq<T>, f: T -> int)
    ensures Sum(s + t, f) == Sum(s, f) + Sum(t, f)
  {
    if |t| == 0 {
      assert s + t == s;
    } else {
      var n := |t| - 1;
      SumConcat(s, t[..n], f);
      assert s + t == (s + t[..n]) + [t[n]];
      SumAppend(s + t[..n], t[n], f);
    }
  }

  lemma {:induction false} SumUpdate<T>(s: seq<T>, i: nat, x: T, f: T -> int)
    requires i < |s|
    ensures Sum(s[i := x], f) == Sum(s, f) - f(s[i]) + f(x)
  {
    var n := |s| - 1;
    if i == n {
      assert s[i := x][..n] == s[..n];
    } else {
      SumUpdate(s[..n], i, x, f);
      assert s[i := x][..n] == s[..n][i := x];
    }
  }

  lemma {:induction false} SumCongruent<T>(s: seq<T>, f: T -> int, g: T -> int)
    requires forall x | x in s :: f(x) == g(x)
    ensures Sum(s, f) == Sum(s, g)
  {
    if |s| > 0 {
      SumCongruent(s[..|s| - 1], f, g);
    }
  }

  lemma {:induction false} SumAtMost<T>(s: seq<T>, f: T -> int, g: T -> int)
    requires forall x | x in s :: f(x) <= g(x)
    ensures Sum(s, f) <= Sum(s, g)
  {
    if |s| > 0 {
      SumAtMost(s[..|s| - 1], f, g);
    }
  }

  /** h is everywhere a + b - c. */
  lemma {:induction false} SumLinear<T>(s: seq<T>, h: T -> int, a: T -> int, b: T -> int, c: T -> int)
    requires forall x | x in s :: h(x) == a(x) + b(x) - c(x)
    ensures Sum(s, h) == Sum(s, a) + Sum(s, b) - Sum(s, c)
  {
    if |s| > 0 {
      SumLinear(s[..|s| - 1], h, a, b, c);
    }
  }

  function Zero<T>(): T -> int { _ => 0 }

  lemma {:induction false} SumZero<T>(s: seq<T>, f: T -> int)
    requires forall x | x in s :: f(x) == 0
    ensures Sum(s, f) == 0
  {
    if |s| > 0 {
      SumZero(s[..|s| - 1], f);
    }
  }

  lemma SumNonNegative<T>(s: seq<T>, f: T -> int)
    requires forall x | x in s :: f(x) >= 0
    ensures Sum(s, f) >= 0
  {
    SumAtMost(s, Zero(), f);
    SumZero(s, Zero());
  }

  // ---- double sums -------------------------------------------------------

  function RowTotal<A, B>(s: seq<B>, g: (A, B) -> int): A -> int { a => Sum(s, (b: B) => g(a, b)) }
  function ColumnTotal<A, B>(s: seq<A>, g: (A, B) -> int): B -> int { b => Sum(s, (a: A) => g(a, b)) }

  /** A double sum may be taken in either order. */
  lemma {:induction false} SumExchange<A, B>(s: seq<A>, t: seq<B>, g: (A, B) -> int)
    ensures Sum(s, RowTotal(t, g)) == Sum(t, ColumnTotal(s, g))
  {
    if |s| == 0 {
      SumZero(t, ColumnTotal(s, g));
    } else {
      var n := |s| - 1;
      var last := (b: B) => g(s[n], b);
      SumExchange(s[..n], t, g);
      SumLinear(t, ColumnTotal(s, g), ColumnTotal(s[..n], g), last, Zero());
      SumZero(t, Zero());
    }
  }

  // ---- filters -----------------------------------------------------------

  function Filter<T>(s: seq<T>, p: T -> bool): seq<T>
  {
    if |s| == 0 then []
    else
      var rest := Filter(s[..|s| - 1], p);
      if p(s[|s| - 1]) then rest + [s[|s| - 1]] else rest
  }

  lemma FilterAppend<T>(s: seq<T>, x: T, p: T -> bool)
    ensures Filter(s + [x], p) == Filter(s, p) + (if p(x) then [x] else [])
  {
    assert (s + [x])[..|s|] == s;
  }

  lemma {:induction false} FilterUpdateOutside<T>(s: seq<T>, i: nat, x: T, p: T -> bool)
    requires i < |s| && !p(s[i]) && !p(x)
    ensures Filter(s[i := x], p) == Filter(s, p)
  {
    var n := |s| - 1;
    if i == n {
      assert s[i := x][..n] == s[..n];
    } else {
      FilterUpdateOutside(s[..n], i, x, p);
      assert s[i := x][..n] == s[..n][i := x];
    }
  }

  lemma {:induction false} SumFiltered<T>(s: seq<T>, p: T -> bool, f: T -> int)
    requires forall x | x in s && !p(x) :: f(x) == 0
    ensures Sum(s, f) == Sum(Filter(s, p), f)
  {
    if |s| > 0 {
      var n := |s| - 1;
      SumFiltered(s[..n], p, f);
      if p(s[n]) {
        SumAppend(Filter(s[..n], p), s[n], f);
      }
    }
  }

  /** f where p holds, and nothing elsewhere. */
  function Where<T>(p: T -> bool, f: T -> int): T -> int { x => if p(x) then f(x) else 0 }

  lemma {:induction false} SumWhere<T>(s: seq<T>, p: T -> bool, f: T -> int)
    ensures Sum(Filter(s, p), f) == Sum(s, Where(p, f))
  {
    if |s| > 0 {
      var n := |s| - 1;
      SumWhere(s[..n], p, f);
      if p(s[n]) {
        SumAppend(Filter(s[..n], p), s[n], f);
      }
    }
  }

  // ---- groups ------------------------------------------------------------

  predicate Distinct<K(==)>(keys: seq<K>) { forall i, j | 0 <= i < j < |keys| :: keys[i] != keys[j] }

  /** f restricted to one group. */
  function OnKey<T, K(==)>(key: T -> K, f: T -> int, k: K): T -> int { x => if key(x) == k then f(x) else 0 }

  function KeyTotal<T, K(==)>(s: seq<T>, key: T -> K, f: T -> int): K -> int
  {
    k => Sum(s, OnKey(key, f, k))
  }

  /** What one element adds to each group: all of it to its own, nothing to the others. */
  function Share<K(==)>(own: K, amount: int): K -> int { k => if k == own then amount else 0 }

  lemma {:induction false} ShareOnce<K>(keys: seq<K>, own: K, amount: int)
    requires Distinct(keys)
    ensures Sum(keys, Share(own, amount)) == if own in keys then amount else 0
  {
    if |keys| > 0 {
      var n := |keys| - 1;
      ShareOnce(keys[..n], own, amount);
      assert own in keys <==> own in keys[..n] || own == keys[n];
      assert own == keys[n] ==> own !in keys[..n];
    }
  }

  /** Adding up group by group is adding up, when every element that counts lies in one of the groups. */
  lemma {:induction false} SplitByKey<T, K>(s: seq<T>, key: T -> K, f: T -> int, keys: seq<K>)
    requires Distinct(keys)
    requires forall x | x in s && f(x) != 0 :: key(x) in keys
    ensures Sum(keys, KeyTotal(s, key, f)) == Sum(s, f)
  {
    if |s| == 0 {
      SumZero(keys, KeyTotal(s, key, f));
    } else {
      var n := |s| - 1;
      SplitByKey(s[..n], key, f, keys);
      ShareOnce(keys, key(s[n]), f(s[n]));
      SumLinear(keys, KeyTotal(s, key, f), KeyTotal(s[..n], key, f), Share(key(s[n]), f(s[n])), Zero());
      SumZero(keys, Zero());
    }
  }

  // ---- positions ---------------------------------------------------------

  /** The indices of the elements satisfying p, in increasing order. */
  function Positions<T>(s: seq<T>, p: T -> bool): (r: seq<nat>)
    ensures forall k | 0 <= k < |r| :: r[k] < |s| && p(s[r[k]])
    ensures forall j, k | 0 <= j < k < |r| :: r[j] < r[k]
    ensures forall i | 0 <= i < |s| && p(s[i]) :: i in r
  {
    if |s| == 0 then []
    else
      var n := |s| - 1;
      var rest := Positions(s[..n], p);
      assert forall i | 0 <= i < n && p(s[..n][i]) :: i in rest;
      if p(s[n]) then rest + [n] else rest
  }
}
