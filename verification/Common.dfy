/** Vocabulary shared by every module: optional values, outcomes, and sums over sequences and sets.
    Money is a real number of centavos, in the billing projection of pesos. */
module Common {

  datatype Option<+T> = None | Some(value: T)

  datatype Result<+T, +E> = Ok(value: T) | Err(error: E)

  function Min(a: real, b: real): real {
    if a <= b then a else b
  }

  function Max(a: real, b: real): real {
    if a >= b then a else b
  }

  function Abs(a: real): real {
    if a < 0.0 then -a else a
  }

  /** `Math.round` on an amount in centavos: half rounds up. */
  function Round(x: real): real {
    (x + 0.5).Floor as real
  }

  /** A whole number of centavos. */
  predicate Whole(x: real) {
    x == x.Floor as real
  }

  /** Product and quotient by name: proofs about a whole computation treat them as given, and only the lemmas
      that need their arithmetic look inside. */
  function Times(x: real, y: real): real {
    x * y
  }

  function Over(x: real, y: real): real
    requires y != 0.0
  {
    x / y
  }

  lemma {:induction false} OverSelf(x: real)
    requires x != 0.0
    ensures Over(x, x) == 1.0
  {
  }

  lemma {:induction false} OverTimes(p: real, q: real)
    requires q != 0.0
    ensures Times(Over(p, q), q) == p
  {
  }

  lemma {:induction false} WholeInt(n: int)
    ensures Whole(n as real)
  {
  }

  lemma {:induction false} WholeAdd(x: real, y: real)
    requires Whole(x) && Whole(y)
    ensures Whole(x + y) && Whole(x - y)
  {
    WholeInt(x.Floor + y.Floor);
    WholeInt(x.Floor - y.Floor);
  }

  lemma {:induction false} WholeTimes(x: real, n: int)
    requires Whole(x)
    ensures Whole(Times(x, n as real))
  {
    var i := x.Floor;
    assert Times(x, n as real) == (i * n) as real;
    WholeInt(i * n);
  }

  lemma {:induction false} RoundIsNearest(x: real)
    ensures Whole(Round(x))
    ensures -0.5 < Round(x) - x <= 0.5
  {
  }

  lemma {:induction false} RoundUnique(x: real, w: real)
    requires Whole(w)
    requires -0.5 < w - x <= 0.5
    ensures Round(x) == w
  {
    var n, m := w.Floor, (x + 0.5).Floor;
    assert n as real <= x + 0.5 < n as real + 1.0;
    assert m as real <= x + 0.5 < m as real + 1.0;
    assert n == m;
  }

  lemma {:induction false} RoundWhole(w: real)
    requires Whole(w)
    ensures Round(w) == w
  {
    RoundUnique(w, w);
  }

  /** Sum of `f` over a sequence, in order. */
  function Total<T>(f: T -> real, xs: seq<T>): real {
    if xs == [] then 0.0 else Total(f, xs[..|xs| - 1]) + f(xs[|xs| - 1])
  }

  function Same(x: real): real {
    x
  }

  lemma {:induction false} TotalStep<T>(f: T -> real, xs: seq<T>, i: nat)
    requires i < |xs|
    ensures Total(f, xs[..i + 1]) == Total(f, xs[..i]) + f(xs[i])
  {
    assert xs[..i + 1][..i] == xs[..i];
  }

  lemma {:induction false} TotalWhole<T>(f: T -> real, xs: seq<T>)
    requires forall i :: 0 <= i < |xs| ==> Whole(f(xs[i]))
    ensures Whole(Total(f, xs))
  {
    if xs == [] {
      WholeInt(0);
    } else {
      TotalWhole(f, xs[..|xs| - 1]);
      WholeAdd(Total(f, xs[..|xs| - 1]), f(xs[|xs| - 1]));
    }
  }

  lemma {:induction false} TotalSingle<T>(f: T -> real, x: T)
    ensures Total(f, [x]) == f(x)
  {
    assert [x][..0] == [];
  }

  lemma {:induction false} TotalPair<T>(f: T -> real, x: T, y: T)
    ensures Total(f, [x, y]) == f(x) + f(y)
  {
    assert [x, y][..1] == [x];
    TotalSingle(f, x);
  }

  lemma {:induction false} TotalTriple<T>(f: T -> real, x: T, y: T, z: T)
    ensures Total(f, [x, y, z]) == f(x) + f(y) + f(z)
  {
    assert [x, y, z][..2] == [x, y];
    TotalPair(f, x, y);
  }

  lemma {:induction false} TotalConcat<T>(f: T -> real, xs: seq<T>, ys: seq<T>)
    ensures Total(f, xs + ys) == Total(f, xs) + Total(f, ys)
  {
    if ys == [] {
      assert xs + ys == xs;
    } else {
      var zs := ys[..|ys| - 1];
      assert (xs + ys)[..|xs + ys| - 1] == xs + zs;
      TotalConcat(f, xs, zs);
    }
  }

  lemma {:induction false} TotalLe<T, U>(f: T -> real, xs: seq<T>, g: U -> real, ys: seq<U>)
    requires |xs| == |ys|
    requires forall i :: 0 <= i < |xs| ==> f(xs[i]) <= g(ys[i])
    ensures Total(f, xs) <= Total(g, ys)
  {
    if xs != [] {
      TotalLe(f, xs[..|xs| - 1], g, ys[..|ys| - 1]);
    }
  }

  lemma {:induction false} TotalEq<T, U>(f: T -> real, xs: seq<T>, g: U -> real, ys: seq<U>)
    requires |xs| == |ys|
    requires forall i :: 0 <= i < |xs| ==> f(xs[i]) == g(ys[i])
    ensures Total(f, xs) == Total(g, ys)
  {
    TotalLe(f, xs, g, ys);
    TotalLe(g, ys, f, xs);
  }

  lemma {:induction false} TotalAdd<T, U, V>(
    f: T -> real, xs: seq<T>, g: U -> real, ys: seq<U>, h: V -> real, zs: seq<V>)
    requires |xs| == |ys| == |zs|
    requires forall i :: 0 <= i < |xs| ==> f(xs[i]) == g(ys[i]) + h(zs[i])
    ensures Total(f, xs) == Total(g, ys) + Total(h, zs)
  {
    if xs != [] {
      TotalAdd(f, xs[..|xs| - 1], g, ys[..|ys| - 1], h, zs[..|zs| - 1]);
    }
  }

  lemma {:induction false} TimesAdd(k: real, a: real, b: real)
    ensures Times(k, a + b) == Times(k, a) + Times(k, b)
    ensures Times(a + b, k) == Times(a, k) + Times(b, k)
  {
  }

  lemma {:induction false} TotalScale<T, U>(f: T -> real, xs: seq<T>, k: real, g: U -> real, ys: seq<U>)
    requires |xs| == |ys|
    requires forall i :: 0 <= i < |xs| ==> f(xs[i]) == Times(k, g(ys[i]))
    ensures Total(f, xs) == Times(k, Total(g, ys))
  {
    if xs != [] {
      TotalScale(f, xs[..|xs| - 1], k, g, ys[..|ys| - 1]);
      TimesAdd(k, Total(g, ys[..|ys| - 1]), g(ys[|ys| - 1]));
    }
  }

  lemma {:induction false} TotalNonNegative<T>(f: T -> real, xs: seq<T>)
    requires forall i :: 0 <= i < |xs| ==> 0.0 <= f(xs[i])
    ensures 0.0 <= Total(f, xs)
    ensures Total(f, xs) == 0.0 <==> forall i :: 0 <= i < |xs| ==> f(xs[i]) == 0.0
  {
    if xs != [] {
      var init := xs[..|xs| - 1];
      TotalNonNegative(f, init);
      if Total(f, xs) == 0.0 {
        forall i | 0 <= i < |xs| ensures f(xs[i]) == 0.0 {
          if i < |init| { assert init[i] == xs[i]; }
        }
      }
    }
  }

  lemma {:induction false} TotalZero<T>(f: T -> real, xs: seq<T>)
    requires forall i :: 0 <= i < |xs| ==> f(xs[i]) == 0.0
    ensures Total(f, xs) == 0.0
  {
    TotalNonNegative(f, xs);
  }

  /** A nonnegative summand never exceeds its sum. */
  lemma {:induction false} TotalContains<T>(f: T -> real, xs: seq<T>, k: nat)
    requires k < |xs|
    requires forall i :: 0 <= i < |xs| ==> 0.0 <= f(xs[i])
    ensures f(xs[k]) <= Total(f, xs)
  {
    TotalStep(f, xs, k);
    TotalConcat(f, xs[..k + 1], xs[k + 1..]);
    assert xs[..k + 1] + xs[k + 1..] == xs;
    TotalNonNegative(f, xs[..k]);
    TotalNonNegative(f, xs[k + 1..]);
  }

  /** Bounded summands whose sum reaches the sum of the bounds each reach their bound. */
  lemma {:induction false} TotalSaturated<T>(f: T -> real, g: T -> real, xs: seq<T>)
    requires forall i :: 0 <= i < |xs| ==> f(xs[i]) <= g(xs[i])
    requires Total(f, xs) >= Total(g, xs)
    ensures forall i :: 0 <= i < |xs| ==> f(xs[i]) == g(xs[i])
  {
    if xs != [] {
      var init := xs[..|xs| - 1];
      TotalLe(f, init, g, init);
      TotalSaturated(f, g, init);
      forall i | 0 <= i < |xs| ensures f(xs[i]) == g(xs[i]) {
        if i < |init| { assert init[i] == xs[i]; }
      }
    }
  }

  /** Writing the next element of `new` over `old` extends the rewritten prefix. */
  lemma {:induction false} Advance<T>(new_: seq<T>, old_: seq<T>, i: nat)
    requires |new_| == |old_| && i < |old_|
    ensures (new_[..i] + old_[i..])[i := new_[i]] == new_[..i + 1] + old_[i + 1..]
  {
  }

  lemma {:induction false} SplitAt<T>(xs: seq<T>, i: nat)
    requires i <= |xs|
    ensures xs[..i] + xs[i..] == xs
  {
  }

  /** Sum of `f` over a finite set; the order of summation does not matter (SumRemove). */
  ghost function SumOver<K>(s: set<K>, f: K -> real): real {
    if s == {} then 0.0 else
      var x :| x in s;
      f(x) + SumOver(s - {x}, f)
  }

  lemma {:induction false} SumRemove<K>(s: set<K>, f: K -> real, k: K)
    requires k in s
    ensures SumOver(s, f) == f(k) + SumOver(s - {k}, f)
    decreases s
  {
    var x :| x in s && SumOver(s, f) == f(x) + SumOver(s - {x}, f);
    if x != k {
      SumRemove(s - {x}, f, k);
      SumRemove(s - {k}, f, x);
      assert s - {x} - {k} == s - {k} - {x};
    }
  }

  lemma {:induction false} SumCongruent<K>(s: set<K>, f: K -> real, g: K -> real)
    requires forall k :: k in s ==> f(k) == g(k)
    ensures SumOver(s, f) == SumOver(s, g)
    decreases s
  {
    if s != {} {
      var x :| x in s;
      SumRemove(s, f, x);
      SumRemove(s, g, x);
      SumCongruent(s - {x}, f, g);
    }
  }

  /** Changing one summand changes the sum by the difference. */
  lemma {:induction false} SumPointUpdate<K>(s: set<K>, f: K -> real, g: K -> real, k: K)
    requires k in s
    requires forall j :: j in s && j != k ==> f(j) == g(j)
    ensures SumOver(s, g) == SumOver(s, f) - f(k) + g(k)
  {
    SumRemove(s, f, k);
    SumRemove(s, g, k);
    SumCongruent(s - {k}, f, g);
  }
}
