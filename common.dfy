/** Shared vocabulary of the forecast validation engine: error wrappers,
    the (unique_id, ds) row key with Python's ordering, and the averages
    that every statistic is built from. */
module Common {

  datatype Option<+T> = None | Some(value: T)

  /** The source's raised exceptions become Err values. */
  datatype Result<+T, +E> = Ok(value: T) | Err(error: E) {
    predicate IsFailure() { Err? }
    function PropagateFailure<U>(): Result<U, E>
      requires Err?
    {
      Err(error)
    }
    function Extract(): T
      requires Ok?
    {
      value
    }
  }

  /** A check that either passes silently or raises. */
  datatype Outcome<+E> = Pass | Fail(error: E)

  type Byte = x: int | 0 <= x < 256

  /** Row key of every table: the series identifier and the timestamp. */
  datatype Key = Key(uid: string, ds: int)

  // ---------------------------------------------------------------------
  // Python's ordering of str (code point by code point) and of row keys

  predicate StrLess(a: string, b: string)
  {
    if a == [] then b != []
    else if b == [] then false
    else a[0] < b[0] || (a[0] == b[0] && StrLess(a[1..], b[1..]))
  }

  lemma {:induction false} StrLessIrreflexive(a: string)
    ensures !StrLess(a, a)
  {
    if a != [] {
      StrLessIrreflexive(a[1..]);
    }
  }

  lemma {:induction false} StrLessTransitive(a: string, b: string, c: string)
    requires StrLess(a, b) && StrLess(b, c)
    ensures StrLess(a, c)
  {
    if a != [] && b != [] && c != [] && a[0] == b[0] && b[0] == c[0] {
      StrLessTransitive(a[1..], b[1..], c[1..]);
    }
  }

  lemma {:induction false} StrLessTotal(a: string, b: string)
    ensures a == b || StrLess(a, b) || StrLess(b, a)
  {
    if a != [] && b != [] && a[0] == b[0] {
      StrLessTotal(a[1..], b[1..]);
      if a[1..] == b[1..] {
        assert a == [a[0]] + a[1..] && b == [b[0]] + b[1..];
      }
    }
  }

  lemma StrLessAsymmetric(a: string, b: string)
    requires StrLess(a, b)
    ensures !StrLess(b, a)
  {
    if StrLess(b, a) {
      StrLessTransitive(a, b, a);
      StrLessIrreflexive(a);
    }
  }

  /** The order pandas' groupby uses on (unique_id, ds). */
  predicate KeyLess(a: Key, b: Key)
  {
    StrLess(a.uid, b.uid) || (a.uid == b.uid && a.ds < b.ds)
  }

  lemma KeyLessIrreflexive(a: Key)
    ensures !KeyLess(a, a)
  {
    StrLessIrreflexive(a.uid);
  }

  lemma KeyLessTransitive(a: Key, b: Key, c: Key)
    requires KeyLess(a, b) && KeyLess(b, c)
    ensures KeyLess(a, c)
  {
    if StrLess(a.uid, b.uid) && StrLess(b.uid, c.uid) {
      StrLessTransitive(a.uid, b.uid, c.uid);
    }
  }

  lemma KeyLessTotal(a: Key, b: Key)
    ensures a == b || KeyLess(a, b) || KeyLess(b, a)
  {
    StrLessTotal(a.uid, b.uid);
  }

  // ---------------------------------------------------------------------
  // Sums and means over reals

  function Abs(x: real): (r: real)
    ensures r >= 0.0 && (r == x || r == -x)
  {
    if x < 0.0 then -x else x
  }

  function Sum(s: seq<real>): real
  {
    if s == [] then 0.0 else s[0] + Sum(s[1..])
  }

  function Mean(s: seq<real>): real
    requires |s| > 0
  {
    Sum(s) / (|s| as real)
  }

  /** numpy/pandas mean: NaN (None) on an empty sample. */
  function MeanOrNaN(s: seq<real>): (r: Option<real>)
    ensures r.Some? <==> |s| > 0
  {
    if s == [] then None else Some(Mean(s))
  }

  function AbsAll(s: seq<real>): (r: seq<real>)
    ensures |r| == |s| && forall i :: 0 <= i < |s| ==> r[i] == Abs(s[i])
  {
    if s == [] then [] else [Abs(s[0])] + AbsAll(s[1..])
  }

  predicate AllNonNegative(s: seq<real>)
  {
    forall i :: 0 <= i < |s| ==> s[i] >= 0.0
  }

  lemma {:induction false} SumNonNegative(s: seq<real>)
    requires AllNonNegative(s)
    ensures Sum(s) >= 0.0
  {
    if s != [] {
      assert AllNonNegative(s[1..]) by {
        forall i | 0 <= i < |s[1..]| ensures s[1..][i] >= 0.0 {
          assert s[1..][i] == s[i + 1];
        }
      }
      SumNonNegative(s[1..]);
    }
  }

  lemma MeanNonNegative(s: seq<real>)
    requires |s| > 0 && AllNonNegative(s)
    ensures Mean(s) >= 0.0
  {
    SumNonNegative(s);
  }

  /** Triangle inequality: |sum d| <= sum |d|. */
  lemma {:induction false} AbsSumAtMostSumAbs(s: seq<real>)
    ensures Abs(Sum(s)) <= Sum(AbsAll(s))
  {
    if s != [] {
      AbsSumAtMostSumAbs(s[1..]);
      assert AbsAll(s)[1..] == AbsAll(s[1..]);
    }
  }

  lemma AbsMeanAtMostMeanAbs(s: seq<real>)
    requires |s| > 0
    ensures Abs(Mean(s)) <= Mean(AbsAll(s))
  {
    AbsSumAtMostSumAbs(s);
    var n, a, b := |s| as real, Sum(s), Sum(AbsAll(s));
    assert Mean(s) == a / n && Mean(AbsAll(s)) == b / n;
    AbsOfQuotient(a, n);
    DivMonotone(Abs(a), b, n);
  }

  lemma AbsOfQuotient(a: real, n: real)
    requires n > 0.0
    ensures Abs(a / n) == Abs(a) / n
  {
    if a < 0.0 {
      assert (-a) / n == -(a / n);
    }
  }

  lemma DivMonotone(x: real, y: real, n: real)
    requires x <= y && n > 0.0
    ensures x / n <= y / n
  {
  }

  lemma {:induction false} SumOfZeros(s: seq<real>)
    requires forall i :: 0 <= i < |s| ==> s[i] == 0.0
    ensures Sum(s) == 0.0
  {
    if s != [] {
      SumOfZeros(s[1..]);
    }
  }

  /** The mean of values that are all zero is zero. */
  lemma MeanOfZeros(s: seq<real>)
    requires |s| > 0 && forall i :: 0 <= i < |s| ==> s[i] == 0.0
    ensures Mean(s) == 0.0
  {
    SumOfZeros(s);
    var n := |s| as real;
    assert 0.0 / n == 0.0;
  }

  lemma {:induction false} SumAppend(s: seq<real>, t: seq<real>)
    ensures Sum(s + t) == Sum(s) + Sum(t)
  {
    if s == [] {
      assert s + t == t;
    } else {
      assert (s + t)[0] == s[0] && (s + t)[1..] == s[1..] + t;
      SumAppend(s[1..], t);
    }
  }
}
