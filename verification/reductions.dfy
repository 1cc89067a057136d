/** Sign-filtered reductions over sequences of power values. The statistics
    of a scenario run are all of this shape: a sum of the entries of one sign,
    or the number of entries of one sign. */
module Reductions {

  /** Sum of all entries, left to right. */
  function Sum(s: seq<real>): real
  {
    if |s| == 0 then 0.0 else s[0] + Sum(s[1..])
  }

  /** Sum of the strictly positive entries. */
  function SumPositive(s: seq<real>): (r: real)
    ensures 0.0 <= r
  {
    if |s| == 0 then 0.0
    else (if s[0] > 0.0 then s[0] else 0.0) + SumPositive(s[1..])
  }

  /** Sum of the strictly negative entries. */
  function SumNegative(s: seq<real>): (r: real)
    ensures r <= 0.0
  {
    if |s| == 0 then 0.0
    else (if s[0] < 0.0 then s[0] else 0.0) + SumNegative(s[1..])
  }

  /** Number of strictly positive entries. */
  function CountPositive(s: seq<real>): (n: nat)
    ensures n <= |s|
  {
    if |s| == 0 then 0
    else (if s[0] > 0.0 then 1 else 0) + CountPositive(s[1..])
  }

  /** Number of strictly negative entries. */
  function CountNegative(s: seq<real>): (n: nat)
    ensures n <= |s|
  {
    if |s| == 0 then 0
    else (if s[0] < 0.0 then 1 else 0) + CountNegative(s[1..])
  }

  /** Splitting by sign loses nothing: the positive part plus the negative
      part is the plain sum. */
  lemma {:induction false} SignSplit(s: seq<real>)
    ensures SumPositive(s) + SumNegative(s) == Sum(s)
  {
    if |s| > 0 {
      SignSplit(s[1..]);
    }
  }

  /** The positive part is non-zero exactly when some entry is positive, and
      then the count of positive entries is non-zero too. */
  lemma {:induction false} PositivePartIff(s: seq<real>)
    ensures SumPositive(s) > 0.0 <==> CountPositive(s) > 0
    ensures CountPositive(s) > 0 <==> exists i :: 0 <= i < |s| && s[i] > 0.0
  {
    if |s| > 0 {
      PositivePartIff(s[1..]);
      if s[0] <= 0.0 {
        forall i | 0 <= i < |s| && s[i] > 0.0
          ensures exists j :: 0 <= j < |s[1..]| && s[1..][j] > 0.0
        {
          assert s[1..][i - 1] == s[i];
        }
      }
    }
  }

  /** Mirror image of `PositivePartIff` for the negative entries. */
  lemma {:induction false} NegativePartIff(s: seq<real>)
    ensures SumNegative(s) < 0.0 <==> CountNegative(s) > 0
    ensures CountNegative(s) > 0 <==> exists i :: 0 <= i < |s| && s[i] < 0.0
  {
    if |s| > 0 {
      NegativePartIff(s[1..]);
      if s[0] >= 0.0 {
        forall i | 0 <= i < |s| && s[i] < 0.0
          ensures exists j :: 0 <= j < |s[1..]| && s[1..][j] < 0.0
        {
          assert s[1..][i - 1] == s[i];
        }
      }
    }
  }

  /** An entry is positive, negative or zero, so the two counts together
      never exceed the length. */
  lemma {:induction false} CountsWithinLength(s: seq<real>)
    ensures CountPositive(s) + CountNegative(s) <= |s|
  {
    if |s| > 0 {
      CountsWithinLength(s[1..]);
    }
  }

  /** Sums distribute over concatenation; appending one entry per step is how
      every statistic grows. */
  lemma {:induction false} SumAppend(s: seq<real>, t: seq<real>)
    ensures Sum(s + t) == Sum(s) + Sum(t)
    ensures SumPositive(s + t) == SumPositive(s) + SumPositive(t)
    ensures SumNegative(s + t) == SumNegative(s) + SumNegative(t)
    ensures CountPositive(s + t) == CountPositive(s) + CountPositive(t)
    ensures CountNegative(s + t) == CountNegative(s) + CountNegative(t)
  {
    if |s| > 0 {
      assert (s + t)[1..] == s[1..] + t;
      SumAppend(s[1..], t);
    } else {
      assert s + t == t;
    }
  }

  /** The sum of a prefix one entry longer adds that entry. */
  lemma SumPrefixStep(s: seq<real>, i: nat)
    requires i < |s|
    ensures Sum(s[..i + 1]) == Sum(s[..i]) + s[i]
  {
    assert s[..i + 1] == s[..i] + [s[i]];
    SumAppend(s[..i], [s[i]]);
  }

  /** Putting an entry in front shifts every prefix sum by that entry. */
  lemma SumConsPrefix(x: real, s: seq<real>, i: nat)
    requires i <= |s|
    ensures Sum(([x] + s)[..i + 1]) == x + Sum(s[..i])
  {
    assert ([x] + s)[..i + 1] == [x] + s[..i];
    assert ([x] + s[..i])[1..] == s[..i];
  }

  /** Entry-wise negation negates the sum. */
  lemma {:induction false} SumNegated(a: seq<real>, b: seq<real>)
    requires |a| == |b|
    requires forall i :: 0 <= i < |a| ==> a[i] == -b[i]
    ensures Sum(a) == -Sum(b)
  {
    if |a| > 0 {
      SumNegated(a[1..], b[1..]);
    }
  }

  /** The sum of three entries. */
  lemma SumThree(a: real, b: real, c: real)
    ensures Sum([a, b, c]) == a + b + c
  {
    assert [c][1..] == [];
    assert Sum([c]) == c;
    assert [b, c][1..] == [c];
    assert Sum([b, c]) == b + c;
    assert [a, b, c][1..] == [b, c];
  }
}
