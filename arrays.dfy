/** `uniqueValues` of src/utils/array.ts and the sequence helpers the checks use. */
module Arrays {
  import opened Wrappers

  predicate NoDuplicates<T(==)>(s: seq<T>) {
    forall i, j | 0 <= i < j < |s| :: s[i] != s[j]
  }

  /** Index of the first occurrence of `x` in `s`. */
  function FirstIndex<T(==)>(s: seq<T>, x: T): (k: nat)
    requires x in s
    ensures k < |s| && s[k] == x
    ensures forall j | 0 <= j < k :: s[j] != x
  {
    if s[0] == x then 0 else 1 + FirstIndex(s[1..], x)
  }

  /**
   * `Array.from(new Set(values))` (src/utils/array.ts:1-3). A `Set` keeps its
   * insertion order and ignores a value it already holds, so after the first
   * `k` values it holds `UniqueValues(values[..k])`.
   */
  function UniqueValues<T(==,!new)>(values: seq<T>): (r: seq<T>)
    ensures NoDuplicates(r)
    ensures forall x :: x in r <==> x in values
    ensures |r| <= |values|
  {
    if |values| == 0 then []
    else
      var prefix := UniqueValues(values[..|values| - 1]);
      var x := values[|values| - 1];
      assert forall y :: y in values <==> y in values[..|values| - 1] || y == x;
      if x in prefix then prefix else prefix + [x]
  }

  lemma {:induction false} FirstIndexPrefix<T>(s: seq<T>, n: nat, x: T)
    requires n <= |s| && x in s[..n]
    ensures x in s && FirstIndex(s, x) == FirstIndex(s[..n], x)
  {
    if s[0] != x {
      assert s[1..][..n - 1] == s[..n][1..];
      FirstIndexPrefix(s[1..], n - 1, x);
    }
  }

  /** `r` lists values of `values` in the order of their first occurrence there. */
  predicate InFirstOccurrenceOrder<T(==)>(values: seq<T>, r: seq<T>) {
    && (forall i | 0 <= i < |r| :: r[i] in values)
    && forall i, j | 0 <= i < j < |r| :: FirstIndex(values, r[i]) < FirstIndex(values, r[j])
  }

  lemma OrderExtendsToLongerInput<T>(values: seq<T>, n: nat, r: seq<T>)
    requires n <= |values| && InFirstOccurrenceOrder(values[..n], r)
    ensures InFirstOccurrenceOrder(values, r)
  {
    forall i, j | 0 <= i < j < |r|
      ensures FirstIndex(values, r[i]) < FirstIndex(values, r[j])
    {
      FirstIndexPrefix(values, n, r[i]);
      FirstIndexPrefix(values, n, r[j]);
    }
  }

  lemma OrderAppendLater<T>(values: seq<T>, r: seq<T>, x: T)
    requires InFirstOccurrenceOrder(values, r) && x in values
    requires forall y | y in r :: y in values && FirstIndex(values, y) < FirstIndex(values, x)
    ensures InFirstOccurrenceOrder(values, r + [x])
  {
    var r' := r + [x];
    forall i, j | 0 <= i < j < |r'|
      ensures FirstIndex(values, r'[i]) < FirstIndex(values, r'[j])
    {
      assert r'[i] == r[i] && r[i] in r;
      if j < |r| {
        assert r'[j] == r[j];
      }
    }
  }

  /** The output lists the values in the order of their first occurrence in the input. */
  lemma {:induction false} UniqueValuesFirstOccurrenceOrder<T(!new)>(values: seq<T>)
    ensures InFirstOccurrenceOrder(values, UniqueValues(values))
  {
    if |values| > 0 {
      var n := |values| - 1;
      var init := values[..n];
      var prefix := UniqueValues(init);
      var x := values[n];
      UniqueValuesFirstOccurrenceOrder(init);
      OrderExtendsToLongerInput(values, n, prefix);
      if x in prefix {
        assert UniqueValues(values) == prefix;
      } else {
        assert UniqueValues(values) == prefix + [x];
        assert x !in init;
        assert FirstIndex(values, x) == n;
        forall y | y in prefix
          ensures y in values && FirstIndex(values, y) < FirstIndex(values, x)
        {
          FirstIndexPrefix(values, n, y);
        }
        OrderAppendLater(values, prefix, x);
      }
    }
  }

  /** The output is as long as the input exactly when the input has no duplicates. */
  lemma UniqueValuesLength<T(!new)>(values: seq<T>)
    ensures |UniqueValues(values)| == |values| <==> NoDuplicates(values)
  {
    if NoDuplicates(values) {
      UniqueValuesIdentity(values);
    }
    if |UniqueValues(values)| == |values| {
      FullLengthHasNoDuplicates(values);
    }
  }

  /** An output as long as the input means no value of the input was dropped as a repeat. */
  lemma {:induction false} FullLengthHasNoDuplicates<T(!new)>(values: seq<T>)
    requires |UniqueValues(values)| == |values|
    ensures NoDuplicates(values)
  {
    if |values| > 0 {
      var n := |values| - 1;
      var init := values[..n];
      var x := values[n];
      assert x !in UniqueValues(init) && |UniqueValues(init)| == n;
      FullLengthHasNoDuplicates(init);
      assert x !in init;
      forall i, j | 0 <= i < j < |values| ensures values[i] != values[j] {
        if j < n {
          assert values[i] == init[i] && values[j] == init[j];
        } else {
          assert values[i] in init;
        }
      }
    }
  }

  /** A sequence without duplicates is its own `uniqueValues`. */
  lemma {:induction false} UniqueValuesIdentity<T(!new)>(values: seq<T>)
    requires NoDuplicates(values)
    ensures UniqueValues(values) == values
  {
    if |values| > 0 {
      var n := |values| - 1;
      var init := values[..n];
      assert NoDuplicates(init);
      UniqueValuesIdentity(init);
      forall k | 0 <= k < n ensures init[k] != values[n] {
        assert init[k] == values[k];
      }
      assert init + [values[n]] == values;
    }
  }

  /** `uniqueValues` is idempotent. */
  lemma UniqueValuesIdempotent<T(!new)>(values: seq<T>)
    ensures UniqueValues(UniqueValues(values)) == UniqueValues(values)
  {
    UniqueValuesIdentity(UniqueValues(values));
  }

  /** `xs.filter(keep)`: the elements that pass, in their original order. */
  function Filter<T(!new)>(xs: seq<T>, keep: T -> bool): (r: seq<T>)
    ensures |r| <= |xs|
    ensures forall x :: x in r <==> x in xs && keep(x)
  {
    if |xs| == 0 then [] else (if keep(xs[0]) then [xs[0]] else []) + Filter(xs[1..], keep)
  }

  /** Filtering distributes over concatenation, so it never reorders what it keeps. */
  lemma {:induction false} FilterAppend<T(!new)>(xs: seq<T>, ys: seq<T>, keep: T -> bool)
    ensures Filter(xs + ys, keep) == Filter(xs, keep) + Filter(ys, keep)
  {
    if |xs| == 0 {
      assert xs + ys == ys;
    } else {
      assert (xs + ys)[1..] == xs[1..] + ys;
      FilterAppend(xs[1..], ys, keep);
    }
  }

  /** `xs.map(f)`. */
  function Map<T, U>(xs: seq<T>, f: T -> U): (r: seq<U>)
    ensures |r| == |xs|
    ensures forall i | 0 <= i < |xs| :: r[i] == f(xs[i])
  {
    if |xs| == 0 then [] else [f(xs[0])] + Map(xs[1..], f)
  }

  /** Mapping a sequence extended by one element extends the mapped sequence by its image. */
  lemma MapAppendOne<T, U>(xs: seq<T>, x: T, f: T -> U)
    ensures Map(xs + [x], f) == Map(xs, f) + [f(x)]
  {
    var l, r := Map(xs + [x], f), Map(xs, f) + [f(x)];
    assert |l| == |r|;
    forall i | 0 <= i < |l| ensures l[i] == r[i] {
      if i < |xs| {
        assert (xs + [x])[i] == xs[i];
      }
    }
  }

  /** `xs.find(p)`: the first element that passes, if any. */
  function Find<T(==)>(xs: seq<T>, p: T -> bool): (r: Option<T>)
    ensures r.None? <==> forall i | 0 <= i < |xs| :: !p(xs[i])
    ensures r.Some? ==> exists i | 0 <= i < |xs| :: xs[i] == r.value && p(xs[i]) && forall j | 0 <= j < i :: !p(xs[j])
  {
    if |xs| == 0 then None
    else if p(xs[0]) then
      assert xs[0] == xs[0] && p(xs[0]);
      Some(xs[0])
    else
      var r := Find(xs[1..], p);
      if r.Some? then
        var i :| 0 <= i < |xs[1..]| && xs[1..][i] == r.value && p(xs[1..][i]) && forall j | 0 <= j < i :: !p(xs[1..][j]);
        assert xs[i + 1] == r.value && p(xs[i + 1]) && forall j | 0 <= j < i + 1 :: !p(xs[j]);
        r
      else r
  }
}
