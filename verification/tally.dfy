// Counting functions that specify the confusion matrix: how often a label
// occurs among the first n positions of a label list, how often an
// (actual, predicted) pair occurs, and the sums of those counts over a list
// of classes. The lemmas relate the sums back to plain occurrence counts.

module Tally {

  /** No label is listed twice. */
  predicate Distinct(cs: seq<int>) {
    forall i, j :: 0 <= i < j < |cs| ==> cs[i] != cs[j]
  }

  /** The number of positions q < n at which `s` holds `x`. */
  function Occurrences(s: seq<int>, n: nat, x: int): (c: nat)
    requires n <= |s|
    ensures c <= n
  {
    if n == 0 then 0
    else Occurrences(s, n - 1, x) + (if s[n - 1] == x then 1 else 0)
  }

  /**
   * The number of positions q < n at which the true label is `a` and the
   * predicted label is `b`: one cell of the confusion matrix.
   */
  function PairCount(actual: seq<int>, predicted: seq<int>, n: nat, a: int, b: int): (c: nat)
    requires n <= |actual| && n <= |predicted|
  {
    if n == 0 then 0
    else
      PairCount(actual, predicted, n - 1, a, b)
      + (if actual[n - 1] == a && predicted[n - 1] == b then 1 else 0)
  }

  /** The sum of the cells (a, cs[j]) for j < k: a row of the matrix. */
  function RowCount(actual: seq<int>, predicted: seq<int>, n: nat, a: int, cs: seq<int>, k: nat): nat
    requires n <= |actual| && n <= |predicted| && k <= |cs|
  {
    if k == 0 then 0
    else RowCount(actual, predicted, n, a, cs, k - 1) + PairCount(actual, predicted, n, a, cs[k - 1])
  }

  /** The sum of the cells (cs[i], b) for i < k: a column of the matrix. */
  function ColumnCount(actual: seq<int>, predicted: seq<int>, n: nat, b: int, cs: seq<int>, k: nat): nat
    requires n <= |actual| && n <= |predicted| && k <= |cs|
  {
    if k == 0 then 0
    else ColumnCount(actual, predicted, n, b, cs, k - 1) + PairCount(actual, predicted, n, cs[k - 1], b)
  }

  /** The sum of Occurrences(s, n, cs[i]) for i < k. */
  function ClassTotal(s: seq<int>, n: nat, cs: seq<int>, k: nat): nat
    requires n <= |s| && k <= |cs|
  {
    if k == 0 then 0
    else ClassTotal(s, n, cs, k - 1) + Occurrences(s, n, cs[k - 1])
  }

  /** Occurrences counts exactly the positions that hold the label. */
  lemma {:induction false} OccurrencesArePositions(s: seq<int>, n: nat, x: int)
    requires n <= |s|
    ensures Occurrences(s, n, x) == |set q | 0 <= q < n && s[q] == x|
  {
    if n > 0 {
      OccurrencesArePositions(s, n - 1, x);
      var before := set q | 0 <= q < n - 1 && s[q] == x;
      var after := set q | 0 <= q < n && s[q] == x;
      var last := if s[n - 1] == x then {n - 1} else {};
      assert after == before + last;
      assert before !! last;
    }
  }

  /** PairCount counts exactly the positions that hold the (a, b) pair. */
  lemma {:induction false} PairCountArePositions(actual: seq<int>, predicted: seq<int>, n: nat, a: int, b: int)
    requires n <= |actual| && n <= |predicted|
    ensures PairCount(actual, predicted, n, a, b)
            == |set q | 0 <= q < n && actual[q] == a && predicted[q] == b|
  {
    if n > 0 {
      PairCountArePositions(actual, predicted, n - 1, a, b);
      var before := set q | 0 <= q < n - 1 && actual[q] == a && predicted[q] == b;
      var after := set q | 0 <= q < n && actual[q] == a && predicted[q] == b;
      var last := if actual[n - 1] == a && predicted[n - 1] == b then {n - 1} else {};
      assert after == before + last;
      assert before !! last;
    }
  }

  /**
   * A cell of the matrix is at most the number of times its true label
   * occurs, so no cell exceeds the number of positions counted.
   */
  lemma {:induction false} PairCountAtMostOccurrences(actual: seq<int>, predicted: seq<int>, n: nat, a: int, b: int)
    requires n <= |actual| && n <= |predicted|
    ensures PairCount(actual, predicted, n, a, b) <= Occurrences(actual, n, a) <= n
  {
    if n > 0 {
      PairCountAtMostOccurrences(actual, predicted, n - 1, a, b);
    }
  }

  /** A label listed once in a list without duplicates occurs exactly once. */
  lemma {:induction false} OccursOnce(cs: seq<int>, k: nat, x: int)
    requires Distinct(cs) && k <= |cs|
    ensures Occurrences(cs, k, x) == if x in cs[..k] then 1 else 0
  {
    if k > 0 {
      OccursOnce(cs, k - 1, x);
      assert cs[..k] == cs[..k - 1] + [cs[k - 1]];
      if cs[k - 1] == x {
        assert x !in cs[..k - 1];
      }
    }
  }

  /**
   * Counting position i adds one to the cell of its (actual, predicted)
   * pair and leaves every other cell as it was.
   */
  lemma PairCountStep(actual: seq<int>, predicted: seq<int>, i: nat, cs: seq<int>, r0: nat, c0: nat, r: nat, c: nat)
    requires i < |actual| && i < |predicted| && Distinct(cs)
    requires r0 < |cs| && c0 < |cs| && r < |cs| && c < |cs|
    requires cs[r0] == actual[i] && cs[c0] == predicted[i]
    ensures PairCount(actual, predicted, i + 1, cs[r], cs[c])
            == PairCount(actual, predicted, i, cs[r], cs[c]) + (if r == r0 && c == c0 then 1 else 0)
  {
  }

  /** Before any position is counted, every row, column and class total is zero. */
  lemma {:induction false} NothingCounted(actual: seq<int>, predicted: seq<int>, a: int, b: int, cs: seq<int>, k: nat)
    requires k <= |cs|
    ensures RowCount(actual, predicted, 0, a, cs, k) == 0
    ensures ColumnCount(actual, predicted, 0, b, cs, k) == 0
    ensures ClassTotal(actual, 0, cs, k) == 0
  {
    if k > 0 {
      NothingCounted(actual, predicted, a, b, cs, k - 1);
    }
  }

  /** Adding position n - 1 to the count adds one to the row of its true label. */
  lemma {:induction false} RowCountStep(actual: seq<int>, predicted: seq<int>, n: nat, a: int, cs: seq<int>, k: nat)
    requires 0 < n <= |actual| && n <= |predicted| && k <= |cs|
    ensures RowCount(actual, predicted, n, a, cs, k)
            == RowCount(actual, predicted, n - 1, a, cs, k)
               + (if actual[n - 1] == a then Occurrences(cs, k, predicted[n - 1]) else 0)
  {
    if k > 0 {
      RowCountStep(actual, predicted, n, a, cs, k - 1);
    }
  }

  /** A row of the matrix sums to the number of times its class is the true label. */
  lemma {:induction false} RowCountIsOccurrences(actual: seq<int>, predicted: seq<int>, n: nat, a: int, cs: seq<int>)
    requires n <= |actual| && n <= |predicted|
    requires Distinct(cs)
    requires forall q :: 0 <= q < n ==> predicted[q] in cs
    ensures RowCount(actual, predicted, n, a, cs, |cs|) == Occurrences(actual, n, a)
  {
    if n > 0 {
      RowCountIsOccurrences(actual, predicted, n - 1, a, cs);
      RowCountStep(actual, predicted, n, a, cs, |cs|);
      OccursOnce(cs, |cs|, predicted[n - 1]);
      assert cs[..|cs|] == cs;
    } else {
      NothingCounted(actual, predicted, a, a, cs, |cs|);
    }
  }

  /** Adding position n - 1 to the count adds one to the column of its predicted label. */
  lemma {:induction false} ColumnCountStep(actual: seq<int>, predicted: seq<int>, n: nat, b: int, cs: seq<int>, k: nat)
    requires 0 < n <= |actual| && n <= |predicted| && k <= |cs|
    ensures ColumnCount(actual, predicted, n, b, cs, k)
            == ColumnCount(actual, predicted, n - 1, b, cs, k)
               + (if predicted[n - 1] == b then Occurrences(cs, k, actual[n - 1]) else 0)
  {
    if k > 0 {
      ColumnCountStep(actual, predicted, n, b, cs, k - 1);
    }
  }

  /** A column of the matrix sums to the number of times its class is predicted. */
  lemma {:induction false} ColumnCountIsOccurrences(actual: seq<int>, predicted: seq<int>, n: nat, b: int, cs: seq<int>)
    requires n <= |actual| && n <= |predicted|
    requires Distinct(cs)
    requires forall q :: 0 <= q < n ==> actual[q] in cs
    ensures ColumnCount(actual, predicted, n, b, cs, |cs|) == Occurrences(predicted, n, b)
  {
    if n > 0 {
      ColumnCountIsOccurrences(actual, predicted, n - 1, b, cs);
      ColumnCountStep(actual, predicted, n, b, cs, |cs|);
      OccursOnce(cs, |cs|, actual[n - 1]);
      assert cs[..|cs|] == cs;
    } else {
      NothingCounted(actual, predicted, b, b, cs, |cs|);
    }
  }

  /** Adding position n - 1 adds one to the count of its label. */
  lemma {:induction false} ClassTotalStep(s: seq<int>, n: nat, cs: seq<int>, k: nat)
    requires 0 < n <= |s| && k <= |cs|
    ensures ClassTotal(s, n, cs, k) == ClassTotal(s, n - 1, cs, k) + Occurrences(cs, k, s[n - 1])
  {
    if k > 0 {
      ClassTotalStep(s, n, cs, k - 1);
    }
  }

  /**
   * When every label among the first n positions is one of the classes,
   * and no class is listed twice, the per-class counts add up to n.
   */
  lemma {:induction false} ClassTotalIsLength(s: seq<int>, n: nat, cs: seq<int>)
    requires n <= |s|
    requires Distinct(cs)
    requires forall q :: 0 <= q < n ==> s[q] in cs
    ensures ClassTotal(s, n, cs, |cs|) == n
  {
    if n > 0 {
      ClassTotalIsLength(s, n - 1, cs);
      ClassTotalStep(s, n, cs, |cs|);
      OccursOnce(cs, |cs|, s[n - 1]);
      assert cs[..|cs|] == cs;
    } else {
      NothingCounted(s, s, 0, 0, cs, |cs|);
    }
  }
}
