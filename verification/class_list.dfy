// The class list of a confusion matrix: the distinct labels that occur in
// the true labels or in the predictions, in ascending order. The controller
// builds a hash set from both label lists and sorts it; here each label is
// inserted into an ascending list without duplicates, which yields the same
// list (AscendingUnique).

module ClassList {

  /** No duplicates, and every element is smaller than the ones after it. */
  predicate StrictlyAscending(s: seq<int>) {
    forall i, j :: 0 <= i < j < |s| ==> s[i] < s[j]
  }

  /** Adds `x` to an ascending list, unless it is there already. */
  function Insert(s: seq<int>, x: int): (r: seq<int>)
    requires StrictlyAscending(s)
    ensures StrictlyAscending(r)
    ensures forall y :: y in r <==> y in s || y == x
  {
    if s == [] then [x]
    else if x < s[0] then [x] + s
    else if x == s[0] then s
    else
      var rest := Insert(s[1..], x);
      assert forall y :: y in rest ==> s[0] < y;
      [s[0]] + rest
  }

  /** The distinct elements of `s`, listed in ascending order. */
  function SortedDistinct(s: seq<int>): (r: seq<int>)
    ensures StrictlyAscending(r)
    ensures forall y :: y in r <==> y in s
  {
    if s == [] then []
    else
      var init := s[..|s| - 1];
      assert forall y :: y in s <==> y in init || y == s[|s| - 1];
      Insert(SortedDistinct(init), s[|s| - 1])
  }

  /** Every label that occurs in either sequence, each once, ascending. */
  function Classes(trueLabels: seq<int>, predictions: seq<int>): (classes: seq<int>)
    ensures StrictlyAscending(classes)
    ensures forall x :: x in classes <==> x in trueLabels || x in predictions
  {
    SortedDistinct(trueLabels + predictions)
  }

  /**
   * A strictly ascending sequence is determined by its elements, so the
   * class list does not depend on how the union is sorted.
   */
  lemma {:induction false} AscendingUnique(a: seq<int>, b: seq<int>)
    requires StrictlyAscending(a) && StrictlyAscending(b)
    requires forall x :: x in a <==> x in b
    ensures a == b
  {
    // Each first element occurs in the other list, so both are empty or neither.
    if a != [] {
      assert a[0] in a;
      assert a[0] in b;
    }
    if b != [] {
      assert b[0] in b;
      assert b[0] in a;
    }
    if a != [] {
      assert a[0] == b[0];
      forall x
        ensures x in a[1..] <==> x in b[1..]
      {
        if x in a[1..] {
          assert x in a && x != a[0];
        }
        if x in b[1..] {
          assert x in b && x != b[0];
        }
      }
      AscendingUnique(a[1..], b[1..]);
      assert a == [a[0]] + a[1..];
      assert b == [b[0]] + b[1..];
    }
  }
}
