// The evaluation path of the JavaFX controller: the training and test data
// it takes from a three-way split, the true labels it reads off the test
// data, and the confusion matrix it builds from those labels and the
// predictions, before the matrix is rendered into a table.

module Controller {
  import opened ClassList
  import opened Tally

  /** A labelled record: its feature values and its integer label. */
  datatype Instance = Instance(features: seq<real>, classLabel: int)

  /** The three parts a data splitter returns, in order. */
  datatype Triple<A, B, C> = Triple(first: A, second: B, third: C)

  /**
   * How an evaluation ended: it went through every true label; or the
   * counting loop asked for a prediction at an index the prediction list
   * does not have (in the controller an IndexOutOfBoundsException); or an
   * evaluation measure was given label lists of different lengths. The
   * controller catches both failures and reports them, leaving the table
   * as it was.
   */
  datatype Outcome = Completed | IndexOutOfBounds(index: nat) | LengthMismatch(trueCount: nat, predictedCount: nat)

  /** The labels of the records, one per record, in the same order. */
  function Labels(data: seq<Instance>): (labels: seq<int>)
    ensures |labels| == |data|
    ensures forall q :: 0 <= q < |data| ==> labels[q] == data[q].classLabel
  {
    if data == [] then []
    else Labels(data[..|data| - 1]) + [data[|data| - 1].classLabel]
  }

  /** The split parts the controller trains on and evaluates on. */
  function TrainingAndTestData(split: Triple<seq<Instance>, seq<Instance>, seq<Instance>>)
    : (seq<Instance>, seq<Instance>)
  {
    (split.first, split.second)
  }

  /** The labels of a slice of the records are that slice of their labels. */
  lemma LabelsOfSlice(data: seq<Instance>, lo: nat, hi: nat)
    requires lo <= hi <= |data|
    ensures Labels(data[lo..hi]) == Labels(data)[lo..hi]
  {
  }

  /**
   * When the split cuts the data into three consecutive slices, the model
   * is trained on the first slice and evaluated on the middle one, so the
   * true labels are those of the records between the two cut points, and
   * the last slice is never used.
   */
  lemma EvaluatesMiddleSlice(data: seq<Instance>, split: Triple<seq<Instance>, seq<Instance>, seq<Instance>>)
    requires split.first + split.second + split.third == data
    ensures var cut := |split.first| + |split.second|;
            TrainingAndTestData(split) == (data[..|split.first|], data[|split.first|..cut])
            && Labels(TrainingAndTestData(split).1) == Labels(data)[|split.first|..cut]
            && split.third == data[cut..]
  {
    var lo, hi := |split.first|, |split.first| + |split.second|;
    assert data[..lo] == split.first;
    assert data[lo..hi] == split.second;
    assert data[hi..] == split.third;
    LabelsOfSlice(data, lo, hi);
  }

  /** The number of positions the counting loop gets through. */
  function Counted(trueLabels: seq<int>, predictions: seq<int>): nat {
    if |predictions| < |trueLabels| then |predictions| else |trueLabels|
  }

  /** The sum of the first k entries of row r. */
  function RowSum(m: array2<int>, r: nat, k: nat): int
    reads m
    requires r < m.Length0 && k <= m.Length1
  {
    if k == 0 then 0 else RowSum(m, r, k - 1) + m[r, k - 1]
  }

  /** The sum of the first k entries of column c. */
  function ColumnSum(m: array2<int>, c: nat, k: nat): int
    reads m
    requires c < m.Length1 && k <= m.Length0
  {
    if k == 0 then 0 else ColumnSum(m, c, k - 1) + m[k - 1, c]
  }

  /** The sum of every entry in the first k rows. */
  function MatrixSum(m: array2<int>, k: nat): int
    reads m
    requires k <= m.Length0
  {
    if k == 0 then 0 else MatrixSum(m, k - 1) + RowSum(m, k - 1, m.Length1)
  }

  /**
   * `m` is the confusion matrix of the first n positions over the classes
   * `cs`: square, one row and one column per class, and each entry counts
   * the positions with that (actual, predicted) pair.
   */
  ghost predicate Tallies(m: array2<int>, actual: seq<int>, predicted: seq<int>, n: nat, cs: seq<int>)
    reads m
  {
    m.Length0 == |cs| && m.Length1 == |cs| && n <= |actual| && n <= |predicted|
    && forall r, c :: 0 <= r < |cs| && 0 <= c < |cs| ==>
         m[r, c] == PairCount(actual, predicted, n, cs[r], cs[c])
  }

  lemma {:induction false} RowSumIsRowCount(m: array2<int>, actual: seq<int>, predicted: seq<int>, n: nat, cs: seq<int>, r: nat, k: nat)
    requires Tallies(m, actual, predicted, n, cs) && r < |cs| && k <= |cs|
    ensures RowSum(m, r, k) == RowCount(actual, predicted, n, cs[r], cs, k)
  {
    if k > 0 {
      RowSumIsRowCount(m, actual, predicted, n, cs, r, k - 1);
    }
  }

  lemma {:induction false} ColumnSumIsColumnCount(m: array2<int>, actual: seq<int>, predicted: seq<int>, n: nat, cs: seq<int>, c: nat, k: nat)
    requires Tallies(m, actual, predicted, n, cs) && c < |cs| && k <= |cs|
    ensures ColumnSum(m, c, k) == ColumnCount(actual, predicted, n, cs[c], cs, k)
  {
    if k > 0 {
      ColumnSumIsColumnCount(m, actual, predicted, n, cs, c, k - 1);
    }
  }

  lemma {:induction false} MatrixSumIsClassTotal(m: array2<int>, actual: seq<int>, predicted: seq<int>, n: nat, cs: seq<int>, k: nat)
    requires Tallies(m, actual, predicted, n, cs) && k <= |cs|
    requires Distinct(cs)
    requires forall q :: 0 <= q < n ==> predicted[q] in cs
    ensures MatrixSum(m, k) == ClassTotal(actual, n, cs, k)
  {
    if k > 0 {
      MatrixSumIsClassTotal(m, actual, predicted, n, cs, k - 1);
      RowSumIsRowCount(m, actual, predicted, n, cs, k - 1, |cs|);
      RowCountIsOccurrences(actual, predicted, n, cs[k - 1], cs);
    }
  }

  /**
   * In a confusion matrix over classes that include every label counted,
   * row r sums to the number of times class r is the true label, column c
   * to the number of times class c is predicted, and the whole matrix to
   * the number of positions counted.
   */
  lemma TalliesSums(m: array2<int>, actual: seq<int>, predicted: seq<int>, n: nat, cs: seq<int>)
    requires Tallies(m, actual, predicted, n, cs)
    requires StrictlyAscending(cs)
    requires forall x :: x in actual ==> x in cs
    requires forall x :: x in predicted ==> x in cs
    ensures forall r :: 0 <= r < |cs| ==> RowSum(m, r, |cs|) == Occurrences(actual, n, cs[r])
    ensures forall c :: 0 <= c < |cs| ==> ColumnSum(m, c, |cs|) == Occurrences(predicted, n, cs[c])
    ensures MatrixSum(m, |cs|) == n
  {
    assert Distinct(cs);
    forall q | 0 <= q < n
      ensures actual[q] in cs && predicted[q] in cs
    {
      var a, b := actual[q], predicted[q];
      assert a in actual && b in predicted;
    }
    forall r | 0 <= r < |cs|
      ensures RowSum(m, r, |cs|) == Occurrences(actual, n, cs[r])
    {
      RowSumIsRowCount(m, actual, predicted, n, cs, r, |cs|);
      RowCountIsOccurrences(actual, predicted, n, cs[r], cs);
    }
    forall c | 0 <= c < |cs|
      ensures ColumnSum(m, c, |cs|) == Occurrences(predicted, n, cs[c])
    {
      ColumnSumIsColumnCount(m, actual, predicted, n, cs, c, |cs|);
      ColumnCountIsOccurrences(actual, predicted, n, cs[c], cs);
    }
    MatrixSumIsClassTotal(m, actual, predicted, n, cs, |cs|);
    ClassTotalIsLength(actual, n, cs);
  }

  /**
   * The class index map: each class is sent to its position in the class
   * list. A later duplicate would overwrite an earlier one, so in general
   * a key is sent to a position that holds it; for an ascending class list
   * that position is its only one.
   */
  method IndexClasses(sortedClasses: seq<int>) returns (classIndexMap: map<int, int>)
    ensures forall x :: x in classIndexMap <==> x in sortedClasses
    ensures forall x :: x in classIndexMap ==>
              0 <= classIndexMap[x] < |sortedClasses| && sortedClasses[classIndexMap[x]] == x
    ensures StrictlyAscending(sortedClasses) ==>
              forall i :: 0 <= i < |sortedClasses| ==>
                sortedClasses[i] in classIndexMap && classIndexMap[sortedClasses[i]] == i
  {
    classIndexMap := map[];
    for i := 0 to |sortedClasses|
      invariant forall x :: x in classIndexMap <==> x in sortedClasses[..i]
      invariant forall x :: x in classIndexMap ==>
                  0 <= classIndexMap[x] < i && sortedClasses[classIndexMap[x]] == x
    {
      classIndexMap := classIndexMap[sortedClasses[i] := i];
    }
    assert sortedClasses[..|sortedClasses|] == sortedClasses;
  }

  /**
   * `classIndexMap` sends every label of `labels` to a position of the class
   * list that holds it.
   */
  ghost predicate IndexesLabels(classIndexMap: map<int, int>, labels: seq<int>, cs: seq<int>) {
    forall q :: 0 <= q < |labels| ==>
      labels[q] in classIndexMap && 0 <= classIndexMap[labels[q]] < |cs| && cs[classIndexMap[labels[q]]] == labels[q]
  }

  /** Every label of a list whose labels are all classes has a defined index. */
  lemma LookupsDefined(classIndexMap: map<int, int>, labels: seq<int>, cs: seq<int>)
    requires forall x :: x in labels ==> x in cs
    requires forall x :: x in classIndexMap <==> x in cs
    requires forall x :: x in classIndexMap ==> 0 <= classIndexMap[x] < |cs| && cs[classIndexMap[x]] == x
    ensures IndexesLabels(classIndexMap, labels, cs)
  {
    forall q | 0 <= q < |labels|
      ensures labels[q] in classIndexMap && 0 <= classIndexMap[labels[q]] < |cs|
              && cs[classIndexMap[labels[q]]] == labels[q]
    {
      var x := labels[q];
      assert x in labels;
    }
  }

  /**
   * `matrix[r][c]++` for the pair at position i, where r and c are the
   * indices of its true and its predicted label: the matrix of the first i
   * positions becomes the matrix of the first i + 1.
   */
  method Increment(matrix: array2<int>, r: nat, c: nat, ghost trueLabels: seq<int>, ghost predictions: seq<int>,
                   ghost i: nat, ghost sortedClasses: seq<int>)
    requires i < |trueLabels| && i < |predictions| && Distinct(sortedClasses)
    requires r < |sortedClasses| && c < |sortedClasses|
    requires sortedClasses[r] == trueLabels[i] && sortedClasses[c] == predictions[i]
    requires Tallies(matrix, trueLabels, predictions, i, sortedClasses)
    modifies matrix
    ensures Tallies(matrix, trueLabels, predictions, i + 1, sortedClasses)
  {
    matrix[r, c] := matrix[r, c] + 1;
    forall r', c' | 0 <= r' < |sortedClasses| && 0 <= c' < |sortedClasses|
      ensures matrix[r', c'] == PairCount(trueLabels, predictions, i + 1, sortedClasses[r'], sortedClasses[c'])
    {
      PairCountStep(trueLabels, predictions, i, sortedClasses, r, c, r', c');
    }
  }

  /**
   * The counting loop: goes through the true labels in order and adds one
   * to the cell of each (actual, predicted) pair, until the true labels
   * or the predictions run out.
   */
  method CountPairs(matrix: array2<int>, classIndexMap: map<int, int>, trueLabels: seq<int>, predictions: seq<int>,
                    ghost sortedClasses: seq<int>)
    returns (outcome: Outcome)
    requires Distinct(sortedClasses)
    requires IndexesLabels(classIndexMap, trueLabels, sortedClasses)
    requires IndexesLabels(classIndexMap, predictions, sortedClasses)
    requires Tallies(matrix, trueLabels, predictions, 0, sortedClasses)
    modifies matrix
    ensures Tallies(matrix, trueLabels, predictions, Counted(trueLabels, predictions), sortedClasses)
    ensures outcome == if |predictions| < |trueLabels| then IndexOutOfBounds(|predictions|) else Completed
  {
    outcome := Completed;
    var i := 0;
    while i < |trueLabels|
      invariant i <= |trueLabels| && i <= |predictions|
      invariant Tallies(matrix, trueLabels, predictions, i, sortedClasses)
    {
      var actual := trueLabels[i];
      if i >= |predictions| {
        outcome := IndexOutOfBounds(i);
        break;
      }
      var predicted := predictions[i];
      Increment(matrix, classIndexMap[actual], classIndexMap[predicted], trueLabels, predictions, i, sortedClasses);
      i := i + 1;
    }
  }

  /**
   * Builds the confusion matrix of the true labels against the predictions:
   * the class list is every label of either list, ascending; entry (r, c)
   * counts the positions whose true label is class r and whose prediction
   * is class c. Every row sums to the number of times its class is the
   * true label, every column to the number of times its class is predicted,
   * and the whole matrix to the number of positions counted: all of them,
   * unless the predictions run out first, in which case the lookup of the
   * missing prediction fails and the positions before it are counted.
   */
  method DisplayConfusionMatrix(trueLabels: seq<int>, predictions: seq<int>)
    returns (sortedClasses: seq<int>, matrix: array2<int>, outcome: Outcome)
    ensures StrictlyAscending(sortedClasses)
    ensures forall x :: x in sortedClasses <==> x in trueLabels || x in predictions
    ensures matrix.Length0 == |sortedClasses| && matrix.Length1 == |sortedClasses|
    ensures outcome == if |predictions| < |trueLabels| then IndexOutOfBounds(|predictions|) else Completed
    ensures forall r, c :: 0 <= r < |sortedClasses| && 0 <= c < |sortedClasses| ==>
              matrix[r, c]
              == PairCount(trueLabels, predictions, Counted(trueLabels, predictions), sortedClasses[r], sortedClasses[c])
    ensures forall r :: 0 <= r < |sortedClasses| ==>
              RowSum(matrix, r, |sortedClasses|)
              == Occurrences(trueLabels, Counted(trueLabels, predictions), sortedClasses[r])
    ensures forall c :: 0 <= c < |sortedClasses| ==>
              ColumnSum(matrix, c, |sortedClasses|)
              == Occurrences(predictions, Counted(trueLabels, predictions), sortedClasses[c])
    ensures MatrixSum(matrix, |sortedClasses|) == Counted(trueLabels, predictions)
  {
    sortedClasses := Classes(trueLabels, predictions);
    var size := |sortedClasses|;
    matrix := new int[size, size]((_, _) => 0);
    var classIndexMap := IndexClasses(sortedClasses);
    LookupsDefined(classIndexMap, trueLabels, sortedClasses);
    LookupsDefined(classIndexMap, predictions, sortedClasses);
    outcome := CountPairs(matrix, classIndexMap, trueLabels, predictions, sortedClasses);
    TalliesSums(matrix, trueLabels, predictions, Counted(trueLabels, predictions), sortedClasses);
  }

  /**
   * The evaluation step: reads the true labels off the test records, runs
   * the evaluation measures, which reject label lists of different lengths,
   * and then builds the confusion matrix against the predictions. Entry
   * (r, c) counts the test records whose label is class r and whose
   * prediction is class c, and the whole matrix adds up to the number of
   * test records. When the measures reject the lists, no matrix is built:
   * the class list and the matrix are empty.
   */
  method EvaluatePerformance(testData: seq<Instance>, predictions: seq<int>)
    returns (sortedClasses: seq<int>, matrix: array2<int>, outcome: Outcome)
    ensures outcome == Completed <==> |testData| == |predictions|
    ensures outcome != Completed ==>
              outcome == LengthMismatch(|testData|, |predictions|)
              && sortedClasses == [] && matrix.Length0 == 0 && matrix.Length1 == 0
    ensures StrictlyAscending(sortedClasses)
    ensures matrix.Length0 == |sortedClasses| && matrix.Length1 == |sortedClasses|
    ensures outcome == Completed ==>
              forall x :: x in sortedClasses <==>
                (exists q :: 0 <= q < |testData| && testData[q].classLabel == x) || x in predictions
    ensures outcome == Completed ==>
              forall r, c :: 0 <= r < |sortedClasses| && 0 <= c < |sortedClasses| ==>
                matrix[r, c]
                == |set q | 0 <= q < |testData|
                            && testData[q].classLabel == sortedClasses[r] && predictions[q] == sortedClasses[c]|
    ensures outcome == Completed ==> MatrixSum(matrix, |sortedClasses|) == |testData|
  {
    var trueLabels := Labels(testData);
    if |trueLabels| != |predictions| {
      return [], new int[0, 0], LengthMismatch(|trueLabels|, |predictions|);
    }
    sortedClasses, matrix, outcome := DisplayConfusionMatrix(trueLabels, predictions);
    var n := |testData|;
    forall r, c | 0 <= r < |sortedClasses| && 0 <= c < |sortedClasses|
      ensures matrix[r, c]
              == |set q | 0 <= q < |testData|
                          && testData[q].classLabel == sortedClasses[r] && predictions[q] == sortedClasses[c]|
    {
      PairCountArePositions(trueLabels, predictions, n, sortedClasses[r], sortedClasses[c]);
      assert (set q | 0 <= q < n && trueLabels[q] == sortedClasses[r] && predictions[q] == sortedClasses[c])
          == (set q | 0 <= q < |testData|
                      && testData[q].classLabel == sortedClasses[r] && predictions[q] == sortedClasses[c]);
    }
  }

  /**
   * The worked example of a confusion matrix: true labels [1, 0, 1, 1, 0]
   * against predictions [1, 0, 0, 1, 0] give classes [0, 1] and the rows
   * [2, 0] and [1, 2].
   */
  lemma WorkedExample()
    ensures Classes([1, 0, 1, 1, 0], [1, 0, 0, 1, 0]) == [0, 1]
    ensures PairCount([1, 0, 1, 1, 0], [1, 0, 0, 1, 0], 5, 0, 0) == 2
    ensures PairCount([1, 0, 1, 1, 0], [1, 0, 0, 1, 0], 5, 0, 1) == 0
    ensures PairCount([1, 0, 1, 1, 0], [1, 0, 0, 1, 0], 5, 1, 0) == 1
    ensures PairCount([1, 0, 1, 1, 0], [1, 0, 0, 1, 0], 5, 1, 1) == 2
  {
    AscendingUnique(Classes([1, 0, 1, 1, 0], [1, 0, 0, 1, 0]), [0, 1]);
  }
}
