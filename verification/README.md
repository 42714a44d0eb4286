# Confusion matrix of the ML toolkit's controller, in Dafny

This project models the evaluation path of the JavaFX controller of a small
machine-learning toolkit (`src/gui/Controller.java`). After a classifier has
been trained, the controller does three things that are modelled here:

- it picks the parts of a three-way data split to train on and to evaluate
  on (the first and the second part);
- it reads the true labels off the evaluation records, one per record, in
  order;
- it builds the confusion matrix of those labels against the predictions:
  the class list is the union of both label lists, sorted ascending; a hash
  map sends each class to its position; an `int[size][size]` matrix starts
  at zero and the counting loop adds one to `matrix[index(actual)][index(predicted)]`
  for every position of the true-label list.

Three modules:

- `ClassList` (`class_list.dfy`): the sorted, duplicate-free class list and
  the fact that it is the only ascending list with those elements.
- `Tally` (`tally.dfy`): the counting functions that specify the matrix
  (`Occurrences`, `PairCount` and their sums over a class list), and the
  lemmas that rows, columns and the whole matrix add up to label counts.
- `Controller` (`controller.dfy`): the records, the split triple, the label
  extraction, the class index map (`IndexClasses`), the counting loop
  (`CountPairs`, which works in place on an `array2<int>`), the whole
  builder (`DisplayConfusionMatrix`) and the evaluation step that feeds it
  (`EvaluatePerformance`).

Behaviour of the code that the model keeps, where it differs from what a
reader might expect:

- `displayConfusionMatrix` taken alone does not compare the lengths. Its
  loop runs over the true labels and reads `predictions.get(i)`. If the
  prediction list is shorter, the read at index `|predictions|` throws; the
  caller catches the exception and shows an error. `DisplayConfusionMatrix`
  returns `IndexOutOfBounds(|predictions|)` in that case, with the matrix
  holding the counts of the positions before it. No precondition excludes it.
- If the prediction list is longer, that loop ignores the extra predictions,
  but their labels are still in the class list (they get rows and columns
  of zeros).
- Through `evaluatePerformance`, the evaluation measures run first and fail
  on label lists of different lengths, so the matrix is only built when
  there is exactly one prediction per test record. `EvaluatePerformance`
  returns `LengthMismatch` with no matrix otherwise.
- The evaluation records are the second part of the split (the validation
  part), not the third.

Java `int` entries cannot overflow here: each entry is at most the number of
positions counted (`PairCountAtMostOccurrences`), and a Java list has at most
2^31 - 1 elements. The model uses unbounded integers.

## Model

| member | source | states |
|---|---|---|
| `ClassList.Classes` | src/gui/Controller.java:261-263 | the class list is strictly ascending and holds exactly the labels that occur in the true labels or in the predictions |
| `ClassList.SortedDistinct` | src/gui/Controller.java:261-263 | the result is strictly ascending and has exactly the elements of the input (a set with its duplicates merged, sorted) |
| `ClassList.AscendingUnique` | src/gui/Controller.java:263 | two strictly ascending lists with the same elements are equal, so the class list is the sorted union whatever sort produced it |
| `Controller.IndexClasses` | src/gui/Controller.java:268-271 | the index map's keys are exactly the classes, each key is sent to a position in range that holds it, and for an ascending class list `sortedClasses[i]` is sent to `i` (a bijection onto `0..size-1`) |
| `Controller.LookupsDefined` | src/gui/Controller.java:274-276 | every label of a list whose labels are all classes has a defined index in range, and that index holds the label |
| `Controller.Increment` | src/gui/Controller.java:276 | adding one to the cell of position i's (true, predicted) index pair turns the pair counts of the first i positions into those of the first i + 1 |
| `Controller.CountPairs` | src/gui/Controller.java:273-277 | starting from the all-zero matrix, the loop leaves entry (r, c) equal to the number of positions with true label class r and prediction class c, over all true labels, or over the first `|predictions|` ones when the predictions run out, in which case it reports the failing index |
| `Controller.DisplayConfusionMatrix` | src/gui/Controller.java:260-277 | the matrix is `size × size` over the sorted union; entry (r, c) counts the (class r, class c) pairs; row r sums to the occurrences of class r among the true labels, column c to the occurrences of class c among the predictions, the whole matrix to the number of positions counted; it fails with the missing index exactly when there are fewer predictions than true labels |
| `Controller.Labels` | src/gui/Controller.java:230 | the true labels have the length of the test data and, at each position, the label of that record |
| `Controller.EvaluatesMiddleSlice` | src/gui/Controller.java:173-176 | when the split cuts the data into three consecutive slices, `TrainingAndTestData` (lines 175-176) trains on the first and evaluates on the middle one, whose labels are the data's labels between the two cut points; the third slice is the remainder and is unused |
| `Controller.LabelsOfSlice` | src/gui/Controller.java:230 | the labels of a slice of the records are that slice of the records' labels |
| `Controller.EvaluatePerformance` | src/gui/Controller.java:230-255 | it completes exactly when there is one prediction per test record, and otherwise fails with `LengthMismatch` (the measures at 238-241) and builds no matrix; on completion the class list is every record label and prediction, ascending, entry (r, c) is the number of records whose label is class r and whose prediction is class c, and the matrix adds up to the number of records |
| `Controller.TalliesSums` | src/gui/Controller.java:273-277 | in a matrix of pair counts over distinct classes covering all labels, rows sum to actual-class counts, columns to predicted-class counts, and the total to the number of positions |
| `Controller.RowSumIsRowCount` | src/gui/Controller.java:273-277 | a row sum of the matrix is the sum of that row's pair counts |
| `Controller.ColumnSumIsColumnCount` | src/gui/Controller.java:273-277 | a column sum of the matrix is the sum of that column's pair counts |
| `Controller.MatrixSumIsClassTotal` | src/gui/Controller.java:273-277 | the sum of the matrix is the sum over classes of their occurrences among the true labels |
| `Controller.WorkedExample` | src/gui/Controller.java:260-277 | true labels [1, 0, 1, 1, 0] against predictions [1, 0, 0, 1, 0] give classes [0, 1] and rows [2, 0] and [1, 2] |
| `Tally.PairCountStep` | src/gui/Controller.java:276 | counting one more position adds one to the cell of its (actual, predicted) pair and changes no other cell |
| `Tally.PairCountAtMostOccurrences` | src/gui/Controller.java:273-277 | a cell is at most the number of times its true label occurs among the positions counted, which is at most the number of positions, so the `int` entries stay within range |
| `Tally.PairCountArePositions` | src/gui/Controller.java:273-277 | a matrix cell equals the number of positions q < n with that true label and that prediction |
| `Tally.OccurrencesArePositions` | src/gui/Controller.java:273-277 | an occurrence count equals the number of positions q < n holding the label |
| `Tally.RowCountIsOccurrences` | src/gui/Controller.java:273-277 | when every counted prediction is a class, a row's pair counts add up to the occurrences of its class among the true labels |
| `Tally.ColumnCountIsOccurrences` | src/gui/Controller.java:273-277 | when every counted true label is a class, a column's pair counts add up to the occurrences of its class among the predictions |
| `Tally.ClassTotalIsLength` | src/gui/Controller.java:273-277 | when every counted label is one of distinct classes, the per-class counts add up to the number of positions counted |

## Left out

- The JavaFX user interface: `initialize`, `browseFile`, the alert helpers, and the table columns and string rows built from the matrix after line 277. They only render.
- `loadData`: file reading and CSV parsing through `DataLoader`, which is not part of this model.
- `trainModel`'s parsing of the percentages and its floating-point check that they sum to exactly 1.0, and the parsing of `k` and the learning rate.
- The classifiers (`KNNModel`, `NaiveBayes`, `Perceptron`), `DataSplitter` and `EuclideanDistance`: the controller only calls them and their code is not part of this model. `Triple` is modelled only as a three-field value; the split is taken as given three lists, and `EvaluatesMiddleSlice` assumes they are consecutive slices of the data.
- `Controller.EvaluatePerformance`: the measure classes called at src/gui/Controller.java:238-241 are not part of this model. Of them the model keeps only their documented rejection of label lists of different lengths, which the catch at line 255 reports; it assumes they return normally on lists of equal length.
- Accuracy, precision, recall and F1 and the per-model result maps: floating-point results from measure classes that are not part of this model.
- `src/classifiers/Model.java`: an interface with two method signatures and no behaviour.
- The exception itself: where the Java loop throws on a missing prediction, the model returns `IndexOutOfBounds` with the failing index and the partly filled matrix; the error dialog the controller shows instead is not modelled.
