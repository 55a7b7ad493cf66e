# Hyrise encoding layer, benchmark control and test helpers in Dafny

This project models four parts of the Hyrise column store.

- **Null-suppression decoder.** `FixedSizeByteAlignedDecoder` gives random access (`get`, `size`) and a forward iterator (`cbegin`, `cend`, `increment`, `equal`, `dereference`) over a vector of 8-, 16- or 32-bit unsigned integers. It widens every element to 32 bits. Module `NullSuppression`.
- **Encoded-columns benchmark.** The run-control state machine of `Benchmark` (`keep_running`, `measure`, `_init`, `results`, `num_iterations`) decides when a measurement loop stops. The module also has the report name of each encoding type (`to_string(EncodingType)`). Module `EncodedColumnsBenchmark`.
- **MockTableNode.** This optimizer leaf stands for a table known only by its statistics. It names its columns `MockCol0`, `MockCol1`, …, describes itself, builds verbose column names, and fails every operation it does not support. Modules `MockTable` and `Decimal`. `Decimal` is the `std::to_string` the column names are built with.
- **Test helpers.**
  - Type-wise equality of plan trees (`subtree_types_are_equal`).
  - The parent/child tie check (`check_lqp_tie`).
  - The matrix built from a table (`_table_to_matrix`).
  - The table comparison of the tests (`check_table_equal`).

  Module `TestingAssert`.

What is an object in the source is a `class` here:

- the decoder iterator, with its position;
- the benchmark, with its state, counter, clock readings and results;
- the mock node, with its name, alias and column lists;
- a plan node, whose pointer identity `check_lqp_tie` compares.

The class methods are proved against specification functions on plain values, and the lemmas are about those functions:

- `KeepRunningStep`, `Init` and `MeasureStep` over a `Snapshot` of the benchmark's fields;
- `Rows` for the data part of a matrix;
- `TablesEqual` for `check_table_equal`.

Loops of the source are methods with loop invariants:

- the constructor of the mock node;
- the matrix fill;
- the schema and cell loops of the table comparison;
- the parent walk of `check_lqp_tie`.

## Model

| member | source | states |
|---|---|---|
| NullSuppression.Size | src/lib/storage/null_suppression/fixed_size_byte_aligned_decoder.hpp:25 | the decoder's size is the number of elements of the vector |
| NullSuppression.Get | src/lib/storage/null_suppression/fixed_size_byte_aligned_decoder.hpp:23 | element `i` widened to 32 bits is the stored value, which stays below the element type's limit; `i` must be a position of the vector because the access is unchecked |
| NullSuppression.CBegin | src/lib/storage/null_suppression/fixed_size_byte_aligned_decoder.hpp:27 | a new iterator at position 0 of the decoder's vector |
| NullSuppression.CEnd | src/lib/storage/null_suppression/fixed_size_byte_aligned_decoder.hpp:29 | a new iterator one past the last element |
| NullSuppression.Iterator.constructor | src/lib/storage/null_suppression/fixed_size_byte_aligned_decoder.hpp:40 | the iterator stands at the given position of the given vector |
| NullSuppression.Iterator.Increment | src/lib/storage/null_suppression/fixed_size_byte_aligned_decoder.hpp:45 | the position moves up by exactly one and stays within the vector |
| NullSuppression.Iterator.Dereference | src/lib/storage/null_suppression/fixed_size_byte_aligned_decoder.hpp:49 | dereferencing gives the same value as `get` at the iterator's position |
| NullSuppression.Iterator.Equal | src/lib/storage/null_suppression/fixed_size_byte_aligned_decoder.hpp:47 | iterators are equal when they stand at the same position of the same vector; an iterator equal to a valid one is valid and dereferences to the same element |
| NullSuppression.EqualIsEquivalence | src/lib/storage/null_suppression/fixed_size_byte_aligned_decoder.hpp:47 | iterator equality (same vector, same position) is reflexive, symmetric and transitive |
| NullSuppression.EqualsEndIffExhausted | src/lib/storage/null_suppression/fixed_size_byte_aligned_decoder.hpp:29-47 | a valid iterator equals `cend` of its vector exactly when no element is left to dereference |
| NullSuppression.DecodeAll | src/lib/storage/null_suppression/fixed_size_byte_aligned_decoder.hpp:27-49 | walking from `cbegin` to `cend` with `increment`, `equal` and `dereference` yields exactly `get(0)`, …, `get(size - 1)` |
| EncodedColumnsBenchmark.ToString | src/benchmark/encoded_columns/benchmark_main.cpp:28-36 | the report name of each encoding type: "Unencoded", "Dictionary", "Dictionary (Deprecated)", "Run Length"; the lookup never fails and no name is empty |
| EncodedColumnsBenchmark.ToStringIsInjective | src/benchmark/encoded_columns/benchmark_main.cpp:28-36 | `to_string` names every encoding type, and the four names are pairwise different |
| EncodedColumnsBenchmark.Benchmark.constructor | src/benchmark/encoded_columns/benchmark_main.cpp:50-51 | a new benchmark is NotStarted with counter 0 and keeps its maximum iterations and duration |
| EncodedColumnsBenchmark.Benchmark.KeepRunning | src/benchmark/encoded_columns/benchmark_main.cpp:53-79 | the new fields and the returned flag are those of KeepRunningStep, and the counter stays within the size_t range |
| EncodedColumnsBenchmark.Benchmark.Measure | src/benchmark/encoded_columns/benchmark_main.cpp:81-89 | exactly one duration, after minus before, is appended to the results |
| EncodedColumnsBenchmark.Benchmark.InitFields | src/benchmark/encoded_columns/benchmark_main.cpp:95-101 | `_init` sets Running, counter 1, the start time, and empty results |
| EncodedColumnsBenchmark.Benchmark.Results | src/benchmark/encoded_columns/benchmark_main.cpp:91 | `results` is the list of measured durations |
| EncodedColumnsBenchmark.Benchmark.NumIterations | src/benchmark/encoded_columns/benchmark_main.cpp:92 | `num_iterations` is the counter, which never exceeds max(1, maximum) |
| EncodedColumnsBenchmark.FirstCallStarts | src/benchmark/encoded_columns/benchmark_main.cpp:55-57 | the first `keep_running` call returns true and starts the run with one iteration and no results |
| EncodedColumnsBenchmark.OverIsFinal | src/benchmark/encoded_columns/benchmark_main.cpp:58-59 | once Over, `keep_running` returns false and changes nothing |
| EncodedColumnsBenchmark.RunningStep | src/benchmark/encoded_columns/benchmark_main.cpp:63-78 | while running, `keep_running` returns true iff the counter is below the maximum and less than the maximum duration has passed; then the counter grows by one, otherwise the run is Over with the counter unchanged |
| EncodedColumnsBenchmark.KeepRunningPreservesInv | src/benchmark/encoded_columns/benchmark_main.cpp:53-79 | `keep_running` keeps the counter 0 before the start and between 1 and max(1, maximum) afterwards |
| EncodedColumnsBenchmark.MeasureKeepsState | src/benchmark/encoded_columns/benchmark_main.cpp:81-89 | `measure` appends one duration and leaves the state and the counter alone |
| EncodedColumnsBenchmark.DriveCountsIterations | src/benchmark/encoded_columns/benchmark_main.cpp:53-101 | in the loop `while (keep_running()) measure(…)`, the counter equals the number of true answers, never exceeds max(1, maximum), and there is one duration per iteration |
| EncodedColumnsBenchmark.DriveStopsAtMaximum | src/benchmark/encoded_columns/benchmark_main.cpp:63-67 | when the time limit is never reached, the loop stops as Over after exactly max(1, maximum) true answers |
| Decimal.NatToString | src/lib/optimizer/abstract_syntax_tree/mock_table_node.cpp:18 | `std::to_string` of an index is a non-empty string of digits with no leading zero |
| Decimal.NatToStringRoundTrip | src/lib/optimizer/abstract_syntax_tree/mock_table_node.cpp:18 | reading the digits back gives the index |
| Decimal.NatToStringIsInjective | src/lib/optimizer/abstract_syntax_tree/mock_table_node.cpp:18 | different indices have different texts |
| MockTable.MockColumnName | src/lib/optimizer/abstract_syntax_tree/mock_table_node.cpp:18 | the name of output column `i` is "MockCol" followed by the decimal digits of `i` |
| MockTable.MockColumnNamesAreDistinct | src/lib/optimizer/abstract_syntax_tree/mock_table_node.cpp:16-19 | the generated column names are equal only for the same index |
| MockTable.MockTableNode.constructor | src/lib/optimizer/abstract_syntax_tree/mock_table_node.cpp:12-22 | one output column per column statistic, named "MockCol" plus its index, each mapped to INVALID_COLUMN_ID, and no alias |
| MockTable.MockTableNode.FindColumnIdByNamedColumnReference | src/lib/optimizer/abstract_syntax_tree/mock_table_node.cpp:30-34 | always fails with "Operation not supported on MockTableNodes" |
| MockTable.MockTableNode.KnowsTable | src/lib/optimizer/abstract_syntax_tree/mock_table_node.cpp:36-39 | always fails with "Operation not supported on MockTableNodes" |
| MockTable.MockTableNode.GetOutputColumnIdsForTable | src/lib/optimizer/abstract_syntax_tree/mock_table_node.cpp:41-44 | always fails with "Operation not supported on MockTableNodes" |
| MockTable.MockTableNode.OnChildChanged | src/lib/optimizer/abstract_syntax_tree/mock_table_node.cpp:46 | always fails with "MockTableNode cannot have children." |
| MockTable.MockTableNode.Description | src/lib/optimizer/abstract_syntax_tree/mock_table_node.cpp:48 | the description is the fixed prefix, then the name, then a closing quote |
| MockTable.DescriptionDeterminesName | src/lib/optimizer/abstract_syntax_tree/mock_table_node.cpp:48 | two nodes have the same description iff they have the same name |
| MockTable.MockTableNode.GetVerboseColumnName | src/lib/optimizer/abstract_syntax_tree/mock_table_node.cpp:50-56 | the column name qualified by the table name, or by "(name AS alias)" when there is an alias |
| MockTable.VerboseColumnNamesAreDistinct | src/lib/optimizer/abstract_syntax_tree/mock_table_node.cpp:50-56 | the verbose names of one node are pairwise different, and each is the qualifier, a dot and "MockCol" plus the index |
| TestingAssert.SubtreeTypesAreEqual | src/test/testing_assert.cpp:286-295 | `subtree_types_are_equal`: two nulls are equal, null and non-null are not, two nodes are equal when their types and both pairs of children are; equal plans are both null or both nodes of the same type |
| TestingAssert.SubtreeTypesAreEqualIffSameTypes | src/test/testing_assert.cpp:286-295 | two plans are equal by types iff they have the same tree shape with the same node types, whatever else the nodes hold |
| TestingAssert.SubtreeTypesAreEqualIsEquivalence | src/test/testing_assert.cpp:286-295 | `subtree_types_are_equal` is reflexive, symmetric and transitive |
| TestingAssert.CheckLqpTie | src/test/testing_assert.cpp:271-284 | true iff `parent` is not null, has `child` on the given side, and is among the child's parents before the first null one |
| TestingAssert.ChunkRows | src/test/testing_assert.cpp:46-52 | a chunk gives as many rows as its size, each with one cell per column |
| TestingAssert.RowsShape | src/test/testing_assert.cpp:28-53 | the data rows of a table are row_count many, each as wide as the column count, and every cell fits its column's type |
| TestingAssert.PrefixStep | src/test/testing_assert.cpp:39-53 | `row_offset` after a chunk is the sum of the sizes so far, never above row_count, and the rows so far grow by that chunk's rows |
| TestingAssert.TableToMatrix | src/test/testing_assert.cpp:28-57 | row_count + 2 rows, each with one cell per column; row 0 holds the column names, row 1 the type names, and the rest are the table's rows in chunk order |
| TestingAssert.CopyChunks | src/test/testing_assert.cpp:38-54 | rows 2 onward of the matrix become the table's rows, empty chunks are skipped, and the header rows are unchanged |
| TestingAssert.CopyChunk | src/test/testing_assert.cpp:46-52 | the rows of one chunk are written from the current offset on, and no other row changes |
| TestingAssert.NormalizeType | src/test/testing_assert.cpp:153-166 | Strict keeps every type; Lenient turns Double into Float and Long into Int and never yields Double or Long |
| TestingAssert.NormalizeTypeFamilies | src/test/testing_assert.cpp:153-177 | Strict compares raw types; Lenient treats {Int, Long} and {Float, Double} each as one type, never yields Double or Long, and is idempotent |
| TestingAssert.CellMatches | src/test/testing_assert.cpp:219-242 | a pair with a null side matches iff both are null; Float and Double cells match by the float comparison; in Strict mode other cells match iff equal; in Lenient mode Int and Long cells compare their integers |
| TestingAssert.NullCellRule | src/test/testing_assert.cpp:219-222 | a cell pair with a null side matches iff both sides are null |
| TestingAssert.ExactCells | src/test/testing_assert.cpp:233-241 | outside float columns, Strict mode needs equal cells; Lenient mode compares the integers of Int/Long cells and needs equal strings |
| TestingAssert.ArrangeShape | src/test/testing_assert.cpp:199-204 | sorting the data rows keeps their number and their width |
| TestingAssert.CheckTableEqual | src/test/testing_assert.cpp:117-257 | true iff TablesEqual: equal column counts, equal names and mode-normalised types, equal row counts, and every data cell matching after optional sorting of rows 2 onward |
| TestingAssert.CompareCells | src/test/testing_assert.cpp:206-245 | the mismatch list holds exactly the data cells that do not match, in row-major order, and the result is true iff that list is empty |
| TestingAssert.CountMismatchFails | src/test/testing_assert.cpp:139-197 | a column-count or row-count mismatch alone makes the tables unequal |
| TestingAssert.TablesEqualIsReflexive | src/test/testing_assert.cpp:117-257 | a table equals itself in every mode and order when the float comparison holds of equal cells |
| TestingAssert.StrictImpliesLenient | src/test/testing_assert.cpp:149-243 | tables equal under Strict mode are equal under Lenient mode |
| TestingAssert.StrictIsSymmetric | src/test/testing_assert.cpp:168-243 | under Strict mode and a symmetric float comparison, swapping the actual and expected tables does not change the verdict |
| TestingAssert.OrderInsensitiveIgnoresRowOrder | src/test/testing_assert.cpp:199-204 | with order sensitivity No and a sort that orders equal multisets of rows the same way, only which rows the actual table holds matters, not their order |

## Left out

- Clock reads (`Clock::now()`) are parameters: `KeepRunning` takes the one reading it makes, and `Measure` the readings before and after the work. The functor that `measure` runs is not modelled.
- `clear_cache`, the memory resource, `_results.reserve`, the JSON report, the file write and `ColumnCompressionBenchmark::run` (benchmark_main.cpp:115-266) are I/O and benchmark driver code over calls into encoders, so they are not modelled.
- EncodedColumnsBenchmark.Benchmark.KeepRunning: durations and time points are unbounded integers, so a clock overflow in `_end - _begin` is not modelled.
- A freshly constructed benchmark's `_begin` and `_end` are default-constructed time points, the clock's epoch; the model's initial snapshot holds 0 for both, which is that epoch.
- NullSuppression.Get: the source's unchecked access out of range is undefined behaviour, so it is excluded by a precondition rather than modelled. So is an `increment` or `dereference` past the end.
- The iterator's `_value_it` is modelled as the vector (compared by identity) plus a position. Comparing iterators of different vectors is modelled as unequal.
- The vector `FixedSizeByteAlignedVector` and the `NsDecoder`/`BaseNsIterator` bases are not part of this model. The vector is a constant sequence of values, each below its type's limit.
- `INVALID_COLUMN_ID` is taken as 0xFFFF, the largest 16-bit ColumnID, because the file defining it is not part of this model.
- `TableStatistics` and the `AbstractASTNode` base are not modelled beyond the count of column statistics the constructor reads and the alias that `get_verbose_column_name` reads. `set_statistics` and the accessors `output_column_names` and `output_column_id_to_input_column_id` are the node's fields.
- MockTable.MockTableNode.GetVerboseColumnName: an out-of-range column id is undefined behaviour in the source and is excluded by a precondition.
- `Fail` throws an exception in the source; here it is a `Failure` result carrying the same message.
- `data_type_to_string` is not part of this model. The type names "int", "long", "float", "double" and "string" stand in for it.
- `Chunk::size` is taken as the length of the first column, or 0 for a chunk without columns, because the chunk code is not part of this model.
- TestingAssert.CopyChunks: `row_offset` is an `unsigned` (32-bit) in the source and would wrap for tables of 2^32 rows or more; the model's offset is an unbounded natural, so that wrap-around is not modelled.
- Cells hold unbounded integers and real numbers. The 32- and 64-bit ranges, floating-point rounding, and the `type_cast<float>` / `type_cast<double>` casts are not modelled.
- `almost_equals` and its `FloatComparisonMode` are a floating-point comparison. They are a parameter `almostEquals` of the table comparison, called as the source does for Float and Double columns.
- `std::sort` over `AllTypeVariant` rows is a parameter `sortRows`, required only to return a permutation of its input. OrderInsensitiveIgnoresRowOrder also assumes it orders equal multisets of rows identically.
- TestingAssert.CheckTableEqual: the result is the boolean only. The printed comparison (`_matrix_to_string`, `print_table_comparison` and the error messages) is output formatting and is not modelled. The list of mismatched cells is returned by CompareCells.
- The gtest assertions `ASSERT_INNER_JOIN_NODE` and `ASSERT_CROSS_JOIN_NODE` (testing_assert.cpp:259-269) are test-framework macros and are not modelled.
- Plan nodes in `subtree_types_are_equal` are plan values, with a node type, an ignored payload and two children. Shared-pointer aliasing between subtrees does not affect that comparison, so it is not modelled.
- The column encoders, the dictionary and run-length encodings, `resolve_encoded_column_type`, `create_iterable_from_column` and the chunk encoder are only declared or called in the files modelled here. Their behaviour is not part of this model.
