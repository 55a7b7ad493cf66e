/**
 * The comparison helpers the tests use to check query plans and result
 * tables: equality of plan trees by node type, the check that a parent
 * and a child point at each other, and the comparison of two tables cell
 * by cell (after building a matrix of each table).
 */
module TestingAssert {

  // ---------------------------------------------------------------------
  // Plan trees compared by node type: subtree_types_are_equal
  // ---------------------------------------------------------------------

  /** LQPNodeType, as a tag. */
  type LqpNodeType = nat

  /**
   * A logical query plan as seen through shared pointers: a null pointer,
   * or a node with its type, everything else it holds (`payload`, which
   * the comparison ignores) and its two children.
   */
  datatype Plan = Null | Node(nodeType: LqpNodeType, payload: nat, left: Plan, right: Plan)

  /** A plan with everything but the node types and the tree shape left out. */
  datatype TypeTree = Empty | Fork(nodeType: LqpNodeType, left: TypeTree, right: TypeTree)

  function TypesOf(p: Plan): (t: TypeTree)
    ensures t.Empty? <==> p.Null?
  {
    match p
    case Null => Empty
    case Node(nodeType, _, left, right) => Fork(nodeType, TypesOf(left), TypesOf(right))
  }

  /**
   * `subtree_types_are_equal`: two null plans are equal, a null and a
   * non-null one are not, and two nodes are equal when their types are
   * and both pairs of children are.
   */
  predicate SubtreeTypesAreEqual(got: Plan, expected: Plan): (equal: bool)
    ensures equal ==> (got.Null? <==> expected.Null?)
    ensures equal && got.Node? ==> got.nodeType == expected.nodeType
  {
    if got.Null? && expected.Null? then true
    else if got.Null? then false
    else if expected.Null? then false
    else if got.nodeType != expected.nodeType then false
    else SubtreeTypesAreEqual(got.left, expected.left) && SubtreeTypesAreEqual(got.right, expected.right)
  }

  /** Two plans are equal by types exactly when they have the same types in the same tree shape. */
  lemma {:induction false} SubtreeTypesAreEqualIffSameTypes(got: Plan, expected: Plan)
    ensures SubtreeTypesAreEqual(got, expected) <==> TypesOf(got) == TypesOf(expected)
  {
    match (got, expected)
    case (Node(_, _, gl, gr), Node(_, _, el, er)) =>
      SubtreeTypesAreEqualIffSameTypes(gl, el);
      SubtreeTypesAreEqualIffSameTypes(gr, er);
    case _ =>
  }

  /** Hence the comparison is reflexive, symmetric and transitive. */
  lemma SubtreeTypesAreEqualIsEquivalence(a: Plan, b: Plan, c: Plan)
    ensures SubtreeTypesAreEqual(a, a)
    ensures SubtreeTypesAreEqual(a, b) <==> SubtreeTypesAreEqual(b, a)
    ensures SubtreeTypesAreEqual(a, b) && SubtreeTypesAreEqual(b, c) ==> SubtreeTypesAreEqual(a, c)
  {
    SubtreeTypesAreEqualIffSameTypes(a, a);
    SubtreeTypesAreEqualIffSameTypes(a, b);
    SubtreeTypesAreEqualIffSameTypes(b, a);
    SubtreeTypesAreEqualIffSameTypes(b, c);
    SubtreeTypesAreEqualIffSameTypes(a, c);
  }

  // ---------------------------------------------------------------------
  // Parent and child pointing at each other: check_lqp_tie
  // ---------------------------------------------------------------------

  datatype LqpChildSide = Left | Right

  /** A plan node as an object: its parents (null where a parent is gone) and its children. */
  class LqpNode {
    var parents: seq<LqpNode?>
    var leftChild: LqpNode?
    var rightChild: LqpNode?

    constructor (parents: seq<LqpNode?>, leftChild: LqpNode?, rightChild: LqpNode?)
      ensures this.parents == parents && this.leftChild == leftChild && this.rightChild == rightChild
    {
      this.parents := parents;
      this.leftChild := leftChild;
      this.rightChild := rightChild;
    }

    function Child(side: LqpChildSide): LqpNode?
      reads this
    {
      match side
      case Left => leftChild
      case Right => rightChild
    }
  }

  /** The number of parents before the first null one (all of them when none is null). */
  function NonNullPrefix(parents: seq<LqpNode?>): (n: nat)
    ensures n <= |parents|
    ensures forall k :: 0 <= k < n ==> parents[k] != null
    ensures n < |parents| ==> parents[n] == null
  {
    if parents == [] || parents[0] == null then 0 else 1 + NonNullPrefix(parents[1..])
  }

  /**
   * `check_lqp_tie`: walk the child's parents in order; a null parent ends
   * the walk with false, and `parent` found with `child` on `side` ends it
   * with true.  So the tie holds exactly when `parent` has `child` on that
   * side and appears among the parents before the first null one.
   */
  method CheckLqpTie(parent: LqpNode?, side: LqpChildSide, child: LqpNode) returns (tied: bool)
    ensures tied <==>
      parent != null && parent.Child(side) == child && parent in child.parents[..NonNullPrefix(child.parents)]
  {
    var parents := child.parents;
    var i := 0;
    while i < |parents|
      invariant 0 <= i <= |parents|
      invariant forall k :: 0 <= k < i ==> parents[k] != null
      invariant forall k :: 0 <= k < i ==> !(parents[k] == parent && parents[k].Child(side) == child)
    {
      var parent2 := parents[i];
      if parent2 == null {
        return false;
      }
      if parent == parent2 && parent2.Child(side) == child {
        return true;
      }
      i := i + 1;
    }
    return false;
  }

  // ---------------------------------------------------------------------
  // Tables and their matrices: _table_to_matrix
  // ---------------------------------------------------------------------

  datatype DataType = Int | Long | Float | Double | String

  /** `data_type_to_string`: the name printed in a matrix's type row. */
  function DataTypeName(t: DataType): string
  {
    match t
    case Int => "int"
    case Long => "long"
    case Float => "float"
    case Double => "double"
    case String => "string"
  }

  /** AllTypeVariant: a null or a value of one of the data types. */
  datatype Cell =
    | NullCell
    | IntCell(i: int)
    | LongCell(l: int)
    | FloatCell(f: real)
    | DoubleCell(d: real)
    | StringCell(s: string)

  /** A non-null cell holds a value of its column's type. */
  predicate CellFits(c: Cell, t: DataType)
  {
    match c
    case NullCell => true
    case IntCell(_) => t == Int
    case LongCell(_) => t == Long
    case FloatCell(_) => t == Float
    case DoubleCell(_) => t == Double
    case StringCell(_) => t == String
  }

  /** A chunk: one sequence of cells per column. */
  datatype Chunk = Chunk(columns: seq<seq<Cell>>)

  /** `Chunk::size`: the length of the first column, 0 for a chunk without columns. */
  function ChunkSize(c: Chunk): nat
  {
    if c.columns == [] then 0 else |c.columns[0]|
  }

  /** A chunk has no columns (an empty table's chunk may lack them) or one per table column, all equally long and well typed. */
  predicate ChunkFits(c: Chunk, types: seq<DataType>)
  {
    c.columns == [] ||
    (&& |c.columns| == |types|
     && (forall col :: 0 <= col < |types| ==> |c.columns[col]| == ChunkSize(c))
     && (forall col, o :: 0 <= col < |types| && 0 <= o < |c.columns[col]| ==> CellFits(c.columns[col][o], types[col])))
  }

  datatype Table = Table(columnNames: seq<string>, columnTypes: seq<DataType>, chunks: seq<Chunk>)

  predicate ValidTable(t: Table)
  {
    && |t.columnTypes| == |t.columnNames|
    && forall k :: 0 <= k < |t.chunks| ==> ChunkFits(t.chunks[k], t.columnTypes)
  }

  /** `Table::row_count`: the sum of the chunk sizes. */
  function RowCount(chunks: seq<Chunk>): nat
  {
    if chunks == [] then 0 else ChunkSize(chunks[0]) + RowCount(chunks[1..])
  }

  type Row = seq<Cell>
  type Matrix = seq<Row>

  /** The rows of one chunk, each with one cell per column. */
  function ChunkRows(c: Chunk, types: seq<DataType>): (rows: seq<Row>)
    requires ChunkFits(c, types)
    ensures |rows| == ChunkSize(c)
    ensures forall o :: 0 <= o < |rows| ==> |rows[o]| == |types|
  {
    if c.columns == [] then []
    else
      seq(ChunkSize(c), o requires 0 <= o < ChunkSize(c) =>
        seq(|types|, col requires 0 <= col < |types| => c.columns[col][o]))
  }

  /** The rows of a table: the rows of its chunks, chunk after chunk. */
  function Rows(chunks: seq<Chunk>, types: seq<DataType>): (rows: seq<Row>)
    requires forall k :: 0 <= k < |chunks| ==> ChunkFits(chunks[k], types)
  {
    if chunks == [] then [] else ChunkRows(chunks[0], types) + Rows(chunks[1..], types)
  }

  /** A table has RowCount rows, each with one cell per column, and each cell fits its column's type. */
  lemma {:induction false} RowsShape(chunks: seq<Chunk>, types: seq<DataType>)
    requires forall k :: 0 <= k < |chunks| ==> ChunkFits(chunks[k], types)
    ensures |Rows(chunks, types)| == RowCount(chunks)
    ensures forall r :: 0 <= r < RowCount(chunks) ==> |Rows(chunks, types)[r]| == |types|
    ensures forall r, col :: 0 <= r < RowCount(chunks) && 0 <= col < |types| ==> CellFits(Rows(chunks, types)[r][col], types[col])
  {
    if chunks != [] {
      RowsShape(chunks[1..], types);
      var head := ChunkRows(chunks[0], types);
      var rows := Rows(chunks, types);
      forall r, col | 0 <= r < RowCount(chunks) && 0 <= col < |types|
        ensures |rows[r]| == |types| && CellFits(rows[r][col], types[col])
      {
        if r < |head| {
          assert rows[r] == head[r];
          assert chunks[0].columns != [];
        } else {
          assert rows[r] == Rows(chunks[1..], types)[r - |head|];
        }
      }
    }
  }

  lemma {:induction false} RowsAppend(chunks: seq<Chunk>, c: Chunk, types: seq<DataType>)
    requires forall k :: 0 <= k < |chunks| ==> ChunkFits(chunks[k], types)
    requires ChunkFits(c, types)
    ensures Rows(chunks + [c], types) == Rows(chunks, types) + ChunkRows(c, types)
    ensures RowCount(chunks + [c]) == RowCount(chunks) + ChunkSize(c)
  {
    if chunks != [] {
      assert (chunks + [c])[1..] == chunks[1..] + [c];
      RowsAppend(chunks[1..], c, types);
    }
  }

  lemma {:induction false} RowCountSplit(chunks: seq<Chunk>, k: nat)
    requires k <= |chunks|
    ensures RowCount(chunks) == RowCount(chunks[..k]) + RowCount(chunks[k..])
  {
    if k > 0 {
      assert chunks[..k][1..] == chunks[1..][..k - 1];
      assert chunks[k..] == chunks[1..][k - 1..];
      RowCountSplit(chunks[1..], k - 1);
    }
  }

  /** Extending a prefix of the chunks by the next chunk extends its rows by that chunk's rows. */
  lemma PrefixStep(chunks: seq<Chunk>, k: nat, types: seq<DataType>)
    requires k < |chunks|
    requires forall j :: 0 <= j < |chunks| ==> ChunkFits(chunks[j], types)
    ensures RowCount(chunks[..k + 1]) == RowCount(chunks[..k]) + ChunkSize(chunks[k]) <= RowCount(chunks)
    ensures Rows(chunks[..k + 1], types) == Rows(chunks[..k], types) + ChunkRows(chunks[k], types)
  {
    assert chunks[..k + 1] == chunks[..k] + [chunks[k]];
    RowsAppend(chunks[..k], chunks[k], types);
    RowCountSplit(chunks, k + 1);
  }

  /** Row 0 of a matrix: the column names. */
  function NameRow(t: Table): Row
  {
    seq(|t.columnNames|, col requires 0 <= col < |t.columnNames| => StringCell(t.columnNames[col]))
  }

  /** Row 1 of a matrix: the column type names. */
  function TypeRow(t: Table): Row
    requires ValidTable(t)
  {
    seq(|t.columnNames|, col requires 0 <= col < |t.columnNames| => StringCell(DataTypeName(t.columnTypes[col])))
  }

  /**
   * `_table_to_matrix`: a matrix of row count + 2 rows, one cell per
   * column; row 0 holds the names, row 1 the type names, and from row 2 on
   * come the table's rows in order, chunk after chunk (chunks of size 0 are
   * skipped).
   */
  method TableToMatrix(t: Table) returns (m: Matrix)
    requires ValidTable(t)
    ensures |m| == RowCount(t.chunks) + 2
    ensures forall r :: 0 <= r < |m| ==> |m[r]| == |t.columnNames|
    ensures m[0] == NameRow(t) && m[1] == TypeRow(t)
    ensures m[2..] == Rows(t.chunks, t.columnTypes)
  {
    var cc := |t.columnNames|;
    var rowCount := RowCount(t.chunks);
    var empty: Row := seq(cc, _ => NullCell);
    m := seq(rowCount + 2, _ => empty);

    var columnId := 0;
    while columnId < cc
      invariant 0 <= columnId <= cc && |m| == rowCount + 2
      invariant |m[0]| == cc && |m[1]| == cc
      invariant forall col :: 0 <= col < columnId ==> m[0][col] == NameRow(t)[col] && m[1][col] == TypeRow(t)[col]
      invariant forall r :: 2 <= r < |m| ==> m[r] == empty
    {
      m := m[0 := m[0][columnId := StringCell(t.columnNames[columnId])]];
      m := m[1 := m[1][columnId := StringCell(DataTypeName(t.columnTypes[columnId]))]];
      columnId := columnId + 1;
    }
    assert m[0] == NameRow(t) && m[1] == TypeRow(t);
    m := CopyChunks(m, t);
    RowsShape(t.chunks, t.columnTypes);
  }

  /**
   * The chunk loop of `_table_to_matrix`: copy the chunks' rows one chunk
   * after the other into the matrix, from row 2 on, skipping empty chunks.
   */
  method CopyChunks(m0: Matrix, t: Table) returns (m: Matrix)
    requires ValidTable(t)
    requires |m0| == RowCount(t.chunks) + 2
    requires forall r :: 2 <= r < |m0| ==> |m0[r]| == |t.columnNames|
    ensures |m| == |m0| && m[0] == m0[0] && m[1] == m0[1]
    ensures m[2..] == Rows(t.chunks, t.columnTypes)
  {
    var chunks, types := t.chunks, t.columnTypes;
    var rowCount := RowCount(chunks);
    m := m0;
    var rowOffset := 0;
    var chunkId := 0;
    while chunkId < |chunks|
      invariant 0 <= chunkId <= |chunks| && |m| == rowCount + 2
      invariant rowOffset == RowCount(chunks[..chunkId]) <= rowCount
      invariant m[0] == m0[0] && m[1] == m0[1]
      invariant |Rows(chunks[..chunkId], types)| == rowOffset
      invariant forall r :: 2 <= r < 2 + rowOffset ==> m[r] == Rows(chunks[..chunkId], types)[r - 2]
      invariant forall r :: 2 + rowOffset <= r < |m| ==> |m[r]| == |types|
    {
      var chunk := chunks[chunkId];
      var size := ChunkSize(chunk);
      PrefixStep(chunks, chunkId, types);
      if size > 0 {
        m := CopyChunk(m, chunk, types, 2 + rowOffset);
      }
      rowOffset := rowOffset + size;
      chunkId := chunkId + 1;
    }
    assert chunks[..chunkId] == chunks;
    assert m[2..] == Rows(chunks, types);
  }

  /**
   * The inner loops of `_table_to_matrix`: column by column, copy the
   * cells of one non-empty chunk into the matrix rows from `start` on.
   */
  method CopyChunk(m0: Matrix, chunk: Chunk, types: seq<DataType>, start: nat) returns (m: Matrix)
    requires ChunkFits(chunk, types) && ChunkSize(chunk) > 0
    requires start + ChunkSize(chunk) <= |m0|
    requires forall r :: start <= r < start + ChunkSize(chunk) ==> |m0[r]| == |types|
    ensures |m| == |m0|
    ensures forall r :: 0 <= r < |m| && !(start <= r < start + ChunkSize(chunk)) ==> m[r] == m0[r]
    ensures forall r :: start <= r < start + ChunkSize(chunk) ==> m[r] == ChunkRows(chunk, types)[r - start]
  {
    var cc := |types|;
    var size := ChunkSize(chunk);
    m := m0;
    var columnId := 0;
    while columnId < cc
      invariant 0 <= columnId <= cc && |m| == |m0|
      invariant forall r :: 0 <= r < |m| && !(start <= r < start + size) ==> m[r] == m0[r]
      invariant forall r :: start <= r < start + size ==> |m[r]| == cc
      invariant forall r, col :: start <= r < start + size && 0 <= col < columnId ==>
        m[r][col] == chunk.columns[col][r - start]
      invariant forall r, col :: start <= r < start + size && columnId <= col < cc ==> m[r][col] == m0[r][col]
    {
      var column := chunk.columns[columnId];
      var chunkOffset := 0;
      while chunkOffset < size
        invariant 0 <= chunkOffset <= size && |m| == |m0|
        invariant forall r :: 0 <= r < |m| && !(start <= r < start + size) ==> m[r] == m0[r]
        invariant forall r :: start <= r < start + size ==> |m[r]| == cc
        invariant forall r, col :: start <= r < start + size && 0 <= col < columnId ==>
          m[r][col] == chunk.columns[col][r - start]
        invariant forall r :: start <= r < start + chunkOffset ==> m[r][columnId] == column[r - start]
        invariant forall r, col :: start <= r < start + size && columnId < col < cc ==> m[r][col] == m0[r][col]
      {
        var r := start + chunkOffset;
        m := m[r := m[r][columnId := column[chunkOffset]]];
        chunkOffset := chunkOffset + 1;
      }
      columnId := columnId + 1;
    }
    var rows := ChunkRows(chunk, types);
    forall r | start <= r < start + size
      ensures m[r] == rows[r - start]
    {
    }
  }

  // ---------------------------------------------------------------------
  // Comparing two tables: check_table_equal
  // ---------------------------------------------------------------------

  datatype OrderSensitivity = Yes | No

  datatype TypeCmpMode = Strict | Lenient

  /**
   * The type a column is compared under: Lenient mode does not tell Double
   * from Float nor Long from Int, and Strict mode keeps every type.
   */
  function NormalizeType(mode: TypeCmpMode, t: DataType): (n: DataType)
    ensures mode == Strict ==> n == t
    ensures mode == Lenient ==> n != Double && n != Long
    ensures n == t || (t == Double && n == Float) || (t == Long && n == Int)
  {
    if mode == Lenient && t == Double then Float
    else if mode == Lenient && t == Long then Int
    else t
  }

  /** Strict mode compares the raw types; Lenient mode compares the families {Int, Long}, {Float, Double} and {String}. */
  lemma NormalizeTypeFamilies(a: DataType, b: DataType)
    ensures NormalizeType(Strict, a) == NormalizeType(Strict, b) <==> a == b
    ensures NormalizeType(Lenient, a) == NormalizeType(Lenient, b) <==>
      (a == b || ({a, b} <= {Int, Long}) || ({a, b} <= {Float, Double}))
    ensures NormalizeType(Lenient, NormalizeType(Lenient, a)) == NormalizeType(Lenient, a)
    ensures NormalizeType(Lenient, a) != Double && NormalizeType(Lenient, a) != Long
  {
  }

  /** The integer a cell holds, for the int64 cast of Lenient mode (0 for cells that hold none). */
  function IntegerValue(c: Cell): int
  {
    match c
    case IntCell(i) => i
    case LongCell(l) => l
    case _ => 0
  }

  /**
   * One cell pair of the comparison, under the actual table's column type:
   * a null matches only a null; Float and Double cells go to the float
   * comparison `almostEquals`; in Lenient mode Int and Long cells compare
   * their integers; all other cells must be equal values of the same type.
   */
  predicate CellMatches(colType: DataType, mode: TypeCmpMode, almostEquals: (DataType, Cell, Cell) -> bool, l: Cell, r: Cell): (m: bool)
    ensures l.NullCell? || r.NullCell? ==> (m <==> l == NullCell && r == NullCell)
    ensures mode == Strict && colType != Float && colType != Double ==> (m <==> l == r)
    ensures colType == Float || colType == Double ==> l != NullCell && r != NullCell ==> (m <==> almostEquals(colType, l, r))
  {
    if l.NullCell? || r.NullCell? then l.NullCell? && r.NullCell?
    else if colType == Float then almostEquals(Float, l, r)
    else if colType == Double then almostEquals(Double, l, r)
    else if mode == Lenient && (colType == Int || colType == Long) then IntegerValue(l) == IntegerValue(r)
    else l == r
  }

  /** The null rule: a pair with a null side matches exactly when both sides are null. */
  lemma NullCellRule(colType: DataType, mode: TypeCmpMode, almostEquals: (DataType, Cell, Cell) -> bool, l: Cell, r: Cell)
    requires l.NullCell? || r.NullCell?
    ensures CellMatches(colType, mode, almostEquals, l, r) <==> l == NullCell && r == NullCell
  {
  }

  /** Outside Float and Double columns, Strict mode demands equal cells, and Lenient mode equal integers in Int and Long columns. */
  lemma ExactCells(colType: DataType, mode: TypeCmpMode, almostEquals: (DataType, Cell, Cell) -> bool, l: Cell, r: Cell)
    requires colType != Float && colType != Double
    requires CellFits(l, colType) && l != NullCell && r != NullCell
    ensures mode == Strict ==> (CellMatches(colType, mode, almostEquals, l, r) <==> l == r)
    ensures mode == Lenient && (colType == Int || colType == Long) && (r.IntCell? || r.LongCell?) ==>
      (CellMatches(colType, mode, almostEquals, l, r) <==> IntegerValue(l) == IntegerValue(r))
    ensures mode == Lenient && colType == String ==> (CellMatches(colType, mode, almostEquals, l, r) <==> l == r)
  {
  }

  /** `std::sort` on the data rows is left abstract: any function that returns a permutation of its input. */
  ghost predicate Permutes(sortRows: seq<Row> -> seq<Row>)
  {
    forall rows :: multiset(sortRows(rows)) == multiset(rows)
  }

  /** The data rows as they are compared: sorted when the order does not matter. */
  function Arrange(order: OrderSensitivity, sortRows: seq<Row> -> seq<Row>, rows: seq<Row>): seq<Row>
  {
    if order == No then sortRows(rows) else rows
  }

  /** Sorting keeps the number of rows and the width of every row. */
  lemma ArrangeShape(order: OrderSensitivity, sortRows: seq<Row> -> seq<Row>, rows: seq<Row>, width: nat)
    requires Permutes(sortRows)
    requires forall r :: 0 <= r < |rows| ==> |rows[r]| == width
    ensures |Arrange(order, sortRows, rows)| == |rows|
    ensures forall r :: 0 <= r < |Arrange(order, sortRows, rows)| ==> |Arrange(order, sortRows, rows)[r]| == width
  {
    var arranged := Arrange(order, sortRows, rows);
    assert multiset(arranged) == multiset(rows);
    assert |arranged| == |multiset(arranged)|;
    forall r | 0 <= r < |arranged|
      ensures |arranged[r]| == width
    {
      assert arranged[r] in multiset(arranged);
      var k :| 0 <= k < |rows| && rows[k] == arranged[r];
    }
  }

  /** Column counts agree, and column by column the names are equal and the types agree under the mode. */
  predicate SchemasMatch(actual: Table, expected: Table, mode: TypeCmpMode)
    requires ValidTable(actual) && ValidTable(expected)
  {
    && |actual.columnNames| == |expected.columnNames|
    && forall col :: 0 <= col < |expected.columnNames| ==>
         && actual.columnNames[col] == expected.columnNames[col]
         && NormalizeType(mode, actual.columnTypes[col]) == NormalizeType(mode, expected.columnTypes[col])
  }

  /** Every cell of the actual rows matches the cell at the same place of the expected rows. */
  predicate CellsMatch(am: seq<Row>, em: seq<Row>, types: seq<DataType>, mode: TypeCmpMode, almostEquals: (DataType, Cell, Cell) -> bool)
    requires |am| == |em|
    requires forall r :: 0 <= r < |am| ==> |am[r]| == |types| && |em[r]| == |types|
  {
    forall r, col :: 0 <= r < |am| && 0 <= col < |types| ==> CellMatches(types[col], mode, almostEquals, am[r][col], em[r][col])
  }

  /**
   * When `check_table_equal` holds: the schemas match, the row counts are
   * equal, and the data rows, sorted on both sides when the order does not
   * matter, match cell by cell under the actual table's column types.
   */
  ghost predicate TablesEqual(actual: Table, expected: Table, order: OrderSensitivity, mode: TypeCmpMode,
                              almostEquals: (DataType, Cell, Cell) -> bool, sortRows: seq<Row> -> seq<Row>)
    requires ValidTable(actual) && ValidTable(expected) && Permutes(sortRows)
  {
    && SchemasMatch(actual, expected, mode)
    && RowCount(actual.chunks) == RowCount(expected.chunks)
    && var ar := Rows(actual.chunks, actual.columnTypes);
       var er := Rows(expected.chunks, expected.columnTypes);
       RowsShape(actual.chunks, actual.columnTypes);
       RowsShape(expected.chunks, expected.columnTypes);
       ArrangeShape(order, sortRows, ar, |actual.columnTypes|);
       ArrangeShape(order, sortRows, er, |actual.columnTypes|);
       CellsMatch(Arrange(order, sortRows, ar), Arrange(order, sortRows, er), actual.columnTypes, mode, almostEquals)
  }

  /**
   * `check_table_equal`: build both matrices, compare the column counts,
   * the column names and the (normalised) column types, then the row
   * counts; sort the data rows when the order does not matter, and finally
   * compare every cell.  The tables are equal exactly when TablesEqual
   * holds.
   */
  method CheckTableEqual(actual: Table, expected: Table, order: OrderSensitivity, mode: TypeCmpMode,
                         almostEquals: (DataType, Cell, Cell) -> bool, sortRows: seq<Row> -> seq<Row>)
    returns (equal: bool)
    requires ValidTable(actual) && ValidTable(expected) && Permutes(sortRows)
    ensures equal <==> TablesEqual(actual, expected, order, mode, almostEquals, sortRows)
  {
    var am := TableToMatrix(actual);
    var em := TableToMatrix(expected);

    if |actual.columnNames| != |expected.columnNames| {
      return false;
    }

    var columnId := 0;
    while columnId < |expected.columnNames|
      invariant 0 <= columnId <= |expected.columnNames|
      invariant forall col :: 0 <= col < columnId ==>
        && actual.columnNames[col] == expected.columnNames[col]
        && NormalizeType(mode, actual.columnTypes[col]) == NormalizeType(mode, expected.columnTypes[col])
    {
      var leftType := actual.columnTypes[columnId];
      var rightType := expected.columnTypes[columnId];
      if mode == Lenient {
        if leftType == Double {
          leftType := Float;
        } else if leftType == Long {
          leftType := Int;
        }
        if rightType == Double {
          rightType := Float;
        } else if rightType == Long {
          rightType := Int;
        }
      }
      if actual.columnNames[columnId] != expected.columnNames[columnId] {
        return false;
      }
      if leftType != rightType {
        return false;
      }
      columnId := columnId + 1;
    }

    if RowCount(actual.chunks) != RowCount(expected.chunks) {
      return false;
    }

    var ar, er := am[2..], em[2..];
    if order == No {
      am := am[..2] + sortRows(am[2..]);
      em := em[..2] + sortRows(em[2..]);
    }
    assert am[2..] == Arrange(order, sortRows, ar) && em[2..] == Arrange(order, sortRows, er);
    RowsShape(actual.chunks, actual.columnTypes);
    RowsShape(expected.chunks, expected.columnTypes);
    ArrangeShape(order, sortRows, ar, |actual.columnTypes|);
    ArrangeShape(order, sortRows, er, |actual.columnTypes|);
    var mismatched;
    equal, mismatched := CompareCells(am, em, actual.columnTypes, mode, almostEquals);
  }

  /**
   * The cell loop of `check_table_equal`: compare every data cell, note
   * each mismatch as (row, column) and report whether there was one.  The
   * list holds exactly the mismatched cells, in row-major order.
   */
  method CompareCells(am: Matrix, em: Matrix, types: seq<DataType>, mode: TypeCmpMode,
                      almostEquals: (DataType, Cell, Cell) -> bool)
    returns (equal: bool, mismatched: seq<(nat, nat)>)
    requires 2 <= |am| == |em|
    requires forall r :: 2 <= r < |am| ==> |am[r]| == |types| && |em[r]| == |types|
    ensures forall r, col :: (r, col) in mismatched <==>
      2 <= r < |am| && 0 <= col < |types| && !CellMatches(types[col], mode, almostEquals, am[r][col], em[r][col])
    ensures forall i, j :: 0 <= i < j < |mismatched| ==> RowMajorBefore(mismatched[i], mismatched[j])
    ensures equal <==> mismatched == []
    ensures equal <==> CellsMatch(am[2..], em[2..], types, mode, almostEquals)
  {
    var hasError := false;
    mismatched := [];
    var rowId := 2;
    while rowId < |am|
      invariant 2 <= rowId <= |am|
      invariant forall r, col :: (r, col) in mismatched <==>
        2 <= r < rowId && 0 <= col < |types| && !CellMatches(types[col], mode, almostEquals, am[r][col], em[r][col])
      invariant forall i, j :: 0 <= i < j < |mismatched| ==> RowMajorBefore(mismatched[i], mismatched[j])
      invariant forall i :: 0 <= i < |mismatched| ==> mismatched[i].0 < rowId
      invariant hasError <==> mismatched != []
    {
      var columnId := 0;
      while columnId < |am[rowId]|
        invariant 0 <= columnId <= |types|
        invariant forall r, col :: (r, col) in mismatched <==>
          ((2 <= r < rowId && 0 <= col < |types|) || (r == rowId && 0 <= col < columnId)) &&
          !CellMatches(types[col], mode, almostEquals, am[r][col], em[r][col])
        invariant forall i, j :: 0 <= i < j < |mismatched| ==> RowMajorBefore(mismatched[i], mismatched[j])
        invariant forall i :: 0 <= i < |mismatched| ==> RowMajorBefore(mismatched[i], (rowId, columnId))
        invariant hasError <==> mismatched != []
      {
        var l, r := am[rowId][columnId], em[rowId][columnId];
        var statement: bool;
        if l.NullCell? || r.NullCell? {
          statement := !(l.NullCell? && r.NullCell?);
        } else if types[columnId] == Float {
          statement := !almostEquals(Float, l, r);
        } else if types[columnId] == Double {
          statement := !almostEquals(Double, l, r);
        } else if mode == Lenient && (types[columnId] == Int || types[columnId] == Long) {
          statement := IntegerValue(l) != IntegerValue(r);
        } else {
          statement := l != r;
        }
        // highlight_if
        if statement {
          hasError := true;
          mismatched := mismatched + [(rowId, columnId)];
        }
        columnId := columnId + 1;
      }
      rowId := rowId + 1;
    }
    equal := !hasError;
    if !equal {
      var c := mismatched[0];
      assert c in mismatched;
    }
  }

  /** Cell `a` comes before cell `b` when read row by row. */
  predicate RowMajorBefore(a: (nat, nat), b: (nat, nat))
  {
    a.0 < b.0 || (a.0 == b.0 && a.1 < b.1)
  }

  /** A column-count or a row-count mismatch alone makes the tables unequal. */
  lemma CountMismatchFails(actual: Table, expected: Table, order: OrderSensitivity, mode: TypeCmpMode,
                           almostEquals: (DataType, Cell, Cell) -> bool, sortRows: seq<Row> -> seq<Row>)
    requires ValidTable(actual) && ValidTable(expected) && Permutes(sortRows)
    requires |actual.columnNames| != |expected.columnNames| || RowCount(actual.chunks) != RowCount(expected.chunks)
    ensures !TablesEqual(actual, expected, order, mode, almostEquals, sortRows)
  {
  }

  /** A table equals itself in every mode, provided the float comparison holds of equal cells. */
  lemma TablesEqualIsReflexive(t: Table, order: OrderSensitivity, mode: TypeCmpMode,
                               almostEquals: (DataType, Cell, Cell) -> bool, sortRows: seq<Row> -> seq<Row>)
    requires ValidTable(t) && Permutes(sortRows)
    requires forall colType, c :: almostEquals(colType, c, c)
    ensures TablesEqual(t, t, order, mode, almostEquals, sortRows)
  {
    var rows := Rows(t.chunks, t.columnTypes);
    RowsShape(t.chunks, t.columnTypes);
    ArrangeShape(order, sortRows, rows, |t.columnTypes|);
    var arranged := Arrange(order, sortRows, rows);
    forall r, col | 0 <= r < |arranged| && 0 <= col < |t.columnTypes|
      ensures CellMatches(t.columnTypes[col], mode, almostEquals, arranged[r][col], arranged[r][col])
    {
    }
  }

  /** Tables equal under Strict mode are equal under Lenient mode as well. */
  lemma StrictImpliesLenient(actual: Table, expected: Table, order: OrderSensitivity,
                             almostEquals: (DataType, Cell, Cell) -> bool, sortRows: seq<Row> -> seq<Row>)
    requires ValidTable(actual) && ValidTable(expected) && Permutes(sortRows)
    requires TablesEqual(actual, expected, order, Strict, almostEquals, sortRows)
    ensures TablesEqual(actual, expected, order, Lenient, almostEquals, sortRows)
  {
    var types := actual.columnTypes;
    var ar := Arrange(order, sortRows, Rows(actual.chunks, types));
    var er := Arrange(order, sortRows, Rows(expected.chunks, expected.columnTypes));
    RowsShape(actual.chunks, types);
    RowsShape(expected.chunks, expected.columnTypes);
    ArrangeShape(order, sortRows, Rows(actual.chunks, types), |types|);
    ArrangeShape(order, sortRows, Rows(expected.chunks, expected.columnTypes), |types|);
    forall r, col | 0 <= r < |ar| && 0 <= col < |types|
      ensures CellMatches(types[col], Lenient, almostEquals, ar[r][col], er[r][col])
    {
      assert CellMatches(types[col], Strict, almostEquals, ar[r][col], er[r][col]);
    }
  }

  /**
   * In Strict mode the comparison does not depend on which table is the
   * actual one, provided the float comparison is symmetric: the column
   * types are then equal on both sides.
   */
  lemma StrictIsSymmetric(a: Table, b: Table, order: OrderSensitivity,
                          almostEquals: (DataType, Cell, Cell) -> bool, sortRows: seq<Row> -> seq<Row>)
    requires ValidTable(a) && ValidTable(b) && Permutes(sortRows)
    requires forall colType, l, r :: almostEquals(colType, l, r) == almostEquals(colType, r, l)
    requires TablesEqual(a, b, order, Strict, almostEquals, sortRows)
    ensures TablesEqual(b, a, order, Strict, almostEquals, sortRows)
  {
    var ar := Arrange(order, sortRows, Rows(a.chunks, a.columnTypes));
    var br := Arrange(order, sortRows, Rows(b.chunks, b.columnTypes));
    RowsShape(a.chunks, a.columnTypes);
    RowsShape(b.chunks, b.columnTypes);
    ArrangeShape(order, sortRows, Rows(a.chunks, a.columnTypes), |a.columnTypes|);
    ArrangeShape(order, sortRows, Rows(b.chunks, b.columnTypes), |a.columnTypes|);
    assert a.columnTypes == b.columnTypes by {
      forall col | 0 <= col < |a.columnTypes|
        ensures a.columnTypes[col] == b.columnTypes[col]
      {
        assert NormalizeType(Strict, a.columnTypes[col]) == NormalizeType(Strict, b.columnTypes[col]);
      }
    }
    forall r, col | 0 <= r < |br| && 0 <= col < |b.columnTypes|
      ensures CellMatches(b.columnTypes[col], Strict, almostEquals, br[r][col], ar[r][col])
    {
      assert CellMatches(a.columnTypes[col], Strict, almostEquals, ar[r][col], br[r][col]);
    }
  }

  /**
   * When the order does not matter and the sort puts equal multisets of
   * rows in the same order (as sorting by a total order does), only which
   * rows the actual table holds counts, not their order.
   */
  lemma OrderInsensitiveIgnoresRowOrder(a1: Table, a2: Table, expected: Table, mode: TypeCmpMode,
                                        almostEquals: (DataType, Cell, Cell) -> bool, sortRows: seq<Row> -> seq<Row>)
    requires ValidTable(a1) && ValidTable(a2) && ValidTable(expected) && Permutes(sortRows)
    requires forall x, y :: multiset(x) == multiset(y) ==> sortRows(x) == sortRows(y)
    requires a1.columnNames == a2.columnNames && a1.columnTypes == a2.columnTypes
    requires multiset(Rows(a1.chunks, a1.columnTypes)) == multiset(Rows(a2.chunks, a2.columnTypes))
    ensures TablesEqual(a1, expected, No, mode, almostEquals, sortRows) <==> TablesEqual(a2, expected, No, mode, almostEquals, sortRows)
  {
    RowsShape(a1.chunks, a1.columnTypes);
    RowsShape(a2.chunks, a2.columnTypes);
    var r1, r2 := Rows(a1.chunks, a1.columnTypes), Rows(a2.chunks, a2.columnTypes);
    assert |r1| == |multiset(r1)| == |multiset(r2)| == |r2|;
    assert sortRows(r1) == sortRows(r2);
  }
}
