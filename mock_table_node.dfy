/**
 * MockTableNode: a leaf of the optimizer's abstract syntax tree that
 * stands for a table of which only statistics are known.  It names its
 * output columns "MockCol0", "MockCol1", ...; it has no input columns and
 * no children, and it refuses every question about named tables.
 */
module MockTable {
  import Decimal

  datatype Option<T> = None | Some(value: T)

  /** An operation that either returns a value or fails with a message (the source's `Fail`). */
  datatype Result<T> = Success(value: T) | Failure(message: string)

  /** ColumnID: a 16-bit unsigned column index. */
  type ColumnId = x: int | 0 <= x < 0x1_0000

  /** INVALID_COLUMN_ID: the largest ColumnID. */
  const InvalidColumnId: ColumnId := 0xFFFF

  const NotSupported: string := "Operation not supported on MockTableNodes"
  const NoChildren: string := "MockTableNode cannot have children."

  /** The name of the output column at index `i`. */
  function MockColumnName(i: nat): (s: string)
    ensures |s| > |"MockCol"| && s[..|"MockCol"|] == "MockCol"
    ensures forall k :: |"MockCol"| <= k < |s| ==> Decimal.IsDigit(s[k])
  {
    "MockCol" + Decimal.NatToString(i)
  }

  /** Generated names tell their columns apart: two are equal only for the same index. */
  lemma MockColumnNamesAreDistinct(i: nat, j: nat)
    ensures MockColumnName(i) == MockColumnName(j) <==> i == j
  {
    if MockColumnName(i) == MockColumnName(j) {
      var p := "MockCol";
      assert Decimal.NatToString(i) == MockColumnName(i)[|p|..];
      assert Decimal.NatToString(j) == MockColumnName(j)[|p|..];
      Decimal.NatToStringIsInjective(i, j);
    }
  }

  /** The fixed text a description starts with. */
  const DescriptionPrefix: string := "[MockTable] Name: '"

  class MockTableNode {
    const name: string
    /** The alias that the base class AbstractASTNode may set; MockTableNode only reads it. */
    var tableAlias: Option<string>
    const outputColumnNames: seq<string>
    const outputColumnIdToInputColumnId: seq<ColumnId>

    /** What the constructor establishes: generated names, and no input column for any of them. */
    predicate Valid() {
      && |outputColumnIdToInputColumnId| == |outputColumnNames|
      && (forall i :: 0 <= i < |outputColumnNames| ==> outputColumnNames[i] == MockColumnName(i))
      && (forall i :: 0 <= i < |outputColumnIdToInputColumnId| ==> outputColumnIdToInputColumnId[i] == InvalidColumnId)
    }

    /**
     * The constructor, given the number of column statistics of the
     * table statistics it is built from: one output column per statistic,
     * named "MockCol" followed by its index, each mapped to
     * INVALID_COLUMN_ID.
     */
    constructor (columnStatisticsCount: nat, name: string)
      ensures this.name == name && tableAlias == None
      ensures |outputColumnNames| == columnStatisticsCount
      ensures forall i :: 0 <= i < columnStatisticsCount ==> outputColumnNames[i] == MockColumnName(i)
      ensures |outputColumnIdToInputColumnId| == columnStatisticsCount
      ensures forall i :: 0 <= i < columnStatisticsCount ==> outputColumnIdToInputColumnId[i] == InvalidColumnId
      ensures Valid()
    {
      this.name := name;
      tableAlias := None;
      var names: seq<string> := [];
      var idx := 0;
      while idx < columnStatisticsCount
        invariant idx <= columnStatisticsCount && |names| == idx
        invariant forall i :: 0 <= i < idx ==> names[i] == MockColumnName(i)
      {
        names := names + [MockColumnName(idx)];
        idx := idx + 1;
      }
      outputColumnNames := names;
      // resizing the empty mapping to the output column count, filling with INVALID_COLUMN_ID
      outputColumnIdToInputColumnId := seq(|names|, _ => InvalidColumnId);
    }

    /** `find_column_id_by_named_column_reference`: not supported, always fails. */
    function FindColumnIdByNamedColumnReference(columnName: string, tableName: Option<string>): (r: Result<ColumnId>)
      ensures r.Failure? && r.message == NotSupported
    {
      Failure(NotSupported)
    }

    /** `knows_table`: not supported, always fails. */
    function KnowsTable(tableName: string): (r: Result<bool>)
      ensures r.Failure? && r.message == NotSupported
    {
      Failure(NotSupported)
    }

    /** `get_output_column_ids_for_table`: not supported, always fails. */
    function GetOutputColumnIdsForTable(tableName: string): (r: Result<seq<ColumnId>>)
      ensures r.Failure? && r.message == NotSupported
    {
      Failure(NotSupported)
    }

    /** `_on_child_changed`: a mock table has no children, so any change of child fails. */
    function OnChildChanged(): (r: Result<()>)
      ensures r.Failure? && r.message == NoChildren
    {
      Failure(NoChildren)
    }

    /**
     * `description`: the fixed prefix, the table name and a closing quote,
     * so the name can be read back from between them.
     */
    function Description(): (r: string)
      ensures |r| == |DescriptionPrefix| + |name| + 1
      ensures r[..|DescriptionPrefix|] == DescriptionPrefix
      ensures r[|DescriptionPrefix|..|r| - 1] == name
      ensures r[|r| - 1] == '\''
    {
      DescriptionPrefix + name + "'"
    }

    /** The table part of a verbose column name: the name, or "(name AS alias)" under an alias. */
    function Qualifier(): (q: string)
      reads this
    {
      match tableAlias
      case None => name
      case Some(alias) => "(" + name + " AS " + alias + ")"
    }

    /**
     * `get_verbose_column_name`: the column name qualified by the table
     * name, or by "(name AS alias)" when the node has an alias.  The index
     * is not checked, so it must be an output column.
     */
    function GetVerboseColumnName(columnId: ColumnId): (r: string)
      reads this
      requires columnId < |outputColumnNames|
      ensures tableAlias.None? ==> r == name + "." + outputColumnNames[columnId]
      ensures tableAlias.Some? ==> r == "(" + name + " AS " + tableAlias.value + ")." + outputColumnNames[columnId]
    {
      if tableAlias.Some? then
        "(" + name + " AS " + tableAlias.value + ")." + outputColumnNames[columnId]
      else
        name + "." + outputColumnNames[columnId]
    }
  }

  /** Two nodes with the same description have the same name. */
  lemma DescriptionDeterminesName(a: MockTableNode, b: MockTableNode)
    ensures a.Description() == b.Description() <==> a.name == b.name
  {
  }

  /**
   * The verbose column names of one node are pairwise different, and each
   * ends with "." and the column's own name.
   */
  lemma VerboseColumnNamesAreDistinct(node: MockTableNode, a: ColumnId, b: ColumnId)
    requires node.Valid()
    requires a < |node.outputColumnNames| && b < |node.outputColumnNames|
    ensures node.GetVerboseColumnName(a) == node.GetVerboseColumnName(b) <==> a == b
    ensures node.GetVerboseColumnName(a) == node.Qualifier() + "." + MockColumnName(a)
  {
    var q := node.Qualifier() + ".";
    VerboseNameSplits(node, a);
    VerboseNameSplits(node, b);
    if node.GetVerboseColumnName(a) == node.GetVerboseColumnName(b) {
      PrefixCancels(q, MockColumnName(a), MockColumnName(b));
      MockColumnNamesAreDistinct(a, b);
    }
  }

  /** A verbose column name is the qualifier, a dot and the column name. */
  lemma VerboseNameSplits(node: MockTableNode, c: ColumnId)
    requires node.Valid() && c < |node.outputColumnNames|
    ensures node.GetVerboseColumnName(c) == (node.Qualifier() + ".") + MockColumnName(c)
  {
    var col := MockColumnName(c);
    match node.tableAlias
    case None =>
    case Some(alias) =>
      var n := node.name;
      assert ")." + col == ")" + ("." + col);
      assert "(" + n + " AS " + alias + ")." + col == ("(" + n + " AS " + alias + ")" + ".") + col;
  }

  lemma PrefixCancels(q: string, x: string, y: string)
    requires q + x == q + y
    ensures x == y
  {
    assert x == (q + x)[|q|..];
    assert y == (q + y)[|q|..];
  }
}
