/**
 * EndpointsTable: the rows the table shows, one per parsed operation, and
 * what each cell of the six columns holds.
 */
module EndpointsTable {
  import opened Wrappers
  import opened JavaString
  import opened Model

  /** What getValueAt() returns: a String or a Boolean. */
  datatype Cell = Text(text: string) | Flag(flag: bool)

  /** What getColumnClass() returns. */
  datatype ColumnClass = StringClass | BooleanClass

  const ColumnNames: seq<string> := ["Method", "Path", "OperationId", "Summary", "Content-Type", "Has Body"]

  /** A null string renders as the empty string. */
  function Safe(s: Option<string>): string {
    if s.Some? then s.value else ""
  }

  /** The "Has Body" column: a body template that is present and not blank. */
  predicate HasBody(r: EndpointRow) {
    r.bodyTemplate.Some? && !IsBlank(r.bodyTemplate.value)
  }

  /** The cell of one row in column `column`; unknown columns are empty. */
  function CellOf(r: EndpointRow, column: int): Cell {
    match column
    case 0 => Text(r.httpMethod)
    case 1 => Text(r.path)
    case 2 => Text(Safe(r.operationId))
    case 3 => Text(Safe(r.summary))
    case 4 => Text(Safe(r.contentType))
    case 5 => Flag(HasBody(r))
    case _ => Text("")
  }

  /** getColumnClass(): Boolean for "Has Body", String for every other index. */
  function GetColumnClass(column: int): (c: ColumnClass)
    ensures c == BooleanClass <==> column == 5
  {
    if column == 5 then BooleanClass else StringClass
  }

  /** getColumnName(): COLS[column], which throws for an index outside the six columns. */
  function GetColumnName(column: int): (name: string)
    requires 0 <= column < |ColumnNames|
    ensures name == "Has Body" <==> column == 5
    ensures column < 5 ==> GetColumnClass(column) == StringClass
  {
    ColumnNames[column]
  }

  /** EndpointsTableModel: the list of rows, replaced wholesale by setData(). */
  class EndpointsTableModel {
    var data: seq<EndpointRow>

    constructor ()
      ensures data == []
    {
      data := [];
    }

    /** setData(): the old rows are cleared, then the new ones (none for null) added in order. */
    method SetData(rows: Option<seq<EndpointRow>>)
      modifies this
      ensures data == if rows.Some? then rows.value else []
    {
      data := [];
      if rows.Some? {
        data := data + rows.value;
      }
    }

    /** getAt(): the row at `row`, or null outside the list. */
    function GetAt(row: int): (r: Option<EndpointRow>)
      reads this
      ensures r.Some? <==> 0 <= row < |data|
      ensures r.Some? ==> r.value == data[row]
    {
      if row < 0 || row >= |data| then None else Some(data[row])
    }

    /** getAll(): a copy of all rows; being a value, a later setData() leaves it as it was. */
    method GetAll() returns (snapshot: seq<EndpointRow>)
      ensures snapshot == data
      ensures forall i :: 0 <= i < |snapshot| ==> GetAt(i) == Some(snapshot[i])
    {
      snapshot := data;
    }

    function GetRowCount(): (n: nat)
      reads this
      ensures forall i :: 0 <= i < n ==> GetAt(i).Some?
      ensures GetAt(n) == None
    {
      |data|
    }

    function GetColumnCount(): (n: nat)
      ensures n == 6 && n == |ColumnNames|
    {
      |ColumnNames|
    }

    /** getValueAt(): the cell, or "" for a row outside the list or an unknown column. */
    function GetValueAt(row: int, column: int): (v: Cell)
      reads this
      ensures GetAt(row).None? ==> v == Text("")
      ensures GetAt(row).Some? ==> v == CellOf(GetAt(row).value, column)
    {
      var r := GetAt(row);
      if r.None? then Text("") else CellOf(r.value, column)
    }

    /** Every cell of a present row has the class getColumnClass() reports, and unknown columns are "". */
    lemma ValueMatchesColumnClass(row: int, column: int)
      requires 0 <= row < GetRowCount()
      ensures GetValueAt(row, column).Flag? <==> GetColumnClass(column) == BooleanClass
      ensures !(0 <= column < GetColumnCount()) ==> GetValueAt(row, column) == Text("")
    {
    }

    /** The "Has Body" cell is true exactly when the row's template is present and holds a non-whitespace char. */
    lemma HasBodyColumn(row: int)
      requires 0 <= row < GetRowCount()
      ensures GetValueAt(row, 5) == Flag(true) <==>
        data[row].bodyTemplate.Some? &&
        exists i :: 0 <= i < |data[row].bodyTemplate.value| && !IsWhitespace(data[row].bodyTemplate.value[i])
    {
    }

    /** A null string field of a present row renders as "", a present one as itself. */
    lemma NullFieldsRenderEmpty(row: int)
      requires 0 <= row < GetRowCount()
      ensures GetValueAt(row, 2) == Text(if data[row].operationId.Some? then data[row].operationId.value else "")
      ensures GetValueAt(row, 3) == Text(if data[row].summary.Some? then data[row].summary.value else "")
      ensures GetValueAt(row, 4) == Text(if data[row].contentType.Some? then data[row].contentType.value else "")
    {
    }
  }
}
