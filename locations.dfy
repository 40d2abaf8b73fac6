/**
 * Query and location values, and the flat list model that accumulates
 * query results (kscope/core/locationlistmodel.h).
 */
module Locations {
  import opened Common

  /** The kinds of search a query can request. */
  datatype QueryKind =
    | Text | References | Definition | CalledFunctions | CallingFunctions
    | FindFile | IncludingFiles | CallGraph

  /** A search request: a kind and a pattern. */
  datatype Query = Query(kind: QueryKind, pattern: string)

  /**
   * A point in the source with its descriptive fields.
   * Line and column are 1-based, 0 meaning "unspecified".
   */
  datatype Location = Location(
    file: string, line: nat, column: nat, tag: string, scope: string, text: string)

  /** The column kinds of the list model, each naming one Location field. */
  datatype Columns = File | Line | Column | Tag | Scope | Text

  /** What a cell shows: a string field or a numeric field. */
  datatype FieldValue = StringField(s: string) | NumberField(n: nat)

  /** A model index as a view hands it to the model. */
  datatype ModelIndex = Invalid | Index(row: int, column: int)

  /** The Location field that a column exposes. */
  function ColumnValue(loc: Location, c: Columns): FieldValue
  {
    match c
    case File => StringField(loc.file)
    case Line => NumberField(loc.line)
    case Column => NumberField(loc.column)
    case Tag => StringField(loc.tag)
    case Scope => StringField(loc.scope)
    case Text => StringField(loc.text)
  }

  /** Replaces the field that column `c` exposes. */
  function WithColumnValue(loc: Location, c: Columns, v: FieldValue): Location
  {
    match (c, v)
    case (File, StringField(s)) => loc.(file := s)
    case (Line, NumberField(n)) => loc.(line := n)
    case (Column, NumberField(n)) => loc.(column := n)
    case (Tag, StringField(s)) => loc.(tag := s)
    case (Scope, StringField(s)) => loc.(scope := s)
    case (Text, StringField(s)) => loc.(text := s)
    case _ => loc
  }

  /** The kind of value a column holds. */
  predicate FitsColumn(c: Columns, v: FieldValue)
  {
    if c == Line || c == Column then v.NumberField? else v.StringField?
  }

  /**
   * Each column kind names exactly one field: changing the field behind `c`
   * shows up in column `c` and in no other column.
   */
  lemma ColumnNamesOneField(loc: Location, c: Columns, v: FieldValue, other: Columns)
    requires FitsColumn(c, v)
    ensures ColumnValue(WithColumnValue(loc, c, v), c) == v
    ensures other != c ==> ColumnValue(WithColumnValue(loc, c, v), other) == ColumnValue(loc, other)
  {
  }

  /**
   * The flat result list. The column list is copied at construction and is a
   * constant afterwards: no member can change which fields are exposed or
   * their order.
   */
  class LocationListModel {
    const colList: seq<Columns>
    var locList: seq<Location>

    constructor (columns: seq<Columns>)
      ensures colList == columns && locList == []
    {
      colList := columns;
      locList := [];
    }

    /** Appends a whole batch, in arrival order. */
    method Add(batch: seq<Location>)
      modifies this
      ensures locList == old(locList) + batch
    {
      locList := locList + batch;
    }

    /** Empties the results. */
    method Clear()
      modifies this
      ensures locList == []
    {
      locList := [];
    }

    /** The number of result rows below the (invalid) root index. */
    method RowCount() returns (n: nat)
      ensures n == |locList|
    {
      n := |locList|;
    }

    /** The number of columns is the length of the fixed projection. */
    method ColumnCount() returns (n: nat)
      ensures n == |colList|
    {
      n := |colList|;
    }

    /** Reports success and, on success, the first result. */
    method FirstLocation() returns (ok: bool, loc: Location)
      ensures ok <==> locList != []
      ensures ok ==> loc == locList[0]
    {
      ok := locList != [];
      if ok {
        loc := locList[0];
      } else {
        loc := Location("", 0, 0, "", "", "");
      }
    }

    /** Reports success and, on success, the result in the index's row. */
    method LocationFromIndex(index: ModelIndex) returns (ok: bool, loc: Location)
      ensures ok <==> index.Index? && 0 <= index.row < |locList|
      ensures ok ==> loc == locList[index.row]
    {
      ok := index.Index? && 0 <= index.row < |locList|;
      if ok {
        loc := locList[index.row];
      } else {
        loc := Location("", 0, 0, "", "", "");
      }
    }

    /**
     * The cell shown at an index: the field that the index's column projects,
     * of the location in the index's row; nothing out of range.
     */
    method Data(index: ModelIndex) returns (cell: Option<FieldValue>)
      ensures cell.Some? <==>
        index.Index? && 0 <= index.row < |locList| && 0 <= index.column < |colList|
      ensures cell.Some? ==> cell.value == ColumnValue(locList[index.row], colList[index.column])
    {
      if index.Index? && 0 <= index.row < |locList| && 0 <= index.column < |colList| {
        cell := Some(ColumnValue(locList[index.row], colList[index.column]));
      } else {
        cell := None;
      }
    }
  }
}
