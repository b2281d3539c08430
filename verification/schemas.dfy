/** The introspected database schema (the `schema_info` dictionary the
    database manager builds) and the result frames the query executor
    returns. */
module Schemas {
  import opened Common

  /** One entry of `schema_info['tables'][t]['columns']`; `typ` is `str(col['type'])`. */
  datatype Column = Column(name: string, typ: string, nullable: bool, primaryKey: bool)

  /** A foreign key. Every consumer reads only the first constrained and the
      first referred column, so the model keeps only those. */
  datatype ForeignKey = ForeignKey(column: string, referredTable: string, referredColumn: string)

  datatype TableInfo = TableInfo(columns: seq<Column>, primaryKey: seq<string>, foreignKeys: seq<ForeignKey>)

  datatype Relationship = Relationship(sourceTable: string, sourceColumn: string, targetTable: string, targetColumn: string)

  /** `schema_info`: tables in introspection order (a Python dict keeps
      insertion order) and the relationship list. */
  datatype Schema = Schema(tables: seq<(string, TableInfo)>, relationships: seq<Relationship>)

  /** Table names are dictionary keys, hence distinct. */
  predicate DistinctNames(s: Schema) {
    forall i, j :: 0 <= i < j < |s.tables| ==> s.tables[i].0 != s.tables[j].0
  }

  /** `list(schema_info['tables'].keys())`. */
  function Names(tables: seq<(string, TableInfo)>): (r: seq<string>)
    ensures |r| == |tables|
    ensures forall i :: 0 <= i < |tables| ==> r[i] == tables[i].0
  {
    seq(|tables|, i requires 0 <= i < |tables| => tables[i].0)
  }

  function NameSet(s: Schema): set<string> {
    set i | 0 <= i < |s.tables| :: s.tables[i].0
  }

  /** `schema_info['tables'].get(t)`: the first entry with that name. */
  function Lookup(tables: seq<(string, TableInfo)>, t: string): (r: Option<TableInfo>)
    ensures r.Some? <==> exists i :: 0 <= i < |tables| && tables[i].0 == t
    ensures r.Some? ==> exists i :: 0 <= i < |tables| && tables[i] == (t, r.value)
    decreases |tables|
  {
    if |tables| == 0 then None
    else if tables[0].0 == t then Some(tables[0].1)
    else
      var r := Lookup(tables[1..], t);
      if r.Some? then assert tables[1..][0] == tables[1]; r else r
  }

  /** In a valid schema the entry found for a name is that table's own entry. */
  lemma LookupValid(s: Schema, i: int)
    requires DistinctNames(s) && 0 <= i < |s.tables|
    ensures Lookup(s.tables, s.tables[i].0) == Some(s.tables[i].1)
  {
    var r := Lookup(s.tables, s.tables[i].0);
    var j :| 0 <= j < |s.tables| && s.tables[j] == (s.tables[i].0, r.value);
    assert j == i;
  }
}

/** Query results: a pandas DataFrame reduced to its column names, a
    numeric-dtype flag per column and the rows as the `str()` rendering of
    each cell. */
module Frames {

  datatype Frame = Frame(columns: seq<string>, numeric: seq<bool>, rows: seq<seq<string>>)

  /** Every row has one cell per column. */
  predicate Rectangular(f: Frame) {
    |f.numeric| == |f.columns| && forall i :: 0 <= i < |f.rows| ==> |f.rows[i]| == |f.columns|
  }

  /** `df.empty`: pandas calls a frame empty when either axis has length 0. */
  predicate Empty(f: Frame) {
    |f.rows| == 0 || |f.columns| == 0
  }

  /** The query executor's answer: a frame, or the error it raised. */
  datatype ExecResult = Rows(frame: Frame) | Failed(message: string)
}
