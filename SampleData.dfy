/** The tabular result set shared by the sample view and the SQL tab: column
    names, the two counts, and rows of stringified cells. */
module SampleData {

  datatype ParquetSampleData = ParquetSampleData(
    flattenedColumns: seq<string>,
    totalColumns: nat,
    totalRows: nat,
    rows: seq<seq<string>>)
  {
    /** The shape every producer promises: the counts agree with the
        sequences and every row has one cell per column. */
    predicate Rectangular() {
      && totalColumns == |flattenedColumns|
      && totalRows == |rows|
      && forall r :: 0 <= r < |rows| ==> |rows[r]| == totalColumns
    }
  }
}
