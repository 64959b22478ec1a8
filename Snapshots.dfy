/** One table's structure as a list of catalog rows: the shape both the
    database catalog query and the model reader produce
    (columns `table_catalog, table_schema, table_name, column_name, data_type`).
    The differ joins the two snapshots on all five columns, the data type
    included, so a row is its own join key. */
module Snapshots {

  datatype Column = Column(catalog: string, schema: string, table: string, name: string, dataType: string)

  /** Rows in catalog order or in model declaration order. */
  type Snapshot = seq<Column>

  /** No column name occurs twice (the catalog guarantees it for a real table). */
  predicate UniqueNames(s: Snapshot)
  {
    forall i, j :: 0 <= i < j < |s| ==> s[i].name != s[j].name
  }
}
