/** The fixed table from ORM field classes to PostgreSQL column type names
    that drives the model reader (sprout/update_db.py, `_pg_type_map`). */
module TypeMap {
  import opened Wrappers

  /** The field classes of the ORM. Only five of them have a type name;
      the others are commented out of the table in the source. */
  datatype FieldKind =
    | IntField | BigIntField | SmallIntField | CharField | TextField
    | BooleanField | DecimalField | DatetimeField | DateField | TimeDeltaField
    | FloatField | JSONField | UUIDField
    | ForeignKeyField | ManyToManyField | BackwardFKRelation

  /** The table itself, keyed by field class. */
  const PgTypeMap: map<FieldKind, string> := map[
    IntField := "integer",
    TextField := "text",
    BooleanField := "boolean",
    DecimalField := "numeric",
    FloatField := "double precision"
  ]

  /** Looking a field class up in the table: a class outside it is a
      lookup failure (a `KeyError` in the source), never a default type. */
  function PgType(k: FieldKind): (r: Option<string>)
    ensures r.Some? <==> k in {IntField, TextField, BooleanField, DecimalField, FloatField}
    ensures r.Some? ==> r.value != "" && r.value in PgTypeMap.Values
  {
    if k in PgTypeMap then Some(PgTypeMap[k]) else None
  }

  /** The reverse reading of the table: which field class a type name comes from. */
  function FieldKindOf(t: string): (r: Option<FieldKind>)
  {
    if t == "integer" then Some(IntField)
    else if t == "text" then Some(TextField)
    else if t == "boolean" then Some(BooleanField)
    else if t == "numeric" then Some(DecimalField)
    else if t == "double precision" then Some(FloatField)
    else None
  }

  /** The table is exactly these five entries. */
  lemma TypeMapEntries()
    ensures PgType(IntField) == Some("integer")
    ensures PgType(TextField) == Some("text")
    ensures PgType(BooleanField) == Some("boolean")
    ensures PgType(DecimalField) == Some("numeric")
    ensures PgType(FloatField) == Some("double precision")
    ensures PgType(ForeignKeyField) == None
    ensures |PgTypeMap| == 5
  {
    assert PgTypeMap.Keys == {IntField, TextField, BooleanField, DecimalField, FloatField};
  }

  /** No two field classes share a type name, so a column's type name
      determines the field class it was declared with. */
  lemma PgTypeInjective(k: FieldKind)
    ensures PgType(k).Some? ==> FieldKindOf(PgType(k).value) == Some(k)
  {
  }

  /** Every type name the reverse reading accepts is in the table. */
  lemma FieldKindOfSound(t: string)
    ensures FieldKindOf(t).Some? ==> PgType(FieldKindOf(t).value) == Some(t)
  {
  }
}
