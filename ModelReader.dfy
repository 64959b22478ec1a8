/** Turning a model class's declared attributes into a table snapshot
    (sprout/update_db.py, `model_state`). Resolving the module and the class
    by name is outside the model: the attribute list `vars(cls)` yields, in
    declaration order, is the input. */
module ModelReader {
  import opened Wrappers
  import opened TypeMap
  import opened Snapshots

  /** A class attribute: an ORM field, a property, or any other value
      (a string, a list, a method), named by its Python class. */
  datatype Attr = Field(kind: FieldKind) | Property | Plain(className: string)

  type Declaration = (string, Attr)

  /** The type lookup failed on this attribute (a `KeyError` in the source). */
  datatype ModelError = UnsupportedType(attr: Attr)

  predicate IsPrivate(name: string) { |name| > 0 && name[0] == '_' }

  /** An attribute the type lookup maps to a column type. */
  predicate Mapped(a: Attr) { a.Field? && PgType(a.kind).Some? }

  /** What the source asks of an attribute to make it a column. */
  predicate Kept(d: Declaration) { !IsPrivate(d.0) && !d.1.Property? }

  /** The names that do not start with `_`, with their values. */
  function PublicAttrs(attrs: seq<Declaration>): (r: seq<Declaration>)
    ensures |r| <= |attrs|
  {
    if attrs == [] then []
    else PublicAttrs(attrs[..|attrs| - 1]) + (if IsPrivate(attrs[|attrs| - 1].0) then [] else [attrs[|attrs| - 1]])
  }

  /** The loop's work: drop the properties. */
  function Structural(pub: seq<Declaration>): (r: seq<Declaration>)
    ensures |r| <= |pub|
  {
    if pub == [] then []
    else Structural(pub[..|pub| - 1]) + (if pub[|pub| - 1].1.Property? then [] else [pub[|pub| - 1]])
  }

  /** The reference reading: the attributes a model contributes as columns,
      in declaration order. */
  function Columns(attrs: seq<Declaration>): (r: seq<Declaration>)
    ensures forall d :: d in r <==> d in attrs && Kept(d)
  {
    if attrs == [] then []
    else
      var init, last := attrs[..|attrs| - 1], attrs[|attrs| - 1];
      assert attrs == init + [last];
      Columns(init) + (if Kept(last) then [last] else [])
  }

  /** Each kept attribute occurs in `Columns` as often as it is declared. */
  lemma {:induction false} ColumnsCount(attrs: seq<Declaration>, d: Declaration)
    ensures multiset(Columns(attrs))[d] == if Kept(d) then multiset(attrs)[d] else 0
  {
    if attrs != [] {
      var init, last := attrs[..|attrs| - 1], attrs[|attrs| - 1];
      assert attrs == init + [last];
      ColumnsCount(init, d);
    }
  }

  /** Type lookup of one attribute's class. */
  function TypeOf(a: Attr): (r: Result<string, ModelError>)
    ensures r.Ok? <==> Mapped(a)
    ensures r.Ok? ==> r.value == PgType(a.kind).value
    ensures r.Err? ==> r.error == UnsupportedType(a)
  {
    match a
    case Field(k) => if k in PgTypeMap then Ok(PgTypeMap[k]) else Err(UnsupportedType(a))
    case _ => Err(UnsupportedType(a))
  }

  /** The lookup comprehension: the first attribute without a type aborts it. */
  function ColumnTypes(vals: seq<Attr>): (r: Result<seq<string>, ModelError>)
    ensures r.Ok? <==> forall i :: 0 <= i < |vals| ==> Mapped(vals[i])
    ensures r.Ok? ==> |r.value| == |vals| && forall i :: 0 <= i < |vals| ==> r.value[i] == PgType(vals[i].kind).value
    ensures r.Err? ==> exists j :: 0 <= j < |vals| && !Mapped(vals[j]) && r.error == UnsupportedType(vals[j])
                                 && forall i :: 0 <= i < j ==> Mapped(vals[i])
  {
    if vals == [] then Ok([])
    else
      match TypeOf(vals[0])
      case Err(e) => Err(e)
      case Ok(t) =>
        match ColumnTypes(vals[1..])
        case Err(e) =>
          ghost var j :| 0 <= j < |vals| - 1 && !Mapped(vals[1..][j]) && e == UnsupportedType(vals[1..][j])
                         && forall i :: 0 <= i < j ==> Mapped(vals[1..][i]);
          assert forall i :: 1 <= i < j + 1 ==> Mapped(vals[i]) by {
            forall i | 1 <= i < j + 1 ensures Mapped(vals[i]) { assert vals[i] == vals[1..][i - 1]; }
          }
          Err(e)
        case Ok(ts) =>
          assert forall i :: 1 <= i < |vals| ==> vals[i] == vals[1..][i - 1];
          Ok([t] + ts)
  }

  function Values(ds: seq<Declaration>): (r: seq<Attr>)
    ensures |r| == |ds| && forall i :: 0 <= i < |ds| ==> r[i] == ds[i].1
  {
    seq(|ds|, i requires 0 <= i < |ds| => ds[i].1)
  }

  function Zip(names: seq<string>, vals: seq<Attr>): (r: seq<Declaration>)
    requires |names| == |vals|
    ensures |r| == |names| && forall i :: 0 <= i < |names| ==> r[i] == (names[i], vals[i])
  {
    seq(|names|, i requires 0 <= i < |names| => (names[i], vals[i]))
  }

  /** The snapshot `model_state` returns, or the lookup failure it raises. */
  function ModelSnapshot(catalog: string, schema: string, table: string, attrs: seq<Declaration>): Result<Snapshot, ModelError>
  {
    var kept := Structural(PublicAttrs(attrs));
    match ColumnTypes(Values(kept))
    case Err(e) => Err(e)
    case Ok(types) =>
      Ok(seq(|kept|, k requires 0 <= k < |kept| => Column(catalog, schema, table, kept[k].0, types[k])))
  }

  /** `model_state`: filter the names, collect the non-property attributes
      in a loop, look their types up and build one row per attribute. */
  method ModelState(catalog: string, schema: string, table: string, attrs: seq<Declaration>)
    returns (r: Result<Snapshot, ModelError>)
    ensures r == ModelSnapshot(catalog, schema, table, attrs)
  {
    var pub := PublicAttrs(attrs);
    var flds: seq<string> := [];
    var typs: seq<Attr> := [];
    var i := 0;
    while i < |pub|
      invariant 0 <= i <= |pub|
      invariant |flds| == |typs|
      invariant Zip(flds, typs) == Structural(pub[..i])
    {
      var (name, field) := pub[i];
      assert pub[..i + 1][..i] == pub[..i];
      if !field.Property? {
        assert Zip(flds + [name], typs + [field]) == Zip(flds, typs) + [(name, field)];
        flds := flds + [name];
        typs := typs + [field];
      }
      i := i + 1;
    }
    assert pub[..|pub|] == pub;
    ghost var kept := Structural(pub);
    assert forall k :: 0 <= k < |kept| ==> kept[k] == (flds[k], typs[k]);
    assert Values(kept) == typs;
    match ColumnTypes(typs)
    case Err(e) =>
      r := Err(e);
    case Ok(types) =>
      var rows := seq(|flds|, k requires 0 <= k < |flds| && k < |types| => Column(catalog, schema, table, flds[k], types[k]));
      ghost var spec := seq(|kept|, k requires 0 <= k < |kept| => Column(catalog, schema, table, kept[k].0, types[k]));
      assert |rows| == |spec|;
      assert forall k :: 0 <= k < |rows| ==> rows[k] == spec[k];
      assert rows == spec;
      assert ModelSnapshot(catalog, schema, table, attrs) == Ok(spec);
      r := Ok(rows);
  }

  /** Dropping private names and then properties is the one-pass reading `Columns`. */
  lemma {:induction false} StructuralIsColumns(attrs: seq<Declaration>)
    ensures Structural(PublicAttrs(attrs)) == Columns(attrs)
  {
    if attrs != [] {
      var init, last := attrs[..|attrs| - 1], attrs[|attrs| - 1];
      StructuralIsColumns(init);
      StructuralAppend(PublicAttrs(init), if IsPrivate(last.0) then [] else [last]);
    }
  }

  lemma {:induction false} StructuralAppend(a: seq<Declaration>, b: seq<Declaration>)
    requires |b| <= 1
    ensures Structural(a + b) == Structural(a) + Structural(b)
  {
    if b == [] {
      assert a + b == a;
    } else {
      assert (a + b)[..|a + b| - 1] == a;
      assert b[..0] == [];
    }
  }

  /** `model_state` succeeds exactly when every kept attribute has a type. */
  lemma ModelSnapshotSucceeds(catalog: string, schema: string, table: string, attrs: seq<Declaration>)
    ensures ModelSnapshot(catalog, schema, table, attrs).Ok?
        <==> forall d :: d in Columns(attrs) ==> Mapped(d.1)
  {
    StructuralIsColumns(attrs);
    var kept := Structural(PublicAttrs(attrs));
    var vals := Values(kept);
    assert ModelSnapshot(catalog, schema, table, attrs).Ok? <==> ColumnTypes(vals).Ok?;
    if forall d :: d in kept ==> Mapped(d.1) {
      forall i | 0 <= i < |vals| ensures Mapped(vals[i]) {
        assert kept[i] in kept;
      }
    }
    if forall i :: 0 <= i < |vals| ==> Mapped(vals[i]) {
      forall d | d in kept ensures Mapped(d.1) {
        var k :| 0 <= k < |kept| && kept[k] == d;
        assert vals[k] == d.1;
      }
    }
  }

  /** On success there is one row per kept attribute, in declaration order,
      each carrying the given catalog, schema and table and the mapped type. */
  lemma ModelSnapshotRows(catalog: string, schema: string, table: string, attrs: seq<Declaration>)
    requires ModelSnapshot(catalog, schema, table, attrs).Ok?
    ensures |ModelSnapshot(catalog, schema, table, attrs).value| == |Columns(attrs)|
    ensures forall k :: 0 <= k < |Columns(attrs)| ==> (Mapped(Columns(attrs)[k].1) &&
      ModelSnapshot(catalog, schema, table, attrs).value[k]
        == Column(catalog, schema, table, Columns(attrs)[k].0, PgType(Columns(attrs)[k].1.kind).value))
  {
    StructuralIsColumns(attrs);
  }

  /** On failure the error names the first kept attribute without a type. */
  lemma ModelSnapshotError(catalog: string, schema: string, table: string, attrs: seq<Declaration>)
    requires ModelSnapshot(catalog, schema, table, attrs).Err?
    ensures exists j :: (0 <= j < |Columns(attrs)| && !Mapped(Columns(attrs)[j].1)
      && ModelSnapshot(catalog, schema, table, attrs).error == UnsupportedType(Columns(attrs)[j].1)
      && forall i :: 0 <= i < j ==> Mapped(Columns(attrs)[i].1))
  {
    StructuralIsColumns(attrs);
  }

  /** The error names the attribute at `j` when `j` is the first kept attribute without a type. */
  lemma FirstUnmapped(catalog: string, schema: string, table: string, attrs: seq<Declaration>, j: nat)
    requires j < |Columns(attrs)| && !Mapped(Columns(attrs)[j].1)
    requires forall i :: 0 <= i < j ==> Mapped(Columns(attrs)[i].1)
    ensures ModelSnapshot(catalog, schema, table, attrs) == Err(UnsupportedType(Columns(attrs)[j].1))
  {
    var cols := Columns(attrs);
    assert cols[j] in cols;
    ModelSnapshotSucceeds(catalog, schema, table, attrs);
    ModelSnapshotError(catalog, schema, table, attrs);
    var j' :| 0 <= j' < |cols| && !Mapped(cols[j'].1)
              && ModelSnapshot(catalog, schema, table, attrs).error == UnsupportedType(cols[j'].1)
              && forall i :: 0 <= i < j' ==> Mapped(cols[i].1);
    assert j' >= j;
    assert j' <= j;
  }

  /** A list whose every attribute is kept is its own column list. */
  lemma {:induction false} ColumnsAllKept(attrs: seq<Declaration>)
    requires forall i :: 0 <= i < |attrs| ==> Kept(attrs[i])
    ensures Columns(attrs) == attrs
  {
    if attrs != [] {
      var init, last := attrs[..|attrs| - 1], attrs[|attrs| - 1];
      forall i | 0 <= i < |init| ensures Kept(init[i]) {
        assert init[i] == attrs[i];
      }
      ColumnsAllKept(init);
      assert Kept(last);
      assert attrs == init + [last];
    }
  }

  /** sprout/orm/user/salt.py read as its two fields gives `id integer, salt text`. */
  lemma SaltFields(attrs: seq<Declaration>)
    requires attrs == [("id", Field(IntField)), ("salt", Field(TextField))]
    ensures ModelSnapshot("sprout", "user", "salt", attrs)
         == Ok([Column("sprout", "user", "salt", "id", "integer"), Column("sprout", "user", "salt", "salt", "text")])
  {
    assert forall i :: 0 <= i < |attrs| ==> Kept(attrs[i]);
    ColumnsAllKept(attrs);
    TypeMapEntries();
    assert forall d :: d in attrs ==> Mapped(d.1);
    ModelSnapshotSucceeds("sprout", "user", "salt", attrs);
    ModelSnapshotRows("sprout", "user", "salt", attrs);
    var rows := ModelSnapshot("sprout", "user", "salt", attrs).value;
    assert rows[0] == Column("sprout", "user", "salt", "id", "integer");
    assert rows[1] == Column("sprout", "user", "salt", "salt", "text");
    assert rows == [Column("sprout", "user", "salt", "id", "integer"), Column("sprout", "user", "salt", "salt", "text")];
  }

  /** The whole class body of salt.py also holds `pk = 'id'` and `ui = []`:
      plain values that are not properties, so the lookup fails on `pk`'s class. */
  lemma SaltClassBody(attrs: seq<Declaration>)
    requires attrs == [("pk", Plain("str")), ("ui", Plain("list")), ("id", Field(IntField)),
                       ("salt", Field(TextField)), ("__str__", Plain("function"))]
    ensures ModelSnapshot("sprout", "user", "salt", attrs) == Err(UnsupportedType(Plain("str")))
  {
    var init := attrs[..4];
    assert Columns(attrs) == init by {
      assert forall i :: 0 <= i < |init| ==> Kept(init[i]);
      ColumnsAllKept(init);
      assert attrs[..|attrs| - 1] == init;
    }
    FirstUnmapped("sprout", "user", "salt", attrs, 0);
  }

  /** The six fields of sprout/orm/user/user.py include a foreign key, which has no type: the read fails. */
  lemma UserForeignKey(attrs: seq<Declaration>)
    requires attrs == [("id", Field(IntField)), ("name", Field(TextField)), ("pw", Field(TextField)),
                       ("salt", Field(ForeignKeyField)), ("contact", Field(TextField)), ("profile", Field(TextField))]
    ensures ModelSnapshot("sprout", "user", "user", attrs) == Err(UnsupportedType(Field(ForeignKeyField)))
  {
    assert Columns(attrs) == attrs by {
      assert forall i :: 0 <= i < |attrs| ==> Kept(attrs[i]);
      ColumnsAllKept(attrs);
    }
    assert Mapped(attrs[0].1) && Mapped(attrs[1].1) && Mapped(attrs[2].1) && !Mapped(attrs[3].1);
    FirstUnmapped("sprout", "user", "user", attrs, 3);
  }

  /** The whole class body of user.py also starts with `pk = 'id'`, so the
      lookup fails on `pk`'s class before it reaches the foreign key. */
  lemma UserClassBody(attrs: seq<Declaration>)
    requires attrs == [("pk", Plain("str")), ("ui", Plain("list")), ("id", Field(IntField)),
                       ("name", Field(TextField)), ("pw", Field(TextField)), ("salt", Field(ForeignKeyField)),
                       ("contact", Field(TextField)), ("profile", Field(TextField)), ("__str__", Plain("function"))]
    ensures ModelSnapshot("sprout", "user", "user", attrs) == Err(UnsupportedType(Plain("str")))
  {
    var init := attrs[..8];
    assert Columns(attrs) == init by {
      assert forall i :: 0 <= i < |init| ==> Kept(init[i]);
      ColumnsAllKept(init);
      assert attrs[..|attrs| - 1] == init;
    }
    FirstUnmapped("sprout", "user", "user", attrs, 0);
  }
}
