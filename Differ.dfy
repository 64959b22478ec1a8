/** Comparing the catalog's snapshot of a table with the model's and
    writing the upgrade and downgrade SQL (sprout/update_db.py, `compare_state`).
    The two pandas merges are modelled as they run: a left merge and a right
    merge on the five key columns, each followed by the null test on the
    other side's `id` column. `Unmatched` is the reference reading they are
    proved equal to. */
module Differ {
  import opened Wrappers
  import opened Text
  import opened Snapshots

  /** A row of a merged frame: its key columns and the `id` of the model row
      (`id_mod`) and of the database row (`id_db`) it joins; `None` is pandas'
      missing value for a side without a match. */
  datatype MergedRow = MergedRow(col: Column, idMod: Option<int>, idDb: Option<int>)

  /** `range(n)` as a column. */
  function Range(n: nat): (r: seq<int>)
    ensures |r| == n && forall i :: 0 <= i < n ==> r[i] == i
  {
    seq(n, i requires 0 <= i < n => i)
  }

  /** The ids of the rows of `s` that join `k`, in the order of `s`. The join
      is on all five columns, so a row joins exactly the rows equal to it. */
  function MatchIds(k: Column, s: Snapshot, ids: seq<int>): (r: seq<int>)
    requires |ids| == |s|
    ensures |r| == multiset(s)[k]
    ensures r == [] <==> k !in s
  {
    if s == [] then []
    else
      assert s == [s[0]] + s[1..];
      (if s[0] == k then [ids[0]] else []) + MatchIds(k, s[1..], ids[1..])
  }

  /** `pd.merge(modstate, dbstate, how='left', on=key)`: every model row, once
      per matching database row, or once with no database id. */
  function LeftMerge(m: Snapshot, mIds: seq<int>, d: Snapshot, dIds: seq<int>): seq<MergedRow>
    requires |mIds| == |m| && |dIds| == |d|
  {
    if m == [] then []
    else
      var js := MatchIds(m[0], d, dIds);
      (if js == [] then [MergedRow(m[0], Some(mIds[0]), None)]
       else seq(|js|, k requires 0 <= k < |js| => MergedRow(m[0], Some(mIds[0]), Some(js[k]))))
      + LeftMerge(m[1..], mIds[1..], d, dIds)
  }

  /** `pd.merge(modstate, dbstate, how='right', on=key)`: every database row,
      once per matching model row, or once with no model id. */
  function RightMerge(m: Snapshot, mIds: seq<int>, d: Snapshot, dIds: seq<int>): seq<MergedRow>
    requires |mIds| == |m| && |dIds| == |d|
  {
    if d == [] then []
    else
      var js := MatchIds(d[0], m, mIds);
      (if js == [] then [MergedRow(d[0], None, Some(dIds[0]))]
       else seq(|js|, k requires 0 <= k < |js| => MergedRow(d[0], Some(js[k]), Some(dIds[0]))))
      + RightMerge(m, mIds, d[1..], dIds[1..])
  }

  /** `up[up['id_db'].isnull()]`, keeping the key columns. */
  function NullDb(rows: seq<MergedRow>): Snapshot
  {
    if rows == [] then [] else (if rows[0].idDb.None? then [rows[0].col] else []) + NullDb(rows[1..])
  }

  /** `dn[dn['id_mod'].isnull()]`, keeping the key columns. */
  function NullMod(rows: seq<MergedRow>): Snapshot
  {
    if rows == [] then [] else (if rows[0].idMod.None? then [rows[0].col] else []) + NullMod(rows[1..])
  }

  /** The columns to add: `new` in the source. */
  function Added(modstate: Snapshot, dbstate: Snapshot): Snapshot
  {
    NullDb(LeftMerge(modstate, Range(|modstate|), dbstate, Range(|dbstate|)))
  }

  /** The columns to drop: `old` in the source. */
  function Removed(modstate: Snapshot, dbstate: Snapshot): Snapshot
  {
    NullMod(RightMerge(modstate, Range(|modstate|), dbstate, Range(|dbstate|)))
  }

  /** The reference reading: the rows of `xs` that `ys` lacks, in the order of `xs`. */
  function Unmatched(xs: Snapshot, ys: Snapshot): (r: Snapshot)
    ensures forall c :: c in r <==> c in xs && c !in ys
    ensures |r| <= |xs|
  {
    if xs == [] then []
    else (if xs[0] in ys then [] else [xs[0]]) + Unmatched(xs[1..], ys)
  }

  lemma {:induction false} NullDbAppend(a: seq<MergedRow>, b: seq<MergedRow>)
    ensures NullDb(a + b) == NullDb(a) + NullDb(b)
  {
    if a == [] {
      assert a + b == b;
    } else {
      var h := if a[0].idDb.None? then [a[0].col] else [];
      assert (a + b)[0] == a[0] && (a + b)[1..] == a[1..] + b;
      assert NullDb(a + b) == h + NullDb(a[1..] + b);
      NullDbAppend(a[1..], b);
      assert h + (NullDb(a[1..]) + NullDb(b)) == (h + NullDb(a[1..])) + NullDb(b);
    }
  }

  lemma {:induction false} NullModAppend(a: seq<MergedRow>, b: seq<MergedRow>)
    ensures NullMod(a + b) == NullMod(a) + NullMod(b)
  {
    if a == [] {
      assert a + b == b;
    } else {
      var h := if a[0].idMod.None? then [a[0].col] else [];
      assert (a + b)[0] == a[0] && (a + b)[1..] == a[1..] + b;
      assert NullMod(a + b) == h + NullMod(a[1..] + b);
      NullModAppend(a[1..], b);
      assert h + (NullMod(a[1..]) + NullMod(b)) == (h + NullMod(a[1..])) + NullMod(b);
    }
  }

  lemma {:induction false} NullDbMatched(rows: seq<MergedRow>)
    requires forall i :: 0 <= i < |rows| ==> rows[i].idDb.Some?
    ensures NullDb(rows) == []
  {
    if rows != [] {
      NullDbMatched(rows[1..]);
    }
  }

  lemma {:induction false} NullModMatched(rows: seq<MergedRow>)
    requires forall i :: 0 <= i < |rows| ==> rows[i].idMod.Some?
    ensures NullMod(rows) == []
  {
    if rows != [] {
      NullModMatched(rows[1..]);
    }
  }

  /** The left merge followed by the null test keeps exactly the unmatched model rows. */
  lemma {:induction false} LeftMergeUnmatched(m: Snapshot, mIds: seq<int>, d: Snapshot, dIds: seq<int>)
    requires |mIds| == |m| && |dIds| == |d|
    ensures NullDb(LeftMerge(m, mIds, d, dIds)) == Unmatched(m, d)
  {
    if m != [] {
      var js := MatchIds(m[0], d, dIds);
      var block := if js == [] then [MergedRow(m[0], Some(mIds[0]), None)]
                   else seq(|js|, k requires 0 <= k < |js| => MergedRow(m[0], Some(mIds[0]), Some(js[k])));
      NullDbAppend(block, LeftMerge(m[1..], mIds[1..], d, dIds));
      LeftMergeUnmatched(m[1..], mIds[1..], d, dIds);
      if js != [] {
        NullDbMatched(block);
      }
    }
  }

  /** The right merge followed by the null test keeps exactly the unmatched database rows. */
  lemma {:induction false} RightMergeUnmatched(m: Snapshot, mIds: seq<int>, d: Snapshot, dIds: seq<int>)
    requires |mIds| == |m| && |dIds| == |d|
    ensures NullMod(RightMerge(m, mIds, d, dIds)) == Unmatched(d, m)
  {
    if d != [] {
      var js := MatchIds(d[0], m, mIds);
      var block := if js == [] then [MergedRow(d[0], None, Some(dIds[0]))]
                   else seq(|js|, k requires 0 <= k < |js| => MergedRow(d[0], Some(js[k]), Some(dIds[0])));
      NullModAppend(block, RightMerge(m, mIds, d[1..], dIds[1..]));
      RightMergeUnmatched(m, mIds, d[1..], dIds[1..]);
      if js != [] {
        NullModMatched(block);
      }
    }
  }

  /** Added columns are exactly the model rows the database lacks. */
  lemma AddedIsUnmatched(modstate: Snapshot, dbstate: Snapshot)
    ensures Added(modstate, dbstate) == Unmatched(modstate, dbstate)
  {
    LeftMergeUnmatched(modstate, Range(|modstate|), dbstate, Range(|dbstate|));
  }

  /** Removed columns are exactly the database rows the model lacks. */
  lemma RemovedIsUnmatched(modstate: Snapshot, dbstate: Snapshot)
    ensures Removed(modstate, dbstate) == Unmatched(dbstate, modstate)
  {
    RightMergeUnmatched(modstate, Range(|modstate|), dbstate, Range(|dbstate|));
  }

  /** Swapping the two snapshots swaps what is added and what is removed. */
  lemma SwapSides(modstate: Snapshot, dbstate: Snapshot)
    ensures Added(modstate, dbstate) == Removed(dbstate, modstate)
    ensures Removed(modstate, dbstate) == Added(dbstate, modstate)
  {
    AddedIsUnmatched(modstate, dbstate);
    RemovedIsUnmatched(dbstate, modstate);
    RemovedIsUnmatched(modstate, dbstate);
    AddedIsUnmatched(dbstate, modstate);
  }

  /** A snapshot all of whose rows the other side has leaves nothing unmatched. */
  lemma {:induction false} AllMatched(xs: Snapshot, ys: Snapshot)
    requires forall c :: c in xs ==> c in ys
    ensures Unmatched(xs, ys) == []
  {
    if xs != [] {
      AllMatched(xs[1..], ys);
    }
  }

  /** Comparing a snapshot with itself finds nothing to add or drop. */
  lemma NoDrift(s: Snapshot)
    ensures Added(s, s) == [] && Removed(s, s) == []
  {
    AddedIsUnmatched(s, s);
    RemovedIsUnmatched(s, s);
    AllMatched(s, s);
  }

  /** An unmatched row occurs in `Unmatched` as often as in `xs`. */
  lemma {:induction false} UnmatchedCount(xs: Snapshot, ys: Snapshot, c: Column)
    ensures multiset(Unmatched(xs, ys))[c] == if c in ys then 0 else multiset(xs)[c]
  {
    if xs != [] {
      assert xs == [xs[0]] + xs[1..];
      UnmatchedCount(xs[1..], ys, c);
    } else if c !in ys {
      assert multiset(xs)[c] == 0;
    }
  }

  /** In a snapshot without repeated names a row occurs once. */
  lemma {:induction false} UniqueOnce(s: Snapshot, c: Column)
    requires UniqueNames(s) && c in s
    ensures multiset(s)[c] == 1
  {
    assert s == [s[0]] + s[1..];
    if s[0] == c {
      forall j | 0 <= j < |s| - 1
        ensures s[1..][j] != c
      {
        assert s[0].name != s[j + 1].name;
      }
      assert c !in s[1..];
    } else {
      UniqueOnce(s[1..], c);
    }
  }

  /** With unique column names on both sides, every row of either snapshot
      is matched (in neither output), added once, or removed once. */
  lemma Coverage(modstate: Snapshot, dbstate: Snapshot, c: Column)
    requires UniqueNames(modstate) && UniqueNames(dbstate)
    ensures c in modstate ==>
      (c in dbstate && c !in Added(modstate, dbstate) && c !in Removed(modstate, dbstate)) ||
      (c !in dbstate && multiset(Added(modstate, dbstate))[c] == 1 && c !in Removed(modstate, dbstate))
    ensures c in dbstate ==>
      (c in modstate && c !in Added(modstate, dbstate) && c !in Removed(modstate, dbstate)) ||
      (c !in modstate && multiset(Removed(modstate, dbstate))[c] == 1 && c !in Added(modstate, dbstate))
  {
    AddedIsUnmatched(modstate, dbstate);
    RemovedIsUnmatched(modstate, dbstate);
    UnmatchedCount(modstate, dbstate, c);
    UnmatchedCount(dbstate, modstate, c);
    if c in modstate { UniqueOnce(modstate, c); }
    if c in dbstate { UniqueOnce(dbstate, c); }
  }

  /** `base_sql`: the f-string writes the schema and the table in verbatim. */
  function Base(schema: string, table: string): string
  {
    "alter table " + schema + "." + table
  }

  /** `upg_sql`, that is `{base_sql} add column {} {} default null;`, the
      literal cut where the two replacement fields start. */
  function AddTemplate(schema: string, table: string): string
  {
    Base(schema, table) + (" add column " + ("{}" + (" " + ("{}" + " default null;"))))
  }

  /** `dng_sql`, that is `{base_sql} drop column {};`. */
  function DropTemplate(schema: string, table: string): string
  {
    Base(schema, table) + (" drop column " + ("{}" + ";"))
  }

  /** `upg_sql.format(colname, data_type)`: the schema and the table are
      read again as part of the template, the column name and type are not. */
  function AddStatement(schema: string, table: string, c: Column): Result<string, FormatError>
  {
    Format(AddTemplate(schema, table), [c.name, c.dataType])
  }

  /** `dng_sql.format(colname)`. */
  function DropStatement(schema: string, table: string, c: Column): Result<string, FormatError>
  {
    Format(DropTemplate(schema, table), [c.name])
  }

  /** The statement texts for names that hold no braces. */
  function PlainAdd(schema: string, table: string, c: Column): string
  {
    Base(schema, table) + (" add column " + (c.name + (" " + (c.dataType + " default null;"))))
  }

  function PlainDrop(schema: string, table: string, c: Column): string
  {
    Base(schema, table) + (" drop column " + (c.name + ";"))
  }

  /** A list comprehension of `template.format(*args)` calls: every text in
      order, or the error of the first call that fails. */
  function FormatEach(template: string, argss: seq<seq<string>>): (r: Result<seq<string>, FormatError>)
    ensures r.Ok? ==> |r.value| == |argss| && forall i :: 0 <= i < |argss| ==> Format(template, argss[i]) == Ok(r.value[i])
    ensures r.Err? ==> exists i :: 0 <= i < |argss| && Format(template, argss[i]) == Err(r.error)
                                  && forall j :: 0 <= j < i ==> Format(template, argss[j]).Ok?
    ensures (forall i :: 0 <= i < |argss| ==> Format(template, argss[i]).Ok?) ==> r.Ok?
  {
    if argss == [] then Ok([])
    else
      var h := Format(template, argss[0]);
      if h.Err? then Err(h.error)
      else
        var t := FormatEach(template, argss[1..]);
        if t.Err? then
          assert forall j :: 0 <= j < |argss| - 1 ==> argss[1..][j] == argss[j + 1];
          Err(t.error)
        else Ok([h.value] + t.value)
  }

  /** `zip(new['column_name'], new['data_type'])`. */
  function AddArgs(cs: Snapshot): (r: seq<seq<string>>)
    ensures |r| == |cs| && forall i :: 0 <= i < |cs| ==> r[i] == [cs[i].name, cs[i].dataType]
  {
    seq(|cs|, i requires 0 <= i < |cs| => [cs[i].name, cs[i].dataType])
  }

  /** `old['column_name']`, one argument list per column. */
  function DropArgs(cs: Snapshot): (r: seq<seq<string>>)
    ensures |r| == |cs| && forall i :: 0 <= i < |cs| ==> r[i] == [cs[i].name]
  {
    seq(|cs|, i requires 0 <= i < |cs| => [cs[i].name])
  }

  function AddStatements(schema: string, table: string, cs: Snapshot): Result<seq<string>, FormatError>
  {
    FormatEach(AddTemplate(schema, table), AddArgs(cs))
  }

  function DropStatements(schema: string, table: string, cs: Snapshot): Result<seq<string>, FormatError>
  {
    FormatEach(DropTemplate(schema, table), DropArgs(cs))
  }

  /** The upgrade text: the `add column` statements joined by newlines. */
  function UpgradeSql(schema: string, table: string, added: Snapshot): Result<string, FormatError>
  {
    var r := AddStatements(schema, table, added);
    if r.Ok? then Ok(Join(r.value, '\n')) else Err(r.error)
  }

  /** The downgrade text: the `drop column` statements joined by newlines. */
  function DowngradeSql(schema: string, table: string, removed: Snapshot): Result<string, FormatError>
  {
    var r := DropStatements(schema, table, removed);
    if r.Ok? then Ok(Join(r.value, '\n')) else Err(r.error)
  }

  /** The pair `compare_state` returns. */
  datatype Migration = Migration(upgrade: string, downgrade: string)

  /** What `compare_state` raises: no catalog frame (`schema_state`
      returns `None` when its query fails or finds no rows, and the `id`
      assignment then raises), or a `format` call that fails. */
  datatype CompareError = NoDbState | BadFormat(error: FormatError)

  /** The two scripts; the upgrade is written, and can fail, first. */
  function Diff(schema: string, table: string, dbstate: Snapshot, modstate: Snapshot): Result<Migration, CompareError>
  {
    var up := UpgradeSql(schema, table, Added(modstate, dbstate));
    if up.Err? then Err(BadFormat(up.error))
    else
      var dn := DowngradeSql(schema, table, Removed(modstate, dbstate));
      if dn.Err? then Err(BadFormat(dn.error)) else Ok(Migration(up.value, dn.value))
  }

  /** With brace-free names, formatting fills in the column name and type. */
  lemma AddStatementPlain(schema: string, table: string, c: Column)
    requires NoBraces(schema) && NoBraces(table)
    ensures AddStatement(schema, table, c) == Ok(PlainAdd(schema, table, c))
  {
    assert NoBraces(Base(schema, table)) by {
      assert NoBraces("alter table ") && NoBraces(".");
    }
    assert NoBraces(" add column ") && NoBraces(" ") && NoBraces(" default null;");
    FormatLiteral(Base(schema, table), " add column " + ("{}" + (" " + ("{}" + " default null;"))), [c.name, c.dataType], Unset);
    FormatTwoFields(" add column ", " ", " default null;", c.name, c.dataType);
  }

  lemma DropStatementPlain(schema: string, table: string, c: Column)
    requires NoBraces(schema) && NoBraces(table)
    ensures DropStatement(schema, table, c) == Ok(PlainDrop(schema, table, c))
  {
    assert NoBraces(Base(schema, table)) by {
      assert NoBraces("alter table ") && NoBraces(".");
    }
    assert NoBraces(" drop column ") && NoBraces(";");
    FormatLiteral(Base(schema, table), " drop column " + ("{}" + ";"), [c.name], Unset);
    FormatOneField(" drop column ", ";", c.name);
  }

  /** A lone `}` in the table name makes the `add column` statement raise `ValueError`. */
  lemma AddStrayBrace(schema: string, table: string, p: string, q: string, c: Column)
    requires NoBraces(schema) && NoBraces(p) && table == p + "}" + q && (q == [] || q[0] != '}')
    ensures AddStatement(schema, table, c) == Err(StrayBrace)
  {
    var head := "alter table " + schema + "." + p;
    assert NoBraces(head) by {
      assert NoBraces("alter table ") && NoBraces(".");
    }
    var x := " add column " + ("{}" + (" " + ("{}" + " default null;")));
    BaseSplit(schema, p, "}", q, x);
    assert ("}" + (q + x))[1] == (q + x)[0] != '}';
    FormatLiteral(head, "}" + (q + x), [c.name, c.dataType], Unset);
  }

  /** A lone `}` in the table name makes the `drop column` statement raise `ValueError`. */
  lemma DropStrayBrace(schema: string, table: string, p: string, q: string, c: Column)
    requires NoBraces(schema) && NoBraces(p) && table == p + "}" + q && (q == [] || q[0] != '}')
    ensures DropStatement(schema, table, c) == Err(StrayBrace)
  {
    var head := "alter table " + schema + "." + p;
    assert NoBraces(head) by {
      assert NoBraces("alter table ") && NoBraces(".");
    }
    var x := " drop column " + ("{}" + ";");
    BaseSplit(schema, p, "}", q, x);
    assert ("}" + (q + x))[1] == (q + x)[0] != '}';
    FormatLiteral(head, "}" + (q + x), [c.name], Unset);
  }

  /** A `{}` in the table name takes the column name, so the `add column`
      template runs out of arguments: `IndexError`. */
  lemma AddFieldInTable(schema: string, table: string, p: string, q: string, c: Column)
    requires NoBraces(schema) && NoBraces(p) && NoBraces(q) && table == p + "{}" + q
    ensures AddStatement(schema, table, c) == Err(IndexOutOfRange)
  {
    var head := "alter table " + schema + "." + p;
    assert NoBraces(head) by {
      assert NoBraces("alter table ") && NoBraces(".");
    }
    var args := [c.name, c.dataType];
    var typeSlot := "{}" + " default null;";
    var nameSlot := "{}" + (" " + typeSlot);
    var x := " add column " + nameSlot;
    BaseSplit(schema, p, "{}", q, x);
    assert NoBraces(" add column ") && NoBraces(" ");
    FormatPastLast(" default null;", args);
    FormatLiteral(" ", typeSlot, args, Auto(2));
    FormatAutoField(" " + typeSlot, args, 1);
    FormatLiteral(" add column ", nameSlot, args, Auto(1));
    FormatLiteral(q, x, args, Auto(1));
    FormatAutoField(q + x, args, 0);
    FormatLiteral(head, "{}" + (q + x), args, Unset);
  }

  /** A `{}` in the table name takes the column name, so the `drop column`
      template runs out of arguments: `IndexError`. */
  lemma DropFieldInTable(schema: string, table: string, p: string, q: string, c: Column)
    requires NoBraces(schema) && NoBraces(p) && NoBraces(q) && table == p + "{}" + q
    ensures DropStatement(schema, table, c) == Err(IndexOutOfRange)
  {
    var head := "alter table " + schema + "." + p;
    assert NoBraces(head) by {
      assert NoBraces("alter table ") && NoBraces(".");
    }
    var args := [c.name];
    var x := " drop column " + ("{}" + ";");
    BaseSplit(schema, p, "{}", q, x);
    assert NoBraces(" drop column ");
    FormatPastLast(";", args);
    FormatLiteral(" drop column ", "{}" + ";", args, Auto(1));
    FormatLiteral(q, x, args, Auto(1));
    FormatAutoField(q + x, args, 0);
    FormatLiteral(head, "{}" + (q + x), args, Unset);
  }

  /** `base_sql` for a table name cut in three, regrouped at the cut. */
  lemma BaseSplit(schema: string, p: string, m: string, q: string, x: string)
    ensures Base(schema, p + m + q) + x == ("alter table " + schema + "." + p) + (m + (q + x))
  {
    var h := "alter table " + schema + ".";
    assert h + (p + m + q) == (h + p) + (m + q);
    assert (h + p) + (m + q) + x == (h + p) + (m + (q + x));
  }

  /** The upgrade fails exactly when there is a column to add and the
      template is rejected, and then with that template's error: every
      `format` call on one template fails alike. */
  lemma UpgradeFails(schema: string, table: string, added: Snapshot)
    ensures UpgradeSql(schema, table, added).Err? <==> added != [] && AddStatement(schema, table, added[0]).Err?
    ensures UpgradeSql(schema, table, added).Err? ==> UpgradeSql(schema, table, added).error == AddStatement(schema, table, added[0]).error
  {
    var r := AddStatements(schema, table, added);
    if r.Err? {
      var i :| 0 <= i < |added| && Format(AddTemplate(schema, table), AddArgs(added)[i]) == Err(r.error);
      FormatShape(AddTemplate(schema, table), AddArgs(added)[i], AddArgs(added)[0], Unset);
    }
  }

  /** The downgrade fails exactly when there is a column to drop and the
      template is rejected, and then with that template's error. */
  lemma DowngradeFails(schema: string, table: string, removed: Snapshot)
    ensures DowngradeSql(schema, table, removed).Err? <==> removed != [] && DropStatement(schema, table, removed[0]).Err?
    ensures DowngradeSql(schema, table, removed).Err? ==> DowngradeSql(schema, table, removed).error == DropStatement(schema, table, removed[0]).error
  {
    var r := DropStatements(schema, table, removed);
    if r.Err? {
      var i :| 0 <= i < |removed| && Format(DropTemplate(schema, table), DropArgs(removed)[i]) == Err(r.error);
      FormatShape(DropTemplate(schema, table), DropArgs(removed)[i], DropArgs(removed)[0], Unset);
    }
  }

  /** With brace-free names the upgrade holds the plain statement of every added column, in order. */
  lemma UpgradePlain(schema: string, table: string, added: Snapshot)
    requires NoBraces(schema) && NoBraces(table)
    ensures AddStatements(schema, table, added).Ok?
    ensures |AddStatements(schema, table, added).value| == |added|
    ensures forall i :: 0 <= i < |added| ==> AddStatements(schema, table, added).value[i] == PlainAdd(schema, table, added[i])
  {
    forall i | 0 <= i < |added|
      ensures Format(AddTemplate(schema, table), AddArgs(added)[i]) == Ok(PlainAdd(schema, table, added[i]))
    {
      AddStatementPlain(schema, table, added[i]);
    }
  }

  /** With brace-free names the downgrade holds the plain statement of every removed column, in order. */
  lemma DowngradePlain(schema: string, table: string, removed: Snapshot)
    requires NoBraces(schema) && NoBraces(table)
    ensures DropStatements(schema, table, removed).Ok?
    ensures |DropStatements(schema, table, removed).value| == |removed|
    ensures forall i :: 0 <= i < |removed| ==> DropStatements(schema, table, removed).value[i] == PlainDrop(schema, table, removed[i])
  {
    forall i | 0 <= i < |removed|
      ensures Format(DropTemplate(schema, table), DropArgs(removed)[i]) == Ok(PlainDrop(schema, table, removed[i]))
    {
      DropStatementPlain(schema, table, removed[i]);
    }
  }

  /** The lines of a text, split at every newline. */
  function Lines(s: string): seq<string>
  {
    SplitN(s, '\n', |s|)
  }

  predicate NoNewline(s: string) { '\n' !in s }

  predicate PlainNames(cs: Snapshot)
  {
    forall i :: 0 <= i < |cs| ==> NoNewline(cs[i].name) && NoNewline(cs[i].dataType)
  }

  /** The upgrade text holds one line per added column, in the order given,
      each that column's formatted statement; nothing to add gives "". */
  lemma UpgradeLines(schema: string, table: string, added: Snapshot)
    requires NoNewline(schema) && NoNewline(table) && PlainNames(added)
    ensures added == [] ==> UpgradeSql(schema, table, added) == Ok("")
    ensures added != [] && UpgradeSql(schema, table, added).Ok? ==>
      Lines(UpgradeSql(schema, table, added).value) == AddStatements(schema, table, added).value
  {
    var r := AddStatements(schema, table, added);
    if added != [] && r.Ok? {
      var t := AddTemplate(schema, table);
      assert NoNewline("alter table ") && NoNewline(".") && NoNewline(" add column ") && NoNewline("{}" + (" " + ("{}" + " default null;")));
      assert NoNewline(t);
      forall i | 0 <= i < |r.value| ensures '\n' !in r.value[i] {
        FormatNoNewline(t, AddArgs(added)[i], Unset);
      }
      SplitJoin(r.value, '\n', |Join(r.value, '\n')|);
    }
  }

  /** The downgrade text holds one line per removed column, in the order
      given, each that column's formatted statement; nothing to drop gives "". */
  lemma DowngradeLines(schema: string, table: string, removed: Snapshot)
    requires NoNewline(schema) && NoNewline(table) && PlainNames(removed)
    ensures removed == [] ==> DowngradeSql(schema, table, removed) == Ok("")
    ensures removed != [] && DowngradeSql(schema, table, removed).Ok? ==>
      Lines(DowngradeSql(schema, table, removed).value) == DropStatements(schema, table, removed).value
  {
    var r := DropStatements(schema, table, removed);
    if removed != [] && r.Ok? {
      var t := DropTemplate(schema, table);
      assert NoNewline("alter table ") && NoNewline(".") && NoNewline(" drop column ") && NoNewline("{}" + ";");
      assert NoNewline(t);
      forall i | 0 <= i < |r.value| ensures '\n' !in r.value[i] {
        FormatNoNewline(t, DropArgs(removed)[i], Unset);
      }
      SplitJoin(r.value, '\n', |Join(r.value, '\n')|);
    }
  }

  /** Identical snapshots give two empty scripts, whatever the names, since no `format` call is made. */
  lemma NoDriftScripts(schema: string, table: string, s: Snapshot)
    ensures Diff(schema, table, s, s) == Ok(Migration("", ""))
  {
    NoDrift(s);
  }

  /** A column whose type differs between the two sides is dropped and added
      again: the key holds the type, so there is no statement that alters a type. */
  lemma TypeChangeIsDropAndAdd(schema: string, table: string, modstate: Snapshot, dbstate: Snapshot, x: Column, y: Column)
    requires UniqueNames(modstate) && UniqueNames(dbstate)
    requires x in modstate && y in dbstate && x.name == y.name && x.dataType != y.dataType
    ensures x in Added(modstate, dbstate) && y in Removed(modstate, dbstate)
    ensures AddStatements(schema, table, Added(modstate, dbstate)).Ok? ==>
      AddStatement(schema, table, x).Ok? && AddStatement(schema, table, x).value in AddStatements(schema, table, Added(modstate, dbstate)).value
    ensures DropStatements(schema, table, Removed(modstate, dbstate)).Ok? ==>
      DropStatement(schema, table, y).Ok? && DropStatement(schema, table, y).value in DropStatements(schema, table, Removed(modstate, dbstate)).value
  {
    var added, removed := Added(modstate, dbstate), Removed(modstate, dbstate);
    assert x in added && y in removed by {
      AddedIsUnmatched(modstate, dbstate);
      RemovedIsUnmatched(modstate, dbstate);
      OtherTypeAbsent(dbstate, y, x);
      OtherTypeAbsent(modstate, x, y);
    }
    var i :| 0 <= i < |added| && added[i] == x;
    var ra := AddStatements(schema, table, added);
    if ra.Ok? {
      assert AddArgs(added)[i] == [x.name, x.dataType];
      assert ra.value[i] == AddStatement(schema, table, x).value;
    }
    var j :| 0 <= j < |removed| && removed[j] == y;
    var rd := DropStatements(schema, table, removed);
    if rd.Ok? {
      assert DropArgs(removed)[j] == [y.name];
      assert rd.value[j] == DropStatement(schema, table, y).value;
    }
  }

  /** In a snapshot with unique names, a row with the name of a row it holds but another type is absent. */
  lemma OtherTypeAbsent(s: Snapshot, y: Column, x: Column)
    requires UniqueNames(s) && y in s && x.name == y.name && x != y
    ensures x !in s
  {
    var jy :| 0 <= jy < |s| && s[jy] == y;
    forall i | 0 <= i < |s|
      ensures s[i] != x
    {
      if i < jy {
        assert s[i].name != s[jy].name;
      } else if jy < i {
        assert s[jy].name != s[i].name;
      }
    }
  }

  /** One column to add or drop gives a one-statement script, or that statement's error. */
  lemma SingleStatement(schema: string, table: string, c: Column)
    ensures UpgradeSql(schema, table, [c]) == AddStatement(schema, table, c)
    ensures DowngradeSql(schema, table, [c]) == DropStatement(schema, table, c)
  {
    assert AddArgs([c]) == [[c.name, c.dataType]];
    assert AddArgs([c])[1..] == [];
    assert DropArgs([c]) == [[c.name]];
    assert DropArgs([c])[1..] == [];
  }

  /** With brace-free names, one added column and none removed give its statement and an empty downgrade. */
  lemma DiffAddOne(schema: string, table: string, dbstate: Snapshot, modstate: Snapshot, a: Column)
    requires NoBraces(schema) && NoBraces(table)
    requires Added(modstate, dbstate) == [a] && Removed(modstate, dbstate) == []
    ensures Diff(schema, table, dbstate, modstate) == Ok(Migration(PlainAdd(schema, table, a), ""))
  {
    SinglePlain(schema, table, a);
  }

  /** With brace-free names, one removed column and none added give an empty upgrade and its statement. */
  lemma DiffDropOne(schema: string, table: string, dbstate: Snapshot, modstate: Snapshot, r: Column)
    requires NoBraces(schema) && NoBraces(table)
    requires Added(modstate, dbstate) == [] && Removed(modstate, dbstate) == [r]
    ensures Diff(schema, table, dbstate, modstate) == Ok(Migration("", PlainDrop(schema, table, r)))
  {
    SinglePlain(schema, table, r);
  }

  /** With brace-free names, one added and one removed column give one statement each. */
  lemma DiffAddDropOne(schema: string, table: string, dbstate: Snapshot, modstate: Snapshot, a: Column, r: Column)
    requires NoBraces(schema) && NoBraces(table)
    requires Added(modstate, dbstate) == [a] && Removed(modstate, dbstate) == [r]
    ensures Diff(schema, table, dbstate, modstate) == Ok(Migration(PlainAdd(schema, table, a), PlainDrop(schema, table, r)))
  {
    SinglePlain(schema, table, a);
    SinglePlain(schema, table, r);
  }

  /** With brace-free names, one column gives its plain statement. */
  lemma SinglePlain(schema: string, table: string, c: Column)
    requires NoBraces(schema) && NoBraces(table)
    ensures UpgradeSql(schema, table, [c]) == Ok(PlainAdd(schema, table, c))
    ensures DowngradeSql(schema, table, [c]) == Ok(PlainDrop(schema, table, c))
  {
    SingleStatement(schema, table, c);
    AddStatementPlain(schema, table, c);
    DropStatementPlain(schema, table, c);
  }

  /** `base_sql` for the `food.ingredient` table. */
  lemma BaseText(schema: string, table: string)
    requires schema == "food" && table == "ingredient"
    ensures Base(schema, table) == "alter table food.ingredient"
  {
    assert "alter table " + "food" == "alter table food";
    assert "alter table food" + "." == "alter table food.";
    assert "alter table food." + "ingredient" == "alter table food.ingredient";
  }

  /** The statements of the examples below, after `base_sql`. */
  lemma AddWeightText(c: Column)
    requires c.name == "weight" && c.dataType == "numeric"
    ensures forall schema, table :: PlainAdd(schema, table, c) == Base(schema, table) + " add column weight numeric default null;"
  {
    assert " add column " + (c.name + (" " + (c.dataType + " default null;"))) == " add column weight numeric default null;";
  }

  lemma DropLegacyText(c: Column)
    requires c.name == "legacy"
    ensures forall schema, table :: PlainDrop(schema, table, c) == Base(schema, table) + " drop column legacy;"
  {
    assert " drop column " + (c.name + ";") == " drop column legacy;";
  }

  lemma AddQtyText(c: Column)
    requires c.name == "qty" && c.dataType == "numeric"
    ensures forall schema, table :: PlainAdd(schema, table, c) == Base(schema, table) + " add column qty numeric default null;"
  {
    assert " add column " + (c.name + (" " + (c.dataType + " default null;"))) == " add column qty numeric default null;";
  }

  lemma DropQtyText(c: Column)
    requires c.name == "qty"
    ensures forall schema, table :: PlainDrop(schema, table, c) == Base(schema, table) + " drop column qty;"
  {
    assert " drop column " + (c.name + ";") == " drop column qty;";
  }

  /** The model is ahead: it declares `weight numeric`, which the table
      lacks. The statement's text is `AddWeightText`. */
  lemma ModelAhead(schema: string, table: string, idCol: Column, weight: Column, dbstate: Snapshot, modstate: Snapshot)
    requires NoBraces(schema) && NoBraces(table)
    requires idCol == Column("app", "food", "ingredient", "id", "integer")
    requires weight == Column("app", "food", "ingredient", "weight", "numeric")
    requires dbstate == [idCol] && modstate == [idCol, weight]
    ensures Added(modstate, dbstate) == [weight] && Removed(modstate, dbstate) == []
    ensures Diff(schema, table, dbstate, modstate) == Ok(Migration(PlainAdd(schema, table, weight), ""))
  {
    assert Added(modstate, dbstate) == [weight] && Removed(modstate, dbstate) == [] by {
      AddedIsUnmatched(modstate, dbstate);
      RemovedIsUnmatched(modstate, dbstate);
      assert weight !in dbstate;
      assert Unmatched(modstate[1..], dbstate) == [weight];
      AllMatched(dbstate, modstate);
    }
    DiffAddOne(schema, table, dbstate, modstate, weight);
  }

  /** The table is ahead: it still has `legacy text`, which the model
      dropped. The statement's text is `DropLegacyText`. */
  lemma DbAhead(schema: string, table: string, idCol: Column, legacy: Column, dbstate: Snapshot, modstate: Snapshot)
    requires NoBraces(schema) && NoBraces(table)
    requires idCol == Column("app", "food", "ingredient", "id", "integer")
    requires legacy == Column("app", "food", "ingredient", "legacy", "text")
    requires dbstate == [idCol, legacy] && modstate == [idCol]
    ensures Added(modstate, dbstate) == [] && Removed(modstate, dbstate) == [legacy]
    ensures Diff(schema, table, dbstate, modstate) == Ok(Migration("", PlainDrop(schema, table, legacy)))
  {
    assert Added(modstate, dbstate) == [] && Removed(modstate, dbstate) == [legacy] by {
      AddedIsUnmatched(modstate, dbstate);
      RemovedIsUnmatched(modstate, dbstate);
      assert legacy !in modstate;
      assert Unmatched(dbstate[1..], modstate) == [legacy];
      AllMatched(modstate, dbstate);
    }
    DiffDropOne(schema, table, dbstate, modstate, legacy);
  }

  /** `qty` went from integer to numeric: one drop and one add, two
      statements, whose texts are `AddQtyText` and `DropQtyText`. */
  lemma QtyRetyped(schema: string, table: string, was: Column, now: Column, dbstate: Snapshot, modstate: Snapshot)
    requires NoBraces(schema) && NoBraces(table)
    requires was == Column("app", "food", "ingredient", "qty", "integer")
    requires now == Column("app", "food", "ingredient", "qty", "numeric")
    requires dbstate == [was] && modstate == [now]
    ensures Added(modstate, dbstate) == [now] && Removed(modstate, dbstate) == [was]
    ensures Diff(schema, table, dbstate, modstate) == Ok(Migration(PlainAdd(schema, table, now), PlainDrop(schema, table, was)))
  {
    assert Added(modstate, dbstate) == [now] && Removed(modstate, dbstate) == [was] by {
      AddedIsUnmatched(modstate, dbstate);
      RemovedIsUnmatched(modstate, dbstate);
      assert now !in dbstate && was !in modstate;
    }
    DiffAddDropOne(schema, table, dbstate, modstate, now, was);
  }

  /** A closing brace in the table name: the source raises `ValueError` at the first `format` call. */
  lemma BraceInTable(schema: string, table: string, c: Column, dbstate: Snapshot, modstate: Snapshot)
    requires schema == "s" && table == "t}"
    requires c == Column("app", "s", "t}", "x", "text")
    requires dbstate == [] && modstate == [c]
    ensures Diff(schema, table, dbstate, modstate) == Err(BadFormat(StrayBrace))
  {
    assert Added(modstate, dbstate) == [c] by {
      AddedIsUnmatched(modstate, dbstate);
    }
    assert UpgradeSql(schema, table, [c]) == Err(StrayBrace) by {
      SingleStatement(schema, table, c);
      assert NoBraces(schema) && NoBraces("t");
      assert table == "t" + "}" + "";
      AddStrayBrace(schema, table, "t", "", c);
    }
  }

  /** A data frame as `compare_state` sees it: the catalog rows and, once
      `compare_state` has run, the `id` column it adds in place. */
  class Frame {
    var rows: Snapshot
    var ids: Option<seq<int>>

    constructor (rows: Snapshot)
      ensures this.rows == rows && ids == None
    {
      this.rows := rows;
      ids := None;
    }

    /** `frame['id'] = range(len(frame.index))` */
    method AddIds()
      modifies this
      ensures rows == old(rows) && ids == Some(Range(|rows|))
    {
      ids := Some(Range(|rows|));
    }
  }

  /** `compare_state`: number both frames' rows in place, merge, keep the
      unmatched rows on each side and write the two scripts. */
  method CompareState(appname: string, schema: string, table: string, dbstate: Frame?, modstate: Frame)
    returns (r: Result<Migration, CompareError>)
    modifies dbstate, modstate
    ensures dbstate == null ==> r == Err(NoDbState) && unchanged(modstate)
    ensures dbstate != null ==>
      && r == Diff(schema, table, old(dbstate.rows), old(modstate.rows))
      && dbstate.rows == old(dbstate.rows) && dbstate.ids == Some(Range(|dbstate.rows|))
      && modstate.rows == old(modstate.rows) && modstate.ids == Some(Range(|modstate.rows|))
  {
    if dbstate == null {
      return Err(NoDbState);
    }
    dbstate.AddIds();
    modstate.AddIds();
    var up := LeftMerge(modstate.rows, modstate.ids.value, dbstate.rows, dbstate.ids.value);
    var dn := RightMerge(modstate.rows, modstate.ids.value, dbstate.rows, dbstate.ids.value);
    var added := NullDb(up);
    var removed := NullMod(dn);
    var upgrade := UpgradeSql(schema, table, added);
    if upgrade.Err? {
      return Err(BadFormat(upgrade.error));
    }
    var downgrade := DowngradeSql(schema, table, removed);
    if downgrade.Err? {
      return Err(BadFormat(downgrade.error));
    }
    r := Ok(Migration(upgrade.value, downgrade.value));
  }
}
