/** The runner's configuration handling (sprout/runner.py): validating the
    configuration document, building the connection URL, the `x or self.x`
    setters, and the option rewrite done before a connection pool is opened. */
module Runners {
  import opened Wrappers

  /** A YAML value as `yaml.safe_load` returns it: `None`, a string, any
      other scalar (kept as the text `str()` gives it), or a mapping.
      YAML sequences are not part of this model. */
  datatype Doc = Null | Str(text: string) | Scalar(text: string) | Table(entries: map<string, Doc>)

  /** The YAML files the configuration may name, by path. */
  type Files = map<string, Doc>

  /** `load_yml(path)` without the cache: a missing file reads as `{}`. */
  function LoadYml(files: Files, path: string): (d: Doc)
    ensures path !in files ==> d == Table(map[])
  {
    if path in files then files[path] else Table(map[])
  }

  /** The exceptions the modelled code raises. `NotFound(k)` is the
      "'k' not found in cfg" error and `CfgNotUnderstood` the
      "cfg not understood" one; the others are Python's own. */
  datatype CfgError =
    | CfgNotUnderstood
    | NotFound(key: string)
    | KeyError(key: string)
    | TypeError
    | AttributeError
    | ValueError

  /** The keys the validation asks for, in the order it asks. */
  const Required: seq<string> := ["host", "port", "database", "username"]

  predicate IsPrefix(p: string, s: string)
  {
    |p| <= |s| && s[..|p|] == p
  }

  /** Python's `p in s` on two strings. */
  predicate IsSubstring(p: string, s: string)
    decreases |s|
  {
    IsPrefix(p, s) || (s != [] && IsSubstring(p, s[1..]))
  }

  /** `key in d` for a mapping (a key test) or a string (a substring test);
      on anything else Python raises `TypeError`. */
  predicate Contains(d: Doc, key: string)
    requires d.Table? || d.Str?
  {
    if d.Table? then key in d.entries else IsSubstring(key, d.text)
  }

  /** The first of `keys` that is not in `have`. */
  function FirstMissing(keys: seq<string>, have: set<string>): (r: Option<string>)
    ensures r.None? <==> forall i :: 0 <= i < |keys| ==> keys[i] in have
    ensures r.Some? ==> exists i :: 0 <= i < |keys| && keys[i] == r.value && keys[i] !in have
                                       && (forall j :: 0 <= j < i ==> keys[j] in have)
  {
    if keys == [] then None
    else if keys[0] !in have then Some(keys[0])
    else
      var r := FirstMissing(keys[1..], have);
      assert r.Some? ==> exists i :: 0 <= i < |keys| && keys[i] == r.value && keys[i] !in have
                                       && (forall j :: 0 <= j < i ==> keys[j] in have) by {
        if r.Some? {
          var i :| 0 <= i < |keys[1..]| && keys[1..][i] == r.value && keys[1..][i] !in have
                   && (forall j :: 0 <= j < i ==> keys[1..][j] in have);
          assert keys[i + 1] == r.value;
          assert forall j :: 0 <= j < i + 1 ==> keys[j] in have by {
            forall j | 0 <= j < i + 1 ensures keys[j] in have {
              if j > 0 {
                assert keys[j] == keys[1..][j - 1];
              }
            }
          }
        }
      }
      r
  }

  /** The first key missing is determined: any key missing after an
      unbroken run of present ones is what `FirstMissing` returns. */
  lemma {:induction false} FirstMissingIs(keys: seq<string>, have: set<string>, i: nat)
    requires i < |keys| && keys[i] !in have && forall j :: 0 <= j < i ==> keys[j] in have
    ensures FirstMissing(keys, have) == Some(keys[i])
  {
    if i > 0 {
      assert keys[0] in have;
      FirstMissingIs(keys[1..], have, i - 1);
    }
  }

  /** The document the `cfg` argument stands for: a string is a path to load. */
  function Loaded(files: Files, cfg: Doc): Doc
  {
    if cfg.Str? then LoadYml(files, cfg.text) else cfg
  }

  /** The first three steps of `_init_cfg`: load, reject what is not a
      non-empty mapping, and select the `env` section. */
  function Section(files: Files, cfg: Doc, env: Option<string>): (r: Result<Doc, CfgError>)
    ensures r == Err(CfgNotUnderstood) <==> !Loaded(files, cfg).Table? || Loaded(files, cfg).entries == map[]
    ensures r.Ok? && env.None? ==> r.value == Loaded(files, cfg)
    ensures r.Ok? && env.Some? ==> env.value in Loaded(files, cfg).entries
                                   && r.value == Loaded(files, cfg).entries[env.value]
    ensures r.Err? && r != Err(CfgNotUnderstood) ==>
              env.Some? && r == Err(KeyError(env.value)) && env.value !in Loaded(files, cfg).entries
  {
    var c := Loaded(files, cfg);
    if !c.Table? || c.entries == map[] then Err(CfgNotUnderstood)
    else if env.None? then Ok(c)
    else if env.value in c.entries then Ok(c.entries[env.value])
    else Err(KeyError(env.value))
  }

  /** The required keys a section holds. */
  function Present(s: Doc): set<string>
    requires s.Table? || s.Str?
  {
    set k | k in Required && Contains(s, k)
  }

  /** `cfg.update(overrides)`: a mapping merges in, an empty string changes
      nothing, any other string is a `ValueError`, anything else a `TypeError`. */
  function Update(m: map<string, Doc>, overrides: Doc): (r: Result<Doc, CfgError>)
    ensures overrides.Table? ==> r == Ok(Table(m + overrides.entries))
  {
    match overrides
    case Table(o) => Ok(Table(m + o))
    case Str(t) => if t == "" then Ok(Table(m)) else Err(ValueError)
    case _ => Err(TypeError)
  }

  /** The rest of `_init_cfg` on the selected section: the required-key
      checks in order, then the `rc` overrides. */
  function Validate(files: Files, s: Doc, rc: Option<string>): Result<Doc, CfgError>
  {
    if !(s.Table? || s.Str?) then Err(TypeError)
    else match FirstMissing(Required, Present(s))
      case Some(k) => Err(NotFound(k))
      case None =>
        if rc.None? then Ok(s)
        else if !s.Table? then Err(AttributeError)
        else Update(s.entries, LoadYml(files, rc.value))
  }

  /** `Runner._init_cfg`. */
  function InitCfg(files: Files, cfg: Doc, env: Option<string>, rc: Option<string>): Result<Doc, CfgError>
  {
    match Section(files, cfg, env)
    case Err(e) => Err(e)
    case Ok(s) => Validate(files, s, rc)
  }

  /** Only a configuration that is not a non-empty mapping is "not understood". */
  lemma NotUnderstood(files: Files, cfg: Doc, env: Option<string>, rc: Option<string>)
    ensures InitCfg(files, cfg, env, rc) == Err(CfgNotUnderstood)
        <==> !Loaded(files, cfg).Table? || Loaded(files, cfg).entries == map[]
  {
    var sec := Section(files, cfg, env);
    if sec.Ok? {
      var s := sec.value;
      if s.Table? || s.Str? {
        if FirstMissing(Required, Present(s)).None? && rc.Some? && s.Table? {
          var o := LoadYml(files, rc.value);
          assert Update(s.entries, o) != Err(CfgNotUnderstood);
        }
      }
    }
  }

  /** A configuration that validates holds every required key, whether it
      is the whole document or its `env` section, and whatever `rc` adds. */
  lemma ValidHasRequired(files: Files, cfg: Doc, env: Option<string>, rc: Option<string>)
    requires InitCfg(files, cfg, env, rc).Ok?
    ensures var d := InitCfg(files, cfg, env, rc).value;
      (d.Table? || d.Str?) && forall i :: 0 <= i < |Required| ==> Contains(d, Required[i])
  {
    var s := Section(files, cfg, env).value;
    assert forall i :: 0 <= i < |Required| ==> Required[i] in Present(s);
    forall i | 0 <= i < |Required| ensures Contains(s, Required[i]) {
      assert Required[i] in Present(s);
    }
  }

  /** The error names the first required key the section lacks, in the
      order host, port, database, username. */
  lemma MissingKeyOrder(files: Files, cfg: Doc, env: Option<string>, rc: Option<string>, k: string)
    requires Section(files, cfg, env).Ok?
    requires Section(files, cfg, env).value.Table? || Section(files, cfg, env).value.Str?
    ensures var s := Section(files, cfg, env).value;
      InitCfg(files, cfg, env, rc) == Err(NotFound(k)) <==>
        exists i :: 0 <= i < |Required| && Required[i] == k && !Contains(s, k)
                    && (forall j :: 0 <= j < i ==> Contains(s, Required[j]))
  {
    var s := Section(files, cfg, env).value;
    var have := Present(s);
    forall i | 0 <= i < |Required| ensures Required[i] in have <==> Contains(s, Required[i]) {
    }
    var fm := FirstMissing(Required, have);
    if fm.None? && rc.Some? && s.Table? {
      assert Update(s.entries, LoadYml(files, rc.value)) != Err(NotFound(k));
    }
    if exists i :: 0 <= i < |Required| && Required[i] == k && !Contains(s, k)
                   && (forall j :: 0 <= j < i ==> Contains(s, Required[j])) {
      var i :| 0 <= i < |Required| && Required[i] == k && !Contains(s, k)
               && (forall j :: 0 <= j < i ==> Contains(s, Required[j]));
      FirstMissingIs(Required, have, i);
    }
  }

  /** With `rc` given, its entries override or extend the section and every
      other key keeps its value. */
  lemma RcOverrides(files: Files, cfg: Doc, env: Option<string>, rc: string)
    requires InitCfg(files, cfg, env, Some(rc)).Ok?
    requires LoadYml(files, rc).Table?
    ensures var s := Section(files, cfg, env).value;
            var o := LoadYml(files, rc).entries;
            var d := InitCfg(files, cfg, env, Some(rc)).value;
      && s.Table? && d.Table?
      && d.entries.Keys == s.entries.Keys + o.Keys
      && (forall k :: k in o ==> d.entries[k] == o[k])
      && (forall k :: k in s.entries && k !in o ==> d.entries[k] == s.entries[k])
  {
  }

  /** An `rc` file that is missing changes nothing (it reads as `{}`). */
  lemma MissingRcFile(files: Files, cfg: Doc, env: Option<string>, rc: string)
    requires rc !in files
    requires InitCfg(files, cfg, env, None).Ok? && InitCfg(files, cfg, env, None).value.Table?
    ensures InitCfg(files, cfg, env, Some(rc)) == InitCfg(files, cfg, env, None)
  {
    var s := Section(files, cfg, env).value;
    assert s.entries + map[] == s.entries;
  }

  /** Without `rc` the result is the selected section itself. */
  lemma NoRcIsSection(files: Files, cfg: Doc, env: Option<string>)
    requires InitCfg(files, cfg, env, None).Ok?
    ensures InitCfg(files, cfg, env, None) == Section(files, cfg, env)
  {
  }

  /** Python truthiness of an optional string: `None` and `""` are false. */
  predicate Truthy(x: Option<string>)
  {
    x.Some? && x.value != ""
  }

  /** `x or y` on optional strings. */
  function Or(x: Option<string>, y: Option<string>): Option<string>
  {
    if Truthy(x) then x else y
  }

  /** `schemas or self.schemas`: `None` and `[]` keep the current list. */
  function OrList(x: Option<seq<string>>, y: seq<string>): seq<string>
  {
    if x.Some? && x.value != [] then x.value else y
  }

  /** A falsy argument keeps the current value and a truthy one replaces it,
      so the result is truthy when either is, and setting twice with the
      same argument is setting once. */
  lemma OrLaws(x: Option<string>, y: Option<string>)
    ensures !Truthy(x) ==> Or(x, y) == y
    ensures Truthy(x) ==> Or(x, y) == x
    ensures Truthy(Or(x, y)) <==> Truthy(x) || Truthy(y)
    ensures Or(x, Or(x, y)) == Or(x, y)
  {
  }

  lemma OrListLaws(x: Option<seq<string>>, y: seq<string>)
    ensures x.None? || x == Some([]) ==> OrList(x, y) == y
    ensures x.Some? && x.value != [] ==> OrList(x, y) == x.value
    ensures OrList(x, y) != [] <==> (x.Some? && x.value != []) || y != []
    ensures OrList(x, OrList(x, y)) == OrList(x, y)
  {
  }

  /** How a value appears inside an f-string. A mapping appears as its
      Python `repr`, which depends on insertion order; it is a parameter. */
  function Render(d: Doc, showDict: map<string, Doc> -> string): string
  {
    match d
    case Null => "None"
    case Str(t) => t
    case Scalar(t) => t
    case Table(m) => showDict(m)
  }

  /** The keys `db_str` reads, in the order it reads them. */
  function UrlKeys(dbname: Option<string>): seq<string>
  {
    (if Truthy(dbname) then [] else ["database"]) + ["username", "password", "host", "port", "driver"]
  }

  /** Every key `db_str` reads is among `have` when none is missing. */
  lemma UrlKeysIn(dbname: Option<string>, have: set<string>)
    requires forall i :: 0 <= i < |UrlKeys(dbname)| ==> UrlKeys(dbname)[i] in have
    ensures "username" in have && "password" in have && "host" in have && "port" in have && "driver" in have
    ensures !Truthy(dbname) ==> "database" in have
  {
    var ks := UrlKeys(dbname);
    var o := |ks| - 5;
    assert ks[o] == "username" && ks[o + 1] == "password" && ks[o + 2] == "host";
    assert ks[o + 3] == "port" && ks[o + 4] == "driver";
    if !Truthy(dbname) {
      assert ks[0] == "database";
    }
  }

  /** `db_str` on a configuration `c`. */
  function Url(c: Doc, dbname: Option<string>, schema: Option<string>, showDict: map<string, Doc> -> string)
    : Result<string, CfgError>
  {
    if !c.Table? then Err(TypeError)
    else
      var m := c.entries;
      match FirstMissing(UrlKeys(dbname), m.Keys)
      case Some(k) => Err(KeyError(k))
      case None =>
        UrlKeysIn(dbname, m.Keys);
        var db := if Truthy(dbname) then dbname.value else Render(m["database"], showDict);
        var auth := Render(m["username"], showDict) + ":" + Render(m["password"], showDict);
        var hostPort := Render(m["host"], showDict) + ":" + Render(m["port"], showDict);
        var base := Render(m["driver"], showDict) + "://" + auth + "@" + hostPort;
        if schema.Some? then Ok(base + "/" + db + "?schema=" + schema.value)
        else Ok(base + "/" + db)
  }

  /** `db_str` fails exactly when the configuration is not a mapping or lacks
      a key it reads, and then names the first such key. */
  lemma UrlErrors(c: Doc, dbname: Option<string>, schema: Option<string>, showDict: map<string, Doc> -> string)
    ensures !c.Table? ==> Url(c, dbname, schema, showDict) == Err(TypeError)
    ensures c.Table? ==>
      (Url(c, dbname, schema, showDict).Ok? <==> forall i :: 0 <= i < |UrlKeys(dbname)| ==> UrlKeys(dbname)[i] in c.entries)
    ensures c.Table? && Url(c, dbname, schema, showDict).Err? ==>
      exists i :: 0 <= i < |UrlKeys(dbname)| && Url(c, dbname, schema, showDict) == Err(KeyError(UrlKeys(dbname)[i]))
                  && UrlKeys(dbname)[i] !in c.entries
                  && (forall j :: 0 <= j < i ==> UrlKeys(dbname)[j] in c.entries)
  {
  }

  /** A schema only appends `?schema=<schema>` to the plain URL. */
  lemma UrlSchema(c: Doc, dbname: Option<string>, s: string, showDict: map<string, Doc> -> string)
    ensures Url(c, dbname, Some(s), showDict).Ok? == Url(c, dbname, None, showDict).Ok?
    ensures Url(c, dbname, Some(s), showDict).Ok? ==>
      Url(c, dbname, Some(s), showDict).value == Url(c, dbname, None, showDict).value + "?schema=" + s
  {
  }

  /** No database name, or an empty one, falls back to the configured
      `database`: both give what naming that database gives. */
  lemma UrlFallback(c: Doc, schema: Option<string>, showDict: map<string, Doc> -> string)
    requires c.Table? && "database" in c.entries
    ensures var named := Some(Render(c.entries["database"], showDict));
      Url(c, None, schema, showDict) == Url(c, Some(""), schema, showDict) == Url(c, named, schema, showDict)
  {
    var tail := ["username", "password", "host", "port", "driver"];
    var named := Some(Render(c.entries["database"], showDict));
    assert UrlKeys(None) == ["database"] + tail;
    assert (["database"] + tail)[1..] == tail;
    assert FirstMissing(UrlKeys(None), c.entries.Keys) == FirstMissing(tail, c.entries.Keys);
    if Truthy(named) {
      assert UrlKeys(named) == tail;
    }
  }

  /** The URL for a configuration of plain strings. */
  lemma UrlText(m: map<string, Doc>, dbname: string, schema: Option<string>, showDict: map<string, Doc> -> string)
    requires "username" in m && "password" in m && "host" in m && "port" in m && "driver" in m
    requires m["username"].Str? && m["password"].Str? && m["host"].Str? && m["port"].Str? && m["driver"].Str?
    requires dbname != ""
    ensures var url := m["driver"].text + "://" + m["username"].text + ":" + m["password"].text
                       + "@" + m["host"].text + ":" + m["port"].text + "/" + dbname;
      Url(Table(m), Some(dbname), schema, showDict)
        == Ok(if schema.Some? then url + "?schema=" + schema.value else url)
  {
    assert forall i :: 0 <= i < |UrlKeys(Some(dbname))| ==> UrlKeys(Some(dbname))[i] in m.Keys;
    assert FirstMissing(UrlKeys(Some(dbname)), m.Keys).None?;
    assert Render(m["driver"], showDict) == m["driver"].text;
    assert Render(m["username"], showDict) == m["username"].text;
    assert Render(m["password"], showDict) == m["password"].text;
    assert Render(m["host"], showDict) == m["host"].text;
    assert Render(m["port"], showDict) == m["port"].text;
    var d, u, p, h, n := m["driver"].text, m["username"].text, m["password"].text, m["host"].text, m["port"].text;
    assert d + "://" + (u + ":" + p) + "@" + (h + ":" + n) == d + "://" + u + ":" + p + "@" + h + ":" + n;
  }

  /** What `_init_db_pool` reaches before it calls the pool: nothing,
      because no app is set, or the keyword options of the pool. */
  datatype PoolSetup = NoApp | Options(opts: map<string, Doc>)

  /** The options `_init_db_pool` builds from the configuration `cfg` and
      the runner's app, read step by step as the source does them. */
  function PoolOptionsOf(cfg: Doc, app: Option<string>): Result<PoolSetup, CfgError>
  {
    if !cfg.Table? then Err(AttributeError)
    else if "username" !in cfg.entries then Err(KeyError("username"))
    else
      var renamed := (cfg.entries - {"username"})["user" := cfg.entries["username"]];
      if "driver" !in renamed then Err(KeyError("driver"))
      else if app.None? then Ok(NoApp)
      else
        var c := (renamed - {"driver"})["database" := Str(app.value)];
        if "password" !in c then Err(KeyError("password")) else Ok(Options(c))
  }

  /** The pool options: `username` renamed to `user`, `driver` removed,
      `database` set to the app, `password` and every other key kept; the
      errors in the order the source meets them, and no app stops before
      the pool. */
  lemma PoolOptionsLaws(cfg: Doc, app: Option<string>)
    ensures !cfg.Table? ==> PoolOptionsOf(cfg, app) == Err(AttributeError)
    ensures cfg.Table? && "username" !in cfg.entries ==> PoolOptionsOf(cfg, app) == Err(KeyError("username"))
    ensures cfg.Table? && "username" in cfg.entries && "driver" !in cfg.entries ==>
      PoolOptionsOf(cfg, app) == Err(KeyError("driver"))
    ensures cfg.Table? && "username" in cfg.entries && "driver" in cfg.entries && app.None? ==>
      PoolOptionsOf(cfg, app) == Ok(NoApp)
    ensures (cfg.Table? && "username" in cfg.entries && "driver" in cfg.entries && app.Some?
             && "password" !in cfg.entries) ==> PoolOptionsOf(cfg, app) == Err(KeyError("password"))
    ensures (cfg.Table? && "username" in cfg.entries && "driver" in cfg.entries && app.Some?
             && "password" in cfg.entries) ==> PoolOptionsOf(cfg, app).Ok? && PoolOptionsOf(cfg, app).value.Options?
    ensures PoolOptionsOf(cfg, app).Ok? && PoolOptionsOf(cfg, app).value.Options? ==>
      var m := cfg.entries;
      var o := PoolOptionsOf(cfg, app).value.opts;
      && "username" in m && "driver" in m && "password" in m && app.Some?
      && o.Keys == m.Keys - {"username", "driver"} + {"user", "database"}
      && o["user"] == m["username"] && o["database"] == Str(app.value) && o["password"] == m["password"]
      && (forall k :: k in m && k !in {"username", "driver", "user", "database"} ==> o[k] == m[k])
  {
    if cfg.Table? && "username" in cfg.entries {
      var m := cfg.entries;
      var renamed := (m - {"username"})["user" := m["username"]];
      assert "driver" in renamed <==> "driver" in m;
      if "driver" in m && app.Some? {
        var c := (renamed - {"driver"})["database" := Str(app.value)];
        assert "password" in c <==> "password" in m;
        assert c.Keys == m.Keys - {"username", "driver"} + {"user", "database"};
      }
    }
  }

  /** An object-oriented interface to the runner's configuration. */
  class Runner {
    var env: Option<string>
    var rc: Option<string>
    var cfg: Doc
    var app: Option<string>
    var schemas: seq<string>

    /** `__init__` once `_init_cfg` has returned `cfg`; `schemas` defaults to `[]`. */
    constructor (cfg: Doc, env: Option<string>, rc: Option<string>, app: Option<string>, schemas: Option<seq<string>>)
      ensures this.env == env && this.rc == rc && this.cfg == cfg && this.app == app
      ensures this.schemas == if schemas.None? then [] else schemas.value
    {
      this.env := env;
      this.rc := rc;
      this.cfg := cfg;
      this.app := app;
      this.schemas := if schemas.None? then [] else schemas.value;
    }

    /** `Runner(cfg, env, rc, app, schemas)`: fails with the error `_init_cfg` raises. */
    static method Create(files: Files, cfg: Doc, env: Option<string>, rc: Option<string>,
                         app: Option<string>, schemas: Option<seq<string>>)
      returns (r: Result<Runner, CfgError>)
      ensures InitCfg(files, cfg, env, rc).Err? ==> r == Err(InitCfg(files, cfg, env, rc).error)
      ensures InitCfg(files, cfg, env, rc).Ok? ==>
        && r.Ok? && fresh(r.value)
        && r.value.cfg == InitCfg(files, cfg, env, rc).value
        && r.value.env == env && r.value.rc == rc && r.value.app == app
        && r.value.schemas == (if schemas.None? then [] else schemas.value)
    {
      var c := InitCfg(files, cfg, env, rc);
      if c.Err? {
        return Err(c.error);
      }
      var runner := new Runner(c.value, env, rc, app, schemas);
      return Ok(runner);
    }

    /** `db_str(dbname, schema)`. */
    function DbStr(dbname: Option<string>, schema: Option<string>, showDict: map<string, Doc> -> string)
      : (r: Result<string, CfgError>)
      reads this
      ensures r.Err? <==> !cfg.Table? || exists i :: 0 <= i < |UrlKeys(dbname)| && UrlKeys(dbname)[i] !in cfg.entries
    {
      UrlErrors(cfg, dbname, schema, showDict);
      Url(cfg, dbname, schema, showDict)
    }

    /** The setter part of `create_database(app)`. */
    method CreateDatabase(app: Option<string>)
      modifies this
      ensures this.app == Or(app, old(this.app))
      ensures env == old(env) && rc == old(rc) && cfg == old(cfg) && schemas == old(schemas)
    {
      this.app := Or(app, this.app);
    }

    /** The setter part of `create_schemas(app, schemas)`. */
    method CreateSchemas(app: Option<string>, schemas: Option<seq<string>>)
      modifies this
      ensures this.app == Or(app, old(this.app)) && this.schemas == OrList(schemas, old(this.schemas))
      ensures env == old(env) && rc == old(rc) && cfg == old(cfg)
    {
      this.app := Or(app, this.app);
      this.schemas := OrList(schemas, this.schemas);
    }

    /** The setter part of `init_schemas(app, schemas)`. */
    method InitSchemas(app: Option<string>, schemas: Option<seq<string>>)
      modifies this
      ensures this.app == Or(app, old(this.app)) && this.schemas == OrList(schemas, old(this.schemas))
      ensures env == old(env) && rc == old(rc) && cfg == old(cfg)
    {
      this.app := Or(app, this.app);
      this.schemas := OrList(schemas, this.schemas);
    }

    /** The pool options `_init_db_pool` builds on a copy of the
        configuration, as `PoolOptionsOf` states them. The configuration
        itself is left as it was: the method changes nothing. */
    method PoolOptions() returns (r: Result<PoolSetup, CfgError>)
      ensures r == PoolOptionsOf(cfg, app)
    {
      if !cfg.Table? {
        return Err(AttributeError);
      }
      var c := cfg.entries;
      if "username" !in c {
        return Err(KeyError("username"));
      }
      var user := c["username"];
      c := c - {"username"};
      c := c["user" := user];
      if "driver" !in c {
        return Err(KeyError("driver"));
      }
      c := c - {"driver"};
      if app.None? {
        return Ok(NoApp);
      }
      c := c["database" := Str(app.value)];
      if "password" !in c {
        return Err(KeyError("password"));
      }
      var before := c;
      var pw := c["password"];
      c := c - {"password"};
      c := c["password" := pw];
      assert c == before;
      return Ok(Options(c));
    }

    /** `init_db_pool(app)` up to the pool call. */
    method InitDbPool(app: Option<string>) returns (r: Result<PoolSetup, CfgError>)
      modifies this
      ensures this.app == Or(app, old(this.app))
      ensures env == old(env) && rc == old(rc) && cfg == old(cfg) && schemas == old(schemas)
      ensures r == PoolOptionsOf(cfg, this.app)
    {
      this.app := Or(app, this.app);
      r := PoolOptions();
    }
  }
}
