/**
 * The facade of pyreportjasper/pyreportjasper.py: `config` validates its arguments and builds a
 * fresh configuration record; `process_report` prefers a compiled `.jasper` sibling of a
 * `.jrxml` input, fills the report and runs the requested exports in order.
 * The reporting engine is a collaborator whose only visible effects are its failures
 * (parameters `fillFails` and `failing`) and the exports it performs (tokens `Exported(f)`).
 */
module ReportJasper {
  import opened Wrappers
  import opened PyValues
  import opened ConfigRecord
  import opened Formats
  import opened PosixPath

  /** The errors `config` raises. */
  datatype ConfigError =
    | NotCallable      // `self.config` already holds a record, which shadows the method
    | NoInputFile      // "No input file!"
    | InvalidFormat    // "Invalid format!"
    | FormatsNotList   // "'output_formats' value is not list!"

  /** The errors raised while running the exports. */
  datatype ExportError =
    | NotImplemented(entry: Value)  // no entry in the export table
    | ExportRaised(format: Format)  // the engine's export raised

  /** The errors `process_report` raises. */
  datatype ProcessError =
    | NotConfigured                     // `config` has not run: `self.config` is still the method
    | InputNotAPath                     // `os.path.splitext` raises `TypeError` for a value that is no path
    | NotAFile(path: string)            // "Error: not a file"
    | FillFailed                        // "Error fill report"
    | ExportFailed(cause: ExportError)  // "Error export format"
    | NoExportResult                    // no export ran, so `data` is unbound at `return data`

  // ---------------------------------------------------------------------------------------------
  // config: validation

  /** The checks `config` makes before touching anything, in the order it makes them. */
  function CheckArguments(inputFile: Value, outputFormats: Value): (r: Option<ConfigError>)
    ensures r == None <==>
      Truthy(inputFile) && outputFormats.List? &&
      forall j :: 0 <= j < |outputFormats.items| ==> Accepted(outputFormats.items[j])
    ensures !Truthy(inputFile) ==> r == Some(NoInputFile)
    ensures Truthy(inputFile) && !outputFormats.List? ==> r == Some(FormatsNotList)
    ensures r == Some(InvalidFormat) <==>
      Truthy(inputFile) && outputFormats.List? &&
      exists j :: 0 <= j < |outputFormats.items| && !Accepted(outputFormats.items[j])
  {
    if !Truthy(inputFile) then Some(NoInputFile)
    else if !outputFormats.List? then Some(FormatsNotList)
    else if exists j :: 0 <= j < |outputFormats.items| && !Accepted(outputFormats.items[j]) then
      Some(InvalidFormat)
    else None
  }

  // ---------------------------------------------------------------------------------------------
  // config: db_connection

  /** `mapping`: the configuration attribute each `db_connection` key sets. */
  const MAPPING: map<string, string> :=
    map["driver" := "dbType", "username" := "dbUser", "password" := "dbPasswd",
        "host" := "dbHost", "database" := "dbName", "port" := "dbPort",
        "jdbc_driver" := "dbDriver", "jdbc_url" := "dbUrl", "jdbc_dir" := "jdbcDir",
        "db_sid" := "dbSid", "xml_xpath" := "xmlXpath", "data_file" := "dataFile",
        "data_url" := "data_url", "json_query" := "jsonQuery", "jsonql_query" := "jsonQLQuery",
        "csv_columns" := "csvColumns", "csv_record_del" := "csvRecordDel",
        "csv_field_del" := "csvFieldDel", "csv_out_field_del" := "outFieldDel",
        "csv_charset" := "csvCharset", "csv_out_charset" := "outCharset"]

  /**
   * `mapping` read backwards: the `db_connection` key that sets each attribute. It is a second
   * copy of the table, kept so that proofs look attributes up directly instead of searching
   * `MAPPING`; MappingRoundTrip and AttributeRoundTrip keep the two in step.
   */
  const ATTRIBUTE_KEYS: map<string, string> :=
    map["dbType" := "driver", "dbUser" := "username", "dbPasswd" := "password",
        "dbHost" := "host", "dbName" := "database", "dbPort" := "port",
        "dbDriver" := "jdbc_driver", "dbUrl" := "jdbc_url", "jdbcDir" := "jdbc_dir",
        "dbSid" := "db_sid", "xmlXpath" := "xml_xpath", "dataFile" := "data_file",
        "data_url" := "data_url", "jsonQuery" := "json_query", "jsonQLQuery" := "jsonql_query",
        "csvColumns" := "csv_columns", "csvRecordDel" := "csv_record_del",
        "csvFieldDel" := "csv_field_del", "outFieldDel" := "csv_out_field_del",
        "csvCharset" := "csv_charset", "outCharset" := "csv_out_charset"]

  /** Following a key to its attribute and back leads to the same key. */
  lemma MappingRoundTrip()
    ensures forall k :: k in MAPPING ==> MAPPING[k] in ATTRIBUTE_KEYS && ATTRIBUTE_KEYS[MAPPING[k]] == k
  {
  }

  /** Following an attribute to its key and back leads to the same attribute. */
  lemma AttributeRoundTrip()
    ensures forall a :: a in ATTRIBUTE_KEYS ==> ATTRIBUTE_KEYS[a] in MAPPING && MAPPING[ATTRIBUTE_KEYS[a]] == a
  {
  }

  /** The mapped attributes the `db_connection` loop assigns, each with its key's value. */
  function Assigned(db: map<string, Value>): map<string, Value>
  {
    map a | a in ATTRIBUTE_KEYS && ATTRIBUTE_KEYS[a] in db :: db[ATTRIBUTE_KEYS[a]]
  }

  /**
   * Everything the `db_connection` loop assigns: the mapped attributes, and `csvFirstRow`
   * set to `True` when `csv_first_row` is present, whatever its value.
   */
  function Updates(db: map<string, Value>): map<string, Value>
  {
    Assigned(db) + CsvUpdate(db)
  }

  /** A key added to `db` adds its mapped attribute, and nothing when it is unmapped. */
  lemma AssignedExtend(db: map<string, Value>, key: string, value: Value)
    requires key !in db
    ensures Assigned(db[key := value]) ==
      if key in MAPPING then Assigned(db)[MAPPING[key] := value] else Assigned(db)
  {
    AttributeRoundTrip();
    if key in MAPPING {
      MappingRoundTrip();
      var a0 := MAPPING[key];
      assert ATTRIBUTE_KEYS[a0] == key;
      forall a | a in ATTRIBUTE_KEYS
        ensures ATTRIBUTE_KEYS[a] == key <==> a == a0
      {
      }
    }
  }

  /** The record after the `db_connection` loop. */
  function Populate(c: Config, db: map<string, Value>): Config
  {
    Config(c.own + Updates(db))
  }

  /** The `csv_first_row` entry of `db`, as an update of `csvFirstRow`. */
  function CsvUpdate(db: map<string, Value>): map<string, Value>
  {
    if "csv_first_row" in db then map["csvFirstRow" := Bool(true)] else map[]
  }

  /** One more mapped key for the loop: its attribute is set, as the loop body's `setattr` does. */
  lemma PopulateExtendMapped(c: Config, db: map<string, Value>, key: string, value: Value)
    requires key !in db && key in MAPPING
    ensures Populate(c, db[key := value]) == Populate(c, db).Set(MAPPING[key], value)
  {
    AssignedExtend(db, key, value);
    CsvFirstRowIsSpecial();
    var a0 := MAPPING[key];
    assert a0 != "csvFirstRow" by { MappingRoundTrip(); }
    var mapped, csv := Assigned(db), CsvUpdate(db);
    assert Assigned(db[key := value]) == mapped[a0 := value];
    assert CsvUpdate(db[key := value]) == csv;
    UpdateBeforeUnion(mapped, csv, a0, value);
    UpdateAfterUnion(c.own, mapped + csv, a0, value);
  }

  /** One more `csv_first_row` key for the loop: `csvFirstRow` becomes `True`. */
  lemma PopulateExtendCsv(c: Config, db: map<string, Value>, value: Value)
    requires "csv_first_row" !in db
    ensures Populate(c, db["csv_first_row" := value]) == Populate(c, db).Set("csvFirstRow", Bool(true))
  {
    CsvFirstRowIsSpecial();
    AssignedExtend(db, "csv_first_row", value);
    var mapped, csv := Assigned(db), CsvUpdate(db);
    var flag := map["csvFirstRow" := Bool(true)];
    assert Assigned(db["csv_first_row" := value]) == mapped;
    assert CsvUpdate(db["csv_first_row" := value]) == flag == csv["csvFirstRow" := Bool(true)];
    UpdateAfterUnion(mapped, csv, "csvFirstRow", Bool(true));
    UpdateAfterUnion(c.own, mapped + csv, "csvFirstRow", Bool(true));
  }

  /** One more key the loop ignores: nothing changes. */
  lemma PopulateExtendIgnored(c: Config, db: map<string, Value>, key: string, value: Value)
    requires key !in db && key !in MAPPING && key != "csv_first_row"
    ensures Populate(c, db[key := value]) == Populate(c, db)
  {
    AssignedExtend(db, key, value);
  }

  /** Updating the right operand of a union updates the union. */
  lemma UpdateAfterUnion<K, V>(m: map<K, V>, n: map<K, V>, k: K, v: V)
    ensures m + n[k := v] == (m + n)[k := v]
  {
  }

  /** Updating the left operand of a union updates the union, when the right one lacks the key. */
  lemma UpdateBeforeUnion<K, V>(m: map<K, V>, n: map<K, V>, k: K, v: V)
    requires k !in n
    ensures m[k := v] + n == (m + n)[k := v]
  {
  }

  /** `csv_first_row` is not in the mapping table, and no mapped key sets `csvFirstRow`. */
  lemma CsvFirstRowIsSpecial()
    ensures "csv_first_row" !in MAPPING && "csvFirstRow" !in ATTRIBUTE_KEYS
  {
  }

  /**
   * One pass of the `db_connection` loop's body: `setattr` for a mapped key, `csvFirstRow = True`
   * for `csv_first_row`, nothing for any other key. Applied to the record built from the entries
   * `done`, it builds the record for one entry more.
   */
  method ApplyEntry(ghost base: Config, ghost done: map<string, Value>, c: Config, key: string, value: Value)
    returns (r: Config)
    requires key !in done && c == Populate(base, done)
    ensures r == Populate(base, done[key := value])
  {
    if key in MAPPING {
      r := c.Set(MAPPING[key], value);
      PopulateExtendMapped(base, done, key, value);
    } else if key == "csv_first_row" {
      r := c.Set("csvFirstRow", Bool(true));
      PopulateExtendCsv(base, done, value);
    } else {
      r := c;
      PopulateExtendIgnored(base, done, key, value);
    }
  }

  /** An empty `db_connection` changes nothing. */
  lemma PopulateNothing(c: Config)
    ensures Populate(c, map[]) == c
  {
    assert Assigned(map[]) == map[];
  }

  /**
   * The `db_connection` loop: `setattr` for each mapped key, `csvFirstRow = True` for
   * `csv_first_row`, nothing for any other key. The keys are visited in an arbitrary order,
   * and the result is the same for every order.
   */
  method ApplyDbConnection(base: Config, db: map<string, Value>) returns (c: Config)
    ensures c == Populate(base, db)
  {
    c := base;
    var todo := db.Keys;
    assert db - todo == map[];
    PopulateNothing(base);
    while todo != {}
      invariant todo <= db.Keys
      invariant c == Populate(base, db - todo)
      decreases todo
    {
      var key :| key in todo;
      var value := db[key];
      c := ApplyEntry(base, db - todo, c, key, value);
      assert (db - todo)[key := value] == db - (todo - {key});
      todo := todo - {key};
    }
    assert db - todo == db;
  }

  /** The arguments of one `config(...)` call, `db_connection` among them. */
  datatype ConfigArgs = ConfigArgs(inputFile: Value, outputFile: Value, outputFormats: Value,
                                   parameters: Value, db: map<string, Value>, locale: Value,
                                   resource: Value, subreports: Value, jvmOpts: Value)

  /** The record `config` builds before looking at `db_connection`, assignment by assignment. */
  function Initial(a: ConfigArgs): (r: Config)
    ensures r.Attr("input") == Some(a.inputFile) && r.Attr("outputFormats") == Some(a.outputFormats)
    ensures r.Attr("output") == Some(if Truthy(a.outputFile) then a.outputFile else a.inputFile)
  {
    New()
      .Set("input", a.inputFile)
      .Set("subreports", if Truthy(a.subreports) then a.subreports else Dict(map[]))
      .Set("locale", a.locale)
      .Set("resource", a.resource)
      .Set("outputFormats", a.outputFormats)
      .Set("output", if Truthy(a.outputFile) then a.outputFile else a.inputFile)
      .Set("params", a.parameters)
  }

  /** The attributes `config` does not set from its arguments keep the class defaults. */
  lemma InitialKeepsDefaults(a: ConfigArgs, name: string)
    requires name != "input" && name != "subreports" && name != "locale" && name != "resource"
    requires name != "outputFormats" && name != "output" && name != "params"
    ensures Initial(a).Attr(name) == New().Attr(name)
  {
  }

  /** The record `config` stores: `db_connection` and `jvm_opts` are applied only when `db_connection` is non-empty. */
  function Configured(a: ConfigArgs): (r: Config)
    ensures forall name :: OutsideTable(name) && name != "jvm_opts" ==> r.Attr(name) == Initial(a).Attr(name)
  {
    var c := Initial(a);
    if |a.db| > 0 then Populate(c, a.db).Set("jvm_opts", a.jvmOpts) else c
  }

  // ---------------------------------------------------------------------------------------------
  // process_report: input rewrite

  /** A `.jrxml` input is replaced by its `.jasper` sibling when that file exists. */
  function RewriteInput(input: string, existing: set<string>): (r: string)
    ensures r == input ||
            (SplitExt(input).1 == ".jrxml" && r == SplitExt(input).0 + ".jasper" && r in existing)
  {
    var (root, ext) := SplitExt(input);
    if ext == ".jrxml" && root + ".jasper" in existing then root + ".jasper" else input
  }

  // ---------------------------------------------------------------------------------------------
  // process_report: format dispatch

  /** The export for entry `v` is found and does not raise. */
  predicate Exports(v: Value, failing: set<Format>)
  {
    Lookup(v).Some? && Lookup(v).value !in failing
  }

  /** The position of the first entry whose export is missing or raises, or `|formats|`. */
  function FirstFailure(formats: seq<Value>, failing: set<Format>): (k: nat)
    ensures k <= |formats|
    ensures forall j :: 0 <= j < k ==> Exports(formats[j], failing)
    ensures k < |formats| ==> !Exports(formats[k], failing)
  {
    if formats == [] || !Exports(formats[0], failing) then 0
    else 1 + FirstFailure(formats[1..], failing)
  }

  /** The exports of the first `n` entries, which all have one. */
  function Invoked(formats: seq<Value>, n: nat): seq<Format>
    requires n <= |formats|
    requires forall j :: 0 <= j < n ==> Lookup(formats[j]).Some?
  {
    seq(n, j requires 0 <= j < n => Lookup(formats[j]).value)
  }

  /** The exports invoked, in order: every entry up to the first failure, and the one that raised. */
  function Attempted(formats: seq<Value>, failing: set<Format>): seq<Format>
  {
    var k := FirstFailure(formats, failing);
    Invoked(formats, k) +
    if k < |formats| && Lookup(formats[k]).Some? then [Lookup(formats[k]).value] else []
  }

  /** What the export loop leaves: the first failure, or the last export's result, or none at all. */
  function ExportOutcome(formats: seq<Value>, failing: set<Format>): (r: Result<Option<Export>, ExportError>)
    ensures r.Ok? <==> forall j :: 0 <= j < |formats| ==> Exports(formats[j], failing)
    ensures r == Ok(None) <==> formats == []
    ensures r.Ok? && formats != [] ==>
      Lookup(formats[|formats| - 1]).Some? &&
      r.value == Some(Exported(Lookup(formats[|formats| - 1]).value))
  {
    var k := FirstFailure(formats, failing);
    if k < |formats| then
      Err(if Lookup(formats[k]).None? then NotImplemented(formats[k]) else ExportRaised(Lookup(formats[k]).value))
    else if k == 0 then Ok(None)
    else Ok(Some(Exported(Lookup(formats[k - 1]).value)))
  }

  /**
   * The export loop of `process_report`: look each entry up, raise for a missing one, call the
   * export and keep its result in `data`, so that only the last result survives.
   */
  method Dispatch(formats: seq<Value>, failing: set<Format>)
    returns (r: Result<Option<Export>, ExportError>, calls: seq<Format>)
    ensures r == ExportOutcome(formats, failing)
    ensures calls == Attempted(formats, failing)
  {
    var data: Option<Export> := None;
    calls := [];
    var i := 0;
    while i < |formats|
      invariant i <= FirstFailure(formats, failing)
      invariant calls == Invoked(formats, i)
      invariant data == if i == 0 then None else Some(Exported(Lookup(formats[i - 1]).value))
    {
      var f := Lookup(formats[i]);
      if f.None? {
        return Err(NotImplemented(formats[i])), calls;
      }
      calls := calls + [f.value];
      if f.value in failing {
        return Err(ExportRaised(f.value)), calls;
      }
      data := Some(Exported(f.value));
      i := i + 1;
    }
    r := Ok(data);
  }

  /** How `process_report` ends once the exports have run. */
  function Finish(outcome: Result<Option<Export>, ExportError>): (r: Result<Export, ProcessError>)
    ensures r.Ok? <==> outcome.Ok? && outcome.value.Some?
    ensures r.Ok? ==> r.value == outcome.value.value
    ensures outcome.Ok? && outcome.value.None? ==> r == Err(NoExportResult)
    ensures outcome.Err? ==> r == Err(ExportFailed(outcome.error))
  {
    match outcome
    case Ok(Some(e)) => Ok(e)
    case Ok(None) => Err(NoExportResult)
    case Err(e) => Err(ExportFailed(e))
  }

  // ---------------------------------------------------------------------------------------------
  // The facade object

  /** What every record `config` stores satisfies: an input and an output, and accepted formats. */
  predicate Consistent(c: Config)
  {
    Truthy(c.Field("input")) && Truthy(c.Field("output")) && c.Field("outputFormats").List? &&
    forall j :: 0 <= j < |c.Field("outputFormats").items| ==> Accepted(c.Field("outputFormats").items[j])
  }

  class PyReportJasper {
    /**
     * `self.config`: no record until `config` has run. The class attribute `config = None` is
     * rebound by the method of the same name, and the record stored by the first call then
     * shadows that method on the instance.
     */
    var config: Option<Config>

    ghost predicate Valid()
      reads this
    {
      config.Some? ==> Consistent(config.value)
    }

    constructor ()
      ensures Valid() && config == None
    {
      config := None;
    }

    /** `config(...)`: validate, then replace the record and fill it in. */
    method Configure(inputFile: Value, outputFile: Value := Bool(false),
                     outputFormats: Value := List([Str("pdf")]), parameters: Value := Dict(map[]),
                     dbConnection: map<string, Value> := map[], locale: Value := Str("en_US"),
                     resource: Value := Nil, subreports: Value := Nil, jvmOpts: Value := Tuple([]))
      returns (err: Option<ConfigError>)
      requires Valid()
      modifies this
      ensures Valid()
      ensures old(config).Some? ==> err == Some(NotCallable)
      ensures old(config).None? ==> err == CheckArguments(inputFile, outputFormats)
      ensures err.Some? ==> config == old(config)
      ensures err.None? ==>
        config == Some(Configured(ConfigArgs(inputFile, outputFile, outputFormats, parameters,
                                             dbConnection, locale, resource, subreports, jvmOpts)))
    {
      if config.Some? {
        return Some(NotCallable);
      }
      err := CheckArguments(inputFile, outputFormats);
      if err.Some? {
        return;
      }
      var c := New();
      c := c.Set("input", inputFile);
      c := c.Set("subreports", if Truthy(subreports) then subreports else Dict(map[]));
      c := c.Set("locale", locale);
      c := c.Set("resource", resource);
      c := c.Set("outputFormats", outputFormats);
      if Truthy(outputFile) {
        c := c.Set("output", outputFile);
      } else {
        c := c.Set("output", inputFile);
      }
      c := c.Set("params", parameters);
      if |dbConnection| > 0 {
        c := ApplyDbConnection(c, dbConnection);
        c := c.Set("jvm_opts", jvmOpts);
      }
      ConfiguredIsConsistent(ConfigArgs(inputFile, outputFile, outputFormats, parameters,
                                        dbConnection, locale, resource, subreports, jvmOpts));
      config := Some(c);
    }

    /**
     * `process_report()`: rewrite the input, check that it is a file, fill the report, run the
     * exports. `existing` is the set of paths that are files; `fillFails` and `failing` say
     * which of the engine's calls raise.
     */
    method ProcessReport(existing: set<string>, fillFails: bool, failing: set<Format>)
      returns (r: Result<Export, ProcessError>, exports: seq<Format>)
      requires Valid()
      modifies this
      ensures Valid()
      ensures old(config).None? ==> config == old(config) && r == Err(NotConfigured) && exports == []
      ensures old(config).Some? && !old(config).value.Field("input").Str? ==>
        config == old(config) && r == Err(InputNotAPath) && exports == []
      ensures old(config).Some? && old(config).value.Field("input").Str? ==>
        var path := RewriteInput(old(config).value.Field("input").s, existing);
        var formats := old(config).value.Field("outputFormats").items;
        && config == (if path == old(config).value.Field("input").s then old(config)
                      else Some(old(config).value.Set("input", Str(path))))
        && (path !in existing ==> r == Err(NotAFile(path)) && exports == [])
        && (path in existing && fillFails ==> r == Err(FillFailed) && exports == [])
        && (path in existing && !fillFails ==>
              r == Finish(ExportOutcome(formats, failing)) && exports == Attempted(formats, failing))
      ensures !(r.Err? && r.error.ExportFailed? && r.error.cause.NotImplemented?)
    {
      exports := [];
      if config.None? {
        return Err(NotConfigured), exports;
      }
      var c := config.value;
      if !c.Field("input").Str? {
        return Err(InputNotAPath), exports;
      }
      var (root, ext) := SplitExt(c.Field("input").s);
      if ext == ".jrxml" {
        var newInput := root + ".jasper";
        if newInput in existing {
          c := c.Set("input", Str(newInput));
          config := Some(c);
        }
      }
      if c.Field("input").s !in existing {
        return Err(NotAFile(c.Field("input").s)), exports;
      }
      if fillFails {
        return Err(FillFailed), exports;
      }
      AcceptedFormatsAreImplemented(c.Field("outputFormats").items, failing);
      var outcome;
      outcome, exports := Dispatch(c.Field("outputFormats").items, failing);
      r := Finish(outcome);
    }
  }

  // ---------------------------------------------------------------------------------------------
  // Properties

  /** The loop sets every mapped attribute whose key is present to that key's value. */
  lemma PopulateSetsMapped(c: Config, db: map<string, Value>, key: string)
    requires key in db && key in MAPPING
    ensures Populate(c, db).Attr(MAPPING[key]) == Some(db[key])
  {
    MappingRoundTrip();
    CsvFirstRowIsSpecial();
  }

  /** `csvFirstRow` becomes `True` whenever `csv_first_row` is present, whatever its value. */
  lemma PopulateSetsCsvFirstRow(c: Config, db: map<string, Value>)
    requires "csv_first_row" in db
    ensures Populate(c, db).Attr("csvFirstRow") == Some(Bool(true))
  {
  }

  /** Every attribute that no present key maps to, other than `csvFirstRow`, reads as before. */
  lemma PopulateKeepsOthers(c: Config, db: map<string, Value>, name: string)
    requires forall key :: key in db && key in MAPPING ==> MAPPING[key] != name
    requires name == "csvFirstRow" ==> "csv_first_row" !in db
    ensures Populate(c, db).Attr(name) == c.Attr(name)
  {
    AttributeRoundTrip();
    assert name !in Assigned(db);
  }

  /** A key outside the table, other than `csv_first_row`, changes nothing, whatever its value. */
  lemma PopulateIgnoresUnmapped(c: Config, db: map<string, Value>, key: string, value: Value)
    requires key !in MAPPING && key != "csv_first_row"
    ensures Populate(c, db[key := value]) == Populate(c, db)
  {
    AttributeRoundTrip();
    assert Assigned(db[key := value]) == Assigned(db);
    assert CsvUpdate(db[key := value]) == CsvUpdate(db);
  }

  /** An attribute neither the table nor `csv_first_row` can set. */
  predicate OutsideTable(name: string)
  {
    name !in ATTRIBUTE_KEYS && name != "csvFirstRow"
  }

  /** Attributes outside the table read after the loop as before it. */
  lemma PopulateKeepsOutside(c: Config, db: map<string, Value>, name: string)
    requires OutsideTable(name)
    ensures Populate(c, db).Attr(name) == c.Attr(name)
  {
  }

  /** The attributes `process_report` relies on are not in the table. */
  lemma ArgumentAttributesOutsideTable()
    ensures OutsideTable("input") && OutsideTable("output") && OutsideTable("outputFormats")
    ensures OutsideTable("jvm_opts")
  {
  }

  /** The key `data_url` sets the attribute `data_url`. */
  lemma DataUrlMapsToItself()
    ensures "data_url" in MAPPING && MAPPING["data_url"] == "data_url"
  {
  }

  /** No key of the table sets `dataURL`. */
  lemma DataURLOutsideTable()
    ensures OutsideTable("dataURL")
  {
  }

  /** The other attributes `config` sets from its arguments are not in the table either. */
  lemma OptionAttributesOutsideTable()
    ensures OutsideTable("locale") && OutsideTable("resource") && OutsideTable("params")
    ensures OutsideTable("subreports")
  {
  }

  /** `config` leaves the attributes outside the table, other than `jvm_opts`, as it first set them. */
  lemma ConfiguredKeepsInitial(a: ConfigArgs, name: string)
    requires OutsideTable(name) && name != "jvm_opts"
    ensures Configured(a).Attr(name) == Initial(a).Attr(name)
  {
    var c := Initial(a);
    PopulateKeepsOutside(c, a.db, name);
  }

  /** Every record `config` stores is consistent. */
  lemma ConfiguredIsConsistent(a: ConfigArgs)
    requires CheckArguments(a.inputFile, a.outputFormats) == None
    ensures Consistent(Configured(a))
  {
    ArgumentAttributesOutsideTable();
    ConfiguredKeepsInitial(a, "input");
    ConfiguredKeepsInitial(a, "output");
    ConfiguredKeepsInitial(a, "outputFormats");
  }

  /** The output is `output_file` when it is truthy, and the input otherwise; so a configured record has an output. */
  lemma ConfiguredOutput(a: ConfigArgs)
    ensures Configured(a).Attr("output") ==
            Some(if Truthy(a.outputFile) then a.outputFile else a.inputFile)
    ensures CheckArguments(a.inputFile, a.outputFormats) == None ==>
            Configured(a).HasOutput()
  {
    ArgumentAttributesOutsideTable();
    ConfiguredKeepsInitial(a, "output");
  }

  /** `config` stores the input, the formats and the parameters as given. */
  lemma ConfiguredArguments(a: ConfigArgs)
    ensures var c := Configured(a);
      && c.Attr("input") == Some(a.inputFile)
      && c.Attr("outputFormats") == Some(a.outputFormats)
      && c.Attr("params") == Some(a.parameters)
  {
    ArgumentAttributesOutsideTable();
    OptionAttributesOutsideTable();
    ConfiguredKeepsInitial(a, "input");
    ConfiguredKeepsInitial(a, "outputFormats");
    ConfiguredKeepsInitial(a, "params");
  }

  /** `config` stores the locale and the resource as given, and `subreports` or an empty dict when it is falsy. */
  lemma ConfiguredOptions(a: ConfigArgs)
    ensures var c := Configured(a);
      && c.Attr("locale") == Some(a.locale)
      && c.Attr("resource") == Some(a.resource)
      && c.Attr("subreports") == Some(if Truthy(a.subreports) then a.subreports else Dict(map[]))
  {
    OptionAttributesOutsideTable();
    ConfiguredKeepsInitial(a, "locale");
    ConfiguredKeepsInitial(a, "resource");
    ConfiguredKeepsInitial(a, "subreports");
  }

  /** Each mapped key of `db_connection` sets its attribute to the key's value. */
  lemma ConfiguredMapped(a: ConfigArgs, key: string)
    requires key in a.db && key in MAPPING
    ensures Configured(a).Attr(MAPPING[key]) == Some(a.db[key])
  {
    var c := Initial(a);
    PopulateSetsMapped(c, a.db, key);
    MappingRoundTrip();
    ArgumentAttributesOutsideTable();
  }

  /** `csv_first_row` in `db_connection` sets `csvFirstRow` to `True`, whatever its value. */
  lemma ConfiguredCsvFirstRow(a: ConfigArgs)
    requires "csv_first_row" in a.db
    ensures Configured(a).Attr("csvFirstRow") == Some(Bool(true))
  {
    var c := Initial(a);
    PopulateSetsCsvFirstRow(c, a.db);
  }

  /** `jvm_opts` is stored only when `db_connection` is non-empty; otherwise it keeps the empty tuple. */
  lemma ConfiguredJvmOpts(a: ConfigArgs)
    ensures Configured(a).Attr("jvm_opts") ==
            Some(if |a.db| > 0 then a.jvmOpts else Tuple([]))
  {
    if |a.db| == 0 {
      InitialKeepsDefaults(a, "jvm_opts");
      NewConfigContainers();
    }
  }

  /**
   * Once `db_connection` is non-empty, a key outside the table other than `csv_first_row`
   * changes nothing; an empty `db_connection` is different, as one such key makes `config`
   * store `jvm_opts`.
   */
  lemma ConfiguredIgnoresUnmapped(a: ConfigArgs, key: string, value: Value)
    requires |a.db| > 0 && key !in MAPPING && key != "csv_first_row"
    ensures Configured(a.(db := a.db[key := value])) == Configured(a)
  {
    var c := Initial(a);
    PopulateIgnoresUnmapped(c, a.db, key, value);
    assert |a.db[key := value]| > 0 by {
      assert key in a.db[key := value];
    }
  }

  /** No present key maps to an attribute whose own key is absent. */
  lemma AbsentKeySetsNothing(db: map<string, Value>, name: string)
    requires name in ATTRIBUTE_KEYS && ATTRIBUTE_KEYS[name] !in db
    ensures forall key :: key in db && key in MAPPING ==> MAPPING[key] != name
  {
    MappingRoundTrip();
  }

  /** A table attribute whose `db_connection` key is absent reads its class default after `config`. */
  lemma ConfiguredKeepsAbsent(a: ConfigArgs, name: string)
    requires name in ATTRIBUTE_KEYS && ATTRIBUTE_KEYS[name] !in a.db
    ensures Configured(a).Attr(name) == New().Attr(name)
  {
    ArgumentAttributesOutsideTable();
    OptionAttributesOutsideTable();
    InitialKeepsDefaults(a, name);
    if |a.db| > 0 {
      AbsentKeySetsNothing(a.db, name);
      PopulateKeepsOthers(Initial(a), a.db, name);
    }
  }

  /** Without `csv_first_row`, `csvFirstRow` keeps its class default `None`. */
  lemma ConfiguredCsvFirstRowAbsent(a: ConfigArgs)
    requires "csv_first_row" !in a.db
    ensures Configured(a).Attr("csvFirstRow") == Some(Nil)
  {
    CsvFirstRowIsSpecial();
    InitialKeepsDefaults(a, "csvFirstRow");
    CsvFirstRowDefault();
    if |a.db| > 0 {
      PopulateKeepsOthers(Initial(a), a.db, "csvFirstRow");
    }
  }

  /** `data_url` in `db_connection` is stored under the attribute `data_url`. */
  lemma ConfiguredDataUrl(a: ConfigArgs)
    requires "data_url" in a.db
    ensures Configured(a).Attr("data_url") == Some(a.db["data_url"])
  {
    DataUrlMapsToItself();
    ConfiguredMapped(a, "data_url");
  }

  /** The class attribute `dataURL` stays `None` whatever `config` is given. */
  lemma ConfiguredLeavesDataURL(a: ConfigArgs)
    ensures Configured(a).Attr("dataURL") == Some(Nil)
  {
    DataURLOutsideTable();
    ConfiguredKeepsInitial(a, "dataURL");
    InitialKeepsDefaults(a, "dataURL");
    DataUrlIsNoClassAttribute();
  }

  /** Every list `config` accepts dispatches without reaching "not implemented". */
  lemma AcceptedFormatsAreImplemented(formats: seq<Value>, failing: set<Format>)
    requires forall j :: 0 <= j < |formats| ==> Accepted(formats[j])
    ensures !(ExportOutcome(formats, failing).Err? && ExportOutcome(formats, failing).error.NotImplemented?)
    ensures failing == {} ==> ExportOutcome(formats, failing).Ok?
  {
  }

  /** A `.jrxml` input whose compiled `.jasper` sibling exists is replaced by that sibling. */
  lemma RewriteCompiled(stem: string, existing: set<string>)
    requires HasStem(stem) && stem + ".jasper" in existing
    ensures RewriteInput(stem + ".jrxml", existing) == stem + ".jasper"
  {
    SplitExtOfStem(stem, ".jrxml");
  }

  /** Without its compiled sibling a `.jrxml` input is kept. */
  lemma RewriteNeedsSibling(stem: string, existing: set<string>)
    requires HasStem(stem) && stem + ".jasper" !in existing
    ensures RewriteInput(stem + ".jrxml", existing) == stem + ".jrxml"
  {
    SplitExtOfStem(stem, ".jrxml");
  }

  /** The input changes exactly when its extension is `.jrxml` and the sibling exists, and then it names that file. */
  lemma RewriteOnlyJrxml(input: string, existing: set<string>)
    ensures RewriteInput(input, existing) != input <==>
            SplitExt(input).1 == ".jrxml" && SplitExt(input).0 + ".jasper" in existing
    ensures RewriteInput(input, existing) != input ==>
            RewriteInput(input, existing) == SplitExt(input).0 + ".jasper" &&
            RewriteInput(input, existing) in existing
  {
    var (root, ext) := SplitExt(input);
    assert |root + ".jasper"| == |root| + 7 && |input| == |root| + |ext|;
  }

  /** A hidden file named `.jrxml` has no extension, so it is never rewritten. */
  lemma RewriteKeepsDotFile(existing: set<string>)
    ensures RewriteInput(".jrxml", existing) == ".jrxml"
  {
    assert RFind(".jrxml", '/') == -1;
    assert ".jrxml"[0] == '.';
    assert RFind(".jrxml", '.') == 0;
  }

  /** When every export runs, they run in the order given and the last one's result is returned. */
  lemma AllExportsRun(formats: seq<Value>, failing: set<Format>)
    requires |formats| > 0
    requires forall j :: 0 <= j < |formats| ==> Exports(formats[j], failing)
    ensures var last := Lookup(formats[|formats| - 1]);
      last.Some? && ExportOutcome(formats, failing) == Ok(Some(Exported(last.value)))
    ensures |Attempted(formats, failing)| == |formats|
    ensures forall j :: 0 <= j < |formats| ==> Attempted(formats, failing)[j] == Lookup(formats[j]).value
  {
  }

  /** The first entry whose export is missing or raises decides the error; the entries before it have run. */
  lemma FirstFailureDecides(formats: seq<Value>, failing: set<Format>, k: nat)
    requires k < |formats| && !Exports(formats[k], failing)
    requires forall j :: 0 <= j < k ==> Exports(formats[j], failing)
    ensures Lookup(formats[k]).None? ==>
      ExportOutcome(formats, failing) == Err(NotImplemented(formats[k])) &&
      Attempted(formats, failing) == Invoked(formats, k)
    ensures Lookup(formats[k]).Some? ==>
      ExportOutcome(formats, failing) == Err(ExportRaised(Lookup(formats[k]).value)) &&
      Attempted(formats, failing) == Invoked(formats, k) + [Lookup(formats[k]).value]
  {
    assert FirstFailure(formats, failing) == k;
  }

  /** An empty format list passes `config`, yet leaves `process_report` without a result to return. */
  lemma EmptyFormatsHaveNoResult(inputFile: Value, failing: set<Format>)
    requires Truthy(inputFile)
    ensures CheckArguments(inputFile, List([])) == None
    ensures Finish(ExportOutcome([], failing)) == Err(NoExportResult) && Attempted([], failing) == []
  {
  }

  /** `["pdf", "xls"]` exports a PDF and then an XLS file, and returns the XLS result. */
  lemma PdfThenXls()
    ensures Finish(ExportOutcome([Str("pdf"), Str("xls")], {})) == Ok(Exported(Xls))
    ensures Attempted([Str("pdf"), Str("xls")], {}) == [Pdf, Xls]
  {
    LookupName(Pdf);
    LookupName(Xls);
    AllExportsRun([Str("pdf"), Str("xls")], {});
  }

  /** `config` accepts `["pdf", "xls"]` with a non-empty input. */
  lemma PdfAndXlsAccepted()
    ensures CheckArguments(Str("a.jrxml"), List([Str("pdf"), Str("xls")])) == None
  {
    LookupName(Pdf);
    LookupName(Xls);
  }

  /** The record of the call below holds the design as input and the two formats. */
  lemma ScenarioRecord()
    ensures var c := Configured(ConfigArgs(Str("a.jrxml"), Bool(false), List([Str("pdf"), Str("xls")]),
                                           Dict(map[]), map[], Str("en_US"), Nil, Nil, Tuple([])));
      && c.Field("input") == Str("a.jrxml")
      && c.Field("outputFormats") == List([Str("pdf"), Str("xls")])
  {
    ConfiguredArguments(ConfigArgs(Str("a.jrxml"), Bool(false), List([Str("pdf"), Str("xls")]),
                                   Dict(map[]), map[], Str("en_US"), Nil, Nil, Tuple([])));
  }

  /** With `a.jasper` beside it, the design `a.jrxml` is replaced by the compiled report. */
  lemma ScenarioRewrite()
    ensures RewriteInput("a.jrxml", {"a.jrxml", "a.jasper"}) == "a.jasper"
  {
    assert "a" + ".jrxml" == "a.jrxml" && "a" + ".jasper" == "a.jasper";
    assert HasStem("a") by {
      assert RFind("a", '/') == -1;
    }
    RewriteCompiled("a", {"a.jrxml", "a.jasper"});
  }

  /**
   * `config(input_file="a.jrxml", output_formats=["pdf", "xls"])` and then `process_report()`,
   * with `a.jasper` compiled beside the design: the compiled report is used, the PDF and then
   * the XLS export run, and only the XLS result is returned.
   */
  method PdfThenXlsScenario() returns (r: Result<Export, ProcessError>, exports: seq<Format>, input: Value)
    ensures r == Ok(Exported(Xls)) && exports == [Pdf, Xls] && input == Str("a.jasper")
  {
    var facade := new PyReportJasper();
    PdfAndXlsAccepted();
    ScenarioRecord();
    ScenarioRewrite();
    PdfThenXls();
    var err := facade.Configure(Str("a.jrxml"), outputFormats := List([Str("pdf"), Str("xls")]));
    r, exports := facade.ProcessReport({"a.jrxml", "a.jasper"}, false, {});
    input := facade.config.value.Field("input");
  }
}
