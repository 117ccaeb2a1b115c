/**
 * The configuration record handed to the reporting engine (pyreportjasper/config.py).
 * A `Config` object is modelled as Python holds it: the attributes assigned on the instance,
 * read in front of the class attributes and their defaults. A name that is neither (such as
 * `data_url` before anything assigns it) is not an attribute at all.
 */
module ConfigRecord {
  import opened Wrappers
  import opened PyValues

  /** The class data attributes of `Config` and their defaults; its methods are not listed. */
  const CLASS_ATTRIBUTES: map<string, Value> :=
    map["askFilter" := Nil, "command" := Nil, "dbDriver" := Nil, "dbHost" := Nil,
        "dbName" := Nil, "dbPasswd" := Nil, "dbPort" := Nil, "dbSid" := Nil, "dbType" := Nil,
        "dbUrl" := Nil, "dbUser" := Nil, "verbose" := Nil, "input" := Nil, "jdbcDir" := Nil,
        "dataFile" := Nil, "dataURL" := Nil, "csvFirstRow" := Nil, "csvColumns" := Nil,
        "csvRecordDel" := Nil, "csvFieldDel" := Nil, "csvCharset" := Nil, "xmlXpath" := Nil,
        "jsonQuery" := Nil, "jsonQLQuery" := Nil, "jsonLocale" := Nil, "locale" := Str("en_US"),
        "output" := Nil, "outputFormats" := Nil, "params" := Dict(map[]), "printerName" := Nil,
        "reportName" := Nil, "resource" := Nil, "withPrintDialog" := Nil,
        "writeJasper" := Bool(false), "copies" := Nil, "outFieldDel" := Nil, "outCharset" := Nil,
        "useJaxen" := Bool(true), "subreports" := Dict(map[]), "jvm_opts" := Tuple([]),
        "jvm_maxmem" := Str("512M"), "jvm_classpath" := Nil]

  /** A `Config` instance, given by the attributes assigned on it. */
  datatype Config = Config(own: map<string, Value>)
  {
    /** `getattr(self, name)`: the instance's value, else the class default; `None` if neither exists among the data attributes. */
    function Attr(name: string): (r: Option<Value>)
      ensures name in own ==> r == Some(own[name])
      ensures r.None? <==> name !in own && name !in CLASS_ATTRIBUTES
    {
      if name in own then Some(own[name])
      else if name in CLASS_ATTRIBUTES then Some(CLASS_ATTRIBUTES[name])
      else None
    }

    /** `self.name` for a class attribute, which always reads some value (`None` stands in otherwise). */
    function Field(name: string): Value
    {
      Attr(name).GetOr(Nil)
    }

    /** `setattr(self, name, v)`: `name` now reads `v` and every other attribute reads as before. */
    function Set(name: string, v: Value): (r: Config)
      ensures r.Attr(name) == Some(v)
      ensures forall other :: other != name ==> r.Attr(other) == Attr(other)
    {
      Config(own[name := v])
    }

    /** `has_output`: an identity test against `None`, not truthiness. */
    function HasOutput(): (r: bool)
      ensures Field("output") == Nil ==> !r
      ensures Field("output") == Bool(false) ==> r
      ensures Field("output").Str? ==> r
    {
      Field("output") != Nil
    }

    /** `is_write_jasper`: the truthiness of `writeJasper`. */
    function IsWriteJasper(): (r: bool)
      ensures Field("writeJasper") in {Nil, Bool(false), Int(0)} ==> !r
      ensures Field("writeJasper") == Bool(true) ==> r
    {
      Truthy(Field("writeJasper"))
    }

    /** `has_jdbc_dir`: a directory given as `None` or `""` counts as no directory. */
    function HasJdbcDir(): (r: bool)
      ensures Field("jdbcDir") == Nil || Field("jdbcDir") == Str("") ==> !r
      ensures Field("jdbcDir").Str? && Field("jdbcDir").s != "" ==> r
    {
      Truthy(Field("jdbcDir"))
    }

    /** `has_resource`: a resource given as `None` or `""` counts as no resource. */
    function HasResource(): (r: bool)
      ensures Field("resource") == Nil || Field("resource") == Str("") ==> !r
      ensures Field("resource").Str? && Field("resource").s != "" ==> r
    {
      Truthy(Field("resource"))
    }
  }

  /** `Config()`: nothing assigned on the instance yet. */
  function New(): (r: Config)
    ensures forall name :: name in CLASS_ATTRIBUTES ==> r.Attr(name) == Some(CLASS_ATTRIBUTES[name])
    ensures forall name :: name !in CLASS_ATTRIBUTES ==> r.Attr(name) == None
  {
    Config(map[])
  }

  /** A fresh record has no output, writes no jasper file, and has no JDBC directory and no resource. */
  lemma NewConfigPredicates()
    ensures !New().HasOutput() && !New().IsWriteJasper()
    ensures !New().HasJdbcDir() && !New().HasResource()
  {
  }

  /** A fresh record reads the fixed scalar defaults. */
  lemma NewConfigDefaults()
    ensures New().Field("locale") == Str("en_US") && New().Field("useJaxen") == Bool(true)
    ensures New().Field("jvm_maxmem") == Str("512M") && New().Field("writeJasper") == Bool(false)
  {
  }

  /** A fresh record reads empty containers, and has no `data_url` attribute at all. */
  lemma NewConfigContainers()
    ensures New().Attr("jvm_opts") == Some(Tuple([])) && New().Field("params") == Dict(map[])
    ensures New().Field("subreports") == Dict(map[]) && New().Attr("data_url") == None
  {
    DataUrlIsNoClassAttribute();
  }

  /** A fresh record reads `csvFirstRow` as `None`. */
  lemma CsvFirstRowDefault()
    ensures New().Attr("csvFirstRow") == Some(Nil)
  {
  }

  /** `Config` declares `dataURL`, defaulting to `None`, and not `data_url`. */
  lemma DataUrlIsNoClassAttribute()
    ensures "data_url" !in CLASS_ATTRIBUTES && "dataURL" in CLASS_ATTRIBUTES
    ensures New().Attr("dataURL") == Some(Nil)
  {
  }
}
