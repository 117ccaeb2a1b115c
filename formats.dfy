/**
 * Output formats (pyreportjasper/pyreportjasper.py): the names `config` accepts (`FORMATS`)
 * and the export table `process_report` dispatches through (`formats_functions`).
 */
module Formats {
  import opened Wrappers
  import opened PyValues

  /** One export of the reporting engine, as a closed enumeration. */
  datatype Format = Html | Pdf | Rtf | Docx | Odt | Xml | Xls | Xlsx | Csv | CsvMeta | Ods | Pptx | Jrprint

  /** What an export hands back; the engine's bytes are not modelled, only which export produced it. */
  datatype Export = Exported(format: Format)

  /** `FORMATS`, in the source's order. */
  const FORMATS: seq<string> :=
    ["html", "pdf", "rtf", "docx", "odt", "xml", "xls", "xlsx", "csv", "csv_meta", "ods", "pptx", "jrprint"]

  /** `formats_functions`: each name bound to the export it calls, in the source's order. */
  const EXPORTS: map<string, Format> :=
    map["pdf" := Pdf, "html" := Html, "rtf" := Rtf, "docx" := Docx, "odt" := Odt, "xml" := Xml,
        "xls" := Xls, "xlsx" := Xlsx, "csv" := Csv, "csv_meta" := CsvMeta, "ods" := Ods,
        "pptx" := Pptx, "jrprint" := Jrprint]

  /** The name under which a format is requested. */
  function Name(f: Format): string
  {
    match f
    case Html => "html"
    case Pdf => "pdf"
    case Rtf => "rtf"
    case Docx => "docx"
    case Odt => "odt"
    case Xml => "xml"
    case Xls => "xls"
    case Xlsx => "xlsx"
    case Csv => "csv"
    case CsvMeta => "csv_meta"
    case Ods => "ods"
    case Pptx => "pptx"
    case Jrprint => "jrprint"
  }

  /** `key in FORMATS` for an arbitrary Python value: only strings can be equal to a name. */
  predicate Accepted(v: Value)
  {
    v.Str? && v.s in FORMATS
  }

  /**
   * `formats_functions.get(f)`: the export an entry of `outputFormats` dispatches to. It finds
   * one exactly for the names `config` accepts, and the export it finds carries that name.
   */
  function Lookup(v: Value): (r: Option<Format>)
    ensures r.Some? <==> Accepted(v)
    ensures r.Some? ==> v == Str(Name(r.value))
  {
    if v.Str? && v.s in EXPORTS then Some(EXPORTS[v.s]) else None
  }

  /** The dispatch table and the allow-list name the same thirteen formats. */
  lemma ExportTableMatchesFormats()
    ensures EXPORTS.Keys == set name | name in FORMATS
  {
  }

  /** Every format is reachable through the table under its own name. */
  lemma LookupName(f: Format)
    ensures Lookup(Str(Name(f))) == Some(f)
  {
  }
}
