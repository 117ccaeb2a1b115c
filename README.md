# pyreportjasper facade and configuration record, in Dafny

This project models the Python facade `PyReportJasper` of pyreportjasper together with its
configuration record `Config`. The facade is a thin front for the JasperReports engine:

- `config(...)` checks its arguments. It then builds a fresh `Config`, copies the arguments
  into it, applies the `db_connection` dictionary through a fixed 21-entry key-to-attribute
  table, and stores `jvm_opts` when that dictionary is non-empty.
- `process_report()` prefers a compiled `.jasper` file next to a `.jrxml` design and checks
  that the input is a file. It then fills the report and runs the requested exports in
  order through a 13-entry dispatch table. Only the last export's result is returned.

## Files

- `values.dfy` (module `PyValues`): Python values (`None`, bools, ints, strings, lists, tuples,
  dicts) and Python truthiness.
- `config.dfy` (module `ConfigRecord`): the data attributes of `Config` as Python sees them.
  Each attribute is read from the instance first and from the class's data attributes after
  that; a name in neither is an `AttributeError` (`None` of `Attr`). Also here: the four predicates and the defaults of a
  fresh record.
- `paths.dfy` (module `PosixPath`): `os.path.splitext` with POSIX rules. The extension is the
  part from the last dot of the last path component; dots that start the component do not count.
- `formats.dfy` (module `Formats`): the format names `FORMATS` and the export dispatch table.
- `pyreportjasper.dfy` (module `ReportJasper`):
  - argument validation;
  - the `db_connection` table and loop;
  - the record `config` builds;
  - the `.jrxml` rewrite;
  - the export loop;
  - the class `PyReportJasper` with its methods `Configure` and `ProcessReport`;
  - the properties.

## Behaviour the model reproduces from the code

- **`config` stores a record only once per instance.** The class attribute `config = None` is
  rebound by the method `config`. A call that fails validation raises before assigning
  anything, so the method stays callable. The first call that passes validation assigns
  `self.config = Config()`, and that instance attribute then hides the method: every call
  after that one raises `TypeError` (`NotCallable`).
  Calling `process_report()` before `config` reads `.input` from the bound method and raises
  `AttributeError` (`NotConfigured`). The code therefore does not build a fresh record on every
  `config` call.
- **An empty `output_formats` list.** `config` accepts it, but `process_report` then reaches
  `return data` with `data` never assigned. That raises `UnboundLocalError` (`NoExportResult`).
- **The `data_url` key** sets an attribute named `data_url`. The class attribute `dataURL`
  stays `None`.
- **`csv_first_row`** sets `csvFirstRow` to `True`, whatever value the key has.
- **`jvm_opts` depends on `db_connection`.** It is stored only when `db_connection` is
  non-empty, even when every key in it is unmapped.
- **Outside input.** Which paths are files is the parameter `existing`. Whether filling the
  report raises is `fillFails`. The formats whose export raises are `failing`. An export's
  result is the token `Exported(format)`, and `exports` records the exports invoked, in order.
  Whether an export raises depends only on its format, so a format listed twice raises on both
  calls or on neither, where Python calls the export function afresh each time.
  `existing` is a single snapshot taken for the whole call: Python asks `os.path.isfile` twice,
  once for the `.jasper` sibling and once for the final input, and the model answers both from
  the same set, so a rewritten input is never reported as missing.

## Model

| member | source | states |
|---|---|---|
| ConfigRecord.Config.Attr | pyreportjasper/config.py:8-51 | `getattr` over the data attributes: an instance attribute shadows the class data attribute of the same name, and the lookup fails only for a name that is neither |
| ConfigRecord.New | pyreportjasper/config.py:8-51 | `Config()`: a fresh record reads exactly the class's data attributes, each with its default, and no other data attribute; NewConfigPredicates, NewConfigDefaults and NewConfigContainers spell out the defaults |
| ConfigRecord.Config.Set | pyreportjasper/pyreportjasper.py:95 | `setattr` makes the attribute read the new value and leaves every other attribute's reading unchanged |
| ConfigRecord.Config.HasOutput | pyreportjasper/config.py:53-54 | false for `None`; true for any string, the empty string included, and for `False` |
| ConfigRecord.Config.IsWriteJasper | pyreportjasper/config.py:56-57 | false for `None`, `False` and `0`, true for `True` |
| ConfigRecord.Config.HasJdbcDir | pyreportjasper/config.py:59-60 | false for `None` and `""`, true for any non-empty path |
| ConfigRecord.Config.HasResource | pyreportjasper/config.py:62-63 | false for `None` and `""`, true for any non-empty path |
| ConfigRecord.NewConfigPredicates | pyreportjasper/config.py:8-63 | a fresh record has no output, does not write jasper files, and has no JDBC directory and no resource |
| ConfigRecord.NewConfigDefaults | pyreportjasper/config.py:34-50 | a fresh record reads locale `en_US`, `useJaxen` True, `jvm_maxmem` `512M`, `writeJasper` False |
| ConfigRecord.NewConfigContainers | pyreportjasper/config.py:37-49 | a fresh record reads `jvm_opts` `()`, `params` and `subreports` `{}`, and has no `data_url` attribute |
| ConfigRecord.CsvFirstRowDefault | pyreportjasper/config.py:25 | a fresh record reads `csvFirstRow` as `None` |
| ConfigRecord.DataUrlIsNoClassAttribute | pyreportjasper/config.py:24 | the class declares `dataURL` with default `None` and does not declare `data_url` |
| PosixPath.RFind | pyreportjasper/pyreportjasper.py:156 | the last index holding the character, or -1; no later index holds it |
| PosixPath.SplitExt | pyreportjasper/pyreportjasper.py:156 | root and extension concatenate to the path; a non-empty extension is one dot and no further dot or separator, and follows a non-dot character of the last component |
| PosixPath.RFindOfPrefix | pyreportjasper/pyreportjasper.py:156 | appending text without the character leaves its last index unchanged |
| PosixPath.SplitExtOfStem | pyreportjasper/pyreportjasper.py:156-158 | a stem followed by an extension splits back into exactly that stem and extension |
| Formats.Lookup | pyreportjasper/pyreportjasper.py:166-184 | an entry has an export exactly when it is a string in `FORMATS`, and the export found carries that entry's name |
| Formats.ExportTableMatchesFormats | pyreportjasper/pyreportjasper.py:28-42 | the dispatch table's keys are exactly the names in `FORMATS` |
| Formats.LookupName | pyreportjasper/pyreportjasper.py:166-180 | each format's name finds that format's export |
| ReportJasper.CheckArguments | pyreportjasper/pyreportjasper.py:50-56 | no error exactly for a truthy input and a list of accepted names. A falsy input gives "No input file!" first, a non-list "not list", and a list with an unknown entry "Invalid format!", iff such an entry exists |
| ReportJasper.MappingRoundTrip | pyreportjasper/pyreportjasper.py:69-91 | the 21 keys map to distinct attributes: following a key to its attribute and back gives the key |
| ReportJasper.AttributeRoundTrip | pyreportjasper/pyreportjasper.py:69-91 | every mapped attribute comes from exactly one key |
| ReportJasper.CsvFirstRowIsSpecial | pyreportjasper/pyreportjasper.py:93-97 | `csv_first_row` is not in the table and no key in it sets `csvFirstRow` |
| ReportJasper.ApplyEntry | pyreportjasper/pyreportjasper.py:94-97 | one iteration of the loop extends the applied entries by that key |
| ReportJasper.ApplyDbConnection | pyreportjasper/pyreportjasper.py:93-97 | the loop over `db_connection` yields `Populate(base, db)` in any iteration order: the record with every mapped attribute and `csvFirstRow` set as the table says, as the Populate lemmas below state |
| ReportJasper.PopulateSetsMapped | pyreportjasper/pyreportjasper.py:94-95 | a present mapped key sets its attribute to the key's value |
| ReportJasper.PopulateSetsCsvFirstRow | pyreportjasper/pyreportjasper.py:96-97 | a present `csv_first_row` sets `csvFirstRow` to True whatever its value |
| ReportJasper.PopulateKeepsOthers | pyreportjasper/pyreportjasper.py:93-97 | every attribute no present key maps to, other than `csvFirstRow`, reads as before the loop |
| ReportJasper.PopulateIgnoresUnmapped | pyreportjasper/pyreportjasper.py:93-97 | a key outside the table other than `csv_first_row` changes nothing, whatever its value |
| ReportJasper.PopulateKeepsOutside | pyreportjasper/pyreportjasper.py:93-97 | attributes outside the table read after the loop as before it |
| ReportJasper.ArgumentAttributesOutsideTable | pyreportjasper/pyreportjasper.py:58-99 | no key of the table sets `input`, `output`, `outputFormats` or `jvm_opts` |
| ReportJasper.OptionAttributesOutsideTable | pyreportjasper/pyreportjasper.py:58-67 | no key of the table sets `locale`, `resource`, `params` or `subreports` |
| ReportJasper.DataUrlMapsToItself | pyreportjasper/pyreportjasper.py:82 | the key `data_url` sets the attribute `data_url` |
| ReportJasper.DataURLOutsideTable | pyreportjasper/pyreportjasper.py:69-91 | no key of the table sets `dataURL` |
| ReportJasper.Initial | pyreportjasper/pyreportjasper.py:57-67 | the record before the `db_connection` step reads the input and formats as given and the output as `output_file` when truthy, the input otherwise; InitialKeepsDefaults gives the attributes it leaves alone |
| ReportJasper.Configured | pyreportjasper/pyreportjasper.py:57-99 | the record `config` stores keeps every attribute outside the table, `jvm_opts` apart, as first assigned; ConfiguredMapped, ConfiguredCsvFirstRow, ConfiguredJvmOpts, ConfiguredIgnoresUnmapped, ConfiguredKeepsAbsent, ConfiguredCsvFirstRowAbsent, ConfiguredArguments, ConfiguredOptions and ConfiguredIsConsistent state the rest |
| ReportJasper.InitialKeepsDefaults | pyreportjasper/pyreportjasper.py:57-67 | before the `db_connection` step, every attribute `config` does not assign reads the class default |
| ReportJasper.ConfiguredKeepsInitial | pyreportjasper/pyreportjasper.py:68-99 | the `db_connection` step leaves the attributes outside the table, other than `jvm_opts`, as first assigned |
| ReportJasper.ConfiguredIsConsistent | pyreportjasper/pyreportjasper.py:48-99 | a record built from accepted arguments has a truthy input and output and a list of accepted formats |
| ReportJasper.ConfiguredOutput | pyreportjasper/pyreportjasper.py:63-66 | the output is `output_file` when truthy and the input otherwise, so `has_output` holds after `config` |
| ReportJasper.ConfiguredArguments | pyreportjasper/pyreportjasper.py:58-67 | input, formats and parameters are stored as given, whatever `db_connection` holds |
| ReportJasper.ConfiguredOptions | pyreportjasper/pyreportjasper.py:59-61 | locale and resource are stored as given; `subreports` is stored when truthy, `{}` otherwise |
| ReportJasper.ConfiguredMapped | pyreportjasper/pyreportjasper.py:93-95 | each mapped key of `db_connection` sets its attribute to its value |
| ReportJasper.ConfiguredCsvFirstRow | pyreportjasper/pyreportjasper.py:96-97 | `csv_first_row` present makes `csvFirstRow` True, whatever its value |
| ReportJasper.AbsentKeySetsNothing | pyreportjasper/pyreportjasper.py:69-95 | no present key of `db_connection` maps to an attribute whose own key is absent |
| ReportJasper.ConfiguredKeepsAbsent | pyreportjasper/pyreportjasper.py:57-99 | a table attribute whose `db_connection` key is absent reads its class default after `config` |
| ReportJasper.ConfiguredCsvFirstRowAbsent | pyreportjasper/pyreportjasper.py:93-97 | without `csv_first_row`, `csvFirstRow` keeps its class default `None` |
| ReportJasper.ConfiguredJvmOpts | pyreportjasper/pyreportjasper.py:68-99 | `jvm_opts` is the argument when `db_connection` is non-empty and stays `()` otherwise |
| ReportJasper.ConfiguredIgnoresUnmapped | pyreportjasper/pyreportjasper.py:93-97 | once `db_connection` is non-empty, an extra unmapped key other than `csv_first_row` changes nothing |
| ReportJasper.ConfiguredDataUrl | pyreportjasper/pyreportjasper.py:82 | `data_url` is stored under the attribute `data_url` |
| ReportJasper.ConfiguredLeavesDataURL | pyreportjasper/pyreportjasper.py:69-97 | `dataURL` stays `None` whatever `config` is given |
| ReportJasper.RewriteInput | pyreportjasper/pyreportjasper.py:156-160 | the input is kept, or replaced by `root.jasper` when its extension is `.jrxml` and that file exists; RewriteCompiled, RewriteNeedsSibling, RewriteOnlyJrxml and RewriteKeepsDotFile state it case by case |
| ReportJasper.ExportOutcome | pyreportjasper/pyreportjasper.py:182-189 | the loop succeeds exactly when every entry exports, has no result exactly for an empty list, and otherwise holds the last entry's export; AllExportsRun and FirstFailureDecides give the failure cases |
| ReportJasper.Finish | pyreportjasper/pyreportjasper.py:186-196 | a result is returned exactly when some export ran and none failed; no export at all leaves `data` unbound, and an export error is re-raised wrapped |
| ReportJasper.FirstFailure | pyreportjasper/pyreportjasper.py:183-187 | the first entry whose export is missing or raises; every entry before it exports |
| ReportJasper.Dispatch | pyreportjasper/pyreportjasper.py:183-189 | the export loop ends with the first failure or the last export's result, after invoking exactly the attempted exports in order |
| ReportJasper.AllExportsRun | pyreportjasper/pyreportjasper.py:183-187 | when no export fails, every entry is exported in order and the last one's result wins |
| ReportJasper.FirstFailureDecides | pyreportjasper/pyreportjasper.py:183-189 | the first missing entry gives "not implemented" and the first raising export gives an export error, after the entries before it ran |
| ReportJasper.AcceptedFormatsAreImplemented | pyreportjasper/pyreportjasper.py:52-54 | a list `config` accepts never reaches "not implemented", and succeeds when no export raises |
| ReportJasper.EmptyFormatsHaveNoResult | pyreportjasper/pyreportjasper.py:52-56 | an empty list passes `config`, but `process_report` has no result to return and nothing is exported |
| ReportJasper.PdfThenXls | pyreportjasper/pyreportjasper.py:183-196 | `["pdf", "xls"]` exports PDF then XLS and returns the XLS result |
| ReportJasper.PdfAndXlsAccepted | pyreportjasper/pyreportjasper.py:50-56 | `config` accepts `["pdf", "xls"]` with a non-empty input |
| ReportJasper.RewriteCompiled | pyreportjasper/pyreportjasper.py:156-160 | `stem.jrxml` becomes `stem.jasper` when that file exists |
| ReportJasper.RewriteNeedsSibling | pyreportjasper/pyreportjasper.py:156-160 | `stem.jrxml` stays when `stem.jasper` does not exist |
| ReportJasper.RewriteOnlyJrxml | pyreportjasper/pyreportjasper.py:156-160 | the input changes exactly when its extension is `.jrxml` and the sibling exists, and then names that existing file |
| ReportJasper.RewriteKeepsDotFile | pyreportjasper/pyreportjasper.py:156-157 | a hidden file named `.jrxml` has no extension and is never rewritten |
| ReportJasper.PyReportJasper.constructor | pyreportjasper/pyreportjasper.py:15 | a new facade has no record |
| ReportJasper.PyReportJasper.Configure | pyreportjasper/pyreportjasper.py:48-99 | a call after one that passed validation fails as not callable; otherwise the validation errors leave the facade unchanged, and success stores the configured record, which stays consistent |
| ReportJasper.PyReportJasper.ProcessReport | pyreportjasper/pyreportjasper.py:154-196 | not configured, non-path input, missing file, fill failure, or the export outcome; the input is rewritten to the compiled sibling; the exports run in order; "not implemented" never happens |
| ReportJasper.PdfThenXlsScenario | pyreportjasper/pyreportjasper.py:48-196 | `config("a.jrxml", ["pdf", "xls"])` then `process_report()` with `a.jasper` present uses `a.jasper`, exports PDF then XLS and returns the XLS result |

## Left out

- `compile`, `compile_all_jrxml_dir`, `instantiate_report` (beyond whether filling raises), `list_report_params` and the deprecated `process` are not part of this model. They delegate to the reporting engine or to the file system.
- Error message texts and `print` output are not modelled; errors are datatype constructors.
- `DSTYPES`, `METHODS` and `TypeJava` are constants that the modelled operations never read.
- Python's class-level mutable defaults (`params = {}`, `subreports = {}`) are shared between instances; the model treats defaults as values, so aliasing between records is not captured.
- `output_formats` is stored by reference in Python; later mutation of the caller's list is not modelled.
- Input paths are modelled as `str` only; `bytes` and `os.PathLike` inputs, which `splitext` and `isfile` also accept, are not modelled.
- Windows path rules (`ntpath`) are not modelled; `splitext` follows POSIX.
- Formats.Lookup: an unhashable list entry (such as a list inside the list) makes Python's dict lookup raise `TypeError`, which is then wrapped like any export error; the model treats it as "not implemented". `config` rejects such entries, so this only matters for records built by hand.
- `db_connection` is modelled as a dictionary with string keys; non-string keys are never in the table and are ignored, like other unmapped keys.
- ConfigRecord.Config.Attr, ConfigRecord.New: only Config's data attributes are modelled; the methods `has_output`, `is_write_jasper`, `has_jdbc_dir`, `has_resource` and the attributes inherited from `object` are absent, so `Attr` reports them missing where `getattr` finds them. No modelled operation reads or assigns those names.
- ConfigRecord.Config.Field: reads `None` for a name that is neither an instance nor a class attribute, where Python raises `AttributeError`; `Attr` keeps the distinction.
- The engine's exports are tokens; the bytes or files they produce are not modelled.
