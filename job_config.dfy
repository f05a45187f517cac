/**
 * Job configurations built from boolean switches (`create_job_config`,
 * `create_copy_job_config`), the unpacking of a query entry
 * (`get_query_details`) and the part of `run_query` that decides what is
 * submitted.
 */
module JobConfig {
  import opened Wrappers
  import opened TableSpec
  import opened QueryParams

  datatype CreateDisposition = CREATE_IF_NEEDED | CREATE_NEVER
  datatype WriteDisposition = WRITE_TRUNCATE | WRITE_APPEND | WRITE_EMPTY
  datatype QueryPriority = BATCH | INTERACTIVE

  datatype DatasetRef = DatasetRef(project: string, datasetId: string)

  /** The settings a `QueryJobConfig` is built with; None for a setting that is left unset. */
  datatype QueryJobConfig = QueryJobConfig(
    priority: QueryPriority,
    defaultDataset: Option<DatasetRef>,
    destination: Option<TableRef>,
    createDisposition: CreateDisposition,
    writeDisposition: WriteDisposition,
    queryParameters: Option<seq<QueryParam>>)

  datatype CopyJobConfig = CopyJobConfig(writeDisposition: WriteDisposition)

  function CreateDispositionFor(create: bool): CreateDisposition {
    if create then CREATE_IF_NEEDED else CREATE_NEVER
  }

  /** `overwrite` takes precedence over `append`. */
  function WriteDispositionFor(overwrite: bool, append: bool): WriteDisposition {
    if overwrite then WRITE_TRUNCATE else if append then WRITE_APPEND else WRITE_EMPTY
  }

  function PriorityFor(batch: bool): QueryPriority {
    if batch then BATCH else INTERACTIVE
  }

  /** `dest and not dest.startswith('gs://')`. */
  predicate AttachesDestination(dest: Option<string>) {
    dest.Some? && dest.value != "" && !IsGcsPath(dest.value)
  }

  /** The destination table of a query: the resolved spec as a reference, or IndexError when it has fewer than three segments. */
  function DestinationFor(dest: Option<string>, d: Defaults): (r: Result<Option<TableRef>, PyError>)
    ensures r.Ok? <==> !AttachesDestination(dest) || Segments(ResolveTableSpec(dest, d).value) >= 3
    ensures r.Ok? ==> (r.value.Some? <==> AttachesDestination(dest))
    ensures r.Err? ==> r.error.IndexError?
  {
    if AttachesDestination(dest) then
      match ToTableRef(ResolveTableSpec(dest, d).value)
      case Ok(t) => Ok(Some(t))
      case Err(e) => Err(e)
    else Ok(None)
  }

  /** The default dataset, set only when both defaults are configured. */
  function DefaultDatasetFor(d: Defaults): Option<DatasetRef> {
    if d.project.Some? && d.dataset.Some? then Some(DatasetRef(d.project.value, d.dataset.value)) else None
  }

  /**
   * `BQPipeline.create_job_config`. The destination is resolved before the
   * parameters are typed, so an unresolvable destination is reported first.
   * (`if query_params:` guards `set_query_params`, which itself gives no
   * parameters for a falsy value, so the guard is folded into it.)
   */
  function CreateJobConfig(d: Defaults, batch: bool := false, dest: Option<string> := None, create: bool := true,
                           overwrite: bool := true, append: bool := false, queryParams: Value := Null)
    : (r: Result<QueryJobConfig, PyError>)
    ensures r.Err? <==>
      (AttachesDestination(dest) && Segments(ResolveTableSpec(dest, d).value) < 3) || SetQueryParams(queryParams).Err?
    ensures r.Ok? ==> (r.value.destination.Some? <==> AttachesDestination(dest))
    ensures r.Ok? ==> (r.value.defaultDataset.Some? <==> d.project.Some? && d.dataset.Some?)
    ensures r.Ok? ==> (r.value.queryParameters.Some? <==> Truthy(queryParams))
    ensures r.Ok? ==> r.value.queryParameters == SetQueryParams(queryParams).value
  {
    var destination := DestinationFor(dest, d);
    if destination.Err? then Err(destination.error)
    else
      var params := SetQueryParams(queryParams);
      if params.Err? then Err(params.error)
      else
        SetQueryParamsSpec(queryParams);
        Ok(QueryJobConfig(
          PriorityFor(batch), DefaultDatasetFor(d), destination.value,
          CreateDispositionFor(create), WriteDispositionFor(overwrite, append), params.value))
  }

  /** The three switches: create, then overwrite over append, then batch. */
  lemma JobConfigFlags(d: Defaults, batch: bool, dest: Option<string>, create: bool,
                       overwrite: bool, append: bool, queryParams: Value)
    requires CreateJobConfig(d, batch, dest, create, overwrite, append, queryParams).Ok?
    ensures var c := CreateJobConfig(d, batch, dest, create, overwrite, append, queryParams).value;
      && (c.createDisposition == CREATE_IF_NEEDED <==> create)
      && (c.createDisposition == CREATE_NEVER <==> !create)
      && (c.writeDisposition == WRITE_TRUNCATE <==> overwrite)
      && (c.writeDisposition == WRITE_APPEND <==> !overwrite && append)
      && (c.writeDisposition == WRITE_EMPTY <==> !overwrite && !append)
      && (c.priority == BATCH <==> batch)
      && (c.priority == INTERACTIVE <==> !batch)
  {
  }

  /**
   * The destination, when attached, is the resolved spec as a reference, and
   * the default dataset is `project.dataset` of the defaults.
   */
  lemma JobConfigDestination(d: Defaults, batch: bool, dest: Option<string>, create: bool,
                             overwrite: bool, append: bool, queryParams: Value)
    requires CreateJobConfig(d, batch, dest, create, overwrite, append, queryParams).Ok?
    ensures var c := CreateJobConfig(d, batch, dest, create, overwrite, append, queryParams).value;
      && (AttachesDestination(dest) ==> c.destination == Some(ToTableRef(ResolveTableSpec(dest, d).value).value))
      && (dest.Some? && IsGcsPath(dest.value) ==> c.destination.None?)
      && (c.defaultDataset.Some? ==> c.defaultDataset == Some(DatasetRef(d.project.value, d.dataset.value)))
  {
  }

  /**
   * With dot-free defaults, a destination of one, two or three dot-free
   * segments becomes the table `project.dataset.table`, the missing parts
   * filled from the defaults.
   */
  lemma DestinationQualified(d: Defaults, parts: seq<string>, batch: bool, create: bool,
                             overwrite: bool, append: bool)
    requires 1 <= |parts| <= 3
    requires forall i | 0 <= i < |parts| :: DotFree(parts[i])
    requires AttachesDestination(Some(Join(parts)))
    requires d.project.Some? ==> DotFree(d.project.value)
    requires d.dataset.Some? ==> DotFree(d.dataset.value)
    requires |parts| == 2 ==> d.project.Some?
    requires |parts| == 1 ==> d.project.Some? && d.dataset.Some?
    ensures var r := CreateJobConfig(d, batch, Some(Join(parts)), create, overwrite, append, Null);
      var full := if |parts| == 3 then parts
                  else if |parts| == 2 then [d.project.value] + parts
                  else [d.project.value, d.dataset.value] + parts;
      r.Ok? && r.value.destination == Some(TableRef(full[0], full[1], full[2]))
  {
    DestinationForQualified(d, parts);
    WithoutParams(d, batch, Some(Join(parts)), create, overwrite, append);
  }

  /** Without parameters, a job config fails exactly when its destination does, and carries that destination. */
  lemma WithoutParams(d: Defaults, batch: bool, dest: Option<string>, create: bool, overwrite: bool, append: bool)
    ensures var r := CreateJobConfig(d, batch, dest, create, overwrite, append, Null);
      && (r.Ok? <==> DestinationFor(dest, d).Ok?)
      && (r.Ok? ==> r.value.destination == DestinationFor(dest, d).value && r.value.queryParameters.None?)
  {
    assert SetQueryParams(Null) == Ok(None);
  }

  lemma DestinationForQualified(d: Defaults, parts: seq<string>)
    requires 1 <= |parts| <= 3
    requires forall i | 0 <= i < |parts| :: DotFree(parts[i])
    requires AttachesDestination(Some(Join(parts)))
    requires d.project.Some? ==> DotFree(d.project.value)
    requires d.dataset.Some? ==> DotFree(d.dataset.value)
    requires |parts| == 2 ==> d.project.Some?
    requires |parts| == 1 ==> d.project.Some? && d.dataset.Some?
    ensures var full := if |parts| == 3 then parts
                        else if |parts| == 2 then [d.project.value] + parts
                        else [d.project.value, d.dataset.value] + parts;
      DestinationFor(Some(Join(parts)), d) == Ok(Some(TableRef(full[0], full[1], full[2])))
  {
    ResolveFullyQualifies(parts, d);
  }

  /** `create_copy_job_config`: truncate when overwriting, otherwise the target must be empty. */
  function CreateCopyJobConfig(overwrite: bool := true): (r: CopyJobConfig)
    ensures r.writeDisposition == WriteDispositionFor(overwrite, false)
    ensures r.writeDisposition != WRITE_APPEND
  {
    if overwrite then CopyJobConfig(WRITE_TRUNCATE) else CopyJobConfig(WRITE_EMPTY)
  }

  // ---------------------------------------------------------------- query entries

  /**
   * An entry of `run_query`/`run_queries`: a bare SQL path, or a tuple
   * `(path, destination)` or `(path, destination, params)`. A destination may
   * be None, which the command line passes when no storage path was given.
   */
  datatype QueryDetails =
    | SqlPath(path: string)
    | WithDestination(path: string, destination: Option<string>)
    | WithParams(path: string, destination: Option<string>, params: Value)

  /** What `get_query_details` returns: path, destination, parameters (None as Null), and whether the destination is storage. */
  datatype Details = Details(sqlPath: string, destination: Option<string>, queryParams: Value, isGcsDest: bool)

  /**
   * A tuple entry with a destination string: storage paths are kept, table
   * specs resolved, so a table destination is either left as given or has
   * at least three segments.
   */
  function TupleDetails(path: string, dest: string, params: Value, d: Defaults): (r: Details)
    ensures r.sqlPath == path && r.queryParams == params && r.destination.Some?
    ensures r.isGcsDest <==> IsGcsPath(dest)
    ensures r.isGcsDest ==> r.destination == Some(dest)
    ensures !r.isGcsDest ==> r.destination.value == dest || Segments(r.destination.value) >= 3
  {
    var gcs := IsGcsPath(dest);
    ResolvedHasThreeSegments(dest, d);
    Details(path, if gcs then Some(dest) else ResolveTableSpec(Some(dest), d), params, gcs)
  }

  function ParamsOf(q: QueryDetails): Value {
    if q.WithParams? then q.params else Null
  }

  /** `get_query_details` as written: `query_details[1].startswith(...)` raises AttributeError on a None destination. */
  function GetQueryDetailsAsWritten(q: QueryDetails, d: Defaults): (r: Result<Details, PyError>)
    ensures r.Err? <==> !q.SqlPath? && q.destination.None?
  {
    match q
    case SqlPath(p) => Ok(Details(p, None, Null, false))
    case WithDestination(p, dest) =>
      if dest.None? then Err(AttributeError("'NoneType' object has no attribute 'startswith'"))
      else Ok(TupleDetails(p, dest.value, Null, d))
    case WithParams(p, dest, v) =>
      if dest.None? then Err(AttributeError("'NoneType' object has no attribute 'startswith'"))
      else Ok(TupleDetails(p, dest.value, v, d))
  }

  /** The command line's entry `(query_file, None, params)` is rejected by the code as written. */
  lemma CliEntryWithoutDestinationFails(path: string, params: Value, d: Defaults)
    ensures GetQueryDetailsAsWritten(WithParams(path, None, params), d) ==
      Err(AttributeError("'NoneType' object has no attribute 'startswith'"))
  {
  }

  /** `get_query_details` with a None destination read as "no destination". */
  function GetQueryDetails(q: QueryDetails, d: Defaults): (r: Details)
    ensures r.sqlPath == q.path && r.queryParams == ParamsOf(q)
    ensures r.isGcsDest <==> !q.SqlPath? && q.destination.Some? && IsGcsPath(q.destination.value)
    ensures r.destination.None? <==> q.SqlPath? || q.destination.None?
    ensures r.isGcsDest ==> r.destination == q.destination
    ensures !r.isGcsDest && !q.SqlPath? ==> r.destination == ResolveTableSpec(q.destination, d)
  {
    if q.SqlPath? || q.destination.None? then Details(q.path, None, ParamsOf(q), false)
    else TupleDetails(q.path, q.destination.value, ParamsOf(q), d)
  }

  /** The corrected reading agrees with the code wherever the code does not raise. */
  lemma GetQueryDetailsAgrees(q: QueryDetails, d: Defaults)
    ensures GetQueryDetailsAsWritten(q, d).Ok? ==> GetQueryDetailsAsWritten(q, d).value == GetQueryDetails(q, d)
    ensures !q.SqlPath? && q.destination.None? ==>
      GetQueryDetails(q, d) == GetQueryDetails(SqlPath(q.path), d).(queryParams := ParamsOf(q))
  {
  }

  // ---------------------------------------------------------------- run_query

  datatype ExportFormat = CSV | JSON | AVRO

  /** An export of the query result to a storage path, made after the query finishes. */
  datatype Export = Export(format: ExportFormat, gcsPath: string)

  /** The switches of `run_query`, with its defaults; `exportFormat` is `gcs_export_format`. */
  datatype QueryFlags = QueryFlags(batch: bool := false, create: bool := true, overwrite: bool := true,
                                   append: bool := false, exportFormat: string := "CSV")

  /** The switches `run_queries` passes on by default: the same as `run_query`'s, except batch priority. */
  const RunQueriesFlags := QueryFlags(batch := true)

  /** A query job as `run_query` submits it: template path, configuration, job id prefix and the export that follows. */
  datatype QuerySubmission = QuerySubmission(sqlPath: string, config: QueryJobConfig, jobIdPrefix: string, exportJob: Option<Export>)

  /** The formats `run_query` exports in; any other name exports nothing. */
  function ExportFormatNamed(name: string): (r: Option<ExportFormat>)
    ensures r.Some? <==> name in {"CSV", "JSON", "AVRO"}
    ensures r == Some(CSV) <==> name == "CSV"
    ensures r == Some(JSON) <==> name == "JSON"
  {
    if name == "CSV" then Some(CSV)
    else if name == "JSON" then Some(JSON)
    else if name == "AVRO" then Some(AVRO)
    else None
  }

  /**
   * What `run_query` submits. The entry is unpacked with the defaults known
   * before the client exists (`d0`); the configuration is built with the
   * defaults known after `get_client` (`d1`).
   */
  function PlanQuery(d0: Defaults, d1: Defaults, jobIdPrefix: string, q: QueryDetails, flags: QueryFlags): (r: Result<QuerySubmission, PyError>)
    ensures r.Ok? ==> r.value.sqlPath == q.path && r.value.jobIdPrefix == jobIdPrefix
    ensures r.Ok? ==> (r.value.exportJob.Some? <==>
      GetQueryDetails(q, d0).isGcsDest && ExportFormatNamed(flags.exportFormat).Some?)
    ensures r.Ok? && r.value.exportJob.Some? ==> r.value.config.destination.None? && q.destination == Some(r.value.exportJob.value.gcsPath)
    ensures var det := GetQueryDetails(q, d0);
      var c := CreateJobConfig(d1, flags.batch, det.destination, flags.create, flags.overwrite, flags.append, det.queryParams);
      (r.Err? <==> c.Err?) && (r.Err? ==> r.error == c.error) && (r.Ok? ==> r.value.config == c.value)
  {
    var det := GetQueryDetails(q, d0);
    match CreateJobConfig(d1, flags.batch, det.destination, flags.create, flags.overwrite, flags.append, det.queryParams)
    case Err(e) => Err(e)
    case Ok(config) =>
      var format := ExportFormatNamed(flags.exportFormat);
      var exportJob := if det.isGcsDest && format.Some? then Some(Export(format.value, det.destination.value)) else None;
      Ok(QuerySubmission(det.sqlPath, config, jobIdPrefix, exportJob))
  }

  /**
   * What `run_query` as written submits: the entry is unpacked first, so an
   * entry whose destination is None raises AttributeError before anything
   * else happens; every other entry is planned as the corrected reading plans it.
   */
  function PlanQueryAsWritten(d0: Defaults, d1: Defaults, jobIdPrefix: string, q: QueryDetails, flags: QueryFlags)
    : (r: Result<QuerySubmission, PyError>)
    ensures r.Err? && r.error.AttributeError? <==> !q.SqlPath? && q.destination.None?
    ensures !q.SqlPath? && q.destination.None? ==> r == Err(GetQueryDetailsAsWritten(q, d0).error)
    ensures q.SqlPath? || q.destination.Some? ==> r == PlanQuery(d0, d1, jobIdPrefix, q, flags)
  {
    match GetQueryDetailsAsWritten(q, d0)
    case Err(e) => Err(e)
    case Ok(_) =>
      var r := PlanQuery(d0, d1, jobIdPrefix, q, flags);
      assert r.Err? ==> !r.error.AttributeError? by { PlanQueryErrors(d0, d1, jobIdPrefix, q, flags); }
      r
  }

  /** Building a configuration raises only IndexError (destination) or ValueError (parameters), never AttributeError. */
  lemma PlanQueryErrors(d0: Defaults, d1: Defaults, jobIdPrefix: string, q: QueryDetails, flags: QueryFlags)
    ensures var r := PlanQuery(d0, d1, jobIdPrefix, q, flags);
      r.Err? ==> r.error.IndexError? || r.error.ValueError?
  {
    SetQueryParamsSpec(GetQueryDetails(q, d0).queryParams);
  }

  /** A storage path never gains a `gs://` prefix by having a project that does not start with one put in front. */
  lemma PrefixedNotGcs(p: string, rest: string)
    requires !IsGcsPath(p)
    ensures !IsGcsPath(p + [Sep] + rest)
  {
    var s := p + [Sep] + rest;
    if |p| >= 5 {
      assert s[..5] == p[..5];
    } else if |s| >= 5 {
      assert s[..5][|p|] == s[|p|] == Sep;
    }
  }

  /**
   * `run_query` resolves the destination twice, once before and once after
   * the client fills in the default project. For a non-empty destination and
   * a project that is not a storage path, the result is the same as resolving
   * once with the final defaults.
   */
  lemma PlanQueryWithLateProject(d0: Defaults, d1: Defaults, jobIdPrefix: string, q: QueryDetails, flags: QueryFlags)
    requires Follows(d0, d1)
    requires d1.project.Some? ==> !IsGcsPath(d1.project.value)
    requires !q.SqlPath? && q.destination.Some? ==> q.destination.value != ""
    ensures PlanQuery(d0, d1, jobIdPrefix, q, flags) == PlanQuery(d1, d1, jobIdPrefix, q, flags)
  {
    var det0, det1 := GetQueryDetails(q, d0), GetQueryDetails(q, d1);
    if !q.SqlPath? && q.destination.Some? && !IsGcsPath(q.destination.value) {
      var s := q.destination.value;
      ResolveWithLaterDefaults(q.destination, d0, d1);
      ResolveIdempotent(q.destination, d1);
      assert AttachesDestination(det0.destination) == AttachesDestination(det1.destination) by {
        if d0.project.None? {
          assert det0.destination == q.destination;
          var r1 := ResolveTableSpec(Some(s), d1).value;
          if r1 != s {
            if Segments(s) == 2 {
              PrefixedNotGcs(d1.project.value, s);
            } else {
              PrefixedNotGcs(d1.project.value, d1.dataset.value + [Sep] + s);
              assert r1 == d1.project.value + [Sep] + (d1.dataset.value + [Sep] + s);
            }
          }
        }
      }
      assert DestinationFor(det0.destination, d1) == DestinationFor(det1.destination, d1);
    }
  }
}
