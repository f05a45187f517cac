/**
 * The pipeline object: a lazily created warehouse client and the defaults it
 * may fill in, and the operations that resolve names, create the client and
 * hand work to it, in order.
 */
module Pipeline {
  import opened Wrappers
  import opened TableSpec
  import opened QueryParams
  import opened JobConfig

  /** The warehouse client. Only the project it was created for matters to the pipeline. */
  class Client {
    const project: string

    constructor (project: string)
      ensures this.project == project
    {
      this.project := project;
    }
  }

  /** A copy job as `copy_table` submits it. */
  datatype CopyRequest = CopyRequest(source: string, destination: string, jobIdPrefix: string, config: CopyJobConfig)

  /** The defaults after `get_client`: the configured project if there is one, the client's project otherwise. */
  function Filled(d: Defaults, clientProject: string): (r: Defaults)
    ensures Follows(d, r) && r.project.Some?
    ensures d.project.None? ==> r.project == Some(clientProject)
  {
    if d.project.Some? then d else d.(project := Some(clientProject))
  }

  /** What `run_queries` submits: each entry planned as `run_query` plans it, in order, the first failure ending the run. */
  function PlanQueries(d0: Defaults, d1: Defaults, jobIdPrefix: string, qs: seq<QueryDetails>, flags: QueryFlags)
    : (r: Result<seq<QuerySubmission>, PyError>)
    ensures qs == [] ==> r == Ok([])
    ensures r.Ok? ==> |r.value| == |qs| && forall i | 0 <= i < |qs| :: r.value[i].jobIdPrefix == jobIdPrefix
    ensures r.Ok? && qs != [] ==> Ok(r.value[0]) == PlanQuery(d0, d1, jobIdPrefix, qs[0], flags)
  {
    Collect(seq(|qs|, i requires 0 <= i < |qs| => PlanQueryAsWritten(if i == 0 then d0 else d1, d1, jobIdPrefix, qs[i], flags)))
  }

  /** One submission per entry, in the order of the entries, or the error of the first entry that fails. */
  lemma PlanQueriesInOrder(d0: Defaults, d1: Defaults, jobIdPrefix: string, qs: seq<QueryDetails>, flags: QueryFlags)
    ensures var r := PlanQueries(d0, d1, jobIdPrefix, qs, flags);
      && (r.Ok? ==> |r.value| == |qs| && forall i | 0 <= i < |qs| :: r.value[i].sqlPath == qs[i].path)
      && (r.Err? ==> exists k | 0 <= k < |qs| ::
            PlanQueryAsWritten(if k == 0 then d0 else d1, d1, jobIdPrefix, qs[k], flags) == Err(r.error))
  {
  }

  class BQPipeline {
    const jobName: string
    const jobIdPrefix: string
    var queryProject: Option<string>
    var defaultProject: Option<string>
    const defaultDataset: Option<string>
    var bq: Client?

    /**
     * Two states. Before the client exists there is no query project; once
     * it exists, the query project is the client's and a default project is
     * known.
     */
    ghost predicate Valid()
      reads this
    {
      && jobIdPrefix == jobName + "-"
      && (bq == null ==> queryProject.None?)
      && (bq != null ==> queryProject == Some(bq.project) && defaultProject.Some?)
    }

    function CurrentDefaults(): Defaults
      reads this
    {
      Defaults(defaultProject, defaultDataset)
    }

    /** `BQPipeline(job_name, default_project=..., default_dataset=...)`: no client yet. */
    constructor (jobName: string, defaultProject: Option<string>, defaultDataset: Option<string>)
      ensures Valid() && bq == null
      ensures this.jobName == jobName && jobIdPrefix == jobName + "-"
      ensures this.defaultProject == defaultProject && this.defaultDataset == defaultDataset
    {
      this.jobName := jobName;
      this.jobIdPrefix := jobName + "-";
      this.queryProject := None;
      this.defaultProject := defaultProject;
      this.defaultDataset := defaultDataset;
      this.bq := null;
    }

    /**
     * `get_client`: the first call creates the client for `clientProject`
     * (the project its credentials or environment name), records it as the
     * query project and as the default project if none was configured; later
     * calls return the same client and change nothing.
     */
    method GetClient(clientProject: string) returns (client: Client)
      requires Valid()
      modifies this
      ensures Valid() && bq == client
      ensures old(bq) != null ==> client == old(bq) && unchanged(this)
      ensures old(bq) == null ==> fresh(client) && client.project == clientProject
      ensures old(bq) == null ==> queryProject == Some(clientProject)
      ensures old(bq) == null ==> defaultProject == if old(defaultProject).None? then Some(clientProject) else old(defaultProject)
      ensures CurrentDefaults() == Filled(old(CurrentDefaults()), clientProject)
    {
      if bq == null {
        bq := new Client(clientProject);
        queryProject := Some(bq.project);
        if defaultProject.None? {
          defaultProject := Some(bq.project);
        }
      }
      client := bq;
    }

    /** `infer_project`: the project of the existing client, or of the client it creates. */
    method InferProject(clientProject: string) returns (project: string)
      requires Valid()
      modifies this
      ensures Valid() && bq != null && queryProject == Some(project)
      ensures old(bq) != null ==> unchanged(this) && project == old(bq).project
      ensures old(bq) == null ==> fresh(bq) && project == clientProject
      ensures CurrentDefaults() == Filled(old(CurrentDefaults()), clientProject)
    {
      var client := GetClient(clientProject);
      project := client.project;
    }

    /**
     * `run_query` up to the submission: unpack the entry, which raises on a
     * tuple whose destination is None before anything else happens; then
     * create the client and build the configuration.
     */
    method RunQuery(q: QueryDetails, clientProject: string, flags: QueryFlags := QueryFlags())
      returns (r: Result<QuerySubmission, PyError>)
      requires Valid()
      modifies this
      ensures Valid()
      ensures old(bq) != null ==> unchanged(this)
      ensures GetQueryDetailsAsWritten(q, old(CurrentDefaults())).Err? ==> unchanged(this)
      ensures GetQueryDetailsAsWritten(q, old(CurrentDefaults())).Ok? ==>
        bq != null && CurrentDefaults() == Filled(old(CurrentDefaults()), clientProject)
      ensures old(bq) == null && bq != null ==> fresh(bq) && bq.project == clientProject
      ensures r == PlanQueryAsWritten(old(CurrentDefaults()), Filled(old(CurrentDefaults()), clientProject), jobIdPrefix, q, flags)
    {
      ghost var d0 := CurrentDefaults();
      var unpacked := GetQueryDetailsAsWritten(q, CurrentDefaults());
      if unpacked.Err? {
        return Err(unpacked.error);
      }
      var details := unpacked.value;
      GetQueryDetailsAgrees(q, d0);
      var client := GetClient(clientProject);
      var config := CreateJobConfig(CurrentDefaults(), flags.batch, details.destination, flags.create,
                                    flags.overwrite, flags.append, details.queryParams);
      if config.Err? {
        return Err(config.error);
      }
      var format := ExportFormatNamed(flags.exportFormat);
      var exportJob := if details.isGcsDest && format.Some? then Some(Export(format.value, details.destination.value)) else None;
      r := Ok(QuerySubmission(details.sqlPath, config.value, jobIdPrefix, exportJob));
    }

    /**
     * `run_queries`: `run_query` on each entry in order, stopping at the first
     * failure. The first entry is unpacked with the defaults from before the
     * client exists, the rest with those after.
     */
    method RunQueries(qs: seq<QueryDetails>, clientProject: string, flags: QueryFlags := RunQueriesFlags)
      returns (r: Result<seq<QuerySubmission>, PyError>)
      requires Valid()
      modifies this
      ensures Valid()
      ensures old(bq) != null || bq == null ==> unchanged(this)
      ensures bq != null ==> CurrentDefaults() == Filled(old(CurrentDefaults()), clientProject)
      ensures old(bq) == null && bq != null ==> fresh(bq) && bq.project == clientProject
      ensures qs != [] && GetQueryDetailsAsWritten(qs[0], old(CurrentDefaults())).Ok? ==> bq != null
      ensures qs == [] || GetQueryDetailsAsWritten(qs[0], old(CurrentDefaults())).Err? ==> unchanged(this)
      ensures r == PlanQueries(old(CurrentDefaults()), Filled(old(CurrentDefaults()), clientProject), jobIdPrefix, qs, flags)
    {
      ghost var d0 := CurrentDefaults();
      ghost var d1 := Filled(d0, clientProject);
      ghost var rs := seq(|qs|, i requires 0 <= i < |qs| => PlanQueryAsWritten(if i == 0 then d0 else d1, d1, jobIdPrefix, qs[i], flags));
      var jobs: seq<QuerySubmission> := [];
      var i := 0;
      while i < |qs|
        invariant 0 <= i <= |qs| && |jobs| == i
        invariant Valid()
        invariant old(bq) != null || i == 0 ==> unchanged(this)
        invariant i > 0 ==> bq != null && CurrentDefaults() == d1
        invariant old(bq) == null && bq != null ==> fresh(bq) && bq.project == clientProject
        invariant forall k | 0 <= k < i :: rs[k] == Ok(jobs[k])
      {
        var job := RunQuery(qs[i], clientProject, flags);
        if job.Err? {
          CollectFirstError(rs, i);
          return Err(job.error);
        }
        jobs := jobs + [job.value];
        i := i + 1;
      }
      assert Collect(rs).Ok?;
      assert Collect(rs).value == jobs;
      r := Ok(jobs);
    }

    /** `delete_table`: the spec handed to the client, resolved before the client is created. */
    method DeleteTable(table: string, clientProject: string) returns (spec: string)
      requires Valid()
      modifies this
      ensures Valid() && bq != null
      ensures old(bq) != null ==> unchanged(this)
      ensures old(bq) == null ==> fresh(bq) && bq.project == clientProject
      ensures CurrentDefaults() == Filled(old(CurrentDefaults()), clientProject)
      ensures spec == ResolveTableSpec(Some(table), old(CurrentDefaults())).value
    {
      spec := ResolveTableSpec(Some(table), CurrentDefaults()).value;
      var client := GetClient(clientProject);
    }

    /**
     * `delete_tables`: the specs handed to the client, in order. The first is
     * resolved with the defaults from before the client exists, the rest with
     * the defaults after.
     */
    method DeleteTables(tables: seq<string>, clientProject: string) returns (deleted: seq<string>)
      requires Valid()
      modifies this
      ensures Valid()
      ensures tables == [] || old(bq) != null ==> unchanged(this)
      ensures tables != [] ==> bq != null && CurrentDefaults() == Filled(old(CurrentDefaults()), clientProject)
      ensures tables != [] && old(bq) == null ==> fresh(bq) && bq.project == clientProject
      ensures |deleted| == |tables|
      ensures forall i | 0 <= i < |tables| ::
        deleted[i] == ResolveTableSpec(Some(tables[i]), if i == 0 then old(CurrentDefaults()) else CurrentDefaults()).value
    {
      ghost var d0 := CurrentDefaults();
      ghost var d1 := Filled(d0, clientProject);
      deleted := [];
      for i := 0 to |tables|
        invariant |deleted| == i
        invariant Valid()
        invariant old(bq) != null || i == 0 ==> unchanged(this)
        invariant i > 0 ==> bq != null && CurrentDefaults() == d1
        invariant i > 0 && old(bq) == null ==> fresh(bq) && bq.project == clientProject
        invariant forall k | 0 <= k < i ::
          deleted[k] == ResolveTableSpec(Some(tables[k]), if k == 0 then d0 else d1).value
      {
        var spec := DeleteTable(tables[i], clientProject);
        deleted := deleted + [spec];
      }
    }

    /** `copy_table`: both specs resolved, then the copy configuration for `overwrite`. */
    method CopyTable(src: string, dest: string, clientProject: string, overwrite: bool := true) returns (req: CopyRequest)
      requires Valid()
      modifies this
      ensures Valid() && bq != null
      ensures old(bq) != null ==> unchanged(this)
      ensures old(bq) == null ==> fresh(bq) && bq.project == clientProject
      ensures CurrentDefaults() == Filled(old(CurrentDefaults()), clientProject)
      ensures req.source == ResolveTableSpec(Some(src), old(CurrentDefaults())).value
      ensures req.destination == ResolveTableSpec(Some(dest), old(CurrentDefaults())).value
      ensures req.jobIdPrefix == jobIdPrefix
      ensures req.config.writeDisposition == (if overwrite then WRITE_TRUNCATE else WRITE_EMPTY)
    {
      var source := ResolveTableSpec(Some(src), CurrentDefaults()).value;
      var destination := ResolveTableSpec(Some(dest), CurrentDefaults()).value;
      var client := GetClient(clientProject);
      req := CopyRequest(source, destination, jobIdPrefix, CreateCopyJobConfig(overwrite));
    }

    /**
     * `create_dataset` as written: it uses the client field directly, so it
     * raises AttributeError until some other operation has created the client.
     */
    method CreateDatasetAsWritten(dataset: string) returns (r: Result<string, PyError>)
      requires Valid()
      ensures r.Err? <==> bq == null
      ensures r.Err? ==> r.error.AttributeError?
      ensures r.Ok? ==> r.value == ResolveDatasetSpec(Some(dataset), CurrentDefaults()).value
      ensures r.Ok? && Segments(dataset) == 1 ==> r.value == defaultProject.value + [Sep] + dataset
    {
      if bq == null {
        return Err(AttributeError("'NoneType' object has no attribute 'create_dataset'"));
      }
      r := Ok(ResolveDatasetSpec(Some(dataset), CurrentDefaults()).value);
    }

    /**
     * `create_dataset` going through `get_client`, like every other
     * operation: nothing raises before the client is asked, and a bare dataset name is always
     * qualified with a project.
     */
    method CreateDataset(dataset: string, clientProject: string) returns (spec: string)
      requires Valid()
      modifies this
      ensures Valid() && bq != null
      ensures old(bq) != null ==> unchanged(this)
      ensures old(bq) == null ==> fresh(bq) && bq.project == clientProject
      ensures CurrentDefaults() == Filled(old(CurrentDefaults()), clientProject)
      ensures spec == ResolveDatasetSpec(Some(dataset), CurrentDefaults()).value
      ensures Segments(dataset) == 1 ==> spec == defaultProject.value + [Sep] + dataset
    {
      var client := GetClient(clientProject);
      spec := ResolveDatasetSpec(Some(dataset), CurrentDefaults()).value;
    }
  }

  /** On a freshly constructed pipeline, `create_dataset` as written always raises AttributeError. */
  method FreshPipelineCannotCreateDataset(jobName: string, defaultProject: Option<string>,
                                          defaultDataset: Option<string>, dataset: string)
    returns (r: Result<string, PyError>)
    ensures r.Err? && r.error.AttributeError?
  {
    var p := new BQPipeline(jobName, defaultProject, defaultDataset);
    r := p.CreateDatasetAsWritten(dataset);
  }

  /**
   * On a fresh pipeline with only a default dataset, deleting the same
   * one-segment table twice hands the client two different specs: the bare
   * name first, the fully qualified name after the client exists.
   */
  lemma DeleteTablesResolveDiffers(dataset: string, clientProject: string, table: string)
    requires Segments(table) == 1
    ensures var d0 := Defaults(None, Some(dataset));
      var d1 := Filled(d0, clientProject);
      ResolveTableSpec(Some(table), d0).value == table
      && ResolveTableSpec(Some(table), d1).value == clientProject + [Sep] + dataset + [Sep] + table
  {
  }
}
