# ox-bqpipeline core, modelled in Dafny

`BQPipeline` wraps the BigQuery client library for pipelines of SQL jobs.
A pipeline has a job name and an optional default project and default
dataset. It creates its warehouse client lazily, the first time an operation
needs one. If no default project was configured, it then takes the client's
project as the default. Every table spec it is given is completed against the
defaults before use:

- `table` becomes `project.dataset.table` when both defaults are set;
- `dataset.table` becomes `project.dataset.table` when a project is set;
- anything else is left as it is.

Query parameters are given as a Python list (positional) or a dict (named).
Each list or dict is validated first and then turned into typed parameters:

- a scalar takes its BigQuery type from a table;
- a float within the NUMERIC bounds is NUMERIC;
- a list becomes an array;
- a dict becomes a struct.

Query jobs take a batch/interactive priority, a create disposition, a write
disposition, a default dataset, an optional destination table and the typed
parameters. If the destination is a Cloud Storage path (`gs://...`), no
destination table is set and the result is exported there instead.

The model has six modules:

- `Wrappers` (`wrappers.dfy`):
  - Option and Result;
  - the Python exceptions the pipeline raises itself;
  - `Collect`, which captures how a list comprehension stops at the first exception.
- `TableSpec` (`table_spec.dfy`):
  - `str.split('.')` and `'.'.join`;
  - `resolve_table_spec`, `resolve_dataset_spec` and `to_tableref`.
- `QueryParams` (`query_params.dfy`):
  - Python values, `validate_parameter`, `validate_query_params`;
  - `set_parameter`, `set_query_params`.
- `JobConfig` (`job_config.dfy`):
  - `create_job_config`, `create_copy_job_config`, `get_query_details`;
  - what `run_query` submits.
- `Pipeline` (`pipeline.dfy`):
  - the pipeline object, with fields `bq`, `query_project`, `default_project` and `default_dataset`;
  - `get_client` as a two-state machine;
  - the operations that resolve names and hand them to the client: `run_query`, the `run_queries` loop, `delete_table`, the `delete_tables` loop, `copy_table`, `create_dataset`.
- `TestVectors` (`test_vectors.dfy`): the expectations of the repository's unit tests, stated about the model.

Python values are modelled as follows:

- `None` is `Null`.
- A float is a real number.
- `datetime.datetime` is a `Timestamp` in microseconds.
- `datetime.date` is a `Date` in days.
- `bytes` are a sequence of `bv8`.
- A dict is a sequence of (key, value) pairs in insertion order. Keys are str or int.

`set_parameter` returns None for a value it has no branch for. The model calls that value `NoParam`.

The warehouse client is reduced to the one thing the pipeline reads from it: its project. That project is a parameter of every operation that may create the client. It stands for what the client library infers from the credentials or the environment.

Behaviour that follows from the code and that the model makes explicit:

- **Names are resolved before `get_client` is called.**
  - `delete_table`, `copy_table` and the entry unpacking of `run_query` resolve names before calling `get_client`.
  - On a fresh pipeline with no default project, the first call therefore resolves with the defaults from before the client exists. Later calls resolve with the client's project.
  - `DeleteTablesResolveDiffers` shows this: the same bare table name is handed to the client unqualified the first time and fully qualified afterwards.
- **`run_query` unpacks the entry before anything else.** An entry whose destination is None raises before the client is created. `RunQuery` and `RunQueries` follow the code as written; `PlanQuery` is the corrected plan (see Findings).
- **`run_query` resolves the destination twice**: once in `get_query_details`, before the client exists, and again in `create_job_config`, after.
  - `PlanQueryWithLateProject` proves that the double resolution is harmless when the destination is non-empty and the project does not start with `gs://`.
  - An empty destination string is the exception. It is left alone when no default project is set yet, so no destination table is set. With both defaults known it would resolve to `project.dataset.`.

## Model

| member | source | states |
|---|---|---|
| Wrappers.Collect | ox_bqpipeline/bqpipeline.py:416-423 | a list comprehension yields one value per element, in order, exactly when no element raises; otherwise it raises the exception of the first element that does |
| Wrappers.CollectFirstError | ox_bqpipeline/bqpipeline.py:416-423 | the first element that raises decides the exception, whatever follows it |
| TableSpec.Split | ox_bqpipeline/bqpipeline.py:109 | `split('.')` always yields at least one piece |
| TableSpec.SplitPiecesDotFree | ox_bqpipeline/bqpipeline.py:109 | no piece of a split contains a dot |
| TableSpec.JoinSplit | ox_bqpipeline/bqpipeline.py:109 | joining the pieces of a split with dots gives back the string |
| TableSpec.SplitDotFree | ox_bqpipeline/bqpipeline.py:267 | a name without dots is a single segment |
| TableSpec.SplitCons | ox_bqpipeline/bqpipeline.py:267 | the first piece of a split grows by the first character unless that character is a dot, which starts a new piece |
| TableSpec.SplitConcat | ox_bqpipeline/bqpipeline.py:267-271 | the segments of `a + '.' + b` are those of `a` followed by those of `b`, so prefixing a default adds its segments |
| TableSpec.SplitJoin | ox_bqpipeline/bqpipeline.py:109 | splitting the dotted join of dot-free names gives back the names |
| TableSpec.ResolveTableSpec | ox_bqpipeline/bqpipeline.py:265-274 | None resolves to None and a string to a string |
| TableSpec.ResolvedSegments | ox_bqpipeline/bqpipeline.py:265-274 | a two-segment spec gains the default project's segments in front; a one-segment spec gains the default project's and dataset's; any other spec is returned unchanged |
| TableSpec.ResolvedHasThreeSegments | ox_bqpipeline/bqpipeline.py:265-274 | a spec the resolver changes ends up with at least three segments |
| TableSpec.ResolveIdempotent | ox_bqpipeline/bqpipeline.py:265-274 | resolving an already resolved spec changes nothing |
| TableSpec.ResolveWithLaterDefaults | ox_bqpipeline/bqpipeline.py:243-246 | resolving with the defaults from before `get_client` and then with those from after gives the same as resolving once with the later ones |
| TableSpec.ResolveFullyQualifies | ox_bqpipeline/bqpipeline.py:265-274 | with dot-free names, `table`, `dataset.table` and `project.dataset.table` resolve to exactly three segments, the missing ones taken from the defaults |
| TableSpec.ResolveToSameTable | tests/test_bqpipeline.py:32-44 | for every dot-free project, dataset and table, the three forms of a spec all resolve to the string `project.dataset.table` |
| TableSpec.ResolveDatasetSpec | ox_bqpipeline/bqpipeline.py:283-289 | None resolves to None and a string to a string |
| TableSpec.ResolveDatasetIdempotent | ox_bqpipeline/bqpipeline.py:283-289 | a dataset spec the resolver changes has at least two segments, and resolving again changes nothing |
| TableSpec.ResolveDatasetQualifies | ox_bqpipeline/bqpipeline.py:283-289 | with a dot-free default project, a bare dataset name resolves to exactly `project.dataset` |
| TableSpec.ToTableRef | ox_bqpipeline/bqpipeline.py:103-110 | a table reference is built exactly when the spec has at least three segments; otherwise IndexError is raised |
| TableSpec.TableRefRoundTrip | ox_bqpipeline/bqpipeline.py:91-110 | a reference with dot-free parts is recovered from its spec string |
| TableSpec.SpecRoundTrip | ox_bqpipeline/bqpipeline.py:103-110 | a three-segment spec is recovered from its reference |
| QueryParams.ValidateParameter | ox_bqpipeline/bqpipeline.py:378-401 | None, an empty list and an empty dict are never a valid parameter; the element and key checks themselves are stated by ValidListIff and StrKeysIff |
| QueryParams.ValidateQueryParams | ox_bqpipeline/bqpipeline.py:357-376 | only a list or a dict can be valid, and a valid dict has at least one entry |
| QueryParams.ValidListIff | ox_bqpipeline/bqpipeline.py:384-387 | a list parameter is valid iff it is non-empty, its first element has a type in the scalar type table, and every element has that same type |
| QueryParams.StrKeysIff | ox_bqpipeline/bqpipeline.py:370-373 | the dict key check holds iff there is at least one key and every key is a str |
| QueryParams.InvalidLists | ox_bqpipeline/bqpipeline.py:384-387 | the empty list, a list holding a list, dict or None, and a list of two differently typed values are all invalid |
| QueryParams.NamedParamsAreValidDict | ox_bqpipeline/bqpipeline.py:357-397 | a top-level dict is valid exactly when it is valid as a single nested parameter |
| QueryParams.SetParameter | ox_bqpipeline/bqpipeline.py:159-193 | only a list or a dict can raise; None gives no parameter and nothing else does; every other value keeps the given name; a list becomes an array of exactly its elements and a dict a struct with one field per entry |
| QueryParams.ArrayKind | ox_bqpipeline/bqpipeline.py:180-190 | comparing the elements can raise, with TypeError, only when the first element is a float; the kind is NUMERIC iff the first element is a float and every element compares within the bounds; any other kind is the type table's kind of the first element |
| QueryParams.ScalarKinds | ox_bqpipeline/bqpipeline.py:168-178 | a scalar keeps its name and value; its kind is NUMERIC iff it is a float within the bounds, and otherwise the type table's kind |
| QueryParams.ArrayKinds | ox_bqpipeline/bqpipeline.py:180-190 | a valid list becomes an array of all its elements under its name; the kind is NUMERIC iff every element is a float within the bounds, and otherwise the table's kind of the first element |
| QueryParams.EmptyListRejected | ox_bqpipeline/bqpipeline.py:181-183 | an empty list raises ValueError |
| QueryParams.StructFields | ox_bqpipeline/bqpipeline.py:191-193 | a dict becomes a struct with one field per entry, in order, each typed from its key and value |
| QueryParams.ValidParameterTyped | ox_bqpipeline/bqpipeline.py:159-193 | every value that `validate_parameter` accepts is typed without an exception, under the given name, with a kind for every scalar and array and no missing fields |
| QueryParams.SetQueryParams | ox_bqpipeline/bqpipeline.py:403-423 | a falsy input gives None; a truthy input that succeeds passed validation and gives one parameter per element; the rest is stated by SetQueryParamsSpec |
| QueryParams.SetQueryParamsSpec | ox_bqpipeline/bqpipeline.py:403-423 | a falsy input gives None; an invalid input raises ValueError; otherwise there is one typed parameter per element, in order, named None for a list and by the key for a dict |
| JobConfig.DestinationFor | ox_bqpipeline/bqpipeline.py:329-333 | a destination table is attached iff the destination is non-empty and not a `gs://` path; attaching raises, with IndexError only, iff the resolved spec has fewer than three segments |
| JobConfig.CreateJobConfig | ox_bqpipeline/bqpipeline.py:300-355 | the call fails iff an attached destination resolves to fewer than three segments or the parameters are rejected; a destination table is set iff the destination is non-empty and not a `gs://` path; a default dataset is set iff both defaults are; parameters are set iff they are truthy, and they are exactly what `set_query_params` gives; the arguments default as in the source (interactive, no destination, create, overwrite, no append, no parameters) |
| JobConfig.JobConfigFlags | ox_bqpipeline/bqpipeline.py:311-327 | create gives CREATE_IF_NEEDED and otherwise CREATE_NEVER; overwrite wins over append, and neither gives WRITE_EMPTY; batch gives BATCH priority and otherwise INTERACTIVE |
| JobConfig.JobConfigDestination | ox_bqpipeline/bqpipeline.py:329-342 | the destination table is the reference of the resolved spec; a `gs://` destination sets none; the default dataset is `default_project.default_dataset` |
| JobConfig.DestinationQualified | ox_bqpipeline/bqpipeline.py:329-333 | a one-, two- or three-segment dot-free destination becomes the table `project.dataset.table`, with the missing parts filled from the defaults |
| JobConfig.WithoutParams | ox_bqpipeline/bqpipeline.py:350-355 | without parameters, the config fails exactly when its destination does, and it carries that destination and no parameters |
| JobConfig.DestinationForQualified | ox_bqpipeline/bqpipeline.py:329-333 | the destination reference of a dot-free one-, two- or three-segment spec has the defaults filled in |
| JobConfig.CreateCopyJobConfig | ox_bqpipeline/bqpipeline.py:113-124 | overwrite, which defaults to true, gives WRITE_TRUNCATE and otherwise WRITE_EMPTY; a copy never appends |
| JobConfig.TupleDetails | ox_bqpipeline/bqpipeline.py:434-441 | a tuple entry keeps its path and parameters and always has a destination; it is a storage destination iff it is a `gs://` path, which is kept as given; a table spec is either left as given or resolved to at least three segments |
| JobConfig.GetQueryDetailsAsWritten | ox_bqpipeline/bqpipeline.py:425-445 | the code as written raises AttributeError exactly for a tuple entry whose destination is None |
| JobConfig.CliEntryWithoutDestinationFails | ox_bqpipeline/bqpipeline.py:437 | the entry `(query_file, None, params)` raises AttributeError in the code as written |
| JobConfig.GetQueryDetails | ox_bqpipeline/bqpipeline.py:425-445 | the path and the parameters are passed through; the destination is a storage destination iff it is a `gs://` path; a storage path is kept as it is and a table spec is resolved; no destination means no destination |
| JobConfig.GetQueryDetailsAgrees | ox_bqpipeline/bqpipeline.py:425-445 | wherever the code as written does not raise, the corrected reading gives the same result; a None destination is treated like a bare path |
| JobConfig.ExportFormatNamed | ox_bqpipeline/bqpipeline.py:482-489 | an export format is chosen iff the name is `CSV`, `JSON` or `AVRO`, each name choosing its own format; any other name exports nothing |
| JobConfig.PlanQuery | ox_bqpipeline/bqpipeline.py:447-491 | the corrected plan of `run_query`, with a None destination read as "no destination": a submission keeps the SQL path and the job id prefix; an export follows iff the destination is a `gs://` path and the format is CSV, JSON or AVRO; an export sets no destination table and exports to the given path; the plan fails exactly when `create_job_config` does, with its error, and otherwise submits its configuration |
| JobConfig.PlanQueryAsWritten | ox_bqpipeline/bqpipeline.py:460-469 | `run_query` as written raises AttributeError exactly for a tuple entry whose destination is None, because it unpacks the entry first; on every other entry it submits what the corrected plan submits |
| JobConfig.PlanQueryErrors | ox_bqpipeline/bqpipeline.py:329-355 | building a configuration raises only IndexError, for a destination with fewer than three segments, or ValueError, for rejected parameters |
| JobConfig.PrefixedNotGcs | ox_bqpipeline/bqpipeline.py:329 | prefixing a project that does not start with `gs://` never makes a spec start with it |
| JobConfig.PlanQueryWithLateProject | ox_bqpipeline/bqpipeline.py:460-469 | resolving in `get_query_details` with the defaults from before the client exists, and again in `create_job_config` after, submits the same job as resolving once with the later defaults, for a non-empty destination |
| Pipeline.Client.constructor | ox_bqpipeline/bqpipeline.py:242 | a client is created for the project it is given |
| Pipeline.Filled | ox_bqpipeline/bqpipeline.py:243-246 | `get_client` keeps the dataset and a configured project, and fills a missing project with the client's |
| Pipeline.PlanQueries | ox_bqpipeline/bqpipeline.py:507-513 | no entries give no jobs; a successful run has one submission per entry, each with the pipeline's job id prefix, and the first entry is planned as `run_query` plans it with the defaults from before the client exists |
| Pipeline.PlanQueriesInOrder | ox_bqpipeline/bqpipeline.py:508-514 | one submission per entry, in order, or the error of an entry that fails as `run_query` as written fails on it |
| Pipeline.BQPipeline.constructor | ox_bqpipeline/bqpipeline.py:204-232 | a new pipeline has no client and no query project; its job id prefix is `job_name + '-'`; it keeps the configured defaults |
| Pipeline.BQPipeline.GetClient | ox_bqpipeline/bqpipeline.py:234-248 | the first call creates the client, records its project as the query project and, when none is configured, as the default project; later calls return the same client and change nothing |
| Pipeline.BQPipeline.InferProject | ox_bqpipeline/bqpipeline.py:250-254 | returns the project of the existing client and changes nothing, or creates a client for the given project, records it as the query project and fills a missing default project with it |
| Pipeline.BQPipeline.RunQuery | ox_bqpipeline/bqpipeline.py:447-491 | unpacks the entry first: a tuple whose destination is None raises AttributeError and leaves the pipeline unchanged, with no client created; otherwise it creates the client (keeping an existing one, or making a new one for the given project) and submits what `PlanQueryAsWritten` gives, with the entry unpacked with the old defaults and the config built with the new ones; the switches default to those of `run_query` |
| Pipeline.BQPipeline.RunQueries | ox_bqpipeline/bqpipeline.py:493-514 | runs each entry in order and stops at the first failure; the first entry sees the defaults from before the client exists and the rest see the defaults after; an existing client is kept, and a new one, for the given project, is created exactly when the first entry unpacks, so with no entries or a first entry that raises the pipeline is left unchanged; the switches default to batch priority |
| Pipeline.BQPipeline.DeleteTable | ox_bqpipeline/bqpipeline.py:542-549 | the spec handed to the client is resolved with the defaults from before `get_client`; an existing client is kept and nothing changes, otherwise a new client for the given project is created and fills a missing default project |
| Pipeline.BQPipeline.DeleteTables | ox_bqpipeline/bqpipeline.py:551-559 | one spec per table, in order; the first is resolved with the defaults from before the client exists and the rest with those after; an existing client is kept, and a new one, for the given project, is created exactly when there is a table |
| Pipeline.BQPipeline.CopyTable | ox_bqpipeline/bqpipeline.py:516-540 | both specs are resolved before the client is created; an existing client is kept, otherwise a new one is created for the given project; the copy truncates iff overwrite, which defaults to true, and otherwise requires an empty target |
| Pipeline.BQPipeline.CreateDatasetAsWritten | ox_bqpipeline/bqpipeline.py:292-298 | raises AttributeError exactly when no client exists yet; otherwise hands over the resolved dataset spec |
| Pipeline.BQPipeline.CreateDataset | ox_bqpipeline/bqpipeline.py:292-298 | with the client created first (an existing one kept, otherwise a new one for the given project), the call raises nothing before the dataset is created, and a bare dataset name is always qualified with a project |
| Pipeline.FreshPipelineCannotCreateDataset | ox_bqpipeline/bqpipeline.py:297 | on a freshly constructed pipeline, `create_dataset` as written always raises AttributeError |
| Pipeline.DeleteTablesResolveDiffers | ox_bqpipeline/bqpipeline.py:542-559 | on a fresh pipeline with only a default dataset, a bare table name is handed over unqualified before the client exists and fully qualified after |
| TestVectors.CreateJobConfigDefault | tests/test_bqpipeline.py:46-60 | with no arguments: no destination, the default dataset, CREATE_IF_NEEDED, WRITE_TRUNCATE, INTERACTIVE |
| TestVectors.CreateJobConfigFlags | tests/test_bqpipeline.py:78-88 | `batch=False, create=False, overwrite=False` gives INTERACTIVE, CREATE_NEVER, WRITE_EMPTY |
| TestVectors.ScalarParameters | tests/test_bqpipeline.py:91-131 | the STRING, INT64, NUMERIC, FLOAT64, TIMESTAMP, DATE, BYTES and BOOL examples |
| TestVectors.ArrayParameters | tests/test_bqpipeline.py:133-153 | the STRING, INT64, FLOAT64 and NUMERIC array examples, and ValueError for `[]` |
| TestVectors.StructParameters | tests/test_bqpipeline.py:155-159 | `{'a': 'abc'}` is a struct with one STRING field `a` |
| TestVectors.PositionalParameters | tests/test_bqpipeline.py:161-172 | positional parameters carry no name |
| TestVectors.QueryParamsExamples | tests/test_bqpipeline.py:174-190 | `[]` gives None, `[1]` and `{'test': 1}` give one INT64 parameter, and `[1, [1, 'two']]` raises ValueError('Invalid query parameters provided!') |
| TestVectors.InvalidQueryParams | tests/test_bqpipeline.py:192-209 | None, `[[]]`, `{'1': []}`, `{1: 1}`, `{'1': {}}` and `{'1': {1: 1}}` are invalid |
| TestVectors.InvalidListParams | tests/test_bqpipeline.py:205-212 | `[1, [1, 'two']]` and a list of dicts are invalid |
| TestVectors.ValidQueryParams | tests/test_bqpipeline.py:214-225 | nested dicts with str keys, scalars and homogeneous lists are valid |

## Left out

- The `TableReference` branch of `resolve_table_spec` (lines 263-264) is left out. A reference passes through unchanged, and the model resolves only strings and None.
- Reading the SQL file (`read_sql`) and rendering it with Jinja2 are left out. They are file I/O and a template engine. A missing file would raise before `get_client` is called, which the model does not capture.
- Creating the client is assumed to succeed. Building `bigquery.Client` (lines 241 and 243) can raise, for example when no credentials or no project can be found. `GetClient` always returns a client, so "raises nothing" in the rows of operations that call it means nothing before that call.
- The `wait` and `timeout` arguments of `run_query`, `run_queries` and `copy_table`, and their defaults, are left out with the waiting itself. The other switches take the source's defaults.
- Submitting jobs, waiting for them (`wait`, `timeout`, `job.result`) and fetching them again are left out. The model stops at what is submitted: the SQL path, the configuration, the job id prefix and the export that follows.
- The three export methods and `gcs_export_job_poller` are client-library calls. The model records only which format is exported and to which path.
- `create_dataset`'s `exists_ok` flag is passed to the client library and not modelled.
- Logging (`get_logger`, `exception_logger` and the log messages) is left out. `exception_logger` logs and re-raises, so it does not change what is raised.
- `main` and argument parsing are left out. Only the entry it builds, `(query_file, gcs_destination, query_params)`, appears, in the first finding.
- Two settings are left out: `location` and `json_credentials_path`, which only choose how the client is built. The client's project is a parameter instead.
- The constructor ignores its `query_project` argument. The model has no such argument either.
- Floats are real numbers: IEEE rounding, infinities and NaN are not modelled. `NUMERIC_BOUNDS` are the exact decimals written in the source.
- Comparing a float with a str, bytes, date or None raises TypeError in the array branch of `set_parameter`. The model raises TypeError for such an element; the message text is not the one Python prints.
- `set_parameter` has no branch for some values, such as None, and returns None for them (`NoParam`). Types outside the modelled ones (tuples, sets, datetime subclasses) are left out.
- Python `bool` is a subclass of `int`. The source relies on `type()` rather than `isinstance()` in the tables, so `True` maps to BOOL, and the model follows that. It does not model that `True` and `1` compare equal as dict keys.
- Dict keys are assumed distinct. A dict is a sequence of entries in insertion order.
- Tuple entries of length one, or longer than three, are left out of `get_query_details`. The model has a bare path and tuples of two and three.
- TableSpec.ResolveToSameTable and JobConfig.DestinationQualified state the resolution and destination tests for every dot-free project, dataset and table. The literal names of those tests are one instance.

## Findings

| source | as written | input that shows it | evidently intended | confidence | as-written member | corrected member |
|---|---|---|---|---|---|---|
| ox_bqpipeline/bqpipeline.py:437 | `get_query_details` calls `query_details[1].startswith('gs://')` on any tuple entry, so a None destination raises AttributeError | the command line without `--gcs_destination`: `main()` builds `(query_file, None, query_params)` (line 655) | a None destination means no destination: the query runs with its parameters and nothing is exported | not executed | JobConfig.GetQueryDetailsAsWritten, JobConfig.CliEntryWithoutDestinationFails, JobConfig.PlanQueryAsWritten, Pipeline.BQPipeline.RunQuery | JobConfig.GetQueryDetails, JobConfig.PlanQuery |
| ox_bqpipeline/bqpipeline.py:297 | `create_dataset` calls `self.bq.create_dataset` directly, and `bq` is None until another operation has called `get_client` | `BQPipeline('j').create_dataset('ds')` on a new pipeline | create the client through `get_client` first, as every other operation does, so the dataset is created and a bare name is qualified | not executed | Pipeline.BQPipeline.CreateDatasetAsWritten, Pipeline.FreshPipelineCannotCreateDataset | Pipeline.BQPipeline.CreateDataset |
