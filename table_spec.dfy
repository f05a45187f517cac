/**
 * Table specs (`table`, `dataset.table`, `project.dataset.table`) and dataset
 * specs (`dataset`, `project.dataset`), resolved against the pipeline's
 * default project and default dataset.
 */
module TableSpec {
  import opened Wrappers

  const Sep: char := '.'

  /** The pipeline fields `default_project` and `default_dataset`. */
  datatype Defaults = Defaults(project: Option<string>, dataset: Option<string>)

  /** A fully qualified reference to a table. */
  datatype TableRef = TableRef(project: string, datasetId: string, tableId: string)

  predicate DotFree(s: string) {
    forall i | 0 <= i < |s| :: s[i] != Sep
  }

  /** Python's `s.split('.')`: the dot-free pieces between the dots, in order. */
  function Split(s: string): (parts: seq<string>)
    ensures |parts| >= 1
  {
    if s == [] then [""]
    else
      var rest := Split(s[1..]);
      if s[0] == Sep then [""] + rest
      else [[s[0]] + rest[0]] + rest[1..]
  }

  /** Python's `'.'.join(parts)`. */
  function Join(parts: seq<string>): string {
    if |parts| == 0 then ""
    else if |parts| == 1 then parts[0]
    else parts[0] + [Sep] + Join(parts[1..])
  }

  /** Every piece that Split returns is free of dots. */
  lemma {:induction false} SplitPiecesDotFree(s: string)
    ensures forall i | 0 <= i < |Split(s)| :: DotFree(Split(s)[i])
  {
    if s != [] {
      SplitPiecesDotFree(s[1..]);
    }
  }

  /** Joining the pieces of a split gives back the original string. */
  lemma {:induction false} JoinSplit(s: string)
    ensures Join(Split(s)) == s
  {
    if s != [] {
      JoinSplit(s[1..]);
      var rest := Split(s[1..]);
      if s[0] == Sep {
        assert Split(s) == [""] + rest;
        assert Join(Split(s)) == "" + [Sep] + Join(rest);
      } else if |rest| == 1 {
        assert Split(s) == [[s[0]] + rest[0]];
      } else {
        assert Split(s) == [[s[0]] + rest[0]] + rest[1..];
        assert Join(Split(s)) == [s[0]] + rest[0] + [Sep] + Join(rest[1..]);
        assert Join(rest) == rest[0] + [Sep] + Join(rest[1..]);
      }
    }
  }

  /** A dot-free string splits into itself. */
  lemma {:induction false} SplitDotFree(s: string)
    requires DotFree(s)
    ensures Split(s) == [s]
  {
    if s != [] {
      assert DotFree(s[1..]) by {
        forall i | 0 <= i < |s[1..]| ensures s[1..][i] != Sep { assert s[1..][i] == s[i + 1]; }
      }
      SplitDotFree(s[1..]);
      assert [s[0]] + s[1..] == s;
    }
  }

  /** How Split treats a string by its first character. */
  lemma SplitCons(c: char, s: string)
    ensures Split([c] + s) ==
      if c == Sep then [""] + Split(s) else [[c] + Split(s)[0]] + Split(s)[1..]
  {
    assert ([c] + s)[0] == c && ([c] + s)[1..] == s;
  }

  /** Splitting distributes over a dot: the segments of `a.b` are those of `a` followed by those of `b`. */
  lemma {:induction false} SplitConcat(a: string, b: string)
    ensures Split(a + [Sep] + b) == Split(a) + Split(b)
  {
    if a == [] {
      assert a + [Sep] + b == [Sep] + b;
      SplitCons(Sep, b);
    } else {
      var tail := a[1..] + [Sep] + b;
      assert a + [Sep] + b == [a[0]] + tail;
      assert a == [a[0]] + a[1..];
      SplitConcat(a[1..], b);
      SplitCons(a[0], tail);
      SplitCons(a[0], a[1..]);
    }
  }

  /** Splitting the join of dot-free, non-empty-list pieces gives back the pieces. */
  lemma {:induction false} SplitJoin(parts: seq<string>)
    requires |parts| >= 1
    requires forall i | 0 <= i < |parts| :: DotFree(parts[i])
    ensures Split(Join(parts)) == parts
  {
    SplitDotFree(parts[0]);
    if |parts| > 1 {
      SplitJoin(parts[1..]);
      SplitConcat(parts[0], Join(parts[1..]));
      assert parts == [parts[0]] + parts[1..];
    }
  }

  /** The number of dot-separated segments, `len(s.split('.'))`. */
  function Segments(s: string): nat {
    |Split(s)|
  }

  /** Python's `s.startswith(prefix)`. */
  predicate StartsWith(s: string, prefix: string) {
    |prefix| <= |s| && s[..|prefix|] == prefix
  }

  /** A Cloud Storage location rather than a table spec. */
  predicate IsGcsPath(s: string) {
    StartsWith(s, "gs://")
  }

  /**
   * `BQPipeline.resolve_table_spec` for a string or None: a two-segment spec
   * gets the default project in front, a one-segment spec gets the default
   * project and dataset in front when both are set; anything else is returned
   * as it is.
   */
  function ResolveTableSpec(dest: Option<string>, d: Defaults): (r: Option<string>)
    ensures r.None? <==> dest.None?
  {
    match dest
    case None => None
    case Some(spec) =>
      if Segments(spec) == 2 && d.project.Some? then
        Some(d.project.value + [Sep] + spec)
      else if Segments(spec) == 1 && d.project.Some? && d.dataset.Some? then
        Some(d.project.value + [Sep] + d.dataset.value + [Sep] + spec)
      else
        dest
  }

  /** The segments of a resolved spec: the original segments, with the defaults that were used in front. */
  lemma ResolvedSegments(spec: string, d: Defaults)
    ensures var r := ResolveTableSpec(Some(spec), d).value;
      if Segments(spec) == 2 && d.project.Some? then
        Split(r) == Split(d.project.value) + Split(spec)
      else if Segments(spec) == 1 && d.project.Some? && d.dataset.Some? then
        Split(r) == Split(d.project.value) + Split(d.dataset.value) + Split(spec)
      else
        r == spec
  {
    if Segments(spec) == 2 && d.project.Some? {
      SplitConcat(d.project.value, spec);
    } else if Segments(spec) == 1 && d.project.Some? && d.dataset.Some? {
      SplitConcat(d.project.value, d.dataset.value);
      SplitConcat(d.project.value + [Sep] + d.dataset.value, spec);
    }
  }

  /** A spec that the resolver changes always ends up with at least three segments. */
  lemma ResolvedHasThreeSegments(spec: string, d: Defaults)
    ensures var r := ResolveTableSpec(Some(spec), d).value;
      r != spec ==> Segments(r) >= 3
  {
    ResolvedSegments(spec, d);
  }

  /** Resolving an already resolved spec changes nothing. */
  lemma ResolveIdempotent(dest: Option<string>, d: Defaults)
    ensures ResolveTableSpec(ResolveTableSpec(dest, d), d) == ResolveTableSpec(dest, d)
  {
    if dest.Some? {
      ResolvedHasThreeSegments(dest.value, d);
    }
  }

  /**
   * `d1` is `d0` after the client filled in a default project that was not
   * configured: same dataset, same project if one was set.
   */
  predicate Follows(d0: Defaults, d1: Defaults) {
    d0.dataset == d1.dataset && (d0.project.Some? ==> d0.project == d1.project)
  }

  /**
   * Resolving first with the defaults known before the client existed and
   * again with those known after gives the same spec as resolving once with
   * the later defaults.
   */
  lemma ResolveWithLaterDefaults(dest: Option<string>, d0: Defaults, d1: Defaults)
    requires Follows(d0, d1)
    ensures ResolveTableSpec(ResolveTableSpec(dest, d0), d1) == ResolveTableSpec(dest, d1)
  {
    if d0.project.Some? {
      assert d0 == d1;
      ResolveIdempotent(dest, d1);
    }
  }

  /**
   * With dot-free defaults, a spec with one, two or three dot-free segments
   * resolves to exactly `project.dataset.table`, where the missing parts come
   * from the defaults.
   */
  lemma ResolveFullyQualifies(parts: seq<string>, d: Defaults)
    requires 1 <= |parts| <= 3
    requires forall i | 0 <= i < |parts| :: DotFree(parts[i])
    requires d.project.Some? ==> DotFree(d.project.value)
    requires d.dataset.Some? ==> DotFree(d.dataset.value)
    requires |parts| == 2 ==> d.project.Some?
    requires |parts| == 1 ==> d.project.Some? && d.dataset.Some?
    ensures var r := ResolveTableSpec(Some(Join(parts)), d).value;
      Split(r) == (if |parts| == 3 then parts
                   else if |parts| == 2 then [d.project.value] + parts
                   else [d.project.value, d.dataset.value] + parts)
  {
    var spec := Join(parts);
    SplitJoin(parts);
    assert Segments(spec) == |parts|;
    if |parts| == 2 {
      var p := d.project.value;
      SplitDotFree(p);
      assert ResolveTableSpec(Some(spec), d) == Some(p + [Sep] + spec);
      SplitConcat(p, spec);
    } else if |parts| == 1 {
      var p, ds := d.project.value, d.dataset.value;
      SplitDotFree(p);
      SplitDotFree(ds);
      assert ResolveTableSpec(Some(spec), d) == Some(p + [Sep] + ds + [Sep] + spec);
      SplitConcat(p, ds);
      SplitConcat(p + [Sep] + ds, spec);
    }
  }

  /**
   * For dot-free names, `table`, `dataset.table` and `project.dataset.table`
   * all resolve to the same string `project.dataset.table`.
   */
  lemma ResolveToSameTable(project: string, dataset: string, table: string)
    requires DotFree(project) && DotFree(dataset) && DotFree(table)
    ensures var d := Defaults(Some(project), Some(dataset));
      var full := project + [Sep] + dataset + [Sep] + table;
      && ResolveTableSpec(Some(table), d) == Some(full)
      && ResolveTableSpec(Some(dataset + [Sep] + table), d) == Some(full)
      && ResolveTableSpec(Some(full), d) == Some(full)
  {
    SplitDotFree(project);
    SplitDotFree(dataset);
    SplitDotFree(table);
    SplitConcat(dataset, table);
    SplitConcat(project, dataset + [Sep] + table);
    assert project + [Sep] + (dataset + [Sep] + table) == project + [Sep] + dataset + [Sep] + table;
  }

  /**
   * `BQPipeline.resolve_dataset_spec`: a one-segment dataset spec gets the
   * default project in front when one is set; None and longer specs pass
   * through.
   */
  function ResolveDatasetSpec(dataset: Option<string>, d: Defaults): (r: Option<string>)
    ensures r.None? <==> dataset.None?
  {
    match dataset
    case None => None
    case Some(spec) =>
      if Segments(spec) == 1 && d.project.Some? then Some(d.project.value + [Sep] + spec)
      else dataset
  }

  /** A dataset spec that the resolver changes ends up with at least two segments, and resolving again changes nothing. */
  lemma ResolveDatasetIdempotent(dataset: Option<string>, d: Defaults)
    ensures var r := ResolveDatasetSpec(dataset, d);
      (r != dataset ==> Segments(r.value) >= 2) && ResolveDatasetSpec(r, d) == r
  {
    if dataset.Some? && Segments(dataset.value) == 1 && d.project.Some? {
      SplitConcat(d.project.value, dataset.value);
    }
  }

  /** With a dot-free default project, a dot-free dataset name resolves to exactly `project.dataset`. */
  lemma ResolveDatasetQualifies(name: string, d: Defaults)
    requires DotFree(name)
    requires d.project.Some? && DotFree(d.project.value)
    ensures Split(ResolveDatasetSpec(Some(name), d).value) == [d.project.value, name]
  {
    SplitDotFree(name);
    SplitDotFree(d.project.value);
    SplitConcat(d.project.value, name);
  }

  /** `to_tableref`: the first three segments of the spec; fewer than three raise IndexError. */
  function ToTableRef(spec: string): (r: Result<TableRef, PyError>)
    ensures r.Ok? <==> Segments(spec) >= 3
  {
    var parts := Split(spec);
    if |parts| < 3 then Err(IndexError("list index out of range"))
    else Ok(TableRef(parts[0], parts[1], parts[2]))
  }

  /** The spec string of a table reference. */
  function SpecOf(t: TableRef): string {
    Join([t.project, t.datasetId, t.tableId])
  }

  /** A reference with dot-free parts survives a trip through its spec string. */
  lemma TableRefRoundTrip(t: TableRef)
    requires DotFree(t.project) && DotFree(t.datasetId) && DotFree(t.tableId)
    ensures ToTableRef(SpecOf(t)) == Ok(t)
  {
    SplitJoin([t.project, t.datasetId, t.tableId]);
  }

  /** A three-segment spec survives a trip through its table reference. */
  lemma SpecRoundTrip(spec: string)
    requires Segments(spec) == 3
    ensures SpecOf(ToTableRef(spec).value) == spec
  {
    var parts := Split(spec);
    JoinSplit(spec);
    assert parts == [parts[0], parts[1], parts[2]];
  }
}
