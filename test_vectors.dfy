/**
 * The expectations of the repository's unit tests, stated about the model.
 */
module TestVectors {
  import opened Wrappers
  import opened TableSpec
  import opened QueryParams
  import opened JobConfig

  const TestDefaults := Defaults(Some("testproject"), Some("testdataset"))

  /** With no arguments: no destination, the default dataset, create if needed, truncate, interactive. */
  lemma CreateJobConfigDefault()
    ensures CreateJobConfig(TestDefaults) ==
      Ok(QueryJobConfig(INTERACTIVE, Some(DatasetRef("testproject", "testdataset")), None,
                        CREATE_IF_NEEDED, WRITE_TRUNCATE, None))
  {
    assert SetQueryParams(Null) == Ok(None);
  }

  /** `batch=False, create=False, overwrite=False`: interactive, create never, write empty. */
  lemma CreateJobConfigFlags()
    ensures var r := CreateJobConfig(TestDefaults, batch := false, create := false, overwrite := false);
      r.Ok? && r.value.priority == INTERACTIVE && r.value.createDisposition == CREATE_NEVER
      && r.value.writeDisposition == WRITE_EMPTY
  {
    assert SetQueryParams(Null) == Ok(None);
  }

  const Test := Some(StrKey("test"))

  /** Scalars: STRING, INT64, NUMERIC within the bounds, FLOAT64 beyond them, TIMESTAMP, DATE, BYTES, BOOL. */
  lemma ScalarParameters(micros: int, days: int, bs: seq<bv8>)
    ensures SetParameter(Test, Str("abc")) == Ok(ScalarParam(Test, STRING, Str("abc")))
    ensures SetParameter(Test, Int(1)) == Ok(ScalarParam(Test, INT64, Int(1)))
    ensures SetParameter(Test, Float(1.0009)) == Ok(ScalarParam(Test, NUMERIC, Float(1.0009)))
    ensures SetParameter(Test, Float(9999999999999999999999999999999.999999999)) ==
      Ok(ScalarParam(Test, FLOAT64, Float(9999999999999999999999999999999.999999999)))
    ensures SetParameter(Test, Timestamp(micros)) == Ok(ScalarParam(Test, TIMESTAMP, Timestamp(micros)))
    ensures SetParameter(Test, Date(days)) == Ok(ScalarParam(Test, DATE, Date(days)))
    ensures SetParameter(Test, Bytes(bs)) == Ok(ScalarParam(Test, BYTES, Bytes(bs)))
    ensures SetParameter(Test, Bool(true)) == Ok(ScalarParam(Test, BOOL, Bool(true)))
  {
  }

  /** Arrays: STRING, INT64, FLOAT64 when an element is beyond the bounds, NUMERIC when all are within; an empty list raises ValueError. */
  lemma ArrayParameters()
    ensures SetParameter(Test, List([Str("abc")])) == Ok(ArrayParam(Test, Some(STRING), [Str("abc")]))
    ensures SetParameter(Test, List([Int(1), Int(2)])) == Ok(ArrayParam(Test, Some(INT64), [Int(1), Int(2)]))
    ensures SetParameter(Test, List([Float(1.0), Float(9999999999999999999999999999999.999999999)])) ==
      Ok(ArrayParam(Test, Some(FLOAT64), [Float(1.0), Float(9999999999999999999999999999999.999999999)]))
    ensures SetParameter(Test, List([Float(1.0), Float(2.01)])) ==
      Ok(ArrayParam(Test, Some(NUMERIC), [Float(1.0), Float(2.01)]))
    ensures SetParameter(Test, List([])).Err? && SetParameter(Test, List([])).error.ValueError?
  {
    var big := [Float(1.0), Float(9999999999999999999999999999999.999999999)];
    assert BoundsCheck(big[1]) == Some(true);
    var small := [Float(1.0), Float(2.01)];
    assert forall i | 0 <= i < |small| :: BoundsCheck(small[i]) == Some(false);
  }

  /** `{'a': 'abc'}` becomes a struct with one STRING field named `a`. */
  lemma StructParameters()
    ensures SetParameter(Test, Dict([(StrKey("a"), Str("abc"))])) ==
      Ok(StructParam(Test, [ScalarParam(Some(StrKey("a")), STRING, Str("abc"))]))
  {
    var entries := [(StrKey("a"), Str("abc"))];
    StrKeysIff(entries);
    assert ValidateParameter(entries[0].1);
    ValidParameterTyped(Test, Dict(entries));
    StructFields(Test, entries);
    var fields := SetParameter(Test, Dict(entries)).value.fields;
    assert SetParameter(Some(StrKey("a")), Str("abc")) == Ok(fields[0]);
    assert fields == [fields[0]];
  }

  /** Positional parameters carry no name. */
  lemma PositionalParameters()
    ensures SetParameter(None, Str("abc")) == Ok(ScalarParam(None, STRING, Str("abc")))
    ensures SetParameter(None, Int(1)) == Ok(ScalarParam(None, INT64, Int(1)))
    ensures SetParameter(None, List([Str("abc")])) == Ok(ArrayParam(None, Some(STRING), [Str("abc")]))
  {
  }

  /** `[]` gives None, `[1]` and `{'test': 1}` one INT64 parameter, `[1, [1, 'two']]` a ValueError. */
  lemma QueryParamsExamples()
    ensures SetQueryParams(List([])) == Ok(None)
    ensures SetQueryParams(List([Int(1)])) == Ok(Some([ScalarParam(None, INT64, Int(1))]))
    ensures SetQueryParams(Dict([(StrKey("test"), Int(1))])) == Ok(Some([ScalarParam(Test, INT64, Int(1))]))
    ensures SetQueryParams(List([Int(1), List([Int(1), Str("two")])])) == Err(ValueError("Invalid query parameters provided!"))
  {
    PositionalExample();
    NamedExample();
    InvalidListParams();
  }

  lemma PositionalExample()
    ensures SetQueryParams(List([Int(1)])) == Ok(Some([ScalarParam(None, INT64, Int(1))]))
  {
    var positional := List([Int(1)]);
    SetQueryParamsSpec(positional);
    assert ElementAt(positional, 0) == Int(1) && PositionKey(positional, 0) == None;
    var ps := SetQueryParams(positional).value.value;
    assert SetParameter(None, Int(1)) == Ok(ps[0]);
    assert ps == [ps[0]];
  }

  lemma NamedExample()
    ensures SetQueryParams(Dict([(StrKey("test"), Int(1))])) == Ok(Some([ScalarParam(Test, INT64, Int(1))]))
  {
    var named := Dict([(StrKey("test"), Int(1))]);
    StrKeysIff(named.entries);
    SetQueryParamsSpec(named);
    assert ElementAt(named, 0) == Int(1) && PositionKey(named, 0) == Test;
    var ns := SetQueryParams(named).value.value;
    assert SetParameter(Test, Int(1)) == Ok(ns[0]);
    assert ns == [ns[0]];
  }

  /** None, `[[]]`, `{'1': []}`, `{1: 1}`, `{'1': {}}` and `{'1': {1: 1}}` are all invalid. */
  lemma InvalidQueryParams()
    ensures !ValidateQueryParams(Null)
    ensures !ValidateQueryParams(List([List([])]))
    ensures !ValidateQueryParams(Dict([(StrKey("1"), List([]))]))
    ensures !ValidateQueryParams(Dict([(IntKey(1), Int(1))]))
    ensures !ValidateQueryParams(Dict([(StrKey("1"), Dict([]))]))
    ensures !ValidateQueryParams(Dict([(StrKey("1"), Dict([(IntKey(1), Int(1))]))]))
  {
    InvalidLists(Null, Null);
    assert [List([])][0] == List([]);
    assert [(StrKey("1"), List([]))][0].1 == List([]);
    StrKeysIff([(IntKey(1), Int(1))]);
    assert [(StrKey("1"), Dict([]))][0].1 == Dict([]);
    StrKeysIff([(IntKey(1), Int(1))]);
    assert [(StrKey("1"), Dict([(IntKey(1), Int(1))]))][0].1 == Dict([(IntKey(1), Int(1))]);
  }

  /** `[1, [1, 'two']]` and a list of dicts under a str key are invalid. */
  lemma InvalidListParams()
    ensures !ValidateQueryParams(List([Int(1), List([Int(1), Str("two")])]))
    ensures !ValidateQueryParams(Dict([(StrKey("1"), List([Dict([(IntKey(1), Str("a")), (StrKey("2"), Str("b"))]),
                                                          Dict([(IntKey(1), Str("c")), (StrKey("2"), Str("b"))])]))]))
  {
    var mixed := [Int(1), List([Int(1), Str("two")])];
    InvalidLists(Int(1), Str("two"));
    assert mixed[1] == List([Int(1), Str("two")]);
    var dicts := [Dict([(IntKey(1), Str("a")), (StrKey("2"), Str("b"))]), Dict([(IntKey(1), Str("c")), (StrKey("2"), Str("b"))])];
    ValidListIff(dicts);
    assert [(StrKey("1"), List(dicts))][0].1 == List(dicts);
  }

  /** Nested dicts with str keys, scalars and homogeneous lists are valid. */
  lemma ValidQueryParams()
    ensures ValidateQueryParams(Dict([(StrKey("1"), Dict([(StrKey("1"), Int(1))]))]))
    ensures ValidateQueryParams(Dict([(StrKey("1"), Dict([(StrKey("1"), Str("a")), (StrKey("2"), Int(2))]))]))
    ensures ValidateQueryParams(Dict([(StrKey("1"), Dict([(StrKey("1"), Str("a")), (StrKey("2"), Dict([(StrKey("b"), Str("c"))])),
                                                          (StrKey("3"), List([Int(1), Int(2), Int(3)]))])),
                                      (StrKey("2"), List([Int(1), Int(2), Int(3)]))]))
  {
    StrKeysIff([(StrKey("1"), Int(1))]);
    StrKeysIff([(StrKey("1"), Dict([(StrKey("1"), Int(1))]))]);
    StrKeysIff([(StrKey("1"), Str("a")), (StrKey("2"), Int(2))]);
    StrKeysIff([(StrKey("1"), Dict([(StrKey("1"), Str("a")), (StrKey("2"), Int(2))]))]);
    var ints := [Int(1), Int(2), Int(3)];
    ValidListIff(ints);
    var inner := [(StrKey("1"), Str("a")), (StrKey("2"), Dict([(StrKey("b"), Str("c"))])), (StrKey("3"), List(ints))];
    StrKeysIff([(StrKey("b"), Str("c"))]);
    StrKeysIff(inner);
    assert ValidateParameter(Dict(inner));
    StrKeysIff([(StrKey("1"), Dict(inner)), (StrKey("2"), List(ints))]);
  }
}
