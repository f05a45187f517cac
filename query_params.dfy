/**
 * Query parameters: the Python values a caller passes, their validation
 * (`validate_parameter`, `validate_query_params`) and their typing into
 * BigQuery parameter kinds (`set_parameter`, `set_query_params`).
 */
module QueryParams {
  import opened Wrappers

  /** A dictionary key: a `str`, or any key of another type (written as an int). */
  datatype Key = StrKey(name: string) | IntKey(n: int)

  /**
   * A Python value as a tagged tree. Floats are reals; datetimes and dates are
   * opaque counts; a dict is its entries in insertion order, keys distinct.
   */
  datatype Value =
    | Str(s: string)
    | Int(i: int)
    | Float(f: real)
    | Bool(b: bool)
    | Bytes(bytes: seq<bv8>)
    | Timestamp(micros: int)
    | Date(days: int)
    | List(items: seq<Value>)
    | Dict(entries: seq<(Key, Value)>)
    | Null

  /** Python's `type(v)`: exact, so a bool is not an int here. */
  datatype PyType =
    StrType | IntType | FloatType | BoolType | BytesType | DatetimeType | DateType | ListType | DictType | NoneType

  /** The parameter kinds of the warehouse for scalars and array elements. */
  datatype Kind = STRING | INT64 | FLOAT64 | BOOL | BYTES | TIMESTAMP | DATE | NUMERIC

  function TypeOf(v: Value): PyType {
    match v
    case Str(_) => StrType
    case Int(_) => IntType
    case Float(_) => FloatType
    case Bool(_) => BoolType
    case Bytes(_) => BytesType
    case Timestamp(_) => DatetimeType
    case Date(_) => DateType
    case List(_) => ListType
    case Dict(_) => DictType
    case Null => NoneType
  }

  function KeyType(k: Key): PyType {
    if k.StrKey? then StrType else IntType
  }

  /** `BQ_SCALAR_TYPE_MAP.get(t)`. */
  function ScalarTypeKind(t: PyType): Option<Kind> {
    match t
    case StrType => Some(STRING)
    case IntType => Some(INT64)
    case FloatType => Some(FLOAT64)
    case BoolType => Some(BOOL)
    case BytesType => Some(BYTES)
    case DatetimeType => Some(TIMESTAMP)
    case DateType => Some(DATE)
    case _ => None
  }

  /** `t in BQ_SCALAR_TYPE_MAP`. */
  predicate IsScalarType(t: PyType) {
    ScalarTypeKind(t).Some?
  }

  /** `NUMERIC_BOUNDS`. */
  const NumericMin: real := -99999999999999999999999999999.999999999
  const NumericMax: real := 99999999999999999999999999999.999999999

  predicate OutOfNumericBounds(x: real) {
    x < NumericMin || x > NumericMax
  }

  /**
   * `v < NUMERIC_BOUNDS['min'] or v > NUMERIC_BOUNDS['max']` for one element:
   * numbers compare (a bool as 0 or 1), anything else raises TypeError (None).
   */
  function BoundsCheck(v: Value): Option<bool> {
    match v
    case Int(i) => Some(OutOfNumericBounds(i as real))
    case Float(f) => Some(OutOfNumericBounds(f))
    case Bool(_) => Some(false)
    case _ => None
  }

  /** Python truthiness, as `if not query_params` tests it. */
  predicate Truthy(v: Value) {
    match v
    case Str(s) => s != ""
    case Int(i) => i != 0
    case Float(f) => f != 0.0
    case Bool(b) => b
    case Bytes(bs) => bs != []
    case Timestamp(_) => true
    case Date(_) => true
    case List(items) => items != []
    case Dict(entries) => entries != []
    case Null => false
  }

  /** A query parameter as the warehouse client library receives it; NoParam is the None that `set_parameter` returns for an unsupported value. */
  datatype QueryParam =
    | ScalarParam(name: Option<Key>, kind: Kind, value: Value)
    | ArrayParam(name: Option<Key>, elementKind: Option<Kind>, values: seq<Value>)
    | StructParam(name: Option<Key>, fields: seq<QueryParam>)
    | NoParam

  // ---------------------------------------------------------------- validation

  /** `set(map(type, items))`. */
  function ElementTypes(items: seq<Value>): set<PyType> {
    set i | 0 <= i < |items| :: TypeOf(items[i])
  }

  /** `set(map(type, d))`: the types of the keys. */
  function KeyTypes(entries: seq<(Key, Value)>): set<PyType> {
    set i | 0 <= i < |entries| :: KeyType(entries[i].0)
  }

  /** `len(types) == 1 and types.issubset(BQ_SCALAR_TYPE_MAP)`. */
  predicate OneScalarType(types: set<PyType>) {
    |types| == 1 && forall t | t in types :: IsScalarType(t)
  }

  /** `len(types) == 1 and types.issubset([str])`. */
  predicate OnlyStrKeyType(types: set<PyType>) {
    |types| == 1 && types <= {StrType}
  }

  /** `BQPipeline.validate_parameter`: None, an empty list and an empty dict are never valid. */
  predicate ValidateParameter(v: Value)
    ensures ValidateParameter(v) ==> !v.Null?
    ensures ValidateParameter(v) && v.List? ==> v.items != []
    ensures ValidateParameter(v) && v.Dict? ==> v.entries != []
  {
    match v
    case List(items) => OneScalarType(ElementTypes(items))
    case Dict(entries) =>
      entries != [] && OnlyStrKeyType(KeyTypes(entries))
      && forall i | 0 <= i < |entries| :: ValidateParameter(entries[i].1)
    case _ => IsScalarType(TypeOf(v))
  }

  /** `BQPipeline.validate_query_params`: a list of valid values, or a dict of valid values under str keys. */
  predicate ValidateQueryParams(qp: Value)
    ensures ValidateQueryParams(qp) ==> qp.List? || qp.Dict?
    ensures ValidateQueryParams(qp) && qp.Dict? ==> qp.entries != []
  {
    match qp
    case List(items) => forall i | 0 <= i < |items| :: ValidateParameter(items[i])
    case Dict(entries) =>
      OnlyStrKeyType(KeyTypes(entries)) && forall i | 0 <= i < |entries| :: ValidateParameter(entries[i].1)
    case _ => false
  }

  /** A list parameter is valid exactly when it is non-empty and all its elements have one and the same scalar type. */
  lemma ValidListIff(items: seq<Value>)
    ensures ValidateParameter(List(items)) <==>
      |items| > 0 && IsScalarType(TypeOf(items[0])) && forall i | 0 <= i < |items| :: TypeOf(items[i]) == TypeOf(items[0])
  {
    var types := ElementTypes(items);
    if |items| > 0 && forall i | 0 <= i < |items| :: TypeOf(items[i]) == TypeOf(items[0]) {
      assert types == {TypeOf(items[0])};
    }
    if ValidateParameter(List(items)) {
      if |items| > 0 {
        var t := TypeOf(items[0]);
        assert t in types;
        forall i | 0 <= i < |items| ensures TypeOf(items[i]) == t {
          assert TypeOf(items[i]) in types;
          if TypeOf(items[i]) != t {
            assert {t, TypeOf(items[i])} <= types;
            assert |{t, TypeOf(items[i])}| == 2;
            SubsetCardinality({t, TypeOf(items[i])}, types);
          }
        }
      }
    }
  }

  lemma SubsetCardinality<T>(a: set<T>, b: set<T>)
    requires a <= b
    ensures |a| <= |b|
  {
    assert b == a + (b - a);
  }

  /** The dict key check holds exactly when there is at least one key and every key is a str. */
  lemma StrKeysIff(entries: seq<(Key, Value)>)
    ensures OnlyStrKeyType(KeyTypes(entries)) <==>
      entries != [] && forall i | 0 <= i < |entries| :: entries[i].0.StrKey?
  {
    var types := KeyTypes(entries);
    if entries != [] && forall i | 0 <= i < |entries| :: entries[i].0.StrKey? {
      assert KeyType(entries[0].0) in types;
      assert types == {StrType};
    }
    if OnlyStrKeyType(types) {
      assert types == {StrType};
      forall i | 0 <= i < |entries| ensures entries[i].0.StrKey? {
        assert KeyType(entries[i].0) in types;
      }
    }
  }

  /** The empty list, a list holding a list or dict, and a list of mixed types are all invalid. */
  lemma InvalidLists(x: Value, y: Value)
    ensures !ValidateParameter(List([]))
    ensures (x.List? || x.Dict? || x.Null?) ==> !ValidateParameter(List([x]))
    ensures TypeOf(x) != TypeOf(y) ==> !ValidateParameter(List([x, y]))
  {
    ValidListIff([]);
    ValidListIff([x]);
    ValidListIff([x, y]);
    assert [x, y][0] == x && [x, y][1] == y;
  }

  /** A valid top-level dict is exactly a dict that is valid as a single parameter. */
  lemma NamedParamsAreValidDict(entries: seq<(Key, Value)>)
    ensures ValidateQueryParams(Dict(entries)) <==> ValidateParameter(Dict(entries))
  {
    StrKeysIff(entries);
  }

  // ---------------------------------------------------------------- typing

  /** The element kind of a non-empty array parameter, or the TypeError that comparing its elements raises. */
  function ArrayKind(items: seq<Value>): (r: Result<Option<Kind>, PyError>)
    requires items != []
    ensures r.Err? ==> items[0].Float? && r.error.TypeError?
    ensures r == Ok(Some(NUMERIC)) <==>
      items[0].Float? && forall i | 0 <= i < |items| :: BoundsCheck(items[i]) == Some(false)
    ensures r.Ok? && r.value != Some(NUMERIC) ==> r.value == ScalarTypeKind(TypeOf(items[0]))
  {
    if !items[0].Float? then Ok(ScalarTypeKind(TypeOf(items[0])))
    else if exists i | 0 <= i < |items| :: BoundsCheck(items[i]).None? then
      Err(TypeError("'<' not supported between instances"))
    else if exists i | 0 <= i < |items| :: BoundsCheck(items[i]) == Some(true) then
      Ok(Some(FLOAT64))
    else
      Ok(Some(NUMERIC))
  }

  /**
   * `set_parameter(key, value)`. Only a list or a dict can fail; None gives
   * no parameter; anything else keeps the name, and a list or dict keeps its
   * elements' count.
   */
  function SetParameter(name: Option<Key>, v: Value): (r: Result<QueryParam, PyError>)
    ensures r.Err? ==> v.List? || v.Dict?
    ensures r.Ok? ==> (r.value.NoParam? <==> v.Null?)
    ensures r.Ok? && !v.Null? ==> r.value.name == name
    ensures r.Ok? && v.List? ==> r.value.ArrayParam? && r.value.values == v.items
    ensures r.Ok? && v.Dict? ==> r.value.StructParam? && |r.value.fields| == |v.entries|
    decreases v
  {
    match v
    case Float(f) =>
      Ok(ScalarParam(name, if OutOfNumericBounds(f) then FLOAT64 else NUMERIC, v))
    case List(items) =>
      if items == [] then Err(ValueError("Cannot infer type for empty array parameter."))
      else
        (match ArrayKind(items)
         case Ok(k) => Ok(ArrayParam(name, k, items))
         case Err(e) => Err(e))
    case Dict(entries) =>
      var fields := Collect(seq(|entries|, i requires 0 <= i < |entries| =>
        SetParameter(Some(entries[i].0), entries[i].1)));
      (match fields
       case Ok(fs) => Ok(StructParam(name, fs))
       case Err(e) => Err(e))
    case Null => Ok(NoParam)
    case _ => Ok(ScalarParam(name, ScalarTypeKind(TypeOf(v)).value, v))
  }

  /** A parameter the warehouse can take: a kind for every scalar and array, and no missing fields. */
  predicate Typed(p: QueryParam) {
    match p
    case ScalarParam(_, _, _) => true
    case ArrayParam(_, k, values) => k.Some? && values != []
    case StructParam(_, fields) => fields != [] && forall i | 0 <= i < |fields| :: Typed(fields[i])
    case NoParam => false
  }

  /** Scalars take their kind from the type table, except that a float within the bounds is NUMERIC. */
  lemma ScalarKinds(name: Option<Key>, v: Value)
    requires IsScalarType(TypeOf(v))
    ensures var r := SetParameter(name, v);
      r.Ok? && r.value.ScalarParam? && r.value.name == name && r.value.value == v
      && (r.value.kind == NUMERIC <==> v.Float? && !OutOfNumericBounds(v.f))
      && (r.value.kind != NUMERIC ==> Some(r.value.kind) == ScalarTypeKind(TypeOf(v)))
  {
  }

  /**
   * A valid non-empty list becomes an array parameter of all its elements:
   * NUMERIC when its first element is a float and every element is within the
   * bounds, otherwise the table's kind of its first element.
   */
  lemma ArrayKinds(name: Option<Key>, items: seq<Value>)
    requires ValidateParameter(List(items))
    ensures var r := SetParameter(name, List(items));
      r.Ok? && r.value.ArrayParam? && r.value.name == name && r.value.values == items
      && r.value.elementKind.Some?
      && (r.value.elementKind == Some(NUMERIC) <==>
            forall i | 0 <= i < |items| :: items[i].Float? && !OutOfNumericBounds(items[i].f))
      && (r.value.elementKind != Some(NUMERIC) ==> r.value.elementKind == ScalarTypeKind(TypeOf(items[0])))
  {
    ValidListIff(items);
    if items[0].Float? {
      forall i | 0 <= i < |items| ensures items[i].Float? {
        assert TypeOf(items[i]) == FloatType;
      }
    }
  }

  /** An empty list cannot be typed. */
  lemma EmptyListRejected(name: Option<Key>)
    ensures SetParameter(name, List([])).Err?
    ensures SetParameter(name, List([])).error.ValueError?
  {
  }

  /** A dict becomes a struct with one field per entry, in order, each named by its key and typed by its value. */
  lemma StructFields(name: Option<Key>, entries: seq<(Key, Value)>)
    requires SetParameter(name, Dict(entries)).Ok?
    ensures var p := SetParameter(name, Dict(entries)).value;
      p.StructParam? && p.name == name && |p.fields| == |entries|
      && forall i | 0 <= i < |entries| :: SetParameter(Some(entries[i].0), entries[i].1) == Ok(p.fields[i])
  {
  }

  /** Typing never fails on a valid value, and it yields a fully typed parameter under the given name. */
  lemma {:induction false} ValidParameterTyped(name: Option<Key>, v: Value)
    requires ValidateParameter(v)
    ensures SetParameter(name, v).Ok?
    ensures Typed(SetParameter(name, v).value)
    ensures SetParameter(name, v).value.name == name
    decreases v
  {
    match v
    case List(items) =>
      ArrayKinds(name, items);
    case Dict(entries) =>
      var rs := seq(|entries|, i requires 0 <= i < |entries| =>
        SetParameter(Some(entries[i].0), entries[i].1));
      forall i | 0 <= i < |entries|
        ensures rs[i].Ok? && Typed(rs[i].value)
      {
        ValidParameterTyped(Some(entries[i].0), entries[i].1);
      }
      var fs := Collect(rs).value;
      assert forall i | 0 <= i < |entries| :: rs[i] == Ok(fs[i]);
    case _ =>
      ScalarKinds(name, v);
  }

  /** `BQPipeline.set_query_params`. */
  function SetQueryParams(qp: Value): (r: Result<Option<seq<QueryParam>>, PyError>)
    ensures !Truthy(qp) ==> r == Ok(None)
    ensures Truthy(qp) && r.Ok? ==> r.value.Some? && ValidateQueryParams(qp)
    ensures r.Ok? && r.value.Some? ==> |r.value.value| == (if qp.List? then |qp.items| else |qp.entries|)
  {
    if !Truthy(qp) then Ok(None)
    else if !ValidateQueryParams(qp) then Err(ValueError("Invalid query parameters provided!"))
    else if qp.List? then
      var ps := Collect(seq(|qp.items|, i requires 0 <= i < |qp.items| => SetParameter(None, qp.items[i])));
      if ps.Ok? then Ok(Some(ps.value)) else Err(ps.error)
    else
      var ps := Collect(seq(|qp.entries|, i requires 0 <= i < |qp.entries| =>
        SetParameter(Some(qp.entries[i].0), qp.entries[i].1)));
      if ps.Ok? then Ok(Some(ps.value)) else Err(ps.error)
  }

  /** The key each top-level element gets: None for positional (list) input, the dict key for named input. */
  function PositionKey(qp: Value, i: nat): Option<Key>
    requires qp.List? || qp.Dict?
    requires i < (if qp.List? then |qp.items| else |qp.entries|)
  {
    if qp.List? then None else Some(qp.entries[i].0)
  }

  function ElementAt(qp: Value, i: nat): Value
    requires qp.List? || qp.Dict?
    requires i < (if qp.List? then |qp.items| else |qp.entries|)
  {
    if qp.List? then qp.items[i] else qp.entries[i].1
  }

  /**
   * Empty input gives no parameters; input that fails validation raises
   * ValueError before anything is typed; otherwise there is one typed
   * parameter per element, in order, keyed by position or by name.
   */
  lemma SetQueryParamsSpec(qp: Value)
    ensures var r := SetQueryParams(qp);
      && (!Truthy(qp) ==> r == Ok(None))
      && (Truthy(qp) && !ValidateQueryParams(qp) ==> r == Err(ValueError("Invalid query parameters provided!")))
      && (Truthy(qp) && ValidateQueryParams(qp) ==>
            && (qp.List? || qp.Dict?)
            && r.Ok? && r.value.Some?
            && var n := if qp.List? then |qp.items| else |qp.entries|;
               |r.value.value| == n && n > 0
               && forall i | 0 <= i < n ::
                    SetParameter(PositionKey(qp, i), ElementAt(qp, i)) == Ok(r.value.value[i])
                    && Typed(r.value.value[i]) && r.value.value[i].name == PositionKey(qp, i))
  {
    if Truthy(qp) && ValidateQueryParams(qp) {
      var n := if qp.List? then |qp.items| else |qp.entries|;
      var rs := seq(n, i requires 0 <= i < n => SetParameter(PositionKey(qp, i), ElementAt(qp, i)));
      forall i | 0 <= i < n ensures rs[i].Ok? && Typed(rs[i].value) && rs[i].value.name == PositionKey(qp, i) {
        ValidParameterTyped(PositionKey(qp, i), ElementAt(qp, i));
      }
      if qp.List? {
        assert rs == seq(|qp.items|, i requires 0 <= i < |qp.items| => SetParameter(None, qp.items[i]));
      } else {
        assert rs == seq(|qp.entries|, i requires 0 <= i < |qp.entries| =>
          SetParameter(Some(qp.entries[i].0), qp.entries[i].1));
      }
    }
  }
}
