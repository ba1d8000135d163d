/** Coercion and checking of pandas containers: `DataType.try_coerce` and
    `DataType.check`, and the overrides of BOOL, Category, Decimal, NpString
    and Date. A container is a Series seen positionally. */
module Coercion {
  import opened Common
  import opened DTypes
  import opened Registry
  import opened Decimals

  /** A timestamp as `pd.to_datetime` returns it. */
  datatype Timestamp = Timestamp(year: nat, month: nat, day: nat, clock: string)

  /** The numpy, pandas and decimal calls the coercions make; an `Err` is the
      exception they raise. */
  datatype CastHost = CastHost(
    astype: (Native, Option<Value>) -> Result<Option<Value>, Error>,  // one element of `data.astype(dtype)`
    toDatetime: Option<Value> -> Result<Option<Timestamp>, Error>,    // `pd.to_datetime(value)`
    parseDecimal: string -> Result<Value, Error>,                     // `decimal.Decimal(text)`
    quantize: (Value, int, int) -> Result<Value, Error>)              // `dec.quantize(exp, context)`

  /** An element-wise operation over a container; it stops at the first element
      that raises. */
  function ApplyEach(data: Container, f: Option<Value> -> Result<Option<Value>, Error>): (r: Result<Container, Error>)
    ensures r.Ok? <==> forall i :: 0 <= i < |data| ==> f(data[i]).Ok?
    ensures r.Ok? ==> |r.value| == |data| && forall i :: 0 <= i < |data| ==> r.value[i] == f(data[i]).value
    ensures r.Err? ==>
      exists i :: 0 <= i < |data| && f(data[i]) == Err(r.error) && forall j :: 0 <= j < i ==> f(data[j]).Ok?
  {
    if data == [] then Ok([])
    else
      var head := f(data[0]);
      if head.Err? then Err(head.error)
      else
        var rest := ApplyEach(data[1..], f);
        if rest.Err? then
          assert forall i :: 1 <= i < |data| ==> data[1..][i - 1] == data[i];
          Err(rest.error)
        else
          Ok([head.value] + rest.value)
  }

  // ---------------------------------------------------------------------------
  // coerce_value
  // ---------------------------------------------------------------------------

  /** `BOOL.coerce_value`: only values equal to True or False (so also 1 and
      0, and decimals equal to them) are accepted, and `np.bool_` turns them
      into a boolean. */
  function BoolCoerceValue(v: Option<Value>, host: CastHost): (r: Result<Value, Error>)
    ensures r.Ok? <==> v.Some? && (PyEq(v.value, BoolV(true)) || PyEq(v.value, BoolV(false)))
    ensures r.Ok? ==> r.value.BoolV? && PyEq(v.value, r.value)
    ensures r.Err? ==> r.error == TypeError
  {
    if v.None? then Err(TypeError)
    else
      PyInPair(v.value, BoolV(true), BoolV(false));
      if PyIn(v.value, [BoolV(true), BoolV(false)]) then Ok(BoolV(PyEq(v.value, BoolV(true))))
      else Err(TypeError)
  }

  /** Membership in a two-element collection (`frozenset({True, False})`). */
  lemma PyInPair(x: Value, a: Value, b: Value)
    ensures PyIn(x, [a, b]) <==> PyEq(x, a) || PyEq(x, b)
  {
    if PyEq(x, a) {
      assert PyEq(x, [a, b][0]);
    }
    if PyEq(x, b) {
      assert PyEq(x, [a, b][1]);
    }
  }

  /** Coercing a coerced boolean changes nothing. */
  lemma BoolCoerceValueIdempotent(v: Option<Value>, host: CastHost)
    requires BoolCoerceValue(v, host).Ok?
    ensures BoolCoerceValue(Some(BoolCoerceValue(v, host).value), host) == BoolCoerceValue(v, host)
  {
  }

  /** A decimal equal to 1 is a boolean: `Decimal("1")` becomes True. */
  lemma BoolCoerceDecimalOne(host: CastHost)
    ensures BoolCoerceValue(Some(DecimalV("1")), host) == Ok(BoolV(true))
  {
    DecimalEqualsBool();
  }

  /** A decimal equal to 0 is a boolean: `Decimal("0.0")` becomes False. */
  lemma BoolCoerceDecimalZero(host: CastHost)
    ensures BoolCoerceValue(Some(DecimalV("0.0")), host) == Ok(BoolV(false))
  {
    assert PyEq(DecimalV("0.0"), BoolV(false)) && !PyEq(DecimalV("0.0"), BoolV(true)) by {
      assert DecimalNumber("0.0") == Some(DecimalNum(0, -1));
    }
  }

  /** A decimal that is neither 1 nor 0, such as `Decimal("0.5")`, is rejected. */
  lemma BoolRejectsFraction(host: CastHost)
    ensures BoolCoerceValue(Some(DecimalV("0.5")), host) == Err(TypeError)
  {
    assert !PyEq(DecimalV("0.5"), BoolV(false)) && !PyEq(DecimalV("0.5"), BoolV(true)) by {
      assert DecimalNumber("0.5") == Some(DecimalNum(5, -1));
      assert Pow10(1) == 10;
    }
  }

  /** `Category.coerce_value`: a value is kept when it is among the categories;
      without categories (`None`) the membership test itself raises. */
  function CategoryCoerceValue(v: Option<Value>, categories: Option<seq<Value>>): (r: Result<Value, Error>)
    ensures r.Ok? <==> categories.Some? && v.Some? && PyIn(v.value, categories.value)
    ensures r.Ok? ==> r.value == v.value
    ensures r.Err? ==> r.error == TypeError
  {
    match categories
    case None => Err(TypeError)
    case Some(cats) =>
      if v.Some? && PyIn(v.value, cats) then Ok(v.value) else Err(TypeError)
  }

  /** `Decimal.coerce_value`: nulls stay null, anything else is parsed from
      its `str()` and quantized to the data type's scale. */
  function DecimalCoerceValue(v: Option<Value>, precision: int, scale: int, host: CastHost): (r: Result<Option<Value>, Error>)
    ensures v.None? ==> r == Ok(None)
    ensures v.Some? && r.Ok? ==> r.value.Some?
    ensures v.Some? ==>
      (r.Err? <==> (host.parseDecimal(PyString(v.value)).Err?
        || host.quantize(host.parseDecimal(PyString(v.value)).value, precision, scale).Err?))
    ensures v.Some? && r.Ok? ==>
      r.value == Some(host.quantize(host.parseDecimal(PyString(v.value)).value, precision, scale).value)
  {
    match v
    case None => Ok(None)
    case Some(x) =>
      var dec :- host.parseDecimal(PyString(x));
      var q :- host.quantize(dec, precision, scale);
      Ok(Some(q))
  }

  /** `Date.coerce_value`: `pd.to_datetime` followed by `.date()`; a null
      timestamp stays null. */
  function DateCoerceValue(v: Option<Value>, host: CastHost): (r: Result<Option<Value>, Error>)
    ensures r.Ok? <==> host.toDatetime(v).Ok?
    ensures r.Ok? ==> (r.value.None? <==> host.toDatetime(v).value.None?)
    ensures r.Ok? && r.value.Some? ==>
      var ts := host.toDatetime(v).value.value;
      r.value.value == DateV(ts.year, ts.month, ts.day)
  {
    var ts :- host.toDatetime(v);
    match ts
    case None => Ok(None)
    case Some(Timestamp(y, m, d, _)) => Ok(Some(DateV(y, m, d)))
  }

  // ---------------------------------------------------------------------------
  // coerce
  // ---------------------------------------------------------------------------

  /** `data.astype(pd.CategoricalDtype(categories))`: a value equal to a
      category becomes that category, any other value becomes null; without
      categories they are inferred from the data and every value is kept. */
  function CategoricalCast(v: Option<Value>, categories: Option<seq<Value>>): (r: Option<Value>)
    ensures v.None? ==> r.None?
    ensures v.Some? && categories.Some? ==> (r.Some? <==> PyIn(v.value, categories.value))
    ensures r.Some? && categories.Some? ==> r.value in categories.value && PyEq(v.value, r.value)
    ensures v.Some? && categories.None? ==> r == v
  {
    match (v, categories)
    case (None, _) => None
    case (Some(x), None) => v
    case (Some(x), Some(cats)) => FirstEqual(x, cats)
  }

  /** The first element of `s` equal to `x`. */
  function FirstEqual(x: Value, s: seq<Value>): (r: Option<Value>)
    ensures r.Some? <==> PyIn(x, s)
    ensures r.Some? ==> r.value in s && PyEq(x, r.value)
  {
    if s == [] then None
    else if PyEq(x, s[0]) then Some(s[0])
    else
      var r := FirstEqual(x, s[1..]);
      assert PyIn(x, s[1..]) <==> PyIn(x, s) by {
        if PyIn(x, s) {
          var i :| 0 <= i < |s| && PyEq(x, s[i]);
          assert i > 0 && PyEq(x, s[1..][i - 1]);
        }
        if PyIn(x, s[1..]) {
          var i :| 0 <= i < |s[1..]| && PyEq(x, s[1..][i]);
          assert PyEq(x, s[i + 1]);
        }
      }
      r
  }

  /** `Category.coerce`: the categorical cast, and a TypeError when it turned
      a non-null value into a null. */
  function CategoryCoerce(data: Container, categories: Option<seq<Value>>): (r: Result<Container, Error>)
    ensures r.Ok? <==> forall i :: 0 <= i < |data| && data[i].Some? ==> CategoricalCast(data[i], categories).Some?
    ensures r.Ok? ==> |r.value| == |data| && forall i :: 0 <= i < |data| ==> r.value[i] == CategoricalCast(data[i], categories)
    ensures r.Err? ==> r.error == TypeError
  {
    var coerced := seq(|data|, i requires 0 <= i < |data| => CategoricalCast(data[i], categories));
    if exists i :: 0 <= i < |data| && coerced[i].None? && data[i].Some? then Err(TypeError)
    else Ok(coerced)
  }

  /** With categories, the container is coerced exactly when every non-null
      element would be coerced by `coerce_value`, and each element keeps a
      value equal to it. */
  lemma CategoryCoerceAgreesWithValues(data: Container, cats: seq<Value>)
    ensures CategoryCoerce(data, Some(cats)).Ok? <==>
      forall i :: 0 <= i < |data| && data[i].Some? ==> CategoryCoerceValue(data[i], Some(cats)).Ok?
    ensures CategoryCoerce(data, Some(cats)).Ok? ==>
      forall i :: 0 <= i < |data| && data[i].Some? ==>
        CategoryCoerce(data, Some(cats)).value[i].Some? && PyEq(data[i].value, CategoryCoerce(data, Some(cats)).value[i].value)
  {
  }

  /** Without categories the container coerces whatever it holds, while
      `coerce_value` rejects every value. */
  lemma CategoryWithoutCategories(data: Container, v: Option<Value>)
    ensures CategoryCoerce(data, None) == Ok(data)
    ensures CategoryCoerceValue(v, None) == Err(TypeError)
  {
    assert CategoryCoerce(data, None).value == data;
  }

  /** With categories "a" and "b", the value "c" is rejected rather than
      turned into a null, by the container and by the single-value coercion. */
  lemma CategoryRejectsUnknown()
    ensures CategoryCoerce([Some(StrV("a")), Some(StrV("c"))], Some([StrV("a"), StrV("b")])) == Err(TypeError)
    ensures CategoryCoerceValue(Some(StrV("c")), Some([StrV("a"), StrV("b")])) == Err(TypeError)
  {
    assert !PyIn(StrV("c"), [StrV("a"), StrV("b")]) by {
      PyInPair(StrV("c"), StrV("a"), StrV("b"));
    }
    assert [Some(StrV("a")), Some(StrV("c"))][1] == Some(StrV("c"));
  }

  /** Category membership compares by number: `Decimal("1.0")` is kept among
      the categories `[Decimal("1")]`, and the integer 1 is cast to that
      category. */
  lemma CategoryDecimalMembers()
    ensures CategoryCoerceValue(Some(DecimalV("1.0")), Some([DecimalV("1")])) == Ok(DecimalV("1.0"))
    ensures CategoricalCast(Some(IntV(1)), Some([DecimalV("1")])) == Some(DecimalV("1"))
  {
    DecimalEqualsDecimal();
    DecimalEqualsInteger();
    assert PyEq(DecimalV("1.0"), [DecimalV("1")][0]);
  }

  /** `obj.astype(str)` on one element; a null would print as "nan", but
      `NpString.coerce` never keeps that. */
  function AsStr(v: Option<Value>): Option<Value>
  {
    match v
    case None => Some(StrV("nan"))
    case Some(x) => Some(StrV(PyString(x)))
  }

  /** `obj.where(obj.isna(), other)`: nulls stay, every other position takes
      `other`'s element. */
  function KeepNulls(data: Container, other: Container): (r: Container)
    requires |other| == |data|
    ensures |r| == |data|
  {
    seq(|data|, i requires 0 <= i < |data| => if data[i].None? then None else other[i])
  }

  /** `NpString.coerce`: `astype(str)` when nothing is null, and the same cast
      kept away from the nulls otherwise. */
  function NpStringCoerce(data: Container): (r: Container)
    ensures |r| == |data|
    ensures forall i :: 0 <= i < |data| ==>
      r[i] == if data[i].None? then None else Some(StrV(PyString(data[i].value)))
  {
    var cast := seq(|data|, i requires 0 <= i < |data| => AsStr(data[i]));
    if forall i :: 0 <= i < |data| ==> data[i].Some? then cast
    else KeepNulls(data, cast)
  }

  /** Coercing to strings twice is coercing once. */
  lemma NpStringCoerceIdempotent(data: Container)
    ensures NpStringCoerce(NpStringCoerce(data)) == NpStringCoerce(data)
  {
  }

  /** `coerce` of each data type on a Series. PydanticModel coerces data
      frames and is modelled on rows, apart from this. */
  function Coerce(t: DType, data: Container, host: CastHost): (r: Result<Container, Error>)
    requires !t.PydanticModel?
    ensures r.Ok? ==> |r.value| == |data|
  {
    match t
    case Category(cats, _) => CategoryCoerce(data, cats)
    case NpString => Ok(NpStringCoerce(data))
    case Decimal(p, s) => ApplyEach(data, v => DecimalCoerceValue(v, p, s, host))
    case Date => ApplyEach(data, v => DateCoerceValue(v, host))
    case _ => ApplyEach(data, v => host.astype(NativeType(t), v))
  }

  /** `try_coerce`'s handler: a ParserError passes through, any other exception
      becomes a ParserError carrying the data and the target type. */
  function WrapFailure(t: DType, data: Container, coerced: Result<Container, Error>): (r: Result<Container, Error>)
    ensures r.Ok? <==> coerced.Ok?
    ensures coerced.Ok? ==> r == coerced
    ensures r.Err? ==> r.error.ParserError?
    ensures coerced.Err? && !coerced.error.ParserError? ==> r == Err(ParserError(SeriesFailures(data, t)))
    ensures coerced.Err? && coerced.error.ParserError? ==> r == coerced
  {
    match coerced
    case Ok(_) => coerced
    case Err(ParserError(_)) => coerced
    case Err(_) => Err(ParserError(SeriesFailures(data, t)))
  }

  /** `DataType.try_coerce`. */
  function TryCoerce(t: DType, data: Container, host: CastHost): (r: Result<Container, Error>)
    requires !t.PydanticModel?
    ensures r.Err? ==> r.error.ParserError?
    ensures r.Ok? <==> Coerce(t, data, host).Ok?
  {
    WrapFailure(t, data, Coerce(t, data, host))
  }

  /** Wrapping a wrapped result changes nothing. */
  lemma WrapFailureIdempotent(t: DType, data: Container, coerced: Result<Container, Error>)
    ensures WrapFailure(t, data, WrapFailure(t, data, coerced)) == WrapFailure(t, data, coerced)
  {
  }

  /** A type that coerces with `astype`: any element the cast rejects makes
      `try_coerce` raise a ParserError carrying the container and the type;
      when the cast accepts every element the result is the element-wise cast. */
  lemma TryCoerceByCast(t: DType, data: Container, host: CastHost)
    requires !t.PydanticModel? && !t.Category? && !t.NpString? && !t.Decimal? && !t.Date?
    requires forall v :: host.astype(NativeType(t), v).Err? ==> !host.astype(NativeType(t), v).error.ParserError?
    ensures (exists i :: 0 <= i < |data| && host.astype(NativeType(t), data[i]).Err?) ==>
      TryCoerce(t, data, host) == Err(ParserError(SeriesFailures(data, t)))
    ensures (forall i :: 0 <= i < |data| ==> host.astype(NativeType(t), data[i]).Ok?) ==>
      TryCoerce(t, data, host) == Ok(seq(|data|, i requires 0 <= i < |data| => host.astype(NativeType(t), data[i]).value))
  {
    var r := Coerce(t, data, host);
    if r.Ok? {
      assert r.value == seq(|data|, i requires 0 <= i < |data| => host.astype(NativeType(t), data[i]).value);
    }
  }

  /** Coercing to numpy strings never fails and keeps the nulls where they were. */
  lemma TryCoerceNpString(data: Container, host: CastHost)
    ensures TryCoerce(NpString, data, host).Ok?
    ensures forall i :: 0 <= i < |data| ==> (TryCoerce(NpString, data, host).value[i].None? <==> data[i].None?)
  {
  }

  /** Coercing to a categorical with categories fails, with the data and the
      type as failure cases, exactly when some non-null value is not a category. */
  lemma TryCoerceCategory(data: Container, cats: seq<Value>, ordered: bool, host: CastHost)
    ensures TryCoerce(Category(Some(cats), ordered), data, host).Err? <==>
      exists i :: 0 <= i < |data| && data[i].Some? && !PyIn(data[i].value, cats)
    ensures TryCoerce(Category(Some(cats), ordered), data, host).Err? ==>
      TryCoerce(Category(Some(cats), ordered), data, host).error == ParserError(SeriesFailures(data, Category(Some(cats), ordered)))
  {
  }

  /** Decimal coercion keeps nulls null and non-nulls non-null. */
  lemma DecimalCoercePreservesNulls(data: Container, p: int, s: int, host: CastHost)
    requires Coerce(Decimal(p, s), data, host).Ok?
    ensures forall i :: 0 <= i < |data| ==> (Coerce(Decimal(p, s), data, host).value[i].None? <==> data[i].None?)
  {
  }

  // ---------------------------------------------------------------------------
  // check
  // ---------------------------------------------------------------------------

  /** What a `check` returns: one verdict, or one per element. */
  datatype CheckResult = Verdict(ok: bool) | PerElement(mask: seq<bool>)

  /** `DataType.check`: the other descriptor is resolved (a TypeError means
      False), then the boxed native dtypes or the data types are compared. */
  function DataTypeCheck(table: Table, t: DType, d: Descriptor, host: Host): (r: bool)
    ensures r <==>
      Resolve(table, d, host).Ok?
      && (NativeType(t) == NativeType(Resolve(table, d, host).value) || t == Resolve(table, d, host).value)
  {
    match Resolve(table, d, host)
    case Err(_) => false
    case Ok(other) => NativeType(t) == NativeType(other) || t == other
  }

  /** A data type passes its own check, and the check is symmetric on
      data types. */
  lemma DataTypeCheckReflexiveSymmetric(table: Table, t: DType, u: DType, host: Host)
    ensures DataTypeCheck(table, t, EngineInstance(t), host)
    ensures DataTypeCheck(table, t, EngineInstance(u), host) == DataTypeCheck(table, u, EngineInstance(t), host)
  {
  }

  /** Decimal, Date and the object type all box numpy's object dtype, so the
      base check cannot tell them apart: the overrides look at the elements. */
  lemma ObjectFamilyIndistinct(table: Table, p: int, s: int, host: Host)
    ensures DataTypeCheck(table, Decimal(p, s), EngineInstance(Object), host)
    ensures DataTypeCheck(table, Date, EngineInstance(Decimal(p, s)), host)
    ensures !DataTypeCheck(table, Date, EngineInstance(DateTime), host)
  {
  }

  /** `NpString.check`: only the object and numpy string data types, as given. */
  function NpStringCheck(d: Descriptor): (r: bool)
    ensures r <==> d in {EngineInstance(Object), EngineInstance(NpString)}
  {
    match d
    case EngineInstance(Object) => true
    case EngineInstance(NpString) => true
    case _ => false
  }

  /** Against the base check of NpString, `NpString.check` also accepts the
      object data type, and rejects a descriptor such as "str" that is not
      already a data type, even where the base check resolves it to NpString. */
  lemma NpStringCheckAgainstBase(table: Table, host: Host)
    requires Alias("str") in table && table[Alias("str")] == NpString
    ensures NpStringCheck(EngineInstance(Object)) && !DataTypeCheck(table, NpString, EngineInstance(Object), host)
    ensures !NpStringCheck(Alias("str")) && DataTypeCheck(table, NpString, Alias("str"), host)
  {
  }

  /** The element test of `Date.check`: null, or exactly a `datetime.date`. */
  predicate IsDateOrNull(v: Option<Value>)
  {
    v.None? || v.value.DateV?
  }

  /** `Date.check`. */
  function DateCheck(table: Table, d: Descriptor, data: Option<Container>, host: Host): (r: CheckResult)
    ensures data.None? ==> r == Verdict(DataTypeCheck(table, Date, d, host))
    ensures data.Some? ==> r.PerElement? && |r.mask| == |data.value|
    ensures data.Some? ==> forall i :: 0 <= i < |data.value| ==>
      (r.mask[i] <==> DataTypeCheck(table, Date, d, host) && IsDateOrNull(data.value[i]))
  {
    if !DataTypeCheck(table, Date, d, host) then
      if data.None? then Verdict(false) else PerElement(seq(|data.value|, _ => false))
    else if data.None? then Verdict(true)
    else PerElement(seq(|data.value|, i requires 0 <= i < |data.value| => IsDateOrNull(data.value[i])))
  }

  /** `Decimal.check`: after the base check, each element is judged by
      `_check_decimal` against the data type's precision and scale. The
      element test is the intended one, which also holds for a Series of
      integral decimals only. */
  function DecimalCheck(table: Table, p: int, s: int, d: Descriptor, data: Option<Container>, host: Host): (r: CheckResult)
    ensures data.None? ==> r == Verdict(DataTypeCheck(table, Decimal(p, s), d, host))
    ensures data.Some? ==> r.PerElement? && |r.mask| == |data.value|
    ensures data.Some? ==> forall i :: 0 <= i < |data.value| ==>
      (r.mask[i] <==> DataTypeCheck(table, Decimal(p, s), d, host) && ElementValid(data.value, i, Some(p), Some(s)))
  {
    if !DataTypeCheck(table, Decimal(p, s), d, host) then
      if data.None? then Verdict(false) else PerElement(seq(|data.value|, _ => false))
    else if data.None? then Verdict(true)
    else PerElement(seq(|data.value|, i requires 0 <= i < |data.value| => ElementValid(data.value, i, Some(p), Some(s))))
  }

  /** `Decimal.check` as written: the elements go to `_check_decimal` as
      written, which raises a KeyError for a Series whose decimals all lack a
      point; otherwise it agrees with the corrected check. */
  function DecimalCheckAsWritten(table: Table, p: int, s: int, d: Descriptor, data: Option<Container>, host: Host): (r: Result<CheckResult, Error>)
    ensures r.Err? <==>
      DataTypeCheck(table, Decimal(p, s), d, host) && data.Some? && !AllNull(data.value) && !SomeFractional(data.value)
    ensures r.Err? ==> r.error == KeyError
    ensures r.Ok? ==> r.value == DecimalCheck(table, p, s, d, data, host)
  {
    if !DataTypeCheck(table, Decimal(p, s), d, host) then
      Ok(if data.None? then Verdict(false) else PerElement(seq(|data.value|, _ => false)))
    else if data.None? then Ok(Verdict(true))
    else
      var mask :- CheckDecimalAsWritten(data.value, Some(p), Some(s));
      assert PerElement(mask) == DecimalCheck(table, p, s, d, data, host);
      Ok(PerElement(mask))
  }

  /** A Series holding only `Decimal("1")` passes the corrected check of the
      default decimal type, and makes the check as written raise. */
  lemma DecimalCheckIntegralOnly(table: Table, host: Host)
    ensures DecimalCheck(table, DefaultPythonPrec, 0, EngineInstance(Decimal(DefaultPythonPrec, 0)), Some([Some(DecimalV("1"))]), host)
      == PerElement([true])
    ensures DecimalCheckAsWritten(table, DefaultPythonPrec, 0, EngineInstance(Decimal(DefaultPythonPrec, 0)), Some([Some(DecimalV("1"))]), host)
      == Err(KeyError)
  {
    var data: Container := [Some(DecimalV("1"))];
    DataTypeCheckReflexiveSymmetric(table, Decimal(DefaultPythonPrec, 0), Decimal(DefaultPythonPrec, 0), host);
    CheckDecimalIntegralOnly();
    var r := DecimalCheck(table, DefaultPythonPrec, 0, EngineInstance(Decimal(DefaultPythonPrec, 0)), Some(data), host);
    assert r.mask == [true];
  }

  /** `Decimal(5, 2)` checking its own data type accepts 123.45 and rejects
      123.456. */
  lemma DecimalCheckExample(table: Table, host: Host)
    ensures DecimalCheck(table, 5, 2, EngineInstance(Decimal(5, 2)), Some([Some(DecimalV("123.45")), Some(DecimalV("123.456"))]), host)
      == PerElement([true, false])
  {
    var data: Container := [Some(DecimalV("123.45")), Some(DecimalV("123.456"))];
    DataTypeCheckReflexiveSymmetric(table, Decimal(5, 2), Decimal(5, 2), host);
    CheckDecimalExample();
    var r := DecimalCheck(table, 5, 2, EngineInstance(Decimal(5, 2)), Some(data), host);
    assert r.mask[0] && !r.mask[1];
    assert r.mask == [true, false];
  }

  /** A Series of nulls passes a decimal data type's own check whatever the
      precision and scale. */
  lemma DecimalCheckAllNull(table: Table, p: int, s: int, host: Host, n: nat)
    ensures DecimalCheck(table, p, s, EngineInstance(Decimal(p, s)), Some(seq(n, _ => None)), host)
      == PerElement(seq(n, _ => true))
  {
    DataTypeCheckReflexiveSymmetric(table, Decimal(p, s), Decimal(p, s), host);
    var nulls: Container := seq(n, _ => None);
    assert AllNull(nulls);
    assert DecimalCheck(table, p, s, EngineInstance(Decimal(p, s)), Some(nulls), host).mask == seq(n, _ => true);
  }

  /** A decimal data type rejects a Series that holds anything other than
      decimals and nulls at that position. */
  lemma DecimalCheckRejectsNonDecimals(table: Table, p: int, s: int, d: Descriptor, data: Container, i: int, host: Host)
    requires 0 <= i < |data| && data[i].Some? && !data[i].value.DecimalV?
    ensures !DecimalCheck(table, p, s, d, Some(data), host).mask[i]
  {
    assert !AllNull(data) by { assert data[i].Some?; }
  }

  /** A timestamp is not a date: `Date.check` rejects it even though it is a
      subclass. */
  lemma DateCheckRejectsTimestamp(table: Table, host: Host, y: nat, m: nat, dd: nat, clock: string)
    ensures DateCheck(table, EngineInstance(Date), Some([Some(DateTimeV(y, m, dd, clock)), Some(DateV(y, m, dd)), None]), host)
      == PerElement([false, true, true])
  {
  }

  /** Whatever `Date.coerce_value` produces passes `Date.check`'s element test. */
  lemma DateCoerceValueChecks(v: Option<Value>, host: CastHost)
    requires DateCoerceValue(v, host).Ok?
    ensures IsDateOrNull(DateCoerceValue(v, host).value)
  {
  }
}
