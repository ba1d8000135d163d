/** The vocabulary of the pandas engine: the scalar values a container holds,
    the canonical pandera data types, the native numpy/pandas dtypes they box,
    and the many descriptors a caller may use to name a data type. */
module DTypes {
  import opened Common

  /** A Python scalar held in a pandas container (nulls are `None` of `Option`). */
  datatype Value =
    | BoolV(b: bool)                              // True / False, numpy.bool_
    | IntV(i: int)                                // a Python or numpy integer
    | StrV(s: string)                             // a str
    | DecimalV(text: string)                      // a decimal.Decimal, held as its str() form
    | DateV(year: nat, month: nat, day: nat)      // exactly a datetime.date
    | DateTimeV(year: nat, month: nat, day: nat, clock: string)  // a datetime.datetime or pd.Timestamp
    | ObjectV(text: string)                       // any other object, held as its str() form

  /** A pandas Series (or Index) seen positionally; `None` marks a null. */
  type Container = seq<Option<Value>>

  /** The numeric families that `_register_numpy_numbers` is called for. */
  datatype NumKind = Int | UInt | Float | Complex

  /** The `builtin_name` argument of `_register_numpy_numbers`. */
  function BuiltinName(k: NumKind): string
  {
    match k
    case Int => "int"
    case UInt => "uint"
    case Float => "float"
    case Complex => "complex"
  }

  /** The `pandera_name` argument of `_register_numpy_numbers`. */
  function PanderaName(k: NumKind): string
  {
    match k
    case Int => "Int"
    case UInt => "UInt"
    case Float => "Float"
    case Complex => "Complex"
  }

  /** Whether `builtins` has a type of that name (there is no builtin `uint`). */
  predicate HasBuiltin(k: NumKind)
  {
    k != UInt
  }

  /** The width of `default_pd_dtype`: int64 and uint64 whatever the platform,
      and the width pandas gives `pd.Series([1], dtype=name)` for float and complex. */
  function DefaultWidth(k: NumKind): nat
  {
    match k
    case Int => 64
    case UInt => 64
    case Float => 64
    case Complex => 128
  }

  /** Canonical pandera data types of the pandas engine, one constructor per
      engine class; the numeric class hierarchy is flattened into (kind, width). */
  datatype DType =
    | NpBool                                          // numpy_engine.Bool
    | PdBool                                          // BOOL, pandas BooleanDtype
    | NpNumber(kind: NumKind, width: nat)             // numpy_engine.Int64, UInt8, Float32, Complex128, ...
    | PdNumber(kind: NumKind, width: nat)             // INT64 ... UINT8, FLOAT64, FLOAT32 (nullable pandas dtypes)
    | Decimal(precision: int, scale: int)
    | Category(categories: Option<seq<Value>>, ordered: bool)
    | PdString(storage: string)                       // STRING, pandas StringDtype
    | NpString                                        // NpString, numpy str
    | Object                                          // numpy_engine.Object
    | DateTime                                        // DateTime with unit "ns" and no timezone
    | Date
    | Timedelta                                       // numpy_engine.Timedelta64
    | PydanticModel(model: string)

  /** `dtypes.DEFAULT_PYTHON_PREC`, the precision of the default decimal context. */
  const DefaultPythonPrec: int := 28

  /** Instances of pandas extension dtypes. */
  datatype Ext =
    | BooleanDtype
    | NumericDtype(kind: NumKind, width: nat)         // pd.Int64Dtype(), pd.UInt8Dtype(), pd.Float32Dtype(), ...
    | CategoricalDtype(categories: Option<seq<Value>>, ordered: bool)
    | StringDtype(storage: string)
    | OtherExt(name: string)

  /** Pandas extension dtype classes (not instantiated). */
  datatype ExtKind =
    | BooleanKind
    | NumericKind(kind: NumKind, width: nat)
    | CategoricalKind
    | StringKind
    | OtherKind(name: string)

  /** Numpy scalar types; numpy dtypes are named by the scalar type they hold. */
  datatype NpScalar =
    | NpBoolS
    | NpNum(kind: NumKind, width: nat)
    | NpStrS
    | NpObjectS
    | NpBytesS                                        // numpy.bytes_, also spelt numpy.string_
    | NpDatetime64S
    | NpTimedelta64S
    | NpOtherS(name: string)

  /** Python classes that are neither numpy, pandera nor extension dtypes. */
  datatype PyClass =
    | PyBool | PyNum(kind: NumKind) | PyStr | PyBytes | PyObject
    | PyDecimal | PyDate | PyDateTime | PyTimedelta
    | PdTimestamp | PdTimedelta

  /** The classes of `pandera.dtypes`; `PNum(k, None)` is the unsized `dtypes.Int` etc. */
  datatype PanderaClassName =
    | PBool | PNum(kind: NumKind, width: Option<nat>) | PString | PDecimal
    | PCategory | PTimestamp | PDate | PTimedelta

  /** Whatever a caller may pass to `Engine.dtype`. */
  datatype Descriptor =
    | Alias(s: string)                 // a string alias such as "int" or "category"
    | PyType(c: PyClass)               // a Python class such as `int` or `decimal.Decimal`
    | NpType(n: NpScalar)              // a numpy scalar type such as `np.int64`
    | NpDtype(n: NpScalar)             // a numpy dtype instance such as `np.dtype("int64")`
    | PanderaClass(p: PanderaClassName)     // such as `pandera.dtypes.Int64`
    | PanderaInstance(p: PanderaClassName)  // such as `pandera.dtypes.Int64()`
    | PanderaCategory(categories: Option<seq<Value>>, ordered: bool)  // such as `pandera.dtypes.Category(["a", "b"])`
    | ExtClass(k: ExtKind)             // such as `pd.Int64Dtype`
    | ExtInstance(e: Ext)              // such as `pd.Int64Dtype()`
    | EngineInstance(t: DType)         // an instance of a pandas engine data type

  /** The native dtype a data type boxes in its `type` attribute. */
  datatype Native = NpNative(n: NpScalar) | ExtNative(e: Ext) | ModelNative(model: string)

  function NativeType(t: DType): Native
  {
    match t
    case NpBool => NpNative(NpBoolS)
    case PdBool => ExtNative(BooleanDtype)
    case NpNumber(k, w) => NpNative(NpNum(k, w))
    case PdNumber(k, w) => ExtNative(NumericDtype(k, w))
    case Decimal(_, _) => NpNative(NpObjectS)
    case Category(c, o) => ExtNative(CategoricalDtype(c, o))
    case PdString(s) => ExtNative(StringDtype(s))
    case NpString => NpNative(NpStrS)
    case Object => NpNative(NpObjectS)
    case DateTime => NpNative(NpDatetime64S)
    case Date => NpNative(NpObjectS)
    case Timedelta => NpNative(NpTimedelta64S)
    case PydanticModel(m) => ModelNative(m)
  }

  /** Decimal digits of a natural number. */
  function NatToString(n: nat): (s: string)
    ensures |s| > 0
    ensures forall i :: 0 <= i < |s| ==> '0' <= s[i] <= '9'
  {
    var d := [(n % 10) as char + '0'];
    if n < 10 then d else NatToString(n / 10) + d
  }

  function IntToString(i: int): (s: string)
    ensures |s| > 0
  {
    if i < 0 then "-" + NatToString(-i) else NatToString(i)
  }

  /** Left-pads with zeros to at least `w` characters. */
  function ZeroPad(s: string, w: nat): (r: string)
    ensures |r| >= w && |r| >= |s|
    decreases w - |s|
  {
    if |s| >= w then s else ZeroPad("0" + s, w)
  }

  /** `str(value)` in Python. */
  function PyString(v: Value): string
  {
    match v
    case BoolV(b) => if b then "True" else "False"
    case IntV(i) => IntToString(i)
    case StrV(s) => s
    case DecimalV(t) => t
    case DateV(y, m, d) => ZeroPad(NatToString(y), 4) + "-" + ZeroPad(NatToString(m), 2) + "-" + ZeroPad(NatToString(d), 2)
    case DateTimeV(y, m, d, c) =>
      ZeroPad(NatToString(y), 4) + "-" + ZeroPad(NatToString(m), 2) + "-" + ZeroPad(NatToString(d), 2) + " " + c
    case ObjectV(t) => t
  }

  /** A finite decimal number, `mantissa * 10 ** exponent`. */
  datatype DecimalNum = DecimalNum(mantissa: int, exponent: int)

  function Pow10(n: nat): (r: nat)
    ensures r >= 1
  {
    if n == 0 then 1 else 10 * Pow10(n - 1)
  }

  predicate IsDigit(c: char)
  {
    '0' <= c <= '9'
  }

  /** Whether `s[lo..hi]` is all decimal digits. */
  predicate DigitsBetween(s: string, lo: nat, hi: nat)
    requires lo <= hi <= |s|
    decreases hi - lo
  {
    lo == hi || (IsDigit(s[lo]) && DigitsBetween(s, lo + 1, hi))
  }

  /** The number the digits `s[lo..hi]` spell. */
  function DigitsValue(s: string, lo: nat, hi: nat): int
    requires lo <= hi <= |s|
    decreases hi - lo
  {
    if lo == hi then 0 else DigitsValue(s, lo, hi - 1) * 10 + (s[hi - 1] as int - '0' as int)
  }

  /** The first position from `from` on that holds one of `cs`, or `|s|`. */
  function FindFrom(s: string, cs: set<char>, from: nat): (r: nat)
    requires from <= |s|
    ensures from <= r <= |s|
    ensures r < |s| ==> s[r] in cs
    decreases |s| - from
  {
    if from == |s| || s[from] in cs then from else FindFrom(s, cs, from + 1)
  }

  /** The exponent of a decimal's text whose `E` (if any) is at position `e`. */
  function ExponentOf(t: string, e: nat): Option<int>
    requires e <= |t|
  {
    if e == |t| then Some(0)
    else
      var start := if e + 1 < |t| && (t[e + 1] == '-' || t[e + 1] == '+') then e + 2 else e + 1;
      if start < |t| && DigitsBetween(t, start, |t|) then
        Some((if t[e + 1] == '-' then -1 else 1) * DigitsValue(t, start, |t|))
      else None
  }

  /** The number a decimal's `str()` form stands for: an optional sign, digits
      with at most one point, and an optional exponent (`-12.50`, `1E+2`);
      `None` for the special values `NaN`, `sNaN` and `Infinity`. */
  function DecimalNumber(t: string): Option<DecimalNum>
  {
    var start: nat := if |t| > 0 && (t[0] == '-' || t[0] == '+') then 1 else 0;
    var p := FindFrom(t, {'.', 'E', 'e'}, start);
    var hasPoint := p < |t| && t[p] == '.';
    var e := if hasPoint then FindFrom(t, {'E', 'e'}, p + 1) else p;
    var fraction: nat := if hasPoint then p + 1 else p;
    var exponent := ExponentOf(t, e);
    if DigitsBetween(t, start, p) && DigitsBetween(t, fraction, e) && p - start + (e - fraction) > 0 && exponent.Some? then
      var magnitude := DigitsValue(t, start, p) * Pow10(e - fraction) + DigitsValue(t, fraction, e);
      Some(DecimalNum(if |t| > 0 && t[0] == '-' then -magnitude else magnitude, exponent.value - (e - fraction)))
    else None
  }

  /** Numeric equality of two finite decimals. */
  predicate SameNumber(x: DecimalNum, y: DecimalNum)
  {
    if x.exponent <= y.exponent then x.mantissa == y.mantissa * Pow10(y.exponent - x.exponent)
    else x.mantissa * Pow10(x.exponent - y.exponent) == y.mantissa
  }

  /** The number a value stands for when Python compares numbers: a bool is
      0 or 1, and a finite decimal its numeric value. */
  function NumberOf(v: Value): Option<DecimalNum>
  {
    match v
    case BoolV(b) => Some(DecimalNum(if b then 1 else 0, 0))
    case IntV(i) => Some(DecimalNum(i, 0))
    case DecimalV(t) => DecimalNumber(t)
    case _ => None
  }

  /** Python's `==` on the values modelled: bools, integers and decimals
      compare by number (`True == 1 == Decimal("1.0")`); a decimal NaN equals
      nothing, a decimal infinity only itself; other values are equal when
      they are the same value. */
  predicate PyEq(a: Value, b: Value)
  {
    match (NumberOf(a), NumberOf(b))
    case (Some(x), Some(y)) => SameNumber(x, y)
    case _ => a == b && (a.DecimalV? ==> a.text == "Infinity" || a.text == "-Infinity")
  }

  /** Python's `value in collection`, which compares with `==`. */
  predicate PyIn(v: Value, s: seq<Value>)
  {
    exists i :: 0 <= i < |s| && PyEq(v, s[i])
  }

  /** Python's `==` on these values is symmetric. */
  lemma PyEqSymmetric(a: Value, b: Value)
    ensures PyEq(a, b) <==> PyEq(b, a)
  {
    if NumberOf(a).Some? && NumberOf(b).Some? {
      SameNumberSymmetric(NumberOf(a).value, NumberOf(b).value);
    }
  }

  lemma SameNumberSymmetric(x: DecimalNum, y: DecimalNum)
    ensures SameNumber(x, y) <==> SameNumber(y, x)
  {
    if x.exponent == y.exponent {
      assert Pow10(0) == 1;
    }
  }

  /** `Decimal("1.0") == Decimal("1")`: decimals compare by number, not by
      their digits. */
  lemma DecimalEqualsDecimal()
    ensures PyEq(DecimalV("1.0"), DecimalV("1"))
  {
    assert DecimalNumber("1.0") == Some(DecimalNum(10, -1));
  }

  /** `Decimal("-0.50") == Decimal("-.5")`: the sign applies to the whole
      number and trailing zeros do not count. */
  lemma SignedDecimalEquality()
    ensures PyEq(DecimalV("-0.50"), DecimalV("-.5"))
  {
    assert DecimalNumber("-0.50") == Some(DecimalNum(-50, -2));
    assert DecimalNumber("-.5") == Some(DecimalNum(-5, -1));
    assert Pow10(1) == 10;
  }

  /** `Decimal("1") == 1`, `Decimal("1E+2") == 100` and `Decimal("1.5") != 1`. */
  lemma DecimalEqualsInteger()
    ensures PyEq(DecimalV("1"), IntV(1))
    ensures PyEq(DecimalV("1E+2"), IntV(100))
    ensures !PyEq(DecimalV("1.5"), IntV(1))
  {
    assert DecimalNumber("1") == Some(DecimalNum(1, 0));
    assert DecimalNumber("1E+2") == Some(DecimalNum(1, 2));
    assert DecimalNumber("1.5") == Some(DecimalNum(15, -1));
  }

  /** `Decimal("1") == True` and `Decimal("0.00") == False`. */
  lemma DecimalEqualsBool()
    ensures PyEq(DecimalV("1"), BoolV(true))
    ensures PyEq(DecimalV("0.00"), BoolV(false))
  {
  }

  /** A decimal NaN equals nothing, not even a NaN; an infinity equals itself;
      a decimal never equals a string. */
  lemma DecimalSpecialValues()
    ensures !PyEq(DecimalV("NaN"), DecimalV("NaN"))
    ensures PyEq(DecimalV("Infinity"), DecimalV("Infinity"))
    ensures !PyEq(DecimalV("1"), StrV("1"))
  {
  }

  /** `str(data_type)`: `str(self.type)` for most engine types, and the
      overrides of STRING (`repr` of its dtype), Decimal and Date. */
  function TypeString(t: DType): string
  {
    match t
    case NpBool => "bool"
    case PdBool => "boolean"
    case NpNumber(k, w) => BuiltinName(k) + NatToString(w)
    case PdNumber(k, w) => PanderaName(k) + NatToString(w)
    case Decimal(p, s) => "Decimal(" + IntToString(p) + ", " + IntToString(s) + ")"
    case Category(_, _) => "category"
    case PdString(s) => "string[" + s + "]"
    case NpString => "str"
    case Object => "object"
    case DateTime => "datetime64[ns]"
    case Date => "date"
    case Timedelta => "timedelta64[ns]"
    case PydanticModel(m) => m
  }

  function LowerChar(c: char): char
  {
    if 'A' <= c <= 'Z' then (c as int + 32) as char else c
  }

  /** ASCII lower-casing, Python's `str.lower` on the names that occur here. */
  function Lower(s: string): (r: string)
    ensures |r| == |s|
  {
    seq(|s|, i requires 0 <= i < |s| => LowerChar(s[i]))
  }

  /** What `utils.numpy_pandas_coerce_failure_cases` or `reshape_failure_cases`
      is given to build a failure report; the report itself is not modelled. */
  datatype FailureCases =
    | SeriesFailures(data: Container, target: DType)
    | RowFailures(rows: seq<(nat, map<string, Option<Value>>)>, model: string)
    | FrameFailures(frame: seq<map<string, Option<Value>>>, target: DType)

  /** The exceptions the engine raises or lets through. */
  datatype Error =
    | TypeError
    | KeyError
    | ValueError
    | InvalidOperation                  // decimal.InvalidOperation
    | ParserError(cases: FailureCases)  // pandera.errors.ParserError
}
