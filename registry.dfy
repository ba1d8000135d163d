/** The pandas engine's dtype registry: the equivalence table that the module-level
    `register_dtype` calls fill, `Engine.dtype` that resolves a descriptor against
    it, and `Engine.numpy_dtype` that maps a data type back to a numpy dtype. */
module Registry {
  import opened Common
  import opened DTypes

  /** The engine's equivalents: each descriptor names exactly one data type. */
  type Table = map<Descriptor, DType>

  /** What `pd.api.types.pandas_dtype` turns an acceptable value into. */
  datatype PandasDtype = NumpyDtypeOf(n: NpScalar) | ExtDtypeOf(e: Ext)

  /** The numpy and pandas calls `Engine.dtype` and `Engine.numpy_dtype` make;
      `None` stands for the TypeError (or AttributeError) they raise. */
  datatype Host = Host(
    instantiate: ExtKind -> Option<Ext>,             // `data_type()` followed by `str(dtype.name)`
    pandasDtype: Descriptor -> Option<PandasDtype>,  // `pd.api.types.pandas_dtype(data_type)`
    npDtype: string -> Option<NpScalar>)             // `np.dtype(alias)`

  // ---------------------------------------------------------------------------
  // _register_numpy_numbers
  // ---------------------------------------------------------------------------

  /** The `pd.api.types.infer_dtype` results registered for the default width. */
  predicate IsInferenceAlias(k: NumKind, s: string)
  {
    (k == Float && (s == "floating" || s == "mixed-integer-float")) || (k == Int && s == "integer")
  }

  /** Reference definition, descriptor by descriptor, of the equivalents that
      `_register_numpy_numbers` gives the numpy data type of kind `k` and width `w`. */
  predicate IsNumberEquivalent(k: NumKind, w: nat, d: Descriptor)
  {
    match d
    case NpType(NpNum(k', w')) => k' == k && w' == w
    case PanderaClass(PNum(k', ow)) => k' == k && (ow == Some(w) || (ow == None && w == DefaultWidth(k)))
    case PanderaInstance(PNum(k', ow)) => k' == k && (ow == Some(w) || (ow == None && w == DefaultWidth(k)))
    case NpDtype(NpNum(k', w')) => k' == k && w' == w && w == DefaultWidth(k)
    case Alias(s) => w == DefaultWidth(k) && (s == BuiltinName(k) || IsInferenceAlias(k, s))
    case PyType(PyNum(k')) => k' == k && HasBuiltin(k) && w == DefaultWidth(k)
    case _ => false
  }

  /** No descriptor is an equivalent of two widths of one kind. */
  lemma NumberEquivalentUnique(k: NumKind, w1: nat, w2: nat, d: Descriptor)
    requires IsNumberEquivalent(k, w1, d) && IsNumberEquivalent(k, w2, d)
    ensures w1 == w2
  {
  }

  /** No descriptor is an equivalent of two numeric kinds. */
  lemma NumberEquivalentKindUnique(k1: NumKind, k2: NumKind, w1: nat, w2: nat, d: Descriptor)
    requires IsNumberEquivalent(k1, w1, d) && IsNumberEquivalent(k2, w2, d)
    ensures k1 == k2 && w1 == w2
  {
  }

  /** Only the default width gets the builtin name, the builtin type, the unsized
      pandera class and the inference aliases; every other width gets exactly its
      numpy scalar type and its sized pandera class and instance. */
  lemma DefaultWidthOnly(k: NumKind, w: nat)
    ensures IsNumberEquivalent(k, w, Alias(BuiltinName(k))) <==> w == DefaultWidth(k)
    ensures IsNumberEquivalent(k, w, PanderaClass(PNum(k, None))) <==> w == DefaultWidth(k)
    ensures IsNumberEquivalent(k, w, PyType(PyNum(k))) <==> (w == DefaultWidth(k) && k != UInt)
    ensures IsNumberEquivalent(k, w, Alias("integer")) <==> (k == Int && w == 64)
    ensures IsNumberEquivalent(k, w, Alias("floating")) <==> (k == Float && w == 64)
    ensures w != DefaultWidth(k) ==>
      forall d :: IsNumberEquivalent(k, w, d) <==>
        d in {NpType(NpNum(k, w)), PanderaClass(PNum(k, Some(w))), PanderaInstance(PNum(k, Some(w)))}
  {
  }

  /** The entries one `register_dtype` call adds: every equivalent names `t`. */
  function Entries(t: DType, eqs: set<Descriptor>): Table
  {
    map d | d in eqs :: t
  }

  /** The `equivalents` set that the loop body of `_register_numpy_numbers` builds
      for one bit width. */
  function WidthEquivalents(k: NumKind, w: nat): (eqs: set<Descriptor>)
    ensures forall d :: d in eqs <==> IsNumberEquivalent(k, w, d)
  {
    var sized := {NpType(NpNum(k, w)), PanderaClass(PNum(k, Some(w))), PanderaInstance(PNum(k, Some(w)))};
    if w != DefaultWidth(k) then sized
    else
      sized + {NpDtype(NpNum(k, w)), Alias(BuiltinName(k)), PanderaClass(PNum(k, None)), PanderaInstance(PNum(k, None))}
      + (if HasBuiltin(k) then {PyType(PyNum(k))} else {})
      + (if k == Float then {Alias("floating"), Alias("mixed-integer-float")} else if k == Int then {Alias("integer")} else {})
  }

  /** The width a descriptor names when it is an equivalent of a kind-`k` number. */
  function EquivalentWidth(k: NumKind, d: Descriptor): nat
  {
    match d
    case NpType(NpNum(_, w)) => w
    case PanderaClass(PNum(_, Some(w))) => w
    case PanderaInstance(PNum(_, Some(w))) => w
    case NpDtype(NpNum(_, w)) => w
    case _ => DefaultWidth(k)
  }

  lemma EquivalentWidthIsWidth(k: NumKind, w: nat, d: Descriptor)
    requires IsNumberEquivalent(k, w, d)
    ensures EquivalentWidth(k, d) == w
  {
  }

  /** The entries `_register_numpy_numbers(k, ws)` adds: each equivalent of a
      width in `ws` names the numpy type of that width. */
  function NumberTable(k: NumKind, ws: seq<nat>): Table
  {
    var domain := set w, d | w in ws && d in WidthEquivalents(k, w) :: d;
    map d | d in domain :: NpNumber(k, EquivalentWidth(k, d))
  }

  /** Every descriptor `_register_numpy_numbers(k, ws)` registers is an
      equivalent of one of the widths `ws`, and names that width's type. */
  lemma NumberTableAt(k: NumKind, ws: seq<nat>, d: Descriptor)
    ensures d in NumberTable(k, ws) <==> exists w :: w in ws && IsNumberEquivalent(k, w, d)
    ensures d in NumberTable(k, ws) ==> NumberTable(k, ws)[d] == NpNumber(k, EquivalentWidth(k, d))
  {
    if exists w :: w in ws && IsNumberEquivalent(k, w, d) {
      var w :| w in ws && IsNumberEquivalent(k, w, d);
      assert d in WidthEquivalents(k, w);
    }
  }

  /** One more width: the loop body's registration extends the table. */
  lemma NumberTableStep(k: NumKind, ws: seq<nat>, w: nat)
    ensures NumberTable(k, ws + [w]) == NumberTable(k, ws) + Entries(NpNumber(k, w), WidthEquivalents(k, w))
  {
    var lhs := NumberTable(k, ws + [w]);
    var rhs := NumberTable(k, ws) + Entries(NpNumber(k, w), WidthEquivalents(k, w));
    forall d
      ensures d in lhs <==> d in rhs
      ensures d in lhs ==> lhs[d] == rhs[d]
    {
      NumberTableAt(k, ws + [w], d);
      NumberTableAt(k, ws, d);
      if d in WidthEquivalents(k, w) {
        EquivalentWidthIsWidth(k, w, d);
      }
      if exists w' :: w' in ws + [w] && IsNumberEquivalent(k, w', d) {
        var w' :| w' in ws + [w] && IsNumberEquivalent(k, w', d);
        if w' != w {
          assert w' in ws;
        }
      }
    }
  }

  lemma UnionAssociative(a: Table, b: Table, c: Table)
    ensures a + b + c == a + (b + c)
  {
  }

  const BoolEquivalents: set<Descriptor> :=
    {Alias("bool"), PyType(PyBool), NpType(NpBoolS), PanderaClass(PBool), PanderaInstance(PBool)}
  const BOOLEquivalents: set<Descriptor> := {Alias("boolean"), ExtClass(BooleanKind), ExtInstance(BooleanDtype)}
  const DecimalEquivalents: set<Descriptor> := {Alias("decimal"), PyType(PyDecimal), PanderaClass(PDecimal)}
  const CategoryEquivalents: set<Descriptor> :=
    {Alias("category"), Alias("categorical"), PanderaClass(PCategory), ExtClass(CategoricalKind)}
  const STRINGEquivalents: set<Descriptor> := {Alias("string"), ExtClass(StringKind)}
  const NpStringEquivalents: set<Descriptor> :=
    {Alias("str"), PyType(PyStr), PanderaClass(PString), PanderaInstance(PString), NpType(NpStrS)}
  const ObjectEquivalents: set<Descriptor> := {
    Alias("object"), Alias("object_"), Alias("object0"), Alias("O"), Alias("bytes"),
    Alias("mixed-integer"), Alias("mixed"), Alias("bytes"), PyType(PyBytes), PyType(PyObject),
    NpType(NpObjectS), NpType(NpBytesS), NpType(NpBytesS)}   // np.string_ is np.bytes_
  const DateTimeEquivalents: set<Descriptor> := {
    Alias("time"), Alias("datetime"), Alias("datetime64"), PyType(PyDateTime), NpType(NpDatetime64S),
    PanderaClass(PTimestamp), PanderaInstance(PTimestamp), PyType(PdTimestamp)}
  const DateEquivalents: set<Descriptor> := {Alias("date"), PyType(PyDate), PanderaClass(PDate), PanderaInstance(PDate)}
  const TimedeltaEquivalents: set<Descriptor> := {
    Alias("timedelta"), Alias("timedelta64"), PyType(PyTimedelta), NpType(NpTimedelta64S),
    PyType(PdTimedelta), PanderaClass(PTimedelta), PanderaInstance(PTimedelta)}

  /** The equivalents of a nullable pandas number class: the class and its instance. */
  function ExtEquivalents(k: NumKind, w: nat): set<Descriptor>
  {
    {ExtClass(NumericKind(k, w)), ExtInstance(NumericDtype(k, w))}
  }

  /** The numpy widths registered for each kind. */
  function NumpyWidths(k: NumKind, float128: bool): seq<nat>
  {
    match k
    case Int => [64, 32, 16, 8]
    case UInt => [64, 32, 16, 8]
    case Float => if float128 then [128, 64, 32, 16] else [64, 32, 16]
    case Complex => if float128 then [256, 128, 64] else [128, 64]
  }

  // The module-level registrations of `pandas_engine`, section by section; each
  // section extends the registry it is given.

  function RegisterBooleans(x: Table): Table
  {
    x + Entries(NpBool, BoolEquivalents) + Entries(PdBool, BOOLEquivalents)
  }

  /** The nullable pandas number types of one kind: INT64 ... INT8,
      UINT64 ... UINT8, FLOAT64 and FLOAT32. */
  function RegisterPandasNumbers(x: Table, k: NumKind): Table
  {
    match k
    case Int | UInt =>
      x + Entries(PdNumber(k, 64), ExtEquivalents(k, 64)) + Entries(PdNumber(k, 32), ExtEquivalents(k, 32))
      + Entries(PdNumber(k, 16), ExtEquivalents(k, 16)) + Entries(PdNumber(k, 8), ExtEquivalents(k, 8))
    case Float =>
      x + Entries(PdNumber(k, 64), ExtEquivalents(k, 64)) + Entries(PdNumber(k, 32), ExtEquivalents(k, 32))
    case Complex => x
  }

  /** `_register_numpy_numbers` for one kind, then that kind's pandas types. */
  function RegisterNumbers(x: Table, k: NumKind, float128: bool): Table
  {
    RegisterPandasNumbers(x + NumberTable(k, NumpyWidths(k, float128)), k)
  }

  /** The decimal, nominal and time registrations. */
  function RegisterLater(x: Table): Table
  {
    x + Entries(Decimal(DefaultPythonPrec, 0), DecimalEquivalents)
    + Entries(Category(None, false), CategoryEquivalents) + Entries(PdString("python"), STRINGEquivalents)
    + Entries(NpString, NpStringEquivalents) + Entries(Object, ObjectEquivalents)
    + Entries(DateTime, DateTimeEquivalents) + Entries(Date, DateEquivalents) + Entries(Timedelta, TimedeltaEquivalents)
  }

  /** The registry after the module-level registrations of `pandas_engine`. */
  function StandardTable(float128: bool): Table
  {
    var empty: Table := map[];
    var numbers := RegisterNumbers(RegisterNumbers(RegisterNumbers(RegisterNumbers(
      RegisterBooleans(empty), Int, float128), UInt, float128), Float, float128), Complex, float128);
    RegisterLater(numbers)
  }

  /** A lookup that reports a missing descriptor as `None`. */
  function Get(table: Table, d: Descriptor): Option<DType>
  {
    if d in table then Some(table[d]) else None
  }

  /** `b` where it names a data type, `a` elsewhere: the effect of registering
      after. */
  function Override(a: Option<DType>, b: Option<DType>): Option<DType>
  {
    if b.Some? then b else a
  }

  lemma GetUnion(x: Table, y: Table, d: Descriptor)
    ensures Get(x + y, d) == Override(Get(x, d), Get(y, d))
  {
  }

  lemma GetEntries(t: DType, eqs: set<Descriptor>, d: Descriptor)
    ensures Get(Entries(t, eqs), d) == if d in eqs then Some(t) else None
  {
  }

  // Reference definitions of each section, read off the equivalents sets.

  function BooleanSection(d: Descriptor): Option<DType>
  {
    if d in BOOLEquivalents then Some(PdBool)
    else if d in BoolEquivalents then Some(NpBool)
    else None
  }

  /** The numpy data type of kind `k` that `d` names, if its width is registered. */
  function NumpySection(k: NumKind, float128: bool, d: Descriptor): Option<DType>
  {
    var w := EquivalentWidth(k, d);
    if IsNumberEquivalent(k, w, d) && w in NumpyWidths(k, float128) then Some(NpNumber(k, w)) else None
  }

  /** The widths of the nullable pandas types registered for each kind. */
  function PandasWidths(k: NumKind): seq<nat>
  {
    match k
    case Int => [64, 32, 16, 8]
    case UInt => [64, 32, 16, 8]
    case Float => [64, 32]
    case Complex => []
  }

  /** The nullable pandas data type of kind `k` that `d` names, if registered. */
  function PandasNumberSection(k: NumKind, d: Descriptor): Option<DType>
  {
    if d.ExtClass? && d.k.NumericKind? && d.k.kind == k && d.k.width in PandasWidths(k) then Some(PdNumber(k, d.k.width))
    else if d.ExtInstance? && d.e.NumericDtype? && d.e.kind == k && d.e.width in PandasWidths(k) then Some(PdNumber(k, d.e.width))
    else None
  }

  function LaterSection(d: Descriptor): Option<DType>
  {
    if d in TimedeltaEquivalents then Some(Timedelta)
    else if d in DateEquivalents then Some(Date)
    else if d in DateTimeEquivalents then Some(DateTime)
    else if d in ObjectEquivalents then Some(Object)
    else if d in NpStringEquivalents then Some(NpString)
    else if d in STRINGEquivalents then Some(PdString("python"))
    else if d in CategoryEquivalents then Some(Category(None, false))
    else if d in DecimalEquivalents then Some(Decimal(DefaultPythonPrec, 0))
    else None
  }

  /** Reference definition of the standard registry: the last section that
      registers `d` decides. */
  function StandardDtype(float128: bool, d: Descriptor): Option<DType>
  {
    var numbers := BooleanSection(d);
    var numbers := Override(Override(numbers, NumpySection(Int, float128, d)), PandasNumberSection(Int, d));
    var numbers := Override(Override(numbers, NumpySection(UInt, float128, d)), PandasNumberSection(UInt, d));
    var numbers := Override(Override(numbers, NumpySection(Float, float128, d)), PandasNumberSection(Float, d));
    var numbers := Override(numbers, NumpySection(Complex, float128, d));
    Override(numbers, LaterSection(d))
  }

  lemma RegisterBooleansAt(x: Table, d: Descriptor)
    ensures Get(RegisterBooleans(x), d) == Override(Get(x, d), BooleanSection(d))
  {
    GetUnion(x, Entries(NpBool, BoolEquivalents), d);
    GetUnion(x + Entries(NpBool, BoolEquivalents), Entries(PdBool, BOOLEquivalents), d);
    GetEntries(NpBool, BoolEquivalents, d);
    GetEntries(PdBool, BOOLEquivalents, d);
  }

  lemma NumberTableGet(k: NumKind, float128: bool, d: Descriptor)
    ensures Get(NumberTable(k, NumpyWidths(k, float128)), d) == NumpySection(k, float128, d)
  {
    var ws := NumpyWidths(k, float128);
    NumberTableAt(k, ws, d);
    if d in NumberTable(k, ws) {
      var w :| w in ws && IsNumberEquivalent(k, w, d);
      EquivalentWidthIsWidth(k, w, d);
    }
  }

  lemma GetPandasEntries(k: NumKind, w: nat, d: Descriptor)
    ensures Get(Entries(PdNumber(k, w), ExtEquivalents(k, w)), d)
      == if (d.ExtClass? && d.k == NumericKind(k, w)) || (d.ExtInstance? && d.e == NumericDtype(k, w)) then Some(PdNumber(k, w)) else None
  {
  }

  lemma RegisterPandasNumbersAt(x: Table, k: NumKind, d: Descriptor)
    ensures Get(RegisterPandasNumbers(x, k), d) == Override(Get(x, d), PandasNumberSection(k, d))
  {
    if k != Complex {
      var t64 := x + Entries(PdNumber(k, 64), ExtEquivalents(k, 64));
      GetUnion(x, Entries(PdNumber(k, 64), ExtEquivalents(k, 64)), d);
      GetUnion(t64, Entries(PdNumber(k, 32), ExtEquivalents(k, 32)), d);
      GetPandasEntries(k, 64, d);
      GetPandasEntries(k, 32, d);
      if k != Float {
        var t32 := t64 + Entries(PdNumber(k, 32), ExtEquivalents(k, 32));
        var t16 := t32 + Entries(PdNumber(k, 16), ExtEquivalents(k, 16));
        GetUnion(t32, Entries(PdNumber(k, 16), ExtEquivalents(k, 16)), d);
        GetUnion(t16, Entries(PdNumber(k, 8), ExtEquivalents(k, 8)), d);
        GetPandasEntries(k, 16, d);
        GetPandasEntries(k, 8, d);
      }
    }
  }

  lemma RegisterNumbersAt(x: Table, k: NumKind, float128: bool, d: Descriptor)
    ensures Get(RegisterNumbers(x, k, float128), d)
      == Override(Override(Get(x, d), NumpySection(k, float128, d)), PandasNumberSection(k, d))
  {
    GetUnion(x, NumberTable(k, NumpyWidths(k, float128)), d);
    NumberTableGet(k, float128, d);
    RegisterPandasNumbersAt(x + NumberTable(k, NumpyWidths(k, float128)), k, d);
  }

  lemma RegisterLaterAt(x: Table, d: Descriptor)
    ensures Get(RegisterLater(x), d) == Override(Get(x, d), LaterSection(d))
  {
    var t0 := x + Entries(Decimal(DefaultPythonPrec, 0), DecimalEquivalents);
    var t1 := t0 + Entries(Category(None, false), CategoryEquivalents);
    var t2 := t1 + Entries(PdString("python"), STRINGEquivalents);
    var t3 := t2 + Entries(NpString, NpStringEquivalents);
    var t4 := t3 + Entries(Object, ObjectEquivalents);
    var t5 := t4 + Entries(DateTime, DateTimeEquivalents);
    var t6 := t5 + Entries(Date, DateEquivalents);
    GetUnion(x, Entries(Decimal(DefaultPythonPrec, 0), DecimalEquivalents), d);
    GetUnion(t0, Entries(Category(None, false), CategoryEquivalents), d);
    GetUnion(t1, Entries(PdString("python"), STRINGEquivalents), d);
    GetUnion(t2, Entries(NpString, NpStringEquivalents), d);
    GetUnion(t3, Entries(Object, ObjectEquivalents), d);
    GetUnion(t4, Entries(DateTime, DateTimeEquivalents), d);
    GetUnion(t5, Entries(Date, DateEquivalents), d);
    GetUnion(t6, Entries(Timedelta, TimedeltaEquivalents), d);
    GetEntries(Decimal(DefaultPythonPrec, 0), DecimalEquivalents, d);
    GetEntries(Category(None, false), CategoryEquivalents, d);
    GetEntries(PdString("python"), STRINGEquivalents, d);
    GetEntries(NpString, NpStringEquivalents, d);
    GetEntries(Object, ObjectEquivalents, d);
    GetEntries(DateTime, DateTimeEquivalents, d);
    GetEntries(Date, DateEquivalents, d);
    GetEntries(Timedelta, TimedeltaEquivalents, d);
  }

  /** The registry the module-level registrations build agrees, descriptor by
      descriptor, with the reference definition read off the equivalents sets. */
  lemma StandardTableAt(float128: bool, d: Descriptor)
    ensures Get(StandardTable(float128), d) == StandardDtype(float128, d)
  {
    var empty: Table := map[];
    var b := RegisterBooleans(empty);
    var i := RegisterNumbers(b, Int, float128);
    var u := RegisterNumbers(i, UInt, float128);
    var f := RegisterNumbers(u, Float, float128);
    var c := RegisterNumbers(f, Complex, float128);
    RegisterBooleansAt(empty, d);
    RegisterNumbersAt(b, Int, float128, d);
    RegisterNumbersAt(i, UInt, float128, d);
    RegisterNumbersAt(u, Float, float128, d);
    RegisterNumbersAt(f, Complex, float128, d);
    RegisterLaterAt(c, d);
  }

  /** Whatever the platform, the builtin name of a kind names its default
      width: "int", "uint" and "float" are 64-bit and "complex" is 128-bit. */
  lemma StandardBuiltinAlias(float128: bool, k: NumKind)
    ensures StandardDtype(float128, Alias(BuiltinName(k))) == Some(NpNumber(k, DefaultWidth(k)))
  {
  }

  /** The unsized pandera class of a kind (`dtypes.Int`) names its default width. */
  lemma StandardUnsizedClass(float128: bool, k: NumKind)
    ensures StandardDtype(float128, PanderaClass(PNum(k, None))) == Some(NpNumber(k, DefaultWidth(k)))
  {
    var d := PanderaClass(PNum(k, None));
    assert LaterSection(d) == None;
    assert BooleanSection(d) == None;
  }

  /** Every numpy width of a kind is registered under its numpy scalar type. */
  lemma StandardSizedType(float128: bool, k: NumKind, w: nat)
    requires w in NumpyWidths(k, float128)
    ensures StandardDtype(float128, NpType(NpNum(k, w))) == Some(NpNumber(k, w))
  {
  }

  /** The `infer_dtype` name "integer" resolves to the 64-bit integer type. */
  lemma StandardIntegerAlias(float128: bool)
    ensures StandardDtype(float128, Alias("integer")) == Some(NpNumber(Int, 64))
  {
  }

  /** The `infer_dtype` name "floating" resolves to the 64-bit float type. */
  lemma StandardFloatingAlias(float128: bool)
    ensures StandardDtype(float128, Alias("floating")) == Some(NpNumber(Float, 64))
  {
  }

  /** Sized names such as "int64" are not registered: `Engine.dtype` reaches
      them through numpy. */
  lemma StandardSizedAliasUnregistered(float128: bool)
    ensures StandardDtype(float128, Alias("int64")) == None
  {
  }

  /** The 128-bit float type is registered exactly when numpy has `float128`. */
  lemma StandardExtendedPrecision(float128: bool)
    ensures StandardDtype(float128, NpType(NpNum(Float, 128))) == (if float128 then Some(NpNumber(Float, 128)) else None)
  {
  }

  /** "bool" is numpy's boolean. */
  lemma StandardBoolAlias(float128: bool)
    ensures StandardDtype(float128, Alias("bool")) == Some(NpBool)
  {
  }

  /** "boolean" is the nullable pandas boolean. */
  lemma StandardBooleanAlias(float128: bool)
    ensures StandardDtype(float128, Alias("boolean")) == Some(PdBool)
  {
  }

  /** The nullable pandas number instances name the pandas data types. */
  lemma StandardPandasNumbers(float128: bool, k: NumKind, w: nat)
    requires w in PandasWidths(k)
    ensures StandardDtype(float128, ExtInstance(NumericDtype(k, w))) == Some(PdNumber(k, w))
  {
  }

  /** "string" is the pandas string dtype with python storage. */
  lemma StandardStringAlias(float128: bool)
    ensures StandardDtype(float128, Alias("string")) == Some(PdString("python"))
  {
  }

  /** "str" is numpy's string type. */
  lemma StandardStrAlias(float128: bool)
    ensures StandardDtype(float128, Alias("str")) == Some(NpString)
  {
  }

  /** "category" is the categorical type without categories. */
  lemma StandardCategoryAlias(float128: bool)
    ensures StandardDtype(float128, Alias("category")) == Some(Category(None, false))
  {
  }

  /** "decimal" is the decimal type of the default context's precision. */
  lemma StandardDecimalAlias(float128: bool)
    ensures StandardDtype(float128, Alias("decimal")) == Some(Decimal(DefaultPythonPrec, 0))
  {
  }

  /** "date" and "datetime" are distinct types. */
  lemma StandardTimeAliases(float128: bool)
    ensures StandardDtype(float128, Alias("date")) == Some(Date)
    ensures StandardDtype(float128, Alias("datetime")) == Some(DateTime)
  {
  }

  /** The names Object's registration lists twice ("bytes", and `np.bytes_`
      under its other name `np.string_`) are registered once, for Object. */
  lemma StandardObjectAliases(float128: bool)
    ensures StandardDtype(float128, Alias("bytes")) == Some(Object)
    ensures StandardDtype(float128, NpType(NpBytesS)) == Some(Object)
  {
  }

  // ---------------------------------------------------------------------------
  // Engine.dtype
  // ---------------------------------------------------------------------------

  /** `from_parametrized_dtype` of the engine types registered for a
      parametrized pandas dtype: `Category` and `STRING`. */
  function FromParametrized(e: Ext): (r: Option<DType>)
    ensures r.Some? ==> NativeType(r.value) == ExtNative(e)
    ensures r.Some? <==> (e.CategoricalDtype? || e.StringDtype?)
  {
    match e
    case CategoricalDtype(c, o) => Some(Category(c, o))
    case StringDtype(s) => Some(PdString(s))
    case _ => None
  }

  /** The data types a parametrized dtype boxes are recovered from it. */
  lemma FromParametrizedNative(t: DType)
    requires t.Category? || t.PdString?
    ensures NativeType(t).ExtNative? && FromParametrized(NativeType(t).e) == Some(t)
  {
  }

  /** The dtype instance `from_parametrized_dtype` is handed when a descriptor
      is a parametrized instance: a pandas dtype instance, or a pandera
      `dtypes.Category` instance, whose categories and order `Category` reads
      the same way (`dtypes.Category()` has none and is unordered). */
  function ParametrizedOf(d: Descriptor): (r: Option<Ext>)
    ensures d.ExtInstance? ==> r == Some(d.e)
    ensures d.PanderaCategory? ==> r == Some(CategoricalDtype(d.categories, d.ordered))
    ensures r.Some? <==> d.ExtInstance? || d.PanderaCategory? || d == PanderaInstance(PCategory)
  {
    match d
    case ExtInstance(e) => Some(e)
    case PanderaCategory(c, o) => Some(CategoricalDtype(c, o))
    case PanderaInstance(PCategory) => Some(CategoricalDtype(None, false))
    case _ => None
  }

  /** The base engine's lookup: an engine data type is returned as is, a
      registered descriptor by the registry, and an unregistered instance of a
      parametrized dtype through `from_parametrized_dtype`; anything else is a
      TypeError. */
  function BaseLookup(table: Table, d: Descriptor): (r: Result<DType, Error>)
    ensures r.Err? ==> r.error == TypeError
    ensures !d.EngineInstance? && d in table ==> r == Ok(table[d])
    ensures r.Ok? ==>
      (d.EngineInstance? && r.value == d.t) || (d in table && table[d] == r.value)
      || (ParametrizedOf(d).Some? && FromParametrized(ParametrizedOf(d).value) == Some(r.value))
  {
    if d.EngineInstance? then Ok(d.t)
    else if d in table then Ok(table[d])
    else if ParametrizedOf(d).Some? && FromParametrized(ParametrizedOf(d).value).Some? then
      Ok(FromParametrized(ParametrizedOf(d).value).value)
    else Err(TypeError)
  }

  /** `Engine.dtype`: the base lookup, then for an extension dtype class its
      instance, and for anything else what `pandas_dtype` makes of it; numpy
      dtypes are looked up by their platform-independent scalar type. */
  function Resolve(table: Table, d: Descriptor, host: Host): (r: Result<DType, Error>)
    ensures r.Err? ==> r.error == TypeError
    ensures BaseLookup(table, d).Ok? ==> r == BaseLookup(table, d)
    ensures r.Ok? ==>
      (d.EngineInstance? && r.value == d.t) || r.value in table.Values
      || (exists e :: FromParametrized(e) == Some(r.value))
  {
    var base := BaseLookup(table, d);
    if base.Ok? then base
    else if d.ExtClass? then
      match host.instantiate(d.k)
      case None => Err(TypeError)
      case Some(e) => BaseLookup(table, ExtInstance(e))
    else
      match host.pandasDtype(d)
      case None => Err(TypeError)
      case Some(NumpyDtypeOf(n)) => BaseLookup(table, NpType(n))
      case Some(ExtDtypeOf(e)) => BaseLookup(table, ExtInstance(e))
  }

  /** Resolving is idempotent: a resolved data type resolves to itself. */
  lemma ResolveIdempotent(table: Table, d: Descriptor, host: Host)
    requires Resolve(table, d, host).Ok?
    ensures Resolve(table, EngineInstance(Resolve(table, d, host).value), host) == Resolve(table, d, host)
  {
  }

  /** Every descriptor the module-level registrations name resolves to the
      data type it was registered for, whatever numpy or pandas would make of it. */
  lemma ResolveStandard(float128: bool, d: Descriptor, host: Host)
    requires !d.EngineInstance? && StandardDtype(float128, d).Some?
    ensures Resolve(StandardTable(float128), d, host) == Ok(StandardDtype(float128, d).value)
  {
    StandardTableAt(float128, d);
  }

  /** An unregistered descriptor that pandas reads as a numpy dtype resolves
      to what that dtype's scalar type is registered for. */
  lemma ResolveNumpyFallback(table: Table, d: Descriptor, host: Host, n: NpScalar)
    requires d.Alias? || d.PyType? || d.NpDtype?
    requires d !in table && NpType(n) in table
    requires host.pandasDtype(d) == Some(NumpyDtypeOf(n))
    ensures Resolve(table, d, host) == Ok(table[NpType(n)])
  {
  }

  lemma StandardInt64Lookups(float128: bool)
    ensures Get(StandardTable(float128), Alias("int64")) == None
    ensures Get(StandardTable(float128), NpType(NpNum(Int, 64))) == Some(NpNumber(Int, 64))
  {
    StandardTableAt(float128, Alias("int64"));
    StandardSizedAliasUnregistered(float128);
    StandardTableAt(float128, NpType(NpNum(Int, 64)));
    StandardSizedType(float128, Int, 64);
  }

  /** A sized name such as "int64" is not registered; pandas turns it into a
      numpy dtype whose scalar type is registered. */
  lemma ResolveSizedAlias(float128: bool, host: Host)
    requires host.pandasDtype(Alias("int64")) == Some(NumpyDtypeOf(NpNum(Int, 64)))
    ensures Resolve(StandardTable(float128), Alias("int64"), host) == Ok(NpNumber(Int, 64))
  {
    StandardInt64Lookups(float128);
    ResolveNumpyFallback(StandardTable(float128), Alias("int64"), host, NpNum(Int, 64));
  }

  /** Every numpy width of a kind is registered under its sized pandera
      instance (`dtypes.Int64()`). */
  lemma StandardSizedInstance(float128: bool, k: NumKind, w: nat)
    requires w in NumpyWidths(k, float128)
    ensures StandardDtype(float128, PanderaInstance(PNum(k, Some(w)))) == Some(NpNumber(k, w))
  {
  }

  /** The sized name "int64", the numpy type `np.int64` and the pandera
      instance `dtypes.Int64()` all resolve to the same data type. */
  lemma ResolveInt64Spellings(float128: bool, host: Host)
    requires host.pandasDtype(Alias("int64")) == Some(NumpyDtypeOf(NpNum(Int, 64)))
    ensures Resolve(StandardTable(float128), Alias("int64"), host) == Ok(NpNumber(Int, 64))
    ensures Resolve(StandardTable(float128), NpType(NpNum(Int, 64)), host) == Ok(NpNumber(Int, 64))
    ensures Resolve(StandardTable(float128), PanderaInstance(PNum(Int, Some(64))), host) == Ok(NpNumber(Int, 64))
  {
    ResolveSizedAlias(float128, host);
    StandardSizedType(float128, Int, 64);
    ResolveStandard(float128, NpType(NpNum(Int, 64)), host);
    StandardSizedInstance(float128, Int, 64);
    ResolveStandard(float128, PanderaInstance(PNum(Int, Some(64))), host);
  }

  /** An unregistered extension dtype class is instantiated and its instance
      looked up; a class that cannot be instantiated is a TypeError. */
  lemma ResolveExtClass(table: Table, k: ExtKind, host: Host)
    requires ExtClass(k) !in table
    ensures host.instantiate(k).None? ==> Resolve(table, ExtClass(k), host) == Err(TypeError)
    ensures host.instantiate(k).Some? ==>
      Resolve(table, ExtClass(k), host) == BaseLookup(table, ExtInstance(host.instantiate(k).value))
  {
  }

  /** The builtin numeric types other than `uint` (which does not exist) name
      their kind's default width. */
  lemma StandardBuiltinType(float128: bool, k: NumKind)
    requires k != UInt
    ensures StandardDtype(float128, PyType(PyNum(k))) == Some(NpNumber(k, DefaultWidth(k)))
  {
  }

  /** A column declared with the builtin `int` has the data type that
      "int64" resolves to. */
  lemma ResolveBuiltinInt(float128: bool, host: Host)
    requires host.pandasDtype(Alias("int64")) == Some(NumpyDtypeOf(NpNum(Int, 64)))
    ensures Resolve(StandardTable(float128), PyType(PyNum(Int)), host) == Resolve(StandardTable(float128), Alias("int64"), host)
  {
    StandardBuiltinType(float128, Int);
    ResolveStandard(float128, PyType(PyNum(Int)), host);
    ResolveSizedAlias(float128, host);
  }

  /** Instances of parametrized dtypes are not registered themselves. */
  lemma StandardParametrizedUnregistered(float128: bool, e: Ext)
    requires e.CategoricalDtype? || e.StringDtype?
    ensures StandardDtype(float128, ExtInstance(e)) == None
  {
  }

  /** An instance of a categorical dtype carries its categories into the data
      type, which boxes that very dtype again. */
  lemma ResolveCategorical(float128: bool, cats: Option<seq<Value>>, ordered: bool, host: Host)
    ensures Resolve(StandardTable(float128), ExtInstance(CategoricalDtype(cats, ordered)), host) == Ok(Category(cats, ordered))
  {
    StandardTableAt(float128, ExtInstance(CategoricalDtype(cats, ordered)));
    StandardParametrizedUnregistered(float128, CategoricalDtype(cats, ordered));
  }

  /** Instances of the pandera category class are not registered themselves
      (only the class is). */
  lemma StandardPanderaCategoryUnregistered(float128: bool, d: Descriptor)
    requires d.PanderaCategory? || d == PanderaInstance(PCategory)
    ensures StandardDtype(float128, d) == None
  {
  }

  /** A pandera `dtypes.Category` instance goes through
      `from_parametrized_dtype` like a pandas categorical dtype with the same
      categories, and keeps them. */
  lemma ResolvePanderaCategory(float128: bool, cats: Option<seq<Value>>, ordered: bool, host: Host)
    ensures Resolve(StandardTable(float128), PanderaCategory(cats, ordered), host) == Ok(Category(cats, ordered))
  {
    var d := PanderaCategory(cats, ordered);
    StandardTableAt(float128, d);
    StandardPanderaCategoryUnregistered(float128, d);
    assert BaseLookup(StandardTable(float128), d) == Ok(Category(cats, ordered));
  }

  /** `dtypes.Category()` without arguments resolves to the categorical type
      without categories, which is what the class `dtypes.Category` names. */
  lemma ResolvePanderaCategoryDefault(float128: bool, host: Host)
    ensures Resolve(StandardTable(float128), PanderaInstance(PCategory), host) == Ok(Category(None, false))
  {
    StandardTableAt(float128, PanderaInstance(PCategory));
    StandardPanderaCategoryUnregistered(float128, PanderaInstance(PCategory));
  }

  // ---------------------------------------------------------------------------
  // Engine.numpy_dtype
  // ---------------------------------------------------------------------------

  /** The alias `numpy_dtype` hands to `np.dtype`: the lower-cased string form,
      with "boolean" read as "bool" and any "string..." as "str". */
  function NumpyAlias(t: DType): string
  {
    var alias := Lower(TypeString(t));
    if alias == "boolean" then "bool"
    else if |alias| >= 6 && alias[..6] == "string" then "str"
    else alias
  }

  /** `Engine.numpy_dtype`: resolved by the base lookup only (no pandas
      fallback), then converted by alias. */
  function NumpyDtype(table: Table, d: Descriptor, host: Host): (r: Result<NpScalar, Error>)
    ensures r.Err? ==> r.error == TypeError
    ensures r.Ok? <==> BaseLookup(table, d).Ok? && host.npDtype(NumpyAlias(BaseLookup(table, d).value)).Some?
    ensures r.Ok? ==> r.value == host.npDtype(NumpyAlias(BaseLookup(table, d).value)).value
  {
    var t :- BaseLookup(table, d);
    match host.npDtype(NumpyAlias(t))
    case None => Err(TypeError)
    case Some(n) => Ok(n)
  }

  lemma LowerConcat(a: string, b: string)
    ensures Lower(a + b) == Lower(a) + Lower(b)
  {
    var l := Lower(a + b);
    var r := Lower(a) + Lower(b);
    assert |l| == |r|;
    forall i | 0 <= i < |l|
      ensures l[i] == r[i]
    {
      if i < |a| {
        assert (a + b)[i] == a[i];
      } else {
        assert (a + b)[i] == b[i - |a|];
      }
    }
  }

  lemma LowerDigits(s: string)
    requires forall i :: 0 <= i < |s| ==> '0' <= s[i] <= '9'
    ensures Lower(s) == s
  {
  }

  lemma LowerNames(k: NumKind)
    ensures Lower(PanderaName(k)) == BuiltinName(k)
    ensures Lower(BuiltinName(k)) == BuiltinName(k)
  {
  }

  /** A nullable pandas number maps to the numpy dtype of the same kind and
      width ("Int64" to "int64"). */
  lemma NumpyAliasNullableNumber(k: NumKind, w: nat)
    ensures NumpyAlias(PdNumber(k, w)) == NumpyAlias(NpNumber(k, w)) == BuiltinName(k) + NatToString(w)
  {
    LowerConcat(PanderaName(k), NatToString(w));
    LowerConcat(BuiltinName(k), NatToString(w));
    LowerDigits(NatToString(w));
    LowerNames(k);
    var alias := BuiltinName(k) + NatToString(w);
    assert alias[0] != 's' && alias[0] != 'b' by {
      assert alias[0] == BuiltinName(k)[0];
    }
  }

  /** The nullable boolean maps to numpy's bool. */
  lemma NumpyAliasNullableBool()
    ensures NumpyAlias(PdBool) == NumpyAlias(NpBool) == "bool"
  {
    assert Lower("boolean") == "boolean";
    assert Lower("bool") == "bool";
  }

  /** Every pandas string dtype maps to numpy's str. */
  lemma NumpyAliasNullableString(storage: string)
    ensures NumpyAlias(PdString(storage)) == NumpyAlias(NpString) == "str"
  {
    LowerConcat("string[", storage + "]");
    assert TypeString(PdString(storage)) == "string[" + (storage + "]");
    assert Lower("string[") == "string[";
    assert Lower("str") == "str";
  }

  /** `numpy_dtype` gives a nullable pandas type and its numpy counterpart the
      same numpy dtype. */
  lemma NumpyDtypeNullablePairs(table: Table, k: NumKind, w: nat, storage: string, host: Host)
    ensures NumpyDtype(table, EngineInstance(PdNumber(k, w)), host) == NumpyDtype(table, EngineInstance(NpNumber(k, w)), host)
    ensures NumpyDtype(table, EngineInstance(PdBool), host) == NumpyDtype(table, EngineInstance(NpBool), host)
    ensures NumpyDtype(table, EngineInstance(PdString(storage)), host) == NumpyDtype(table, EngineInstance(NpString), host)
  {
    NumpyAliasNullableNumber(k, w);
    NumpyAliasNullableBool();
    NumpyAliasNullableString(storage);
  }

  class Engine {
    /** The registry's equivalents, filled once at import time. */
    var equivalents: Table

    constructor ()
      ensures equivalents == map[]
    {
      equivalents := map[];
    }

    /** `Engine.register_dtype(data_type, equivalents=...)`: a later registration
        of a descriptor replaces an earlier one. */
    method RegisterDtype(t: DType, eqs: set<Descriptor>)
      modifies this
      ensures equivalents == old(equivalents) + Entries(t, eqs)
    {
      equivalents := equivalents + map d | d in eqs :: t;
    }

    /** The loop body of `_register_numpy_numbers`: the `equivalents` set for one
        bit width, grown with `|=` and `.add` when it is the default width. */
    static method NumberEquivalents(k: NumKind, w: nat) returns (eqs: set<Descriptor>)
      ensures eqs == WidthEquivalents(k, w)
    {
      eqs := {NpType(NpNum(k, w)), PanderaClass(PNum(k, Some(w))), PanderaInstance(PNum(k, Some(w)))};
      if w == DefaultWidth(k) {
        eqs := eqs + {NpDtype(NpNum(k, w)), Alias(BuiltinName(k)), PanderaClass(PNum(k, None)), PanderaInstance(PNum(k, None))};
        if HasBuiltin(k) {
          eqs := eqs + {PyType(PyNum(k))};
        }
        if k == Float {
          eqs := eqs + {Alias("floating")};
          eqs := eqs + {Alias("mixed-integer-float")};
        } else if k == Int {
          eqs := eqs + {Alias("integer")};
        }
      }
    }

    /** `_register_numpy_numbers(builtin_name, pandera_name, sizes)`. */
    method RegisterNumpyNumbers(k: NumKind, sizes: seq<nat>)
      modifies this
      ensures equivalents == old(equivalents) + NumberTable(k, sizes)
    {
      var i := 0;
      while i < |sizes|
        invariant 0 <= i <= |sizes|
        invariant equivalents == old(equivalents) + NumberTable(k, sizes[..i])
      {
        var w := sizes[i];
        var eqs := NumberEquivalents(k, w);
        ghost var before := equivalents;
        RegisterDtype(NpNumber(k, w), eqs);
        assert sizes[..i + 1] == sizes[..i] + [w];
        NumberTableStep(k, sizes[..i], w);
        UnionAssociative(old(equivalents), NumberTable(k, sizes[..i]), Entries(NpNumber(k, w), eqs));
        i := i + 1;
      }
      assert sizes[..i] == sizes;
    }

    /** The module-level registrations of `pandas_engine`, in source order, on a
        platform where `float128` is or is not available. */
    method Initialize(float128: bool)
      modifies this
      ensures equivalents == StandardTable(float128)
    {
      equivalents := map[];
      // boolean
      RegisterDtype(NpBool, BoolEquivalents);
      RegisterDtype(PdBool, BOOLEquivalents);
      // signed integer
      RegisterNumpyNumbers(Int, NumpyWidths(Int, float128));
      RegisterDtype(PdNumber(Int, 64), ExtEquivalents(Int, 64));    // INT64
      RegisterDtype(PdNumber(Int, 32), ExtEquivalents(Int, 32));    // INT32
      RegisterDtype(PdNumber(Int, 16), ExtEquivalents(Int, 16));    // INT16
      RegisterDtype(PdNumber(Int, 8), ExtEquivalents(Int, 8));      // INT8
      // unsigned integer
      RegisterNumpyNumbers(UInt, NumpyWidths(UInt, float128));
      RegisterDtype(PdNumber(UInt, 64), ExtEquivalents(UInt, 64));  // UINT64
      RegisterDtype(PdNumber(UInt, 32), ExtEquivalents(UInt, 32));  // UINT32
      RegisterDtype(PdNumber(UInt, 16), ExtEquivalents(UInt, 16));  // UINT16
      RegisterDtype(PdNumber(UInt, 8), ExtEquivalents(UInt, 8));    // UINT8
      // float
      RegisterNumpyNumbers(Float, NumpyWidths(Float, float128));
      RegisterDtype(PdNumber(Float, 64), ExtEquivalents(Float, 64));  // FLOAT64
      RegisterDtype(PdNumber(Float, 32), ExtEquivalents(Float, 32));  // FLOAT32
      // complex
      RegisterNumpyNumbers(Complex, NumpyWidths(Complex, float128));
      // decimal
      RegisterDtype(Decimal(DefaultPythonPrec, 0), DecimalEquivalents);
      // nominal
      RegisterDtype(Category(None, false), CategoryEquivalents);
      RegisterDtype(PdString("python"), STRINGEquivalents);
      RegisterDtype(NpString, NpStringEquivalents);
      RegisterDtype(Object, ObjectEquivalents);
      // time
      RegisterDtype(DateTime, DateTimeEquivalents);
      RegisterDtype(Date, DateEquivalents);
      RegisterDtype(Timedelta, TimedeltaEquivalents);
    }
  }
}
