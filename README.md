# pandera's pandas engine, modelled in Dafny

This project models the dtype engine of pandera's pandas backend
(`pandera/engines/pandas_engine.py`). The engine has two halves.

- **The registry.** Module-level `register_dtype` calls and
  `_register_numpy_numbers` fill a table that maps every accepted spelling
  of a data type to one engine data type. The spellings are string aliases,
  Python classes, numpy scalar types and dtypes, pandera classes and
  instances, and pandas extension dtype classes and instances.
  `Engine.dtype` resolves a descriptor against the table, falling back on
  pandas and numpy. `Engine.numpy_dtype` maps a data type back to a numpy
  dtype.
- **Coercion and checking.** `DataType.try_coerce` wraps `coerce` so that
  any failure becomes a `ParserError` carrying failure cases. `DataType.check`
  compares data types. The overrides of `BOOL`, `Category`, `Decimal`
  (with `_check_decimal`), `NpString`, `Date` and `PydanticModel` are
  modelled too.

Files:

- `common.dfy`: `Option` (a null) and `Result` (`Err` is a raised exception).
- `dtypes.dfy`: scalar values, containers (a Series seen positionally),
  the engine data types with the native dtype each one boxes, descriptors,
  Python's `str()` and `==` on the values modelled (bools, integers and
  decimals compare by number), and the exceptions.
- `registry.dfy`: the registration table, built two ways.
  - Imperatively, by the `Engine` class. `RegisterNumpyNumbers` is the loop
    of `_register_numpy_numbers`, and `Initialize` replays every module-level
    registration in source order.
  - As a reference definition read off the equivalents lists
    (`StandardDtype`), proved equal to the first (`StandardTableAt`).

  It also holds `Engine.dtype` (`Resolve`) and `Engine.numpy_dtype`
  (`NumpyDtype`).
- `decimals.dfy`: `_check_decimal`, kept imperative. Its masked writes and
  `&=` are separate methods over arrays. It is proved against a per-element
  specification, `ElementValid`.
- `coercion.dfy`: `coerce_value`, `coerce`, `try_coerce` and `check`.
- `pydantic.dfy`: `PydanticModel.coerce`. The loop applies `_coerce_row`
  to each row and collects the failure cases.

Calls into numpy, pandas, `decimal` and pydantic are parameters:
- `Host`: `pd.api.types.pandas_dtype`, `np.dtype`, and instantiating an
  extension dtype class.
- `CastHost`: one element of `astype`, `pd.to_datetime`,
  `decimal.Decimal(str)`, and `quantize`.
- The row validator of `PydanticCoerce`.

Numpy's `float128` availability (`FLOAT_128_AVAILABLE`) is the boolean
parameter `float128`. The pandas version gates take the branch for pandas
1.3 or later: `STRING` has a storage, and `FLOAT64`/`FLOAT32` are registered.

The model follows the code in these places:
- A second registration of a descriptor replaces the first. No duplicate
  registration error is raised; the `Object` list even holds `"bytes"`
  twice.
- `try_coerce` re-raises with failure cases built from the container and the
  target type. It does not retry element by element.
- A row model failure raises `ParserError`, not a validation error.
- A KeyError can escape `PydanticModel.coerce` when the model fails on a
  field the frame does not hold. It also escapes for a frame with no rows or
  no columns: pandas' `apply` then returns a copy of the frame without a
  `failure_cases` column, and reading that column (line 1038) raises.

## Model

| member | source | states |
|---|---|---|
| DTypes.PyEqSymmetric | pandera/engines/pandas_engine.py:580-586 | the `==` behind `in` is symmetric |
| DTypes.DecimalEqualsDecimal | pandera/engines/pandas_engine.py:580-586 | `Decimal("1.0") == Decimal("1")` |
| DTypes.SignedDecimalEquality | pandera/engines/pandas_engine.py:580-586 | `Decimal("-0.50") == Decimal("-.5")` |
| DTypes.DecimalEqualsInteger | pandera/engines/pandas_engine.py:580-586 | `Decimal("1") == 1`, `Decimal("1E+2") == 100` and `Decimal("1.5") != 1` |
| DTypes.DecimalEqualsBool | pandera/engines/pandas_engine.py:230-236 | `Decimal("1") == True` and `Decimal("0.00") == False` |
| DTypes.DecimalSpecialValues | pandera/engines/pandas_engine.py:580-586 | a decimal NaN equals nothing, an infinity equals itself, and a decimal never equals a string |
| Registry.NumberEquivalentUnique | pandera/engines/pandas_engine.py:258-291 | no descriptor is registered for two widths of one numeric kind, so the registry stays a function |
| Registry.NumberEquivalentKindUnique | pandera/engines/pandas_engine.py:244-291 | no descriptor is registered for two numeric kinds |
| Registry.DefaultWidthOnly | pandera/engines/pandas_engine.py:252-288 | only the default width (int64, uint64, float64, complex128) gets the builtin name, builtin type, unsized pandera class and `infer_dtype` aliases; any other width gets exactly its numpy type and its sized pandera class and instance |
| Registry.WidthEquivalents | pandera/engines/pandas_engine.py:262-288 | the equivalents set built for one width holds exactly the descriptors the reference definition lists |
| Registry.EquivalentWidthIsWidth | pandera/engines/pandas_engine.py:258-264 | the width a numeric equivalent names is the width it was registered for |
| Registry.NumberTableAt | pandera/engines/pandas_engine.py:244-291 | after `_register_numpy_numbers(k, sizes)`, a descriptor is registered iff it is an equivalent of one of the sizes, and it names that width's numpy type |
| Registry.NumberTableStep | pandera/engines/pandas_engine.py:258-291 | one loop iteration adds exactly one width's equivalents |
| Registry.Engine.RegisterDtype | pandera/engines/pandas_engine.py:214-217 | `register_dtype` adds one entry per equivalent and keeps all other entries |
| Registry.Engine.NumberEquivalents | pandera/engines/pandas_engine.py:262-288 | the set built with `set(...)`, `|=` and `.add` is the reference set of equivalents |
| Registry.Engine.RegisterNumpyNumbers | pandera/engines/pandas_engine.py:244-291 | the loop leaves the registry extended by exactly the number table of the sizes |
| Registry.Engine.Initialize | pandera/engines/pandas_engine.py:214-900 | the module-level registrations, in source order, build the standard table |
| Registry.RegisterBooleansAt | pandera/engines/pandas_engine.py:214-222 | the boolean registrations override the earlier lookup with numpy's or pandas' boolean |
| Registry.NumberTableGet | pandera/engines/pandas_engine.py:298-302 | a kind's numpy registrations agree with the numpy section of the reference definition |
| Registry.GetPandasEntries | pandera/engines/pandas_engine.py:305-306 | a nullable pandas number is registered under its class and its instance only |
| Registry.RegisterPandasNumbersAt | pandera/engines/pandas_engine.py:305-414 | INT64…INT8, UINT64…UINT8, FLOAT64 and FLOAT32 override the lookup with the nullable pandas types |
| Registry.RegisterNumbersAt | pandera/engines/pandas_engine.py:298-338 | a kind's numpy types are registered first, then its pandas types override them |
| Registry.RegisterLaterAt | pandera/engines/pandas_engine.py:469-900 | decimal, category, string, NpString, object, datetime, date and timedelta override the lookup in that order |
| Registry.StandardTableAt | pandera/engines/pandas_engine.py:214-900 | the registry agrees descriptor by descriptor with the reference definition: the last section that registers a descriptor decides |
| Registry.StandardBuiltinAlias | pandera/engines/pandas_engine.py:252-256 | "int", "uint" and "float" name the 64-bit type and "complex" the 128-bit type on every platform |
| Registry.StandardUnsizedClass | pandera/engines/pandas_engine.py:271-279 | `dtypes.Int` and the other unsized classes name the default width |
| Registry.StandardSizedType | pandera/engines/pandas_engine.py:260-264 | every registered width is reachable through its numpy scalar type |
| Registry.StandardSizedInstance | pandera/engines/pandas_engine.py:262-267 | every registered width is reachable through its sized pandera instance |
| Registry.StandardIntegerAlias | pandera/engines/pandas_engine.py:287-288 | `infer_dtype`'s "integer" names int64 |
| Registry.StandardFloatingAlias | pandera/engines/pandas_engine.py:284-286 | `infer_dtype`'s "floating" names float64 |
| Registry.StandardSizedAliasUnregistered | pandera/engines/pandas_engine.py:262-267 | sized names such as "int64" are not registered |
| Registry.StandardExtendedPrecision | pandera/engines/pandas_engine.py:392-396 | float128 is registered exactly when numpy provides it |
| Registry.StandardBoolAlias | pandera/engines/pandas_engine.py:214-217 | "bool" names numpy's boolean |
| Registry.StandardBooleanAlias | pandera/engines/pandas_engine.py:220-222 | "boolean" names the nullable pandas boolean |
| Registry.StandardPandasNumbers | pandera/engines/pandas_engine.py:305-414 | the instances of the nullable pandas numbers name the nullable types |
| Registry.StandardStringAlias | pandera/engines/pandas_engine.py:599 | "string" names the pandas string type with python storage |
| Registry.StandardStrAlias | pandera/engines/pandas_engine.py:639-641 | "str" names numpy's string type and not the pandas one |
| Registry.StandardCategoryAlias | pandera/engines/pandas_engine.py:547-554 | "category" names the categorical type without categories |
| Registry.StandardDecimalAlias | pandera/engines/pandas_engine.py:469-471 | "decimal" names the decimal of the default precision 28 and scale 0 |
| Registry.StandardTimeAliases | pandera/engines/pandas_engine.py:831-838 | "date" and "datetime" name different types |
| Registry.StandardObjectAliases | pandera/engines/pandas_engine.py:678-695 | "bytes" and `np.bytes_`/`np.string_`, each listed twice, name the object type |
| Registry.FromParametrized | pandera/engines/pandas_engine.py:589-594 | a parametrized dtype gives a data type that boxes that very dtype; only categorical and string dtypes are parametrized |
| Registry.FromParametrizedNative | pandera/engines/pandas_engine.py:612-616 | a categorical or string data type is recovered from the dtype it boxes |
| Registry.ParametrizedOf | pandera/engines/pandas_engine.py:589-594 | `from_parametrized_dtype` is handed a pandas dtype instance as is, and a pandera `dtypes.Category` instance as its categories and order |
| Registry.BaseLookup | pandera/engines/pandas_engine.py:158-160 | an engine data type is returned as is, a registered descriptor gives its entry, and an unregistered parametrized instance goes through `from_parametrized_dtype`; the only error is a TypeError |
| Registry.Resolve | pandera/engines/pandas_engine.py:155-185 | the fallback runs only when the base lookup raises; it raises only TypeError; a result is the given type, a registered type or a parametrized one |
| Registry.ResolveIdempotent | pandera/engines/pandas_engine.py:155-185 | a resolved data type resolves to itself |
| Registry.ResolveStandard | pandera/engines/pandas_engine.py:155-185 | every registered descriptor resolves to its registered type, whatever pandas would make of it |
| Registry.ResolveNumpyFallback | pandera/engines/pandas_engine.py:175-185 | an unregistered descriptor that pandas reads as a numpy dtype resolves through that dtype's scalar type |
| Registry.StandardInt64Lookups | pandera/engines/pandas_engine.py:258-267 | "int64" is absent from the table and `np.int64` is present |
| Registry.ResolveSizedAlias | pandera/engines/pandas_engine.py:175-185 | "int64" resolves to the 64-bit integer type through numpy |
| Registry.ResolveInt64Spellings | pandera/engines/pandas_engine.py:155-185 | "int64", `np.int64` and `dtypes.Int64()` all resolve to the same data type |
| Registry.StandardParametrizedUnregistered | pandera/engines/pandas_engine.py:597-599 | instances of categorical and string dtypes are not registered themselves |
| Registry.ResolveCategorical | pandera/engines/pandas_engine.py:589-594 | a categorical dtype instance resolves to a Category with its categories and ordering |
| Registry.StandardPanderaCategoryUnregistered | pandera/engines/pandas_engine.py:547-554 | only the class `dtypes.Category` is registered, not its instances |
| Registry.ResolvePanderaCategory | pandera/engines/pandas_engine.py:589-594 | `dtypes.Category(categories, ordered)` resolves to a Category with those categories and that ordering |
| Registry.ResolvePanderaCategoryDefault | pandera/engines/pandas_engine.py:589-594 | `dtypes.Category()` resolves to the categorical type without categories |
| Registry.ResolveExtClass | pandera/engines/pandas_engine.py:162-174 | an unregistered extension dtype class is instantiated and its instance looked up; one that cannot be instantiated is a TypeError |
| Registry.StandardBuiltinType | pandera/engines/pandas_engine.py:280-281 | the builtin types `int`, `float` and `complex` name their kind's default width |
| Registry.ResolveBuiltinInt | test_seriesschema.py:80-91 | a column declared with `int` has the data type of "int64" |
| Registry.NumpyDtype | pandera/engines/pandas_engine.py:187-206 | `numpy_dtype` uses only the base lookup and then `np.dtype` of the alias; it succeeds iff both do, gives that numpy dtype, and its errors are TypeErrors |
| Registry.LowerNames | pandera/engines/pandas_engine.py:195 | lower-casing a pandera name gives the builtin name |
| Registry.NumpyAliasNullableNumber | pandera/engines/pandas_engine.py:195 | a nullable pandas number maps to the numpy alias of the same kind and width |
| Registry.NumpyAliasNullableBool | pandera/engines/pandas_engine.py:196-197 | "boolean" maps to numpy's "bool" |
| Registry.NumpyAliasNullableString | pandera/engines/pandas_engine.py:198-199 | every pandas string type maps to numpy's "str" |
| Registry.NumpyDtypeNullablePairs | pandera/engines/pandas_engine.py:187-206 | a nullable type and its numpy counterpart get the same numpy dtype |
| Decimals.SplitPoint | pandera/engines/pandas_engine.py:449 | the split gives the text before the first point and the text after it, and rebuilds the original |
| Decimals.SplitAtFirstPoint | pandera/engines/pandas_engine.py:449 | the split happens at the first point |
| Decimals.SplitWithoutPoint | pandera/engines/pandas_engine.py:449 | text without a point yields one column |
| Decimals.PrecisionIsTextLength | pandera/engines/pandas_engine.py:449-452 | the precision counted is the number of characters other than the point; the scale is the number after it |
| Decimals.CheckDecimalExample | pandera/engines/pandas_engine.py:461-465 | precision 5 and scale 2 accept 123.45 and reject 123.456; a minus sign counts toward the precision |
| Decimals.SplitLengths | pandera/engines/pandas_engine.py:440-451 | `is_decimal`, `len_left` and `len_right` hold each element's reference values |
| Decimals.MaskedScales | pandera/engines/pandas_engine.py:454-459 | after the two masked writes, the scale is the fractional length where the integral part is non-empty, and 0 elsewhere |
| Decimals.Narrow | pandera/engines/pandas_engine.py:462-465 | `&=` with a bound keeps exactly the elements already valid and within it |
| Decimals.CheckDecimal | pandera/engines/pandas_engine.py:431-466 | every element is marked valid iff the whole Series is null, or it is a decimal or null within the precision and the scale |
| Decimals.CheckDecimalAsWritten | pandera/engines/pandas_engine.py:449-451 | as written, the check raises a KeyError iff some element is non-null and no decimal's string holds a point |
| Decimals.CheckDecimalIntegralOnly | pandera/engines/pandas_engine.py:449-451 | `[Decimal("1")]` raises as written, while the intended check accepts it |
| Coercion.ApplyEach | pandera/engines/pandas_engine.py:515-516 | `apply` succeeds iff every element does; it gives each element's result, or the first element's error |
| Coercion.BoolCoerceValue | pandera/engines/pandas_engine.py:230-236 | a value is accepted iff it equals True or False (so 1 and 0 and decimals equal to them too), becomes the boolean it equals, and otherwise raises TypeError |
| Coercion.BoolCoerceDecimalOne | pandera/engines/pandas_engine.py:230-236 | `Decimal("1")` becomes True |
| Coercion.BoolCoerceDecimalZero | pandera/engines/pandas_engine.py:230-236 | `Decimal("0.0")` becomes False |
| Coercion.BoolRejectsFraction | pandera/engines/pandas_engine.py:230-236 | `Decimal("0.5")` raises TypeError |
| Coercion.BoolCoerceValueIdempotent | pandera/engines/pandas_engine.py:230-236 | coercing a coerced boolean changes nothing |
| Coercion.CategoryCoerceValue | pandera/engines/pandas_engine.py:580-586 | a value is kept iff it is among the categories; without categories the membership test raises TypeError |
| Coercion.DecimalCoerceValue | pandera/engines/pandas_engine.py:504-513 | a null stays null; any other value fails iff parsing its `str()` or quantizing fails, and otherwise becomes the quantized parse of its `str()` |
| Coercion.DateCoerceValue | pandera/engines/pandas_engine.py:861-863 | the result is the date part of `to_datetime`'s timestamp, null iff that timestamp is null |
| Coercion.CategoricalCast | pandera/engines/pandas_engine.py:573 | a value equal to a category becomes that category and any other value becomes null; without categories every value is kept |
| Coercion.FirstEqual | pandera/engines/pandas_engine.py:573 | the cast finds a category equal to the value iff the value is in the categories |
| Coercion.CategoryCoerce | pandera/engines/pandas_engine.py:571-578 | the coercion succeeds iff no non-null value became null, and then each element is its categorical cast; otherwise TypeError |
| Coercion.CategoryCoerceAgreesWithValues | pandera/engines/pandas_engine.py:571-586 | with categories, the container coerces iff `coerce_value` accepts every non-null element, and each keeps an equal value |
| Coercion.CategoryWithoutCategories | pandera/engines/pandas_engine.py:571-586 | without categories, the container coerces unchanged while `coerce_value` rejects every value |
| Coercion.CategoryDecimalMembers | pandera/engines/pandas_engine.py:571-586 | `Decimal("1.0")` is kept among the categories `[Decimal("1")]`, and the integer 1 is cast to that category |
| Coercion.CategoryRejectsUnknown | pandera/engines/pandas_engine.py:575-578 | with categories a and b, "c" raises instead of becoming null |
| Coercion.NpStringCoerce | pandera/engines/pandas_engine.py:646-668 | nulls stay null and every other element becomes its `str()` |
| Coercion.NpStringCoerceIdempotent | pandera/engines/pandas_engine.py:646-668 | coercing to strings twice is coercing once |
| Coercion.Coerce | pandera/engines/pandas_engine.py:85-91 | a successful coercion keeps the container's length |
| Coercion.WrapFailure | pandera/engines/pandas_engine.py:103-118 | a success passes through, a ParserError is re-raised, and any other exception becomes a ParserError with the container and the type |
| Coercion.WrapFailureIdempotent | pandera/engines/pandas_engine.py:103-118 | wrapping a wrapped result changes nothing |
| Coercion.TryCoerce | pandera/engines/pandas_engine.py:99-120 | `try_coerce` succeeds iff `coerce` does, and raises only ParserError |
| Coercion.TryCoerceByCast | pandera/engines/pandas_engine.py:99-120 | for an `astype` type, one rejected element raises a ParserError with the container and the type; otherwise the result is the element-wise cast |
| Coercion.TryCoerceNpString | pandera/engines/pandas_engine.py:646-668 | coercing to numpy strings never fails and keeps the nulls in place |
| Coercion.TryCoerceCategory | pandera/engines/pandas_engine.py:571-578 | coercing to a categorical fails iff some non-null value is not a category, with the container and the type as failure cases |
| Coercion.DecimalCoercePreservesNulls | pandera/engines/pandas_engine.py:504-516 | decimal coercion keeps nulls null and non-nulls non-null |
| Coercion.DataTypeCheck | pandera/engines/pandas_engine.py:122-140 | true iff the other descriptor resolves and boxes the same native dtype or is the same data type |
| Coercion.DataTypeCheckReflexiveSymmetric | pandera/engines/pandas_engine.py:122-140 | a data type passes its own check, and the check is symmetric on data types |
| Coercion.ObjectFamilyIndistinct | pandera/engines/pandas_engine.py:122-140 | decimal, date and object all box numpy's object dtype, so the base check accepts each as the other |
| Coercion.NpStringCheck | pandera/engines/pandas_engine.py:670-675 | true iff the argument is an object or numpy string data type instance |
| Coercion.NpStringCheckAgainstBase | pandera/engines/pandas_engine.py:670-675 | unlike the base check, it accepts the object type and rejects a descriptor such as "str" that the base check resolves to NpString |
| Coercion.DateCheck | pandera/engines/pandas_engine.py:865-883 | without data it is the base check; with data it marks the elements that are null or exactly a date, all false if the base check fails |
| Coercion.DateCheckRejectsTimestamp | pandera/engines/pandas_engine.py:877-881 | a timestamp is rejected although it is a date subclass |
| Coercion.DateCoerceValueChecks | pandera/engines/pandas_engine.py:861-883 | whatever `Date.coerce_value` gives passes `Date.check`'s element test |
| Coercion.DecimalCheck | pandera/engines/pandas_engine.py:518-536 | without data it is the base check; with data each element is marked by the intended element test of `_check_decimal` for the type's precision and scale, all false if the base check fails |
| Coercion.DecimalCheckAsWritten | pandera/engines/pandas_engine.py:518-536 | as written, the check raises KeyError iff the base check passes and the data is neither all null nor holds a decimal with a point; otherwise it equals the corrected check |
| Coercion.DecimalCheckIntegralOnly | pandera/engines/pandas_engine.py:534-536 | `[Decimal("1")]` passes the corrected check of `Decimal(28, 0)` and makes the check as written raise KeyError |
| Coercion.DecimalCheckExample | pandera/engines/pandas_engine.py:518-536 | `Decimal(5, 2)` accepts 123.45 and rejects 123.456 |
| Coercion.DecimalCheckAllNull | pandera/engines/pandas_engine.py:437-438 | an all-null Series passes whatever the bounds |
| Coercion.DecimalCheckRejectsNonDecimals | pandera/engines/pandas_engine.py:440-442 | a non-null element that is not a decimal is rejected |
| Pydantic.FailureDict | pandera/engines/pandas_engine.py:1027-1029 | the failure dict holds exactly the failed fields with the row's values, or raises KeyError for a field the row lacks |
| Pydantic.Failures | pandera/engines/pandas_engine.py:1038-1041 | the failure cases are the rows that did not validate, with their positions in increasing order and their failure dicts |
| Pydantic.FailuresComplete | pandera/engines/pandas_engine.py:1038-1041 | every row that does not validate appears among the failure cases |
| Pydantic.PydanticCoerce | pandera/engines/pandas_engine.py:1012-1049 | KeyError iff the frame has no rows or no columns, or some failed row lacks a failed field; otherwise ParserError with all failure cases iff some failure dict is non-empty; otherwise each row is replaced by the model's fields when it validates and kept when it does not |
| Pydantic.PydanticTryCoerce | pandera/engines/pandas_engine.py:99-120 | `try_coerce` for a pydantic model raises only ParserError: the KeyError of an empty frame or a missing field becomes one over the whole frame, and otherwise it behaves as `coerce` |
| Pydantic.EmptyFrameFails | pandera/engines/pandas_engine.py:1036-1038 | a frame without rows makes `coerce` raise KeyError and `try_coerce` a ParserError over the frame |
| Pydantic.NoFailuresIffAllValid | pandera/engines/pandas_engine.py:1036-1049 | there are no failure cases iff every row validates |
| Pydantic.AnyFailureIffNamedField | pandera/engines/pandas_engine.py:1036-1049 | the coercion raises a ParserError iff some row fails on at least one field |

## Left out

- The base engine `pandera/engines/engine.py` is not part of this model. The lookup order of `BaseLookup` is this model's assumption about it. An engine data type comes first, then an exact registered descriptor. Then comes `from_parametrized_dtype`, dispatched on the types its parameter is annotated with: a pandas categorical or string dtype instance, or a pandera `dtypes.Category` instance. Any other unregistered pandera instance with parameters, such as `dtypes.Decimal(5, 2)`, is a TypeError in the model. Registering a class descriptor (`@Engine.register_dtype` without equivalents) is not modelled.
- `numpy_engine` data types and their own `coerce`/`check` are not part of this model. The numpy types appear as constructors whose coercion is the host's `astype`.
- `utils.numpy_pandas_coerce_failure_cases` and `error_formatters.reshape_failure_cases` are not part of this model. The error records the inputs handed to them (the container and target type, or the row failure dicts) rather than the formatted report.
- Error message texts are left out, and so is the choice between `self.type` and `str(self)` in `try_coerce`'s message (lines 108-111).
- Coercion: `DataType.coerce_value` (the numpy scalar constructor) is modelled only where `BOOL.coerce_value` calls it, as `np.bool_`. `astype`, `to_datetime`, `Decimal(str)` and `quantize` are opaque host functions applied element by element. Decimal arithmetic and rounding modes are not modelled, and `quantize` is always called (the `_exp` test is left out).
- `Date.coerce` (`to_datetime(...).dt.date`) is modelled element-wise through `Date.coerce_value`; data frames are not modelled.
- DateTime units and time zones, `DatetimeTZDtype`, Period, Sparse, Interval and geometry types, pyarrow string storage, modin and pyspark dispatch, the `__str__` hack and the construction warning are left out, as are the pandas version gates.
- Coercion.DataTypeCheck: the fallback taken when comparing native dtypes raises TypeError (lines 138-140) is not modelled; native dtypes are compared structurally.
- Coercion.Coerce: its own contract states only that length is kept; each dispatched coercion carries the full contract in its own member.
- Coercion.Coerce: DateTime coercion (`_BaseDateTime._coerce`, lines 733-750) calls `pd.to_datetime` and then `astype`; the model sends DateTime to the host's `astype` alone, so the parsing of `to_datetime` and its errors are folded into that host function.
- Coercion.TryCoerce: a PydanticModel target coerces a data frame, not a Container, so it is excluded here; its `try_coerce` is `Pydantic.PydanticTryCoerce`.
- Coercion.DecimalCheck: uses the corrected element test. As written, `Decimal.check` returns `_check_decimal`'s result directly and raises the KeyError of the Findings row; `Coercion.DecimalCheckAsWritten` models that.
- DTypes.PyEq: object identity is not modelled, so `x in collection` tests `==` only, and a decimal NaN is never found even as the very object in the collection. A decimal NaN is also not treated as a null, although `pd.isna` treats it as one.
- `PydanticModel` applied to a Series and the `astype(str)` of the failure cases are left out. Rows are maps from column name to value, and the union of columns across rows is not modelled.
- Coercion.AsStr: the "nan" that `astype(str)` gives a null is modelled, but `NpString.coerce` never keeps it.
- `Engine.dtype` raising for an extension dtype class that cannot be instantiated is modelled as the host's `instantiate` returning `None`.

## Findings

| source | as written | input that shows it | evidently intended | confidence | as-written member | corrected member |
|---|---|---|---|---|---|---|
| pandera/engines/pandas_engine.py:449-451 | `splitted[1]` assumes the split has a second column; without any point the split has only column 0, so the lookup raises KeyError | a Series holding only `Decimal("1")`, checked against `Decimal(28, 0)` | a decimal without a fractional part has scale 0 and passes | not executed | Decimals.CheckDecimalIntegralOnly | Decimals.CheckDecimal |
