/** `_check_decimal`: which elements of a Series are decimals within a
    precision and a scale, measured on the decimal's string form. */
module Decimals {
  import opened Common
  import opened DTypes

  /** `str.split(".", n=1)`: the text before the first point and, when there
      is a point, the text after it. */
  function SplitPoint(text: string): (r: (string, Option<string>))
    ensures r.1.None? ==> r.0 == text && '.' !in text
    ensures r.1.Some? ==> text == r.0 + "." + r.1.value && '.' !in r.0
  {
    if text == [] then ("", None)
    else if text[0] == '.' then ("", Some(text[1..]))
    else
      var rest := SplitPoint(text[1..]);
      assert text == [text[0]] + text[1..];
      (([text[0]] + rest.0), rest.1)
  }

  /** The split happens at the first point. */
  lemma {:induction false} SplitAtFirstPoint(text: string, k: nat)
    requires k < |text| && text[k] == '.' && forall j :: 0 <= j < k ==> text[j] != '.'
    ensures SplitPoint(text) == (text[..k], Some(text[k + 1..]))
  {
    if k > 0 {
      SplitAtFirstPoint(text[1..], k - 1);
      assert [text[0]] + text[1..][..k - 1] == text[..k];
      assert text[1..][k..] == text[k + 1..];
    }
  }

  /** Without a point there is nothing to split. */
  lemma {:induction false} SplitWithoutPoint(text: string)
    requires forall j :: 0 <= j < |text| ==> text[j] != '.'
    ensures SplitPoint(text) == (text, None)
  {
    if text != [] {
      SplitWithoutPoint(text[1..]);
      assert [text[0]] + text[1..] == text;
    }
  }

  /** A null, or exactly a `decimal.Decimal`. */
  predicate IsDecimalOrNull(v: Option<Value>)
  {
    v.None? || v.value.DecimalV?
  }

  predicate AllNull(data: Container)
  {
    forall i :: 0 <= i < |data| ==> data[i].None?
  }

  /** `len_left`: the length before the point; 0 for a null. */
  function LenLeft(v: Option<Value>): nat
  {
    if v.Some? && v.value.DecimalV? then |SplitPoint(v.value.text).0| else 0
  }

  /** `len_right`: the length after the point; 0 when there is none. */
  function LenRight(v: Option<Value>): nat
  {
    if v.Some? && v.value.DecimalV? && SplitPoint(v.value.text).1.Some? then |SplitPoint(v.value.text).1.value| else 0
  }

  /** `scales`: the length after the point when something precedes it, else 0. */
  function ScaleOf(v: Option<Value>): nat
  {
    if LenLeft(v) > 0 then LenRight(v) else 0
  }

  /** The intended verdict for element `i`: everything passes when the whole
      Series is null; otherwise a decimal (or null) whose character count
      without the point is within `precision` and whose fractional part is
      within `scale`. */
  predicate ElementValid(data: Container, i: int, precision: Option<int>, scale: Option<int>)
    requires 0 <= i < |data|
  {
    AllNull(data) ||
    (IsDecimalOrNull(data[i])
     && (precision.None? || LenLeft(data[i]) + LenRight(data[i]) <= precision.value)
     && (scale.None? || ScaleOf(data[i]) <= scale.value))
  }

  /** The precision counted is the number of characters of `str(d)` other
      than the point, and the scale the number after it. */
  lemma PrecisionIsTextLength(text: string)
    ensures LenLeft(Some(DecimalV(text))) + LenRight(Some(DecimalV(text))) == |text| - (if '.' in text then 1 else 0)
    ensures '.' in text && text[0] != '.' ==>
      exists k :: 0 < k < |text| && text[k] == '.' && ScaleOf(Some(DecimalV(text))) == |text| - k - 1
    ensures '.' !in text ==> ScaleOf(Some(DecimalV(text))) == 0
  {
    var sp := SplitPoint(text);
    if sp.1.Some? {
      var k := |sp.0|;
      assert text[k] == '.';
      assert '.' in text;
      if text[0] != '.' {
        assert k > 0;
      }
    }
  }

  /** Precision 5 and scale 2 accept 123.45 and reject 123.456; a minus sign
      is counted like a digit, so -12.34 exceeds precision 4. */
  lemma CheckDecimalExample()
    ensures ElementValid([Some(DecimalV("123.45")), Some(DecimalV("123.456"))], 0, Some(5), Some(2))
    ensures !ElementValid([Some(DecimalV("123.45")), Some(DecimalV("123.456"))], 1, Some(5), Some(2))
    ensures !ElementValid([Some(DecimalV("-12.34"))], 0, Some(4), Some(2))
  {
    assert [Some(DecimalV("123.45")), Some(DecimalV("123.456"))][0].Some?;
    assert [Some(DecimalV("-12.34"))][0].Some?;
    SplitAtFirstPoint("123.45", 3);
    SplitAtFirstPoint("123.456", 3);
    SplitAtFirstPoint("-12.34", 3);
  }

  /** `is_decimal` and the two `.str.len().fillna(0)` columns of the split. */
  method SplitLengths(data: Container) returns (isDecimal: array<bool>, lenLeft: array<nat>, lenRight: array<nat>)
    ensures isDecimal.Length == lenLeft.Length == lenRight.Length == |data|
    ensures forall k :: 0 <= k < |data| ==> isDecimal[k] == IsDecimalOrNull(data[k])
    ensures forall k :: 0 <= k < |data| ==> lenLeft[k] == LenLeft(data[k]) && lenRight[k] == LenRight(data[k])
  {
    var n := |data|;
    isDecimal := new bool[n];
    lenLeft := new nat[n];
    lenRight := new nat[n];
    var i := 0;
    while i < n
      invariant 0 <= i <= n
      invariant forall k :: 0 <= k < i ==> isDecimal[k] == IsDecimalOrNull(data[k])
      invariant forall k :: 0 <= k < i ==> lenLeft[k] == LenLeft(data[k]) && lenRight[k] == LenRight(data[k])
    {
      isDecimal[i] := IsDecimalOrNull(data[i]);
      if data[i].Some? && data[i].value.DecimalV? {
        var parts := SplitPoint(data[i].value.text);
        lenLeft[i] := |parts.0|;
        lenRight[i] := if parts.1.Some? then |parts.1.value| else 0;
      } else {
        lenLeft[i] := 0;
        lenRight[i] := 0;
      }
      i := i + 1;
    }
  }

  /** `scales[pos_left] = len_right[pos_left]` then `scales[~pos_left] = 0`. */
  method MaskedScales(lenLeft: array<nat>, lenRight: array<nat>) returns (scales: array<nat>)
    requires lenLeft.Length == lenRight.Length
    ensures scales.Length == lenLeft.Length
    ensures forall k :: 0 <= k < scales.Length ==> scales[k] == if lenLeft[k] > 0 then lenRight[k] else 0
  {
    var n := lenLeft.Length;
    scales := new nat[n];
    var i := 0;
    while i < n
      invariant 0 <= i <= n
      invariant forall k :: 0 <= k < i && lenLeft[k] > 0 ==> scales[k] == lenRight[k]
    {
      if lenLeft[i] > 0 {
        scales[i] := lenRight[i];
      }
      i := i + 1;
    }
    i := 0;
    while i < n
      invariant 0 <= i <= n
      invariant forall k :: 0 <= k < n && lenLeft[k] > 0 ==> scales[k] == lenRight[k]
      invariant forall k :: 0 <= k < i ==> scales[k] == if lenLeft[k] > 0 then lenRight[k] else 0
    {
      if lenLeft[i] == 0 {
        scales[i] := 0;
      }
      i := i + 1;
    }
  }

  /** `is_valid &= measure <= limit`. */
  method Narrow(isValid: array<bool>, measure: seq<nat>, limit: int)
    requires |measure| == isValid.Length
    modifies isValid
    ensures forall k :: 0 <= k < isValid.Length ==> isValid[k] == (old(isValid[k]) && measure[k] <= limit)
  {
    var i := 0;
    while i < isValid.Length
      invariant 0 <= i <= isValid.Length
      invariant forall k :: 0 <= k < i ==> isValid[k] == (old(isValid[k]) && measure[k] <= limit)
      invariant forall k :: i <= k < isValid.Length ==> isValid[k] == old(isValid[k])
    {
      isValid[i] := isValid[i] && measure[i] <= limit;
      i := i + 1;
    }
  }

  /** `_check_decimal` with the missing fractional column read as length 0:
      it marks, position by position, the elements that are decimals within
      `precision` and `scale`. */
  method CheckDecimal(data: Container, precision: Option<int>, scale: Option<int>) returns (valid: seq<bool>)
    ensures |valid| == |data|
    ensures forall i :: 0 <= i < |data| ==> valid[i] == ElementValid(data, i, precision, scale)
  {
    var n := |data|;
    var allNull := true;
    var j := 0;
    while j < n
      invariant 0 <= j <= n
      invariant allNull <==> forall k :: 0 <= k < j ==> data[k].None?
    {
      allNull := allNull && data[j].None?;
      j := j + 1;
    }
    if allNull {
      return seq(n, _ => true);
    }

    var isDecimal, lenLeft, lenRight := SplitLengths(data);
    var precisions := seq(n, k requires 0 <= k < n reads lenLeft, lenRight => lenLeft[k] + lenRight[k]);
    var scales := MaskedScales(lenLeft, lenRight);
    var isValid := new bool[n](k requires 0 <= k < n reads isDecimal => isDecimal[k]);
    if precision.Some? {
      Narrow(isValid, precisions, precision.value);
    }
    if scale.Some? {
      Narrow(isValid, scales[..], scale.value);
    }
    valid := isValid[..];
  }

  /** Whether some decimal's string form holds a point, so that the split
      has a second column. */
  predicate SomeFractional(data: Container)
  {
    exists i :: 0 <= i < |data| && data[i].Some? && data[i].value.DecimalV? && '.' in data[i].value.text
  }

  /** `_check_decimal` as written: `splitted[1]` raises a KeyError when no
      decimal has a point, because the split then has a single column. */
  function CheckDecimalAsWritten(data: Container, precision: Option<int>, scale: Option<int>): (r: Result<seq<bool>, Error>)
    ensures r.Err? <==> !AllNull(data) && !SomeFractional(data)
    ensures r.Err? ==> r.error == KeyError
    ensures r.Ok? ==> |r.value| == |data| && forall i :: 0 <= i < |data| ==> r.value[i] == ElementValid(data, i, precision, scale)
  {
    if AllNull(data) then Ok(seq(|data|, _ => true))
    else if !SomeFractional(data) then Err(KeyError)
    else Ok(seq(|data|, i requires 0 <= i < |data| => ElementValid(data, i, precision, scale)))
  }

  /** A Series holding the single integral decimal `Decimal("1")` makes the
      code as written raise, where the intended check accepts it. */
  lemma CheckDecimalIntegralOnly()
    ensures CheckDecimalAsWritten([Some(DecimalV("1"))], Some(DefaultPythonPrec), Some(0)) == Err(KeyError)
    ensures ElementValid([Some(DecimalV("1"))], 0, Some(DefaultPythonPrec), Some(0))
  {
    assert !AllNull([Some(DecimalV("1"))]);
    SplitWithoutPoint("1");
  }
}
