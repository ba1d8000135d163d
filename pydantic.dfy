/** `PydanticModel.coerce`: every row of a data frame is validated by a
    pydantic record model; rows that fail are collected as failure cases and
    reported together in one ParserError. */
module Pydantic {
  import opened Common
  import opened DTypes

  /** A data frame row, from column name to its (possibly null) value. */
  type Row = map<string, Option<Value>>

  /** What constructing the model from a row gives: the model's `.dict()`, or
      a ValidationError with the first `loc` entry of each of its errors. */
  datatype Validation = Valid(fields: Row) | Invalid(locs: seq<string>)

  /** `{k: row[k] for k in locs}`: `row[k]` raises a KeyError for a field the
      row does not hold (a model field with no column in the frame). */
  function FailureDict(row: Row, locs: seq<string>): (r: Result<Row, Error>)
    ensures r.Ok? <==> forall k :: k in locs ==> k in row
    ensures r.Ok? ==> r.value.Keys == set k | k in locs
    ensures r.Ok? ==> forall k :: k in r.value ==> r.value[k] == row[k]
    ensures r.Err? ==> r.error == KeyError
  {
    if locs == [] then Ok(map[])
    else if locs[0] !in row then Err(KeyError)
    else
      var rest := FailureDict(row, locs[1..]);
      assert locs == [locs[0]] + locs[1..];
      if rest.Err? then Err(KeyError)
      else
        Ok(rest.value[locs[0] := row[locs[0]]])
  }

  /** Whether the row fails validation on a field the row does not hold, so
      that building its failure cases raises. */
  predicate MissesField(row: Row, validate: Row -> Validation)
  {
    validate(row).Invalid? && FailureDict(row, validate(row).locs).Err?
  }

  predicate SomeRowMissesField(rows: seq<Row>, validate: Row -> Validation)
  {
    exists i :: 0 <= i < |rows| && MissesField(rows[i], validate)
  }

  /** A frame with no rows or no columns. On such a frame `apply` does not
      run `_coerce_row` for its result but returns a copy of the frame, which
      has no `failure_cases` column, so reading that column raises KeyError. */
  predicate EmptyFrame(rows: seq<Row>)
  {
    forall i :: 0 <= i < |rows| ==> rows[i] == map[]
  }

  /** The failure cases of a row that does not validate on `locs`; only
      read where they exist. */
  function RowFailureCases(row: Row, locs: seq<string>): Row
  {
    match FailureDict(row, locs)
    case Ok(cases) => cases
    case Err(_) => map[]
  }

  /** The non-null entries of the `failure_cases` column, with their row
      positions, in row order. */
  function Failures(rows: seq<Row>, validate: Row -> Validation): (r: seq<(nat, Row)>)
    ensures forall j :: 0 <= j < |r| ==>
      r[j].0 < |rows| && validate(rows[r[j].0]).Invalid? && r[j].1 == RowFailureCases(rows[r[j].0], validate(rows[r[j].0]).locs)
    ensures forall j, j' :: 0 <= j < j' < |r| ==> r[j].0 < r[j'].0
  {
    if rows == [] then []
    else
      var n := |rows| - 1;
      var earlier := Failures(rows[..n], validate);
      var outcome := validate(rows[n]);
      if outcome.Invalid? then earlier + [(n, RowFailureCases(rows[n], outcome.locs))]
      else earlier
  }

  /** Every row that does not validate has its entry among the failures. */
  lemma {:induction false} FailuresComplete(rows: seq<Row>, validate: Row -> Validation, i: int)
    requires 0 <= i < |rows| && validate(rows[i]).Invalid?
    ensures exists j :: 0 <= j < |Failures(rows, validate)| && Failures(rows, validate)[j].0 == i
  {
    var n := |rows| - 1;
    var earlier := Failures(rows[..n], validate);
    if i == n {
      assert Failures(rows, validate)[|earlier|].0 == i;
    } else {
      assert rows[..n][i] == rows[i];
      FailuresComplete(rows[..n], validate, i);
      var j :| 0 <= j < |earlier| && earlier[j].0 == i;
      assert Failures(rows, validate)[j].0 == i;
    }
  }

  /** Whether some failure case names at least one field: the
      `failure_cases.any()` test, which skips the nulls of valid rows. */
  predicate AnyFailure(failures: seq<(nat, Row)>)
  {
    exists j :: 0 <= j < |failures| && failures[j].1 != map[]
  }

  /** The row `_coerce_row` keeps: the model's fields when it validates, the
      row itself otherwise. */
  function CoercedRow(row: Row, validate: Row -> Validation): Row
  {
    if validate(row).Valid? then validate(row).fields else row
  }

  /** `PydanticModel.coerce` on the rows of a data frame. */
  method PydanticCoerce(rows: seq<Row>, model: string, validate: Row -> Validation) returns (r: Result<seq<Row>, Error>)
    ensures r == Err(KeyError) <==> EmptyFrame(rows) || SomeRowMissesField(rows, validate)
    ensures !EmptyFrame(rows) && !SomeRowMissesField(rows, validate) ==>
      (r.Err? <==> AnyFailure(Failures(rows, validate)))
    ensures !EmptyFrame(rows) && !SomeRowMissesField(rows, validate) && r.Err? ==>
      r.error == ParserError(RowFailures(Failures(rows, validate), model))
    ensures r.Ok? ==> |r.value| == |rows| && forall i :: 0 <= i < |rows| ==> r.value[i] == CoercedRow(rows[i], validate)
  {
    if EmptyFrame(rows) {
      return Err(KeyError);
    }
    var coerced: seq<Row> := [];
    var failures: seq<(nat, Row)> := [];
    var i := 0;
    while i < |rows|
      invariant 0 <= i <= |rows|
      invariant !SomeRowMissesField(rows[..i], validate)
      invariant failures == Failures(rows[..i], validate)
      invariant |coerced| == i && forall k :: 0 <= k < i ==> coerced[k] == CoercedRow(rows[k], validate)
    {
      var row := rows[i];
      var outcome := validate(row);
      if outcome.Valid? {
        row := outcome.fields;
      } else {
        var cases := FailureDict(row, outcome.locs);
        if cases.Err? {
          assert MissesField(rows[i], validate);
          return Err(KeyError);
        }
        failures := failures + [(i, cases.value)];
      }
      assert rows[..i + 1][..i] == rows[..i];
      coerced := coerced + [row];
      i := i + 1;
    }
    assert rows[..i] == rows;
    if AnyFailure(failures) {
      return Err(ParserError(RowFailures(failures, model)));
    }
    return Ok(coerced);
  }

  /** `DataType.try_coerce`, which `PydanticModel` inherits: the ParserError
      of `coerce` passes through, and its KeyError (an empty frame, or a
      failing row that misses a field) becomes a ParserError over the whole
      frame, so nothing else escapes. */
  method PydanticTryCoerce(rows: seq<Row>, model: string, validate: Row -> Validation) returns (r: Result<seq<Row>, Error>)
    ensures r.Err? ==> r.error.ParserError?
    ensures EmptyFrame(rows) || SomeRowMissesField(rows, validate) ==>
      r == Err(ParserError(FrameFailures(rows, PydanticModel(model))))
    ensures !EmptyFrame(rows) && !SomeRowMissesField(rows, validate) ==>
      (r.Err? <==> AnyFailure(Failures(rows, validate)))
    ensures !EmptyFrame(rows) && !SomeRowMissesField(rows, validate) && r.Err? ==>
      r.error == ParserError(RowFailures(Failures(rows, validate), model))
    ensures r.Ok? ==> |r.value| == |rows| && forall i :: 0 <= i < |rows| ==> r.value[i] == CoercedRow(rows[i], validate)
  {
    r := PydanticCoerce(rows, model, validate);
    if r.Err? && !r.error.ParserError? {
      r := Err(ParserError(FrameFailures(rows, PydanticModel(model))));
    }
  }

  /** A frame without rows cannot be coerced: `coerce` raises KeyError and
      `try_coerce` a ParserError over the frame, whatever the model. */
  method EmptyFrameFails(model: string, validate: Row -> Validation) returns (coerced: Result<seq<Row>, Error>, tried: Result<seq<Row>, Error>)
    ensures coerced == Err(KeyError)
    ensures tried == Err(ParserError(FrameFailures([], PydanticModel(model))))
  {
    coerced := PydanticCoerce([], model, validate);
    tried := PydanticTryCoerce([], model, validate);
  }

  /** A frame yields no failure cases exactly when all its rows validate. */
  lemma {:induction false} NoFailuresIffAllValid(rows: seq<Row>, validate: Row -> Validation)
    requires !SomeRowMissesField(rows, validate)
    ensures Failures(rows, validate) == [] <==> forall i :: 0 <= i < |rows| ==> validate(rows[i]).Valid?
  {
    var f := Failures(rows, validate);
    if f != [] {
      assert validate(rows[f[0].0]).Invalid?;
    } else if exists i :: 0 <= i < |rows| && validate(rows[i]).Invalid? {
      var i :| 0 <= i < |rows| && validate(rows[i]).Invalid?;
      FailuresComplete(rows, validate, i);
    }
  }

  /** The coercion fails with a ParserError exactly when some row fails
      validation on at least one field (pydantic always names one). */
  lemma {:induction false} AnyFailureIffNamedField(rows: seq<Row>, validate: Row -> Validation)
    requires !SomeRowMissesField(rows, validate)
    ensures AnyFailure(Failures(rows, validate)) <==>
      exists i :: 0 <= i < |rows| && validate(rows[i]).Invalid? && validate(rows[i]).locs != []
  {
    var f := Failures(rows, validate);
    if exists i :: 0 <= i < |rows| && validate(rows[i]).Invalid? && validate(rows[i]).locs != [] {
      var i :| 0 <= i < |rows| && validate(rows[i]).Invalid? && validate(rows[i]).locs != [];
      FailuresComplete(rows, validate, i);
      assert !MissesField(rows[i], validate);
      var j :| 0 <= j < |f| && f[j].0 == i;
      assert validate(rows[i]).locs[0] in f[j].1;
    }
  }
}
