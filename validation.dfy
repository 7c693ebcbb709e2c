/**
 * The array and model validation helpers: numerical-kind tests, 1-D / 2-D /
 * structured classification, splitting columns by kind, invalid-index
 * detection and the model-capability check.
 */
module Validation {
  import opened Errors
  import opened Arrays
  import opened Ordering

  /** numpy kind characters of numerical data: boolean, byte, unsigned and signed integer, float, complex. */
  const NumericalKinds: set<char> := {'?', 'b', 'u', 'i', 'f', 'c'}

  /** A classification together with whether it emitted a warning. */
  datatype Verdict = Verdict(holds: bool, warned: bool)

  /** `is_numerical_dtype`: a structured dtype (even one without fields) is refused. */
  function IsNumericalDtype(d: DType): (r: Result<bool>)
    ensures r.Err? <==> d.Structured?
    ensures r.Err? ==> r.error == ValueError
    ensures r.Ok? ==> (r.value <==> d.kind in NumericalKinds)
  {
    if d.Structured? then Err(ValueError) else Ok(d.kind in NumericalKinds)
  }

  /** `is_structured_array`: the dtype has at least one field. */
  function IsStructuredArray(a: NdArray): (r: bool)
    ensures r <==> a.dtype.Structured? && |a.dtype.fields| > 0
  {
    FieldCount(a.dtype) != 0
  }

  /** `is_numerical_array`: every field numerical for a structured array, else the dtype's own kind. */
  method IsNumericalArray(a: NdArray) returns (r: Result<bool>)
    ensures IsStructuredArray(a) ==>
      r == Ok(forall k :: 0 <= k < |a.dtype.fields| ==> a.dtype.fields[k].kind in NumericalKinds)
    ensures !IsStructuredArray(a) ==> r == IsNumericalDtype(a.dtype)
  {
    if IsStructuredArray(a) {
      var fields := a.dtype.fields;
      var isNumerical := true;
      var i := 0;
      while i < |fields|
        invariant 0 <= i <= |fields|
        invariant forall k :: 0 <= k < i ==> fields[k].kind in NumericalKinds
      {
        var fieldIsNumerical := IsNumericalDtype(Plain(fields[i].kind));
        if !fieldIsNumerical.value {
          isNumerical := false;
          break;
        }
        i := i + 1;
      }
      r := Ok(isNumerical);
    } else {
      r := IsNumericalDtype(a.dtype);
    }
  }

  /** `is_1d_array`: structured arrays never count; a one-field 1-D structured array warns. */
  function Is1dArray(a: NdArray): (r: Verdict)
    ensures IsStructuredArray(a) ==> !r.holds
    ensures !IsStructuredArray(a) ==> (r.holds <==> |a.shape| == 1)
    ensures r.warned <==> IsStructuredArray(a) && FieldCount(a.dtype) == 1 && |a.shape| == 1
  {
    if IsStructuredArray(a) then
      Verdict(false, FieldCount(a.dtype) == 1 && |a.shape| == 1)
    else
      Verdict(|a.shape| == 1, false)
  }

  /**
   * `is_2d_array`: a plain array with a 2-element shape, or a 1-D structured array
   * with more than one field; a 2-D one-field structured array is refused with a warning.
   */
  function Is2dArray(a: NdArray): (r: Verdict)
    ensures !IsStructuredArray(a) ==> (r.holds <==> |a.shape| == 2) && !r.warned
    ensures IsStructuredArray(a) ==> (r.holds <==> |a.shape| == 1 && FieldCount(a.dtype) > 1)
    ensures r.warned <==> IsStructuredArray(a) && |a.shape| == 2 && FieldCount(a.dtype) == 1
  {
    if IsStructuredArray(a) then
      if |a.shape| == 2 && FieldCount(a.dtype) == 1 then Verdict(false, true)
      else if |a.shape| == 1 && FieldCount(a.dtype) > 1 then Verdict(true, false)
      else Verdict(false, false)
    else
      Verdict(|a.shape| == 2, false)
  }

  /** No array is both 1-D and 2-D, and a warning always comes with a refusal. */
  lemma DimensionsExclusive(a: NdArray)
    ensures !(Is1dArray(a).holds && Is2dArray(a).holds)
    ensures Is1dArray(a).warned ==> !Is1dArray(a).holds
    ensures Is2dArray(a).warned ==> !Is2dArray(a).holds
  {
  }

  /** The columns of a 2-D array: field names if structured, positions `0 .. shape[1]-1` otherwise. */
  function ColumnIndices(a: NdArray): seq<Index>
    requires Is2dArray(a).holds
  {
    if IsStructuredArray(a) then FieldNames(a.dtype.fields) else Positions(a.shape[1])
  }

  /** The names of the fields whose kind is numerical (or not, with `numerical` false), in field order. */
  function FieldsWhere(fields: seq<Field>, numerical: bool): seq<Index>
  {
    if fields == [] then []
    else
      var last := fields[|fields| - 1];
      FieldsWhere(fields[..|fields| - 1], numerical)
        + (if (last.kind in NumericalKinds) == numerical then [Name(last.name)] else [])
  }

  /** What `indices_by_type` returns: (numerical columns, non-numerical columns), or the error it raises. */
  function TypedIndices(a: NdArray): Result<(seq<Index>, seq<Index>)>
  {
    if !Is2dArray(a).holds then Err(IncorrectShapeError)
    else if IsStructuredArray(a) then
      Ok((FieldsWhere(a.dtype.fields, true), FieldsWhere(a.dtype.fields, false)))
    else
      match IsNumericalDtype(a.dtype)
      case Err(e) => Err(e)
      case Ok(numerical) =>
        if numerical then Ok((Positions(a.shape[1]), [])) else Ok(([], Positions(a.shape[1])))
  }

  /** `indices_by_type`, field by field. */
  method IndicesByType(a: NdArray) returns (r: Result<(seq<Index>, seq<Index>)>)
    ensures r == TypedIndices(a)
  {
    if !Is2dArray(a).holds {
      return Err(IncorrectShapeError);
    }
    if IsStructuredArray(a) {
      var fields := a.dtype.fields;
      var numerical: seq<Index> := [];
      var nonNumerical: seq<Index> := [];
      for i := 0 to |fields|
        invariant numerical == FieldsWhere(fields[..i], true)
        invariant nonNumerical == FieldsWhere(fields[..i], false)
      {
        assert fields[..i + 1][..i] == fields[..i];
        var fieldIsNumerical := IsNumericalDtype(Plain(fields[i].kind));
        if fieldIsNumerical.value {
          numerical := numerical + [Name(fields[i].name)];
        } else {
          nonNumerical := nonNumerical + [Name(fields[i].name)];
        }
      }
      assert fields[..|fields|] == fields;
      r := Ok((numerical, nonNumerical));
    } else {
      var isNumerical := IsNumericalArray(a);
      match isNumerical
      case Err(e) =>
        r := Err(e);
      case Ok(numerical) =>
        if numerical {
          r := Ok((Positions(a.shape[1]), []));
        } else {
          r := Ok(([], Positions(a.shape[1])));
        }
    }
  }

  /** A name is listed on the `numerical` side exactly when some field of that name has that kind. */
  lemma {:induction false} FieldsWhereMembers(fields: seq<Field>, numerical: bool, x: Index)
    ensures x in FieldsWhere(fields, numerical) <==>
      exists k :: 0 <= k < |fields| && x == Name(fields[k].name) && (fields[k].kind in NumericalKinds) == numerical
  {
    if fields != [] {
      var init := fields[..|fields| - 1];
      FieldsWhereMembers(init, numerical, x);
      assert forall k :: 0 <= k < |init| ==> init[k] == fields[k];
    }
  }

  /**
   * `indices_by_type` splits the columns of a 2-D array into two sides whose union
   * is every column, each column on the side its kind selects, and (numpy's field
   * names being distinct) no column on both sides.
   */
  lemma TypedIndicesPartition(a: NdArray)
    requires TypedIndices(a).Ok?
    ensures Is2dArray(a).holds
    ensures forall x :: x in ColumnIndices(a) <==> x in TypedIndices(a).value.0 || x in TypedIndices(a).value.1
    ensures (IsStructuredArray(a) ==> DistinctNames(a.dtype.fields)) ==>
      forall x :: !(x in TypedIndices(a).value.0 && x in TypedIndices(a).value.1)
  {
    if IsStructuredArray(a) {
      var fields := a.dtype.fields;
      forall x
        ensures x in ColumnIndices(a) <==> x in TypedIndices(a).value.0 || x in TypedIndices(a).value.1
        ensures DistinctNames(fields) ==> !(x in TypedIndices(a).value.0 && x in TypedIndices(a).value.1)
      {
        FieldsWhereMembers(fields, true, x);
        FieldsWhereMembers(fields, false, x);
        assert ColumnIndices(a) == FieldNames(fields);
        if x in ColumnIndices(a) {
          var k :| 0 <= k < |fields| && FieldNames(fields)[k] == x;
          assert x == Name(fields[k].name);
        }
        if x in TypedIndices(a).value.0 || x in TypedIndices(a).value.1 {
          var k :| 0 <= k < |fields| && x == Name(fields[k].name);
          assert FieldNames(fields)[k] == x;
        }
      }
    }
  }

  /** The requested indices that are not columns, in request order, duplicates kept. */
  function Missing(indices: seq<Index>, columns: seq<Index>): (r: seq<Index>)
    ensures forall x :: x in r <==> x in indices && x !in columns
  {
    if indices == [] then []
    else (if indices[0] in columns then [] else [indices[0]]) + Missing(indices[1..], columns)
  }

  /**
   * `get_invalid_indices`: the requested indices that are not columns of the
   * array, sorted and without duplicates; a non-2-D array is refused.
   */
  function GetInvalidIndices(a: NdArray, indices: seq<Index>): (r: Result<seq<Index>>)
    ensures r.Err? <==> !Is2dArray(a).holds
    ensures r.Err? ==> r.error == IncorrectShapeError
    ensures r.Ok? ==> StrictlySorted(r.value)
    ensures r.Ok? ==> forall x :: x in r.value <==> x in indices && x !in ColumnIndices(a)
  {
    if !Is2dArray(a).holds then Err(IncorrectShapeError)
    else Ok(SortDistinct(Missing(indices, ColumnIndices(a))))
  }

  /** The invalid indices are the one sorted listing of the requested non-columns, whatever order they were requested in. */
  lemma InvalidIndicesCanonical(a: NdArray, indices: seq<Index>, other: seq<Index>)
    requires Is2dArray(a).holds
    requires forall x :: x in indices <==> x in other
    ensures GetInvalidIndices(a, indices) == GetInvalidIndices(a, other)
  {
    SortedListingUnique(GetInvalidIndices(a, indices).value, GetInvalidIndices(a, other).value);
  }

  /** `are_indices_valid`: every requested index is a column of the 2-D array. */
  function AreIndicesValid(a: NdArray, indices: seq<Index>): (r: Result<bool>)
    ensures r.Err? <==> !Is2dArray(a).holds
    ensures r.Err? ==> r.error == IncorrectShapeError
    ensures r.Ok? ==> (r.value <==> forall x :: x in indices ==> x in ColumnIndices(a))
  {
    match GetInvalidIndices(a, indices)
    case Err(e) => Err(e)
    case Ok(invalid) =>
      assert invalid != [] ==> invalid[0] in invalid;
      Ok(|invalid| == 0)
  }

  /**
   * A model object, reduced to the methods it has and, for each, the number of
   * parameters without a default value (`self` excluded).
   */
  datatype ModelObject = ModelObject(requiredParams: map<string, nat>)

  /** The methods checked, in order, with the exact number of required parameters each must have. */
  function RequiredMethods(requireProbabilities: bool): seq<(string, nat)>
  {
    [("fit", 2), ("predict", 1)] + (if requireProbabilities then [("predict_proba", 1)] else [])
  }

  predicate HasMethod(model: ModelObject, name: string, count: nat)
  {
    name in model.requiredParams && model.requiredParams[name] == count
  }

  /** The checked methods that are missing or have the wrong number of required parameters, in check order. */
  function Faults(model: ModelObject, methods: seq<(string, nat)>): seq<string>
  {
    if methods == [] then []
    else
      var last := methods[|methods| - 1];
      Faults(model, methods[..|methods| - 1]) + (if HasMethod(model, last.0, last.1) then [] else [last.0])
  }

  /** The model has `fit` with 2, `predict` with 1 and, when required, `predict_proba` with 1 required parameters. */
  predicate IsFunctional(model: ModelObject, requireProbabilities: bool)
  {
    && HasMethod(model, "fit", 2)
    && HasMethod(model, "predict", 1)
    && (requireProbabilities ==> HasMethod(model, "predict_proba", 1))
  }

  /**
   * `check_model_functionality`: whether the model has every required method with
   * exactly the required number of parameters, the faulty methods in check order,
   * and whether the warning listing them is emitted.
   */
  method CheckModelFunctionality(model: ModelObject, requireProbabilities: bool, suppressWarning: bool)
    returns (isFunctional: bool, warned: bool, faults: seq<string>)
    ensures isFunctional == IsFunctional(model, requireProbabilities)
    ensures faults == Faults(model, RequiredMethods(requireProbabilities))
    ensures isFunctional <==> faults == []
    ensures warned <==> !isFunctional && !suppressWarning
  {
    var methods := RequiredMethods(requireProbabilities);
    isFunctional := true;
    faults := [];
    for i := 0 to |methods|
      invariant faults == Faults(model, methods[..i])
      invariant isFunctional <==> faults == []
      invariant isFunctional <==> forall k :: 0 <= k < i ==> HasMethod(model, methods[k].0, methods[k].1)
    {
      assert methods[..i + 1][..i] == methods[..i];
      var (name, count) := methods[i];
      if name !in model.requiredParams {
        isFunctional := false;
        faults := faults + [name];
      } else if model.requiredParams[name] != count {
        isFunctional := false;
        faults := faults + [name];
      }
    }
    assert methods[..|methods|] == methods;
    assert methods[0] == ("fit", 2) && methods[1] == ("predict", 1);
    assert requireProbabilities ==> methods[2] == ("predict_proba", 1);
    warned := !isFunctional && !suppressWarning;
  }
}
