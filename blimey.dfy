/**
 * The Blimey local-surrogate explainer: validation of its constructor arguments,
 * resolution of the categorical features, default display names, validation of
 * an explanation request, the per-feature label lookup and the per-class
 * assembly of the explanation. The augmentor, the discretizer, the similarity
 * mask, the explainer and the global and local models are external: the engine
 * sees them only through the functions in `Collaborators`.
 */
module BlimeyEngine {
  import opened Errors
  import opened Arrays
  import opened Validation
  import opened Naming

  /** A Python argument that must be `None` or a list. */
  datatype ListArg<T> = NoneGiven | ListGiven(items: seq<T>) | NotAList

  /** A list entry that must be `None` or a string. */
  datatype NameArg = NoName | Str(s: string) | NotAString

  /** `samples_number`: an int, or a value of another type. */
  datatype IntArg = IntValue(n: int) | NotAnInt

  /** The arguments of `Blimey.__init__` that its validation inspects. */
  datatype Arguments = Arguments(
    dataset: NdArray,
    datasetIsBase: bool,                // is_base_array(dataset)
    augmentorIsAugmentation: bool,      // issubclass(augmentor, Augmentation)
    discretizerIsDiscretization: bool,  // issubclass(discretizer, Discretization)
    globalModel: ModelObject,
    localModel: ModelObject,
    categoricalIndices: ListArg<Index>,
    classNames: ListArg<NameArg>,
    featureNames: ListArg<NameArg>)

  /** Every entry of a name list is `None` or a string. */
  predicate AllNamesOrNone(entries: seq<NameArg>)
  {
    forall k :: 0 <= k < |entries| ==> !entries[k].NotAString?
  }

  /** The number of features: the fields of a structured dataset, `shape[1]` of a plain one. */
  function FeatureCount(a: NdArray): (n: nat)
    requires Is2dArray(a).holds
    ensures n == |ColumnIndices(a)|
  {
    if IsStructuredArray(a) then |a.dtype.fields| else a.shape[1]
  }

  /** The dataset checks: 2-D, and of base (numerical or textual) types. */
  predicate DatasetOk(args: Arguments)
  {
    Is2dArray(args.dataset).holds && args.datasetIsBase
  }

  /** The global model can output probabilities; the local model can fit and predict. */
  predicate ModelsOk(args: Arguments)
  {
    IsFunctional(args.globalModel, true) && IsFunctional(args.localModel, false)
  }

  /** No categorical indices, or a list of columns of the dataset. */
  predicate CategoricalOk(args: Arguments)
    requires Is2dArray(args.dataset).holds
  {
    args.categoricalIndices.NoneGiven? ||
    (args.categoricalIndices.ListGiven? &&
     forall x :: x in args.categoricalIndices.items ==> x in ColumnIndices(args.dataset))
  }

  /** The augmentor and discretizer classes derive from the required abstract classes. */
  predicate CollaboratorClassesOk(args: Arguments)
  {
    args.augmentorIsAugmentation && args.discretizerIsDiscretization
  }

  /** No class names, or a list of string-or-`None` names. */
  predicate ClassNamesOk(args: Arguments)
  {
    args.classNames.NoneGiven? || (args.classNames.ListGiven? && AllNamesOrNone(args.classNames.items))
  }

  /** No feature names, or one string-or-`None` name per feature. */
  predicate FeatureNamesOk(args: Arguments)
    requires Is2dArray(args.dataset).holds
  {
    args.featureNames.NoneGiven? ||
    (args.featureNames.ListGiven? &&
     |args.featureNames.items| == FeatureCount(args.dataset) &&
     AllNamesOrNone(args.featureNames.items))
  }

  /** Every constructor check passes. */
  predicate ArgumentsValid(args: Arguments)
  {
    && DatasetOk(args)
    && ModelsOk(args)
    && CategoricalOk(args)
    && CollaboratorClassesOk(args)
    && ClassNamesOk(args)
    && FeatureNamesOk(args)
  }

  /**
   * `_input_is_valid`: the checks run in a fixed order and the first that fails
   * raises. It passes exactly when every check does; each error kind other than
   * TypeError comes from exactly one stage, reached only when every earlier
   * stage passed.
   */
  function InputIsValid(args: Arguments): (r: Outcome)
    ensures r == Pass <==> ArgumentsValid(args)
    ensures r == Fail(IncorrectShapeError) <==> !Is2dArray(args.dataset).holds
    ensures r == Fail(IncompatibleModelError) <==> DatasetOk(args) && !ModelsOk(args)
    ensures r == Fail(IndexError) <==>
      DatasetOk(args) && ModelsOk(args) && args.categoricalIndices.ListGiven? &&
      exists x :: x in args.categoricalIndices.items && x !in ColumnIndices(args.dataset)
    ensures r == Fail(ValueError) <==>
      DatasetOk(args) && ModelsOk(args) && CategoricalOk(args) && CollaboratorClassesOk(args) &&
      ClassNamesOk(args) && args.featureNames.ListGiven? &&
      |args.featureNames.items| != FeatureCount(args.dataset)
    ensures r == Fail(TypeError) <==>
      Is2dArray(args.dataset).holds &&
      (!args.datasetIsBase ||
       (ModelsOk(args) &&
        (args.categoricalIndices.NotAList? ||
         (CategoricalOk(args) &&
          (!CollaboratorClassesOk(args) || !ClassNamesOk(args) || args.featureNames.NotAList? ||
           (args.featureNames.ListGiven? &&
            |args.featureNames.items| == FeatureCount(args.dataset) &&
            !AllNamesOrNone(args.featureNames.items)))))))
    ensures r.Fail? ==> r.error in {IncorrectShapeError, TypeError, IncompatibleModelError, IndexError, ValueError}
  {
    var d := args.dataset;
    if !Is2dArray(d).holds then Fail(IncorrectShapeError)
    else if !args.datasetIsBase then Fail(TypeError)
    else if !IsFunctional(args.globalModel, true) then Fail(IncompatibleModelError)
    else if !IsFunctional(args.localModel, false) then Fail(IncompatibleModelError)
    else if args.categoricalIndices.NotAList? then Fail(TypeError)
    else if args.categoricalIndices.ListGiven? && GetInvalidIndices(d, args.categoricalIndices.items).value != [] then
      var invalid := GetInvalidIndices(d, args.categoricalIndices.items).value;
      assert invalid[0] in invalid;
      Fail(IndexError)
    else if !args.augmentorIsAugmentation then Fail(TypeError)
    else if !args.discretizerIsDiscretization then Fail(TypeError)
    else if args.classNames.NotAList? then Fail(TypeError)
    else if args.classNames.ListGiven? && !AllNamesOrNone(args.classNames.items) then Fail(TypeError)
    else if args.featureNames.NotAList? then Fail(TypeError)
    else if args.featureNames.ListGiven? && |args.featureNames.items| != FeatureCount(d) then Fail(ValueError)
    else if args.featureNames.ListGiven? && !AllNamesOrNone(args.featureNames.items) then Fail(TypeError)
    else Pass
  }

  /** The resolved categorical indices, and whether the widening warning fires. */
  datatype Resolution = Resolution(categorical: set<Index>, warned: bool)

  /**
   * The categorical index set: the string-based columns, together with the
   * user's indices when given. It never misses a string-based column, never drops
   * a declared index and adds nothing else; the warning fires exactly when some
   * string-based column was not declared.
   */
  function ResolveCategorical(stringColumns: set<Index>, declared: Option<set<Index>>): (r: Resolution)
    ensures stringColumns <= r.categorical
    ensures declared.Some? ==> declared.value <= r.categorical
    ensures forall c :: c in r.categorical ==> c in stringColumns || (declared.Some? && c in declared.value)
    ensures r.warned <==> declared.Some? && !(stringColumns <= declared.value)
  {
    match declared
    case None => Resolution(stringColumns, false)
    case Some(user) =>
      assert stringColumns - user != {} <==> !(stringColumns <= user) by {
        if !(stringColumns <= user) {
          var c :| c in stringColumns && c !in user;
          assert c in stringColumns - user;
        }
      }
      Resolution(stringColumns + user, stringColumns - user != {})
  }

  /** Declaring the resolved set reproduces it, without a warning. */
  lemma ResolveCategoricalIdempotent(stringColumns: set<Index>, declared: Option<set<Index>>)
    ensures var r := ResolveCategorical(stringColumns, declared);
      ResolveCategorical(stringColumns, Some(r.categorical)) == Resolution(r.categorical, false)
  {
  }

  /** The user's categorical indices as a set, or `None`. */
  function Declared(arg: ListArg<Index>): Option<set<Index>>
  {
    if arg.ListGiven? then Some((set x | x in arg.items)) else None
  }

  /** The names a name argument supplies: `count` missing names for `None`, else the list's entries. */
  function GivenNames(arg: ListArg<NameArg>, count: nat): seq<Option<string>>
  {
    match arg
    case ListGiven(items) =>
      seq(|items|, k requires 0 <= k < |items| => if items[k].Str? then Some(items[k].s) else None)
    case _ => seq(count, _ => None)
  }

  /** `filled` keeps every given name and names entry `i` `prefix i` where none is given. */
  predicate NamedAsGiven(filled: seq<string>, names: seq<Option<string>>, prefix: string)
  {
    && |filled| == |names|
    && forall i :: 0 <= i < |names| ==>
         filled[i] == if names[i].Some? then names[i].value else DefaultName(prefix, i)
  }

  /** The name-defaulting loops of `Blimey.__init__`. */
  method FillNames(names: seq<Option<string>>, prefix: string) returns (filled: seq<string>)
    ensures NamedAsGiven(filled, names, prefix)
  {
    filled := [];
    for i := 0 to |names|
      invariant NamedAsGiven(filled, names[..i], prefix)
    {
      if names[i].None? {
        filled := filled + [DefaultName(prefix, i)];
      } else {
        filled := filled + [names[i].value];
      }
    }
    assert names[..|names|] == names;
  }

  /**
   * The length `Blimey.__init__` gives the default feature-name list, as written:
   * `dataset.shape[1]`, which raises IndexError for a dataset with a 1-element shape.
   */
  function DefaultFeatureCountAsWritten(a: NdArray): (r: Result<nat>)
    ensures r.Ok? <==> |a.shape| >= 2
    ensures r.Ok? ==> r.value == a.shape[1]
    ensures r.Err? ==> r.error == IndexError
  {
    if |a.shape| >= 2 then Ok(a.shape[1]) else Err(IndexError)
  }

  /**
   * Every structured dataset the constructor validation accepts has a 1-element
   * shape, so as written the constructor raises IndexError on it whenever no
   * feature names are given.
   */
  lemma StructuredDatasetDefaultNamesFail(args: Arguments)
    requires InputIsValid(args) == Pass
    requires IsStructuredArray(args.dataset) && args.featureNames.NoneGiven?
    ensures DefaultFeatureCountAsWritten(args.dataset) == Err(IndexError)
  {
  }

  /** A concrete case: three rows of a numerical field `age` and a text field `name`. */
  lemma MixedDatasetDefaultNamesFail()
    ensures var d := NdArray([3], Structured([Field("age", 'f'), Field("name", 'U')]));
      var model := ModelObject(map["fit" := 2, "predict" := 1, "predict_proba" := 1]);
      var args := Arguments(d, true, true, true, model, model, ListGiven([]), NoneGiven, NoneGiven);
      InputIsValid(args) == Pass && DefaultFeatureCountAsWritten(d) == Err(IndexError)
  {
  }

  /** A fitted local model, identified by the data and targets it was fitted on. */
  datatype FittedModel = FittedModel(data: seq<seq<int>>, targets: seq<real>)

  /** A discretized row: the bin of each column. */
  type Bins = map<Index, int>

  /** An explanation: an importance per feature. */
  type Explanation = map<Index, real>

  /** The external collaborators, seen only through the operations the engine calls. */
  datatype Collaborators<!V> = Collaborators(
    areSimilarDtypeArrays: (NdArray, NdArray) -> bool,                 // strict dtype comparison
    discretizeRow: V -> Bins,                                           // Discretization.discretize on a row
    discretizeRows: seq<V> -> seq<Bins>,                                // Discretization.discretize on a sample
    featureValueNames: map<Index, map<int, string>>,                    // Discretization.feature_value_names
    sample: (V, nat) -> seq<V>,                                         // Augmentation.sample
    predictProba: seq<V> -> Matrix,                                     // global model predict_proba
    similarityBinaryMask: (seq<Bins>, Bins) -> seq<seq<int>>,           // similarity_binary_mask
    explain: (FittedModel, seq<string>, set<Index>, Bins) -> Explanation) // explainer class, built and asked

  /** A 2-D array of probabilities: its number of columns, and its rows. */
  datatype Matrix = Matrix(width: nat, rows: seq<seq<real>>)

  /** What an explanation call computes before its two loops. */
  datatype Prepared = Prepared(bins: Bins, probabilities: Matrix, binary: seq<seq<int>>)

  /**
   * `probabilities[:, i]` does not raise: `i` is below the matrix's width, even
   * when the matrix has no rows, and every row has an entry `i`.
   */
  predicate ColumnAvailable(probabilities: Matrix, i: nat)
  {
    i < probabilities.width && forall row :: 0 <= row < |probabilities.rows| ==> i < |probabilities.rows[row]|
  }

  /** `probabilities[:, i]`. */
  function Column(probabilities: Matrix, i: nat): (c: seq<real>)
    requires ColumnAvailable(probabilities, i)
    ensures |c| == |probabilities.rows|
    ensures forall row :: 0 <= row < |c| ==> c[row] == probabilities.rows[row][i]
  {
    seq(|probabilities.rows|, row requires 0 <= row < |probabilities.rows| => probabilities.rows[row][i])
  }

  /** The names in order of first occurrence, each once: the key order of a dict filled from them. */
  function FirstOccurrences(names: seq<string>): seq<string>
  {
    if names == [] then []
    else
      var before := FirstOccurrences(names[..|names| - 1]);
      var last := names[|names| - 1];
      if last in before then before else before + [last]
  }

  /** The keys are exactly the names. */
  lemma {:induction false} FirstOccurrencesMembers(names: seq<string>)
    ensures forall x :: x in FirstOccurrences(names) <==> x in names
  {
    if names != [] {
      var init := names[..|names| - 1];
      FirstOccurrencesMembers(init);
      assert names == init + [names[|names| - 1]];
    }
  }

  /** No key repeats. */
  lemma {:induction false} FirstOccurrencesDistinct(names: seq<string>)
    ensures forall i, j :: 0 <= i < j < |FirstOccurrences(names)| ==>
      FirstOccurrences(names)[i] != FirstOccurrences(names)[j]
  {
    if names != [] {
      var init := names[..|names| - 1];
      FirstOccurrencesDistinct(init);
      var before := FirstOccurrences(init);
      var last := names[|names| - 1];
      if last !in before {
        var r := before + [last];
        forall i, j | 0 <= i < j < |r| ensures r[i] != r[j] {
          if j == |before| {
            assert r[i] in before;
          }
        }
      }
    }
  }

  /** Extending the names by one adds that name at the end exactly when it is new. */
  lemma FirstOccurrencesStep(order: seq<string>, names: seq<string>, i: nat, present: bool)
    requires i < |names| && order == FirstOccurrences(names[..i])
    requires present <==> names[i] in order
    ensures FirstOccurrences(names[..i + 1]) == if present then order else order + [names[i]]
  {
    assert names[..i + 1][..i] == names[..i];
    FirstOccurrencesMembers(names[..i]);
  }

  /**
   * Of two keys, the earlier one occurs in `names` before the later one's first
   * occurrence.
   */
  lemma {:induction false} FirstOccurrencesOrder(names: seq<string>, i: nat, j: nat)
    requires i < j < |FirstOccurrences(names)|
    ensures exists p :: 0 <= p < |names| && names[p] == FirstOccurrences(names)[i] &&
                        FirstOccurrences(names)[j] !in names[..p + 1]
  {
    var n := |names|;
    var init := names[..n - 1];
    var before := FirstOccurrences(init);
    var r := FirstOccurrences(names);
    if j < |before| {
      assert r[i] == before[i] && r[j] == before[j];
      FirstOccurrencesOrder(init, i, j);
      var p :| 0 <= p < |init| && init[p] == before[i] && before[j] !in init[..p + 1];
      assert init[..p + 1] == names[..p + 1];
    } else {
      FirstOccurrencesMembers(init);
      assert r[i] == before[i] && r[j] == names[n - 1] && names[n - 1] !in before;
      assert before[i] in before;
      var p :| 0 <= p < |init| && init[p] == before[i];
      assert names[..p + 1] == init[..p + 1];
      assert forall x :: x in init[..p + 1] ==> x in init;
    }
  }

  /** No later class among the first `n` carries the same name as class `i`. */
  predicate LastOccurrence(names: seq<string>, n: nat, i: nat)
    requires i < n <= |names|
  {
    forall j :: i < j < n ==> names[j] != names[i]
  }

  /** Distinct names are their own first occurrences: each becomes a key, in class order. */
  lemma {:induction false} FirstOccurrencesOfDistinct(names: seq<string>)
    requires forall i, j :: 0 <= i < j < |names| ==> names[i] != names[j]
    ensures FirstOccurrences(names) == names
  {
    if names != [] {
      var init := names[..|names| - 1];
      FirstOccurrencesOfDistinct(init);
      assert names[|names| - 1] !in init;
      assert names == init + [names[|names| - 1]];
    }
  }

  /**
   * With default class names, every class gets its own key: no class overwrites
   * another and the explanation's keys are the class names, in class order.
   */
  lemma DefaultClassNamesKeepEveryClass(names: seq<string>, n: nat)
    requires |names| == n
    requires forall i :: 0 <= i < n ==> names[i] == DefaultName("class", i)
    ensures forall i :: 0 <= i < n ==> LastOccurrence(names, n, i)
    ensures FirstOccurrences(names) == names
  {
    forall i, j | 0 <= i < j < n ensures names[i] != names[j] {
      if names[i] == names[j] {
        DefaultNameInjective("class", i, j);
      }
    }
    FirstOccurrencesOfDistinct(names);
  }

  /**
   * `are_similar_dtype_arrays(..., strict_comparison=True)`: two arrays are
   * similar only when their dtypes are equal.
   */
  ghost predicate StrictDtypeComparison<V>(collaborators: Collaborators<V>)
  {
    forall a, b :: collaborators.areSimilarDtypeArrays(a, b) ==> a.dtype == b.dtype
  }

  /** An explanation dict: its keys in insertion order, and each key's explanation. */
  datatype ClassExplanations = ClassExplanations(order: seq<string>, entries: map<string, Explanation>)

  class Blimey<V> {
    const dataset: NdArray
    const isStructured: bool
    const collaborators: Collaborators<V>
    const globalModel: ModelObject
    const localModel: ModelObject
    const categoricalIndices: set<Index>
    /** Whether construction warned that string-based columns were added to the categorical indices. */
    const categoricalWarning: bool
    const nClasses: nat
    const indices: seq<Index>
    const featureNames: seq<string>
    const classNames: seq<string>

    /**
     * The engine's invariant: a 2-D dataset whose columns are `indices`, one feature
     * name per column, and categorical indices that are columns and include every
     * string-based column; field names are distinct, as numpy requires, and the
     * dtype comparison is strict.
     */
    ghost predicate Valid()
    {
      && Is2dArray(dataset).holds
      && isStructured == IsStructuredArray(dataset)
      && (isStructured ==> DistinctNames(dataset.dtype.fields))
      && StrictDtypeComparison(collaborators)
      && indices == ColumnIndices(dataset)
      && |featureNames| == |indices|
      && TypedIndices(dataset).Ok?
      && (forall c :: c in TypedIndices(dataset).value.1 ==> c in categoricalIndices)
      && (forall c :: c in categoricalIndices ==> c in indices)
    }

    /**
     * `Blimey.__init__` once its arguments are validated and the dataset's columns
     * split by type (`stringColumns` being the non-numerical ones).
     */
    constructor (args: Arguments, collaborators: Collaborators<V>, classCount: nat, stringColumns: seq<Index>)
      requires InputIsValid(args) == Pass
      requires TypedIndices(args.dataset).Ok? && stringColumns == TypedIndices(args.dataset).value.1
      requires IsStructuredArray(args.dataset) ==> DistinctNames(args.dataset.dtype.fields)
      requires StrictDtypeComparison(collaborators)
      ensures Valid()
      ensures dataset == args.dataset && this.collaborators == collaborators && nClasses == classCount
      ensures globalModel == args.globalModel && localModel == args.localModel
      ensures Resolution(categoricalIndices, categoricalWarning) ==
              ResolveCategorical((set c | c in stringColumns), Declared(args.categoricalIndices))
      ensures indices == ColumnIndices(args.dataset)
      ensures NamedAsGiven(featureNames, GivenNames(args.featureNames, FeatureCount(args.dataset)), "feature")
      ensures NamedAsGiven(classNames, GivenNames(args.classNames, classCount), "class")
    {
      var d := args.dataset;
      var resolution := ResolveCategorical((set c | c in stringColumns), Declared(args.categoricalIndices));
      var filledFeatures := FillNames(GivenNames(args.featureNames, FeatureCount(d)), "feature");
      var filledClasses := FillNames(GivenNames(args.classNames, classCount), "class");
      TypedIndicesPartition(d);
      this.dataset := d;
      this.isStructured := IsStructuredArray(d);
      this.collaborators := collaborators;
      this.globalModel := args.globalModel;
      this.localModel := args.localModel;
      this.categoricalIndices := resolution.categorical;
      this.categoricalWarning := resolution.warned;
      this.nClasses := classCount;
      this.indices := ColumnIndices(d);
      this.featureNames := filledFeatures;
      this.classNames := filledClasses;
    }

    /**
     * `_explain_instance_is_input_valid`: the row must be 1-D, of the dataset's
     * dtype and, for a plain dataset, as long as a dataset row; then
     * `samples_number` must be an int of at least 1. The first failing check raises.
     */
    function ExplainInputIsValid(row: NdArray, samplesNumber: IntArg): (r: Outcome)
      requires Valid()
      ensures r == Pass <==>
        && Is1dArray(row).holds
        && collaborators.areSimilarDtypeArrays(dataset, row)
        && (isStructured || row.shape[0] == dataset.shape[1])
        && samplesNumber.IntValue? && samplesNumber.n >= 1
      ensures r == Fail(IncorrectShapeError) <==>
        !Is1dArray(row).holds ||
        (collaborators.areSimilarDtypeArrays(dataset, row) && !isStructured && row.shape[0] != dataset.shape[1])
      ensures r == Fail(ValueError) <==>
        && Is1dArray(row).holds
        && collaborators.areSimilarDtypeArrays(dataset, row)
        && (isStructured || row.shape[0] == dataset.shape[1])
        && samplesNumber.IntValue? && samplesNumber.n < 1
      ensures r == Fail(TypeError) <==>
        && Is1dArray(row).holds
        && (!collaborators.areSimilarDtypeArrays(dataset, row) ||
            ((isStructured || row.shape[0] == dataset.shape[1]) && samplesNumber.NotAnInt?))
      ensures r.Fail? ==> r.error in {IncorrectShapeError, TypeError, ValueError}
    {
      if !Is1dArray(row).holds then Fail(IncorrectShapeError)
      else if !collaborators.areSimilarDtypeArrays(dataset, row) then Fail(TypeError)
      else if !isStructured && row.shape[0] != dataset.shape[1] then Fail(IncorrectShapeError)
      else if samplesNumber.NotAnInt? then Fail(TypeError)
      else if samplesNumber.n < 1 then Fail(ValueError)
      else Pass
    }

    /**
     * A structured row is never 1-D by the validation's definition, so explaining
     * any row of a structured array is refused with IncorrectShapeError.
     */
    lemma StructuredRowsAreRefused(row: NdArray, samplesNumber: IntArg)
      requires Valid() && IsStructuredArray(row)
      ensures ExplainInputIsValid(row, samplesNumber) == Fail(IncorrectShapeError)
    {
    }

    /**
     * An engine over a structured dataset explains no row: a structured row is not
     * 1-D, and any other row has a dtype the strict comparison tells apart.
     */
    lemma StructuredEngineRefusesEveryRow(row: NdArray, samplesNumber: IntArg)
      requires Valid() && isStructured
      ensures ExplainInputIsValid(row, samplesNumber) ==
              if Is1dArray(row).holds then Fail(TypeError) else Fail(IncorrectShapeError)
    {
      if Is1dArray(row).holds {
        assert row.dtype != dataset.dtype;
      }
    }

    /** Steps before the loops: discretize the row, sample around it, query the global model, compare the discretized sample with the row. */
    function Prepare(v: V, n: nat): Prepared
    {
      var bins := collaborators.discretizeRow(v);
      var sampled := collaborators.sample(v, n);
      Prepared(bins, collaborators.predictProba(sampled),
               collaborators.similarityBinaryMask(collaborators.discretizeRows(sampled), bins))
    }

    /** Column `k` has a bin in the discretized row, and a label for it where the discretizer names its bins. */
    predicate LabelAt(bins: Bins, k: nat)
      requires k < |indices|
    {
      indices[k] in bins &&
      (indices[k] in collaborators.featureValueNames ==> bins[indices[k]] in collaborators.featureValueNames[indices[k]])
    }

    /** Every column has its label. */
    predicate LabelsAvailable(bins: Bins)
    {
      forall k :: 0 <= k < |indices| ==> LabelAt(bins, k)
    }

    /**
     * The error a missing label of column `k` raises: indexing the discretized row
     * past its end raises IndexError for a position (a missing field name raises
     * KeyError); a bin the discretizer does not name raises KeyError.
     */
    function MissingLabelError(bins: Bins, k: nat): Error
      requires k < |indices|
    {
      if indices[k] !in bins then (if indices[k].Pos? then IndexError else KeyError) else KeyError
    }

    /** Column `k` is the first without a label, and its lookup raises `e`. */
    predicate FirstLabelFailure(bins: Bins, k: nat, e: Error)
    {
      && k < |indices|
      && (forall j :: 0 <= j < k ==> LabelAt(bins, j))
      && !LabelAt(bins, k)
      && e == MissingLabelError(bins, k)
    }

    /** The discretized feature names: the discretizer's label for the row's bin, else the feature name. */
    function Labels(bins: Bins): seq<string>
      requires Valid() && LabelsAvailable(bins)
    {
      seq(|indices|, k requires 0 <= k < |indices| =>
        assert LabelAt(bins, k);
        var index := indices[k];
        if index in collaborators.featureValueNames then collaborators.featureValueNames[index][bins[index]]
        else featureNames[k])
    }

    /** The per-feature label loop of `explain_instance`; the first column without a label raises. */
    method DiscretizedFeatureNames(bins: Bins) returns (r: Result<seq<string>>)
      requires Valid()
      ensures r.Ok? <==> LabelsAvailable(bins)
      ensures r.Err? ==> exists k :: FirstLabelFailure(bins, k, r.error)
      ensures r.Ok? ==> |r.value| == |indices|
      ensures r.Ok? ==> forall k :: 0 <= k < |indices| && LabelAt(bins, k) ==>
        r.value[k] == if indices[k] in collaborators.featureValueNames
                      then collaborators.featureValueNames[indices[k]][bins[indices[k]]]
                      else featureNames[k]
    {
      var names := collaborators.featureValueNames;
      var labels: seq<string> := [];
      for k := 0 to |indices|
        invariant |labels| == k
        invariant forall j :: 0 <= j < k ==> LabelAt(bins, j)
        invariant forall j :: 0 <= j < k && LabelAt(bins, j) ==>
          labels[j] == if indices[j] in names then names[indices[j]][bins[indices[j]]] else featureNames[j]
      {
        var index := indices[k];
        if index !in bins {
          r := Err(if index.Pos? then IndexError else KeyError);
          assert FirstLabelFailure(bins, k, r.error);
          return;
        }
        var bin := bins[index];
        if index in names {
          if bin !in names[index] {
            r := Err(KeyError);
            assert FirstLabelFailure(bins, k, r.error);
            return;
          }
          labels := labels + [names[index][bin]];
        } else {
          labels := labels + [featureNames[k]];
        }
      }
      r := Ok(labels);
    }

    /** Every class has a name and a probability column. */
    predicate ClassesAvailable(probabilities: Matrix)
    {
      nClasses <= |classNames| && forall i :: 0 <= i < nClasses ==> ColumnAvailable(probabilities, i)
    }

    /** Class `i`'s explanation: a fresh local model fitted on the binary data against column `i`, explained by a fresh explainer. */
    function ClassExplanation(p: Prepared, labels: seq<string>, i: nat): Explanation
      requires ColumnAvailable(p.probabilities, i)
    {
      collaborators.explain(FittedModel(p.binary, Column(p.probabilities, i)), labels, categoricalIndices, p.bins)
    }

    /**
     * `result` is keyed by the first `nClasses` class names, in order of first
     * occurrence, each holding the explanation of the last class with that name.
     */
    ghost predicate ExplainsEveryClass(result: ClassExplanations, p: Prepared, labels: seq<string>)
      requires ClassesAvailable(p.probabilities)
    {
      && result.order == FirstOccurrences(classNames[..nClasses])
      && (forall x :: x in result.entries <==> x in classNames[..nClasses])
      && forall i :: 0 <= i < nClasses && LastOccurrence(classNames, nClasses, i) ==>
           result.entries[classNames[i]] == ClassExplanation(p, labels, i)
    }

    /** Storing class `i`'s explanation under its name keeps, for every name, its last class's explanation. */
    lemma LastClassWins(explanation: map<string, Explanation>, p: Prepared, labels: seq<string>, i: nat)
      requires i < |classNames|
      requires forall k :: 0 <= k <= i ==> ColumnAvailable(p.probabilities, k)
      requires forall k :: 0 <= k < i ==> classNames[k] in explanation
      requires forall k :: 0 <= k < i && LastOccurrence(classNames, i, k) ==>
        explanation[classNames[k]] == ClassExplanation(p, labels, k)
      ensures var next := explanation[classNames[i] := ClassExplanation(p, labels, i)];
        forall k :: 0 <= k < i + 1 && LastOccurrence(classNames, i + 1, k) ==>
          next[classNames[k]] == ClassExplanation(p, labels, k)
    {
      var next := explanation[classNames[i] := ClassExplanation(p, labels, i)];
      forall k | 0 <= k < i + 1 && LastOccurrence(classNames, i + 1, k)
        ensures next[classNames[k]] == ClassExplanation(p, labels, k)
      {
        if k < i {
          assert classNames[i] != classNames[k];
          assert LastOccurrence(classNames, i, k);
        }
      }
    }

    /**
     * After the first `i` classes: every one had a probability column, the dict's
     * keys are their names in order of first assignment, and each name holds the
     * explanation of its last class so far.
     */
    ghost predicate Assembled(explanation: map<string, Explanation>, order: seq<string>,
                              p: Prepared, labels: seq<string>, i: nat)
    {
      && i <= |classNames|
      && (forall k :: 0 <= k < i ==> ColumnAvailable(p.probabilities, k))
      && order == FirstOccurrences(classNames[..i])
      && (forall x :: x in explanation <==> x in order)
      && (forall k :: 0 <= k < i ==> classNames[k] in explanation)
      && (forall k :: 0 <= k < i && LastOccurrence(classNames, i, k) ==>
            explanation[classNames[k]] == ClassExplanation(p, labels, k))
    }

    /** One iteration of the class loop: `blimey_explanation[class_names[i]] = explanation`. */
    lemma AssembleStep(explanation: map<string, Explanation>, order: seq<string>,
                       p: Prepared, labels: seq<string>, i: nat)
      requires Assembled(explanation, order, p, labels, i)
      requires i < |classNames| && ColumnAvailable(p.probabilities, i)
      ensures Assembled(explanation[classNames[i] := ClassExplanation(p, labels, i)],
                        if classNames[i] in explanation then order else order + [classNames[i]],
                        p, labels, i + 1)
    {
      assert classNames[..i + 1] == classNames[..i] + [classNames[i]];
      FirstOccurrencesStep(order, classNames, i, classNames[i] in explanation);
      LastClassWins(explanation, p, labels, i);
    }

    /** The per-class loop of `explain_instance`, in ascending class order; a missing column or class name raises IndexError. */
    method AssembleExplanations(p: Prepared, labels: seq<string>) returns (r: Result<ClassExplanations>)
      ensures r.Ok? <==> ClassesAvailable(p.probabilities)
      ensures r.Err? ==> r.error == IndexError
      ensures r.Ok? ==> ExplainsEveryClass(r.value, p, labels)
    {
      var explanation: map<string, Explanation> := map[];
      var order: seq<string> := [];
      for i := 0 to nClasses
        invariant Assembled(explanation, order, p, labels, i)
      {
        if !ColumnAvailable(p.probabilities, i) {
          return Err(IndexError);
        }
        var fitted := FittedModel(p.binary, Column(p.probabilities, i));
        var classExplanation := collaborators.explain(fitted, labels, categoricalIndices, p.bins);
        if i >= |classNames| {
          return Err(IndexError);
        }
        assert classExplanation == ClassExplanation(p, labels, i);
        AssembleStep(explanation, order, p, labels, i);
        if classNames[i] !in explanation {
          order := order + [classNames[i]];
        }
        explanation := explanation[classNames[i] := classExplanation];
      }
      FirstOccurrencesMembers(classNames[..nClasses]);
      r := Ok(ClassExplanations(order, explanation));
    }

    /**
     * `explain_instance`: a failing input check raises its error before any
     * collaborator is used; otherwise the call succeeds exactly when every label
     * and every class is available, and then holds one explanation per class name.
     */
    method ExplainInstance(row: NdArray, rowValue: V, samplesNumber: IntArg) returns (r: Result<ClassExplanations>)
      requires Valid()
      ensures ExplainInputIsValid(row, samplesNumber).Fail? ==> r == Err(ExplainInputIsValid(row, samplesNumber).error)
      ensures ExplainInputIsValid(row, samplesNumber) == Pass ==>
        var p := Prepare(rowValue, samplesNumber.n);
        && (r.Ok? <==> LabelsAvailable(p.bins) && ClassesAvailable(p.probabilities))
        && (r.Err? && !LabelsAvailable(p.bins) ==> exists k :: FirstLabelFailure(p.bins, k, r.error))
        && (r.Err? && LabelsAvailable(p.bins) ==> r.error == IndexError)
        && (r.Ok? ==> ExplainsEveryClass(r.value, p, Labels(p.bins)))
    {
      var valid := ExplainInputIsValid(row, samplesNumber);
      if valid.Fail? {
        return Err(valid.error);
      }
      var n := samplesNumber.n;
      var bins := collaborators.discretizeRow(rowValue);
      var sampled := collaborators.sample(rowValue, n);
      var probabilities := collaborators.predictProba(sampled);
      var discretizedSample := collaborators.discretizeRows(sampled);
      var binary := collaborators.similarityBinaryMask(discretizedSample, bins);
      var labels := DiscretizedFeatureNames(bins);
      if labels.Err? {
        return Err(labels.error);
      }
      assert labels.value == Labels(bins);
      r := AssembleExplanations(Prepared(bins, probabilities, binary), labels.value);
    }
  }

  /**
   * `Blimey.__init__` with its raising paths: invalid arguments raise the first
   * failing check's error, and a dataset `indices_by_type` refuses raises its error;
   * otherwise the new engine holds what the constructor sets up.
   */
  method NewBlimey<V>(args: Arguments, collaborators: Collaborators<V>, classCount: nat) returns (r: Result<Blimey<V>>)
    requires IsStructuredArray(args.dataset) ==> DistinctNames(args.dataset.dtype.fields)
    requires StrictDtypeComparison(collaborators)
    ensures InputIsValid(args).Fail? ==> r == Err(InputIsValid(args).error)
    ensures InputIsValid(args) == Pass && TypedIndices(args.dataset).Err? ==> r == Err(TypedIndices(args.dataset).error)
    ensures r.Ok? <==> InputIsValid(args) == Pass && TypedIndices(args.dataset).Ok?
    ensures r.Ok? ==> fresh(r.value) && r.value.Valid() && r.value.dataset == args.dataset
    ensures r.Ok? ==>
      && r.value.collaborators == collaborators && r.value.nClasses == classCount
      && r.value.globalModel == args.globalModel && r.value.localModel == args.localModel
      && Resolution(r.value.categoricalIndices, r.value.categoricalWarning) ==
         ResolveCategorical((set c | c in TypedIndices(args.dataset).value.1), Declared(args.categoricalIndices))
      && r.value.indices == ColumnIndices(args.dataset)
      && NamedAsGiven(r.value.featureNames, GivenNames(args.featureNames, FeatureCount(args.dataset)), "feature")
      && NamedAsGiven(r.value.classNames, GivenNames(args.classNames, classCount), "class")
  {
    var valid := InputIsValid(args);
    if valid.Fail? {
      return Err(valid.error);
    }
    var typed := IndicesByType(args.dataset);
    if typed.Err? {
      return Err(typed.error);
    }
    var engine := new Blimey(args, collaborators, classCount, typed.value.1);
    r := Ok(engine);
  }
}
