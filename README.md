# fat-forensics: array validation and the Blimey explainer

This project models two files of fat-forensics, a Python toolbox for fairness,
accountability and transparency:

- `fatf/utils/validation.py` classifies numpy arrays. It answers these questions:
  is a dtype numerical, is an array numerical, structured, 1-D or 2-D? It also
  splits a dataset's columns into numerical and non-numerical ones, finds the
  column indices an array lacks, and checks that a model object has `fit`,
  `predict` and (optionally) `predict_proba` with the right number of required
  parameters.
- `fatf/transparency/models/blimey.py` is the Blimey local-surrogate explainer.
  - Its constructor validates its arguments in a fixed order. It then merges the
    string-based columns into the categorical indices, warning when the user left
    some out, and fills in default feature and class names.
  - `explain_instance` validates the row and the sample size. It discretizes the
    row, samples around it, queries the global model and labels each feature.
    Then, for every class, it fits a local model and asks an explainer for a
    feature-importance map, keyed by class name.

A numpy array is a shape plus a dtype. The dtype is plain, with a kind character,
or structured, with named fields. A column index is an integer position or a
field name. Each raised exception is an `Error` value (`Result`, `Outcome`). A
warning is a boolean in the result. The augmentor, discretizer, similarity mask,
explainer and models are outside this model. The engine sees them only through
the functions of `BlimeyEngine.Collaborators`.

Modules:

- `Errors`: error kinds and result types.
- `Arrays`: arrays, dtypes and indices.
- `Ordering`: the order `np.sort` puts indices in.
- `Naming`: the default names `'feature {}'.format(i)` and `'class {}'.format(i)`.
- `Validation`: `validation.py`.
- `BlimeyEngine`: `blimey.py`. `Blimey` is a class with constant fields. The
  constructor is split in two:
  - `NewBlimey` carries the constructor's raising paths, with the corrected
    default feature count (see "## Findings");
  - `Blimey.constructor` is its success path.

## Model

| member | source | states |
|---|---|---|
| Validation.IsNumericalDtype | fatf/utils/validation.py:56-66 | a structured dtype (one with field names, even none) raises ValueError; otherwise the result is whether the kind is one of `?buifc` |
| Validation.IsStructuredArray | fatf/utils/validation.py:211-214 | an array is structured exactly when its dtype has at least one field |
| Validation.IsNumericalArray | fatf/utils/validation.py:92-104 | a structured array is numerical exactly when every field's kind is numerical (stopping at the first that is not); a plain array defers to `IsNumericalDtype`, including its ValueError for an empty structured dtype |
| Validation.Is1dArray | fatf/utils/validation.py:131-145 | a structured array is never 1-D; a plain one is 1-D exactly when its shape has one entry; the warning fires exactly for a single-field structured array with a 1-element shape |
| Validation.Is2dArray | fatf/utils/validation.py:172-189 | a plain array is 2-D exactly when its shape has two entries; a structured one exactly when its shape has one entry and it has more than one field; the warning fires exactly for a single-field structured array with a 2-element shape |
| Validation.DimensionsExclusive | fatf/utils/validation.py:131-189 | no array is both 1-D and 2-D, and a warning is only given for an array that is refused |
| Validation.IndicesByType | fatf/utils/validation.py:246-273 | the loop over the fields computes `TypedIndices`: IncorrectShapeError for a non-2-D array, otherwise numerical and non-numerical field names in field order, or all positions on one side for a plain array |
| Validation.FieldsWhereMembers | fatf/utils/validation.py:256-261 | a name is listed on a side exactly when some field with that name has that numerical-ness |
| Validation.TypedIndicesPartition | fatf/utils/validation.py:246-273 | the two lists together are exactly the array's columns, and they are disjoint when field names are distinct |
| Validation.Missing | fatf/utils/validation.py:308-316 | the set difference of the given indices and the array's columns |
| Validation.GetInvalidIndices | fatf/utils/validation.py:301-317 | IncorrectShapeError exactly for a non-2-D array; otherwise the result is strictly sorted and holds exactly the given indices that are not columns |
| Validation.InvalidIndicesCanonical | fatf/utils/validation.py:316-317 | the result depends only on the set of given indices, not on their order or repetition |
| Validation.AreIndicesValid | fatf/utils/validation.py:345-356 | IncorrectShapeError exactly for a non-2-D array; otherwise true exactly when every given index is a column |
| Validation.CheckModelFunctionality | fatf/utils/validation.py:393-425 | functional exactly when `fit` has 2, `predict` 1 and, if probabilities are required, `predict_proba` 1 required parameters; the faults list the failing methods in check order and is empty exactly when functional; the warning fires exactly for a non-functional model without suppression |
| Ordering.LessIsStrictTotalOrder | fatf/utils/validation.py:317 | the order used to sort indices is irreflexive, transitive and total |
| Ordering.InsertSorted | fatf/utils/validation.py:317 | inserting into a strictly sorted listing keeps it strictly sorted and adds exactly the new element |
| Ordering.SortDistinct | fatf/utils/validation.py:316-317 | the sorted, duplicate-free listing of a sequence is strictly sorted and has exactly its elements |
| Ordering.SortedListingUnique | fatf/utils/validation.py:316-317 | two strictly sorted listings with the same elements are equal |
| Naming.NatToString | fatf/transparency/models/blimey.py:295-297 | the decimal rendering of a number is non-empty and all digits |
| Naming.ParseNatToString | fatf/transparency/models/blimey.py:295-297 | reading back the decimal rendering gives the number |
| Naming.DefaultNameInjective | fatf/transparency/models/blimey.py:294-308 | two default names with the same prefix are equal only for the same position |
| BlimeyEngine.FeatureCount | fatf/transparency/models/blimey.py:103-106 | the number of features is the number of the dataset's columns |
| BlimeyEngine.InputIsValid | fatf/transparency/models/blimey.py:48-122 | validation passes exactly when every check passes; IncorrectShapeError exactly for a non-2-D dataset; IncompatibleModelError exactly when the dataset checks pass and a model lacks the needed methods; IndexError exactly when the checks before it pass and some categorical index is not a column; ValueError exactly when every check before it passes and the feature-name list has the wrong length; TypeError exactly on the remaining failures: a dataset of non-base types, categorical indices that are not a list, an augmentor or discretizer of the wrong class, class names that are not a list of strings or `None`, or feature names that are not a list or, of the right length, hold a non-string; no other error kind is raised |
| BlimeyEngine.ResolveCategorical | fatf/transparency/models/blimey.py:254-271 | the categorical indices include every string-based column and every declared index and nothing else; the warning fires exactly when a string-based column was not declared |
| BlimeyEngine.ResolveCategoricalIdempotent | fatf/transparency/models/blimey.py:254-271 | declaring the resolved set gives the same set and no warning |
| BlimeyEngine.FillNames | fatf/transparency/models/blimey.py:292-308 | the filled names keep every given name and name every missing entry `feature i` / `class i` by its position |
| BlimeyEngine.DefaultFeatureCountAsWritten | fatf/transparency/models/blimey.py:292-293 | the default feature-name count as written, `dataset.shape[1]`: IndexError exactly when the shape has fewer than two entries |
| BlimeyEngine.StructuredDatasetDefaultNamesFail | fatf/transparency/models/blimey.py:292-293 | every valid structured dataset given without feature names makes that count raise IndexError |
| BlimeyEngine.MixedDatasetDefaultNamesFail | fatf/transparency/models/blimey.py:292-293 | a concrete valid dataset with a numerical and a text field, without feature names, passes validation and then raises IndexError |
| BlimeyEngine.Column | fatf/transparency/models/blimey.py:413 | `probabilities[:, i]` has one entry per row, each that row's entry `i`; it is taken only below the matrix's width, even for a matrix with no rows |
| BlimeyEngine.FirstOccurrencesMembers | fatf/transparency/models/blimey.py:410-423 | the key order of the explanation dict holds exactly the class names assigned |
| BlimeyEngine.FirstOccurrencesDistinct | fatf/transparency/models/blimey.py:410-423 | no key appears twice in that order |
| BlimeyEngine.FirstOccurrencesOrder | fatf/transparency/models/blimey.py:410-423 | of two keys, the earlier one is assigned before the later one first is: keys keep the order of first assignment |
| BlimeyEngine.FirstOccurrencesStep | fatf/transparency/models/blimey.py:423 | assigning a name appends it to the key order exactly when it is not already a key |
| BlimeyEngine.FirstOccurrencesOfDistinct | fatf/transparency/models/blimey.py:410-423 | distinct class names become the keys in class order |
| BlimeyEngine.DefaultClassNamesKeepEveryClass | fatf/transparency/models/blimey.py:303-308 | with default class names no class overwrites another, and the keys are the class names in class order |
| BlimeyEngine.Blimey.constructor | fatf/transparency/models/blimey.py:250-308 | builds an engine that keeps the class invariant: the dataset is 2-D, `indices` are its columns, there is one feature name per column, and the categorical indices are columns that include every string-based column; the categorical indices and warning are those of `ResolveCategorical`; the feature and class names are filled as `FillNames` states; it takes the dtype comparison to be strict and a structured dataset's field names to be distinct, as numpy makes them |
| BlimeyEngine.NewBlimey | fatf/transparency/models/blimey.py:245-308 | a failed argument check raises that check's error; a dataset the column split refuses raises its error; otherwise it builds a fresh engine that keeps the class invariant and holds the dataset, models, collaborators and class count it was given, the categorical indices resolved from the split's string columns and the declared ones, every column index of the dataset, and the given or default feature and class names |
| BlimeyEngine.Blimey.ExplainInputIsValid | fatf/transparency/models/blimey.py:327-351 | passes exactly when the row is 1-D, has the dataset's dtype, has (for a plain dataset) one entry per column, and the sample size is an int of at least 1; IncorrectShapeError exactly when the row is not 1-D or, having the dtype, is of the wrong length; ValueError exactly when everything but the sample size's lower bound holds; TypeError exactly for a 1-D row of another dtype, or for a well-shaped row of the dataset's dtype with a non-int sample size; no other error kind is raised |
| BlimeyEngine.Blimey.StructuredEngineRefusesEveryRow | fatf/transparency/models/blimey.py:327-348 | an engine over a structured dataset refuses every row: a 1-D row with TypeError, as its dtype differs from the dataset's, and any other row with IncorrectShapeError |
| BlimeyEngine.Blimey.StructuredRowsAreRefused | fatf/transparency/models/blimey.py:329-330 | a structured row is always refused with IncorrectShapeError |
| BlimeyEngine.Blimey.DiscretizedFeatureNames | fatf/transparency/models/blimey.py:400-408 | fails exactly when some column has no bin in the discretized row or no label for that bin; the first such column decides the error: IndexError for a position past the row's end, KeyError for a missing field name or an unnamed bin; otherwise one label per column: the discretizer's name for the row's bin, else the feature name |
| BlimeyEngine.Blimey.AssembleExplanations | fatf/transparency/models/blimey.py:410-425 | fails with IndexError exactly when a class has no probability column (its number is not below the matrix's width) or no class name; otherwise the keys are exactly the first `n_classes` class names, in order of first assignment, and each holds the explanation of the last class carrying that name, fitted on that class's probability column |
| BlimeyEngine.Blimey.AssembleStep | fatf/transparency/models/blimey.py:410-425 | one iteration of the class loop keeps the loop's state: keys in order of first assignment, every class so far assigned, each name holding its last class's explanation |
| BlimeyEngine.Blimey.LastClassWins | fatf/transparency/models/blimey.py:423 | assigning class `i`'s explanation keeps, for every name, the explanation of the last class carrying it |
| BlimeyEngine.Blimey.ExplainInstance | fatf/transparency/models/blimey.py:387-425 | an invalid request raises the first failing check's error before any collaborator is used; otherwise it succeeds exactly when every label and every class is available; a missing label raises the error of the first column without one, and a missing class raises IndexError; the result explains every class, keys in order, as `AssembleExplanations` states |

## Left out

- Message texts of errors and warnings: only the error kind and whether a warning fires are modelled.
- The TypeError raised for arguments that are not numpy arrays or dtypes in `validation.py`: every input is an array or dtype by type.
- `Validation.CheckModelFunctionality`: a model is reduced to its method names and their required-parameter counts, in place of `inspect.signature`. The `is_instance=False` flag the constructor passes has no counterpart in `validation.py` and is not modelled.
- `is_base_array` and `are_similar_dtype_arrays` are not part of this model: they are a boolean argument (`datasetIsBase`) and a collaborator function.
- Validation.GetInvalidIndices: indices are a sequence, so the IncorrectShapeError for an indices array that is not 1-D cannot arise. The coercion of mixed integer and string indices by `np.asarray` is not modelled.
- Nested and sub-array dtypes are not modelled: a field is a name and a kind character.
- Warnings from the nested `is_2d_array` and `is_1d_array` calls inside other checks are not propagated to their callers; in particular `Blimey.ExplainInputIsValid` drops the warning `is_1d_array` gives for a one-field structured row.
- BlimeyEngine.Blimey.constructor: `categorical_indices` is kept as a set, so the list order `list(set(...))` yields is not modelled.
- BlimeyEngine.Blimey.constructor: the construction of the augmentor and the discretizer, `kwargs`, and the stored but unread `discretized_dataset` are left out. `n_classes` is the constructor parameter `classCount`, standing for the global model's probability width on the dataset.
- The explainer and the local model are one function from fitted data, feature labels, categorical indices and the discretized row to an importance map: no explainer state is modelled.
- A `data_row` of `None`, or one that is not an ndarray, is not modelled.
- With `is_1d_array` refusing every structured array and the dtype comparison strict, a structured dataset can never be explained (`StructuredEngineRefusesEveryRow`); the model keeps this behaviour.
- BlimeyEngine.NewBlimey: follows the corrected feature count of "## Findings", so it leaves out the IndexError that line 293 as written raises for every valid structured dataset without feature names; `DefaultFeatureCountAsWritten` and its two lemmas model that path.
- BlimeyEngine.Blimey.constructor: fills default feature names to the corrected count, for the same reason.
- Both validators run inside `assert` statements (blimey.py lines 245 and 387), so under `python -O` they are skipped; the model always runs them.
- `are_similar_dtype_arrays` is not part of this model beyond its strict reading: dtypes it calls similar are equal (`StrictDtypeComparison`); whether it calls every pair of equal dtypes similar is left open.
- BlimeyEngine.Blimey.DiscretizedFeatureNames: the error numpy raises for a missing field name in a structured row is taken to be KeyError; no structured row reaches that lookup, since `ExplainInputIsValid` refuses them all.
- `fatf/analyse/feature_importance.py` and `fatf/tests/test_exceptons.py` are not part of this model.

## Findings

| source | as written | input that shows it | evidently intended | confidence | as-written member | corrected member |
|---|---|---|---|---|---|---|
| fatf/transparency/models/blimey.py:292-293 | the default feature-name list has `dataset.shape[1]` entries | a structured dataset of shape `(3,)` with fields `age` (float) and `name` (text), no feature names: validation passes, then `shape[1]` raises IndexError | one default name per feature: the number of fields for a structured dataset, as the validation at lines 103-106 counts them | not executed | BlimeyEngine.DefaultFeatureCountAsWritten, BlimeyEngine.MixedDatasetDefaultNamesFail | BlimeyEngine.FeatureCount |
