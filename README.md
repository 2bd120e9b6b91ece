# Feature encoding of the CTR prediction app

This project models the submission handling of a Streamlit app that
predicts whether a user will click an advertisement. When the form is
submitted, the app turns the submitted fields into the single row its
pre-trained classifier expects. The row holds:

- the numeric fields (time on site, age, area income, internet usage) and
  the time fields (day of month, hour, weekday, month), copied unchanged;
- a frequency feature for the city and for the country: the training count
  from the bundle's frequency table, or 1 for a value with no count;
- a label-encoded feature for the city, the country and the ad topic: the
  value's index in the fitted encoder's vocabulary (`classes_`), or 0 when
  the lookup fails;
- a gender flag: 1 for "Male", 0 otherwise.

The record is then reindexed against the bundle's `feature_columns`.
Every expected column appears in order, a missing one is filled with 0,
and record keys that are not expected columns are dropped. The
classifier's click probability is shown with an insight tier: excellent
above 0.7, moderate above 0.5, poor otherwise. The select boxes offer the
encoders' vocabularies, or three hard-coded lists when the vocabularies
cannot be read.

Modules:

- `Wrappers` (wrappers.dfy): `Option` and `Result`.
- `Seqs` (seqs.dfy): `Distinct`.
- `Encoders` (encoders.dfy): a fitted `LabelEncoder` seen through its
  vocabulary, with `Transform` as an index-of lookup; the frequency lookup `FrequencyOf` (`dict.get(v, 1)`).
- `Frames` (frames.dfy): cell values (Python `int` or `float`), the
  feature record as a `map`, and `Reindex` with `fill_value=0`.
- `CtrApp` (ctr_app.dfy): the submission, the artifact bundle, the form's
  choices and bounds, the record assembly (`AssembleRecord`, a method that
  fills an empty map key by key, proved equal to the function
  `FeatureRecord`), the row handed to the classifier (`PrepareRow`), and
  the insight tier.

Three points of the code's behaviour are worth noting:

- The ad topic is label-encoded as well as the city and the country
  (ctr_predict_app.py:96-99).
- A bundle without a `city` or `country` frequency table makes the lookup
  at ctr_predict_app.py:82-83 raise outside the encoders' own fallbacks. The outer handler catches it
  and the submission fails. The model returns `Err(MissingFrequencyMap(..))`.
- The vocabulary fallback at ctr_predict_app.py:41-48 is all or nothing. If any of the three encoders
  cannot be read, all three select boxes use the hard-coded lists.

The default of 0 for a value the encoder has not seen is the same number as
the encoding of the vocabulary's first class.
`CtrApp.UnseenCityLooksLikeFirstClass` states this collision, and
`CtrApp.KnownCitiesKeptApart` shows that known values never collide.

## Model

| member | source | states |
|---|---|---|
| `Encoders.IndexOf` | ctr_predict_app.py:87 | the label encoding of a value is defined exactly when the value is in the vocabulary, and then it is a position holding that value, with no earlier position holding it |
| `Encoders.LabelEncoder.Transform` | ctr_predict_app.py:87 | `transform([v])[0]` is defined exactly for a value in `classes_`, and then names a position holding that value; the undefined case stands for the exception |
| `Encoders.FrequencyOf` | ctr_predict_app.py:82-83 | the frequency feature is the table's count for a value it has, and 1 for any other value |
| `Encoders.TransformOfClass` | ctr_predict_app.py:86-99 | for a fitted encoder (distinct classes), encoding the class at position i gives i |
| `Encoders.TransformInjective` | ctr_predict_app.py:86-99 | two values with the same defined encoding are the same value |
| `Frames.Reindex` | ctr_predict_app.py:108 | the row has one cell per expected column; cell i is the record's value for column i when the record has it, and the fill value int 0 otherwise |
| `Frames.ToRecord` | ctr_predict_app.py:105-108 | a row under distinct column names read back as a record has exactly those columns, each with its cell |
| `Frames.ReindexIgnoresUnlisted` | ctr_predict_app.py:108 | removing record keys that are not expected columns does not change the row |
| `Frames.ReindexSeesOnlyListed` | ctr_predict_app.py:108 | the row depends only on the record's expected columns |
| `Frames.ReindexExact` | ctr_predict_app.py:108 | a record that already has exactly the expected columns comes back unchanged, with nothing filled |
| `Frames.ReindexIdempotent` | ctr_predict_app.py:108 | reindexing an already reindexed row changes nothing |
| `CtrApp.AvailableOptions` | ctr_predict_app.py:41-48 | the select boxes offer the three encoders' vocabularies when all three encoders are present, and otherwise all three fallback lists |
| `CtrApp.EncodedOrZero` | ctr_predict_app.py:86-99 | a label feature is the value's position in the field's vocabulary when the field has an encoder that knows the value, and 0 in every other case |
| `CtrApp.GenderFlag` | ctr_predict_app.py:102 | the gender flag is 1 exactly when the gender is "Male", and it is always 0 or 1 |
| `CtrApp.FormDefaultsFromForm` | ctr_predict_app.py:27-60 | each widget's default value lies within that widget's bounds, and the first choice of each select box is an offered choice, so an untouched form is a submission the form can produce |
| `CtrApp.FeatureRecord` | ctr_predict_app.py:67-102 | building the record fails exactly when the city or country frequency table is missing (city checked first), whatever the categorical values; on success the record has exactly the fourteen feature names |
| `CtrApp.AssembleRecord` | ctr_predict_app.py:67-102 | filling the dictionary key by key, with the early exit on a missing frequency table, yields exactly `FeatureRecord` |
| `CtrApp.RecordPassesThrough` | ctr_predict_app.py:70-79 | the four numeric and four time features equal the submitted values, with int and float kept apart |
| `CtrApp.RecordFrequencies` | ctr_predict_app.py:82-83 | the city and country frequency features are the table counts when present, and 1 otherwise |
| `CtrApp.RecordLabelEncodings` | ctr_predict_app.py:86-99 | the city, country and ad-topic features are each the value's vocabulary index when known, and 0 otherwise |
| `CtrApp.RecordGender` | ctr_predict_app.py:102 | the gender feature is 1 exactly for "Male" and lies in {0, 1} |
| `CtrApp.UnseenCityLooksLikeFirstClass` | ctr_predict_app.py:86-89 | an unseen city, which differs from the first known city, still gets the same encoded feature as that city |
| `CtrApp.KnownCitiesKeptApart` | ctr_predict_app.py:86-89 | two known cities with the same encoded feature are the same city |
| `CtrApp.KnownClassEncodesToIndex` | ctr_predict_app.py:86-89 | in a bundle whose encoders have distinct classes, the city at position i of the vocabulary is encoded as exactly i |
| `CtrApp.FormChoicesEncodeExactly` | ctr_predict_app.py:41-99 | when all three vocabularies are readable, every value the form offers is known to its encoder, so each label feature is the encoder's transform and the 0 default never fires |
| `CtrApp.PrepareRow` | ctr_predict_app.py:105-108 | the classifier's row fails exactly when the record does, with the same error; otherwise it has one cell per expected column: the record's value for a feature name, and int 0 for any other column |
| `CtrApp.ExampleSubmission` | ctr_predict_app.py:67-108 | the worked example: New York (class 2, count 120), United States (class 0 of United States and Vietnam, count 300), Technology (class 1) and Male give the row 30, 1, 2, 0, 120, 300, 1, and an unprovided column gets 0 |
| `CtrApp.Tier` | ctr_predict_app.py:130-135 | excellent exactly when p > 0.7, moderate exactly when 0.5 < p <= 0.7, poor exactly when p <= 0.5 |
| `CtrApp.TierMonotone` | ctr_predict_app.py:130-135 | a higher probability never gets a worse tier |

## Left out

- The Streamlit UI: widgets, layout, banners, the probability metric and its
  percentage formatting (ctr_predict_app.py:18-62, 115-126). The widget
  bounds and choices are kept only as the predicates `InWidgetRanges` and
  `FromForm`.
- Loading the artifact bundle with `joblib.load` and halting on failure
  (ctr_predict_app.py:7-16). The loaded bundle is a parameter (`Artifacts`).
- `model.predict` and `model.predict_proba` (ctr_predict_app.py:111-112).
  These are calls into a fitted scikit-learn classifier. The probability is
  a parameter of `Tier`, and the predicted label is not modelled.
- The feature-importance expander (ctr_predict_app.py:137-140) and the text
  of the error message shown by the outer handler (ctr_predict_app.py:142-144).
  The one failure the encoding itself can raise, a missing frequency table,
  is modelled as `Err`.
- Floating point: probabilities and float fields are `real`, so rounding is
  not modelled. The tier thresholds compare exactly.
- The internals of `LabelEncoder`: the sorted order of `classes_` and the
  lookup inside `transform`. Only the index-of contract is modelled.
  Distinct classes are a separate assumption, `LabelEncoder.Fitted` for one
  encoder and `Artifacts.Valid` for a whole bundle, used where the exact
  index matters (`TransformOfClass`, `KnownClassEncodesToIndex`). Dafny's `<` on strings is a prefix order,
  not lexicographic order.
- The internals of `pandas.DataFrame`: the column order of
  `DataFrame([input_data])` (the reindex fixes the order anyway) and
  duplicate names in `feature_columns`. `Frames.ToRecord` and the lemmas
  that use it assume distinct column names.
- Frequency table counts are modelled as unbounded `int`, not as numpy
  64-bit integers.
