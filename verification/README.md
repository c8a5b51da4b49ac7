# Diabetes risk service: request normalisation and risk scoring

The service accepts one JSON request and returns a diabetes risk assessment. It has one prediction endpoint, `POST /predict`. This project models in Dafny what that endpoint does with a request.

1. **Normalisation.** The raw JSON object is rewritten in four steps:
   - the nine yes/no answers become 0/1 flags (`get_yes_no`);
   - the gender becomes a 0/1 flag;
   - the pregnancy count is kept and coerced with `int()` only when the gender flag is 0 and a count was sent; otherwise it is forced to 0;
   - the five numeric fields are coerced with `float()`.

   A coercion that raises rejects the whole request with a client error.
2. **Feature assembly.** `predict_risk` builds a one-row frame and reindexes it onto the 16 schema columns (`final_features`). Missing columns are filled with 0 and other keys are dropped. The fitted scaler then replaces the five numeric columns (`numeric_features`) with its output.
3. **Tiering.** The classifier's probability becomes a percentage and one of three tiers. Each tier has a fixed label, message and colour. The thresholds are 0.20 and 0.65, and each threshold belongs to the tier above it.

The modules follow these stages:

- `Results` holds the error type and `Result`/`Option`.
- `Text` covers ASCII case mapping, stripping, and the decimal rendering and parsing behind `str()`, `int()` and `float()`.
- `Values` holds the JSON scalar `Value` and the Python built-ins `StrForm`, `PyInt` and `PyFloat`.
- `Schema` holds the field lists.
- `Normaliser`, `Features`, `Risk` and `Service` model the three stages and the endpoint.
- `Scenarios` holds the flags the rules give to concrete spellings.

The fitted scaler and classifier are loaded from disk by the service. Here they are parameters:

- the scaler is any function from five reals to five reals;
- the classifier is any function from a 16-column row to a probability in [0, 1].

Every pipeline property is therefore proved for every scaler and every classifier.

An exception anywhere in the handler becomes a 400 reply carrying the exception's text. The model turns this into a `ClientError` that carries an `Error`:

- `CoercionFailed(field, ToInt | ToFloat)` names the first field whose coercion failed, in the order the handler coerces them;
- `NonNumericColumn(field)` stands for a frame column that cannot be read as a number. `Service.NormalisedAssembles` proves it never happens after normalisation.

## Model

| member | source | states |
|---|---|---|
| Text.LowerIsWordIffCaseVariant | app.py:26 | lower-casing a string gives a lower-case word exactly when the string spells that word in some mixture of cases |
| Text.ParseInteger | app.py:67 | `int(s)` of a string: surrounding whitespace, an optional sign and 1 to 4300 decimal digits give their signed value, and anything else fails; whenever it succeeds, `float()` of the same string succeeds with the same value |
| Text.ParseDecimal | app.py:74 | no contract of its own: `float(s)` of a string, where surrounding whitespace, an optional sign, then digits with at most one point and at least one digit give the exact decimal value, and anything else fails; the lemmas below state what it reads back |
| Text.ParseIntegerOfIntText | app.py:67 | `int()` reads back the decimal rendering of every integer of at most 4300 digits, negative ones included, and rejects every longer one |
| Text.ParseDecimalOfIntText | app.py:74 | `float()` reads back the decimal rendering of every integer as the same number |
| Text.ParseDecimalOfPointed | app.py:74 | `float()` reads digits, a point and digits, such as "31.25", "7." or ".5", as the exact decimal value they stand for |
| Text.ParseDecimalOfNegativePointed | app.py:74 | the same numeral after a minus, such as "-0.5", reads as the negated value |
| Text.ParseIntegerOfPointed | app.py:67 | `int()` rejects such a numeral, with or without a minus, so a count sent as "2.0" raises |
| Text.LeadingJunkIsRefused | app.py:67-74 | a string that starts with anything but ASCII whitespace, a sign, a digit or a point is refused by both `int()` and `float()` |
| Values.Trunc | app.py:67 | `int()` of a float rounds toward zero: the result has the float's sign and lies within 1 of it, on the side of zero |
| Values.StrForm | app.py:26 | no contract of its own: `str(v)` is the string itself for a string, the decimal digits with a leading "-" when negative for an integer, the approximate rendering of `Text.RealText` for a float, "True" or "False" for a boolean, and "None" for null |
| Values.PyInt | app.py:67 | `int(v)` is `Text.ParseInteger` of a string, the integer itself, a float truncated toward zero, 1 or 0 for true or false, and a failure for null; whenever it succeeds, `float(v)` succeeds too, with the same value unless a float was truncated |
| Values.PyFloat | app.py:74 | no contract of its own: `float(v)` is `Text.ParseDecimal` of a string, the same number for an integer, the float itself, 1.0 or 0.0 for true or false, and a failure for null |
| Values.CoerceRenderedInt | app.py:67-74 | an integer sent as a string coerces under `float()`, and under `int()` up to 4300 digits, to the same value as the integer itself; `int()` rejects a longer string |
| Values.CoercePointedString | app.py:65-74 | a value sent as a string with a decimal point, such as "31.25" or "-0.5": `float()` reads its exact value and `int()` fails |
| Values.NonStringSpellsNoWord | app.py:26 | the string form of a finite number, a boolean or null never lower-cases to a word such as "yes" or "male"; among letter words only "true", "false" and "none" are reachable |
| Schema.GroupsAreDisjoint | app.py:56-72 | the yes/no, numeric, gender and pregnancy fields have no repeats and no overlap, so each field is rewritten by one rule only |
| Schema.ManagedIsSchema | app.py:17-21 | the fields the normaliser rewrites are exactly the 16 schema columns |
| Schema.SchemaHasNoRepeats | app.py:17-23 | the schema has 16 distinct columns; the 5 numeric ones are distinct and all among them |
| Normaliser.SpellsWord | app.py:26 | `str(v).lower() == w` holds exactly when `v` is a string spelling the letter word `w` in any case |
| Normaliser.WordFlag | app.py:26 | the shared flag rule: the flag is 0 or 1, and it is 1 exactly when the value is a string spelling one of the two given letter words in any case |
| Normaliser.YesNo | app.py:25-26 | the flag is 0 or 1, and it is 1 exactly when the value is a string spelling "yes" or "y" in any case |
| Normaliser.GenderFlag | app.py:62-63 | the flag is 0 or 1, and it is 1 exactly when the value is a string spelling "male" or "m" in any case |
| Normaliser.ApplyYesNo | app.py:56-59 | every listed field that was sent holds its yes/no flag; no key is added or removed; other fields are unchanged |
| Normaliser.ApplyGender | app.py:61-63 | a gender that was sent holds its flag; no key is added or removed; other fields are unchanged |
| Normaliser.KeepsPregnancies | app.py:66 | no contract of its own: the test `data.get("gender") == 0 and "pregnancies" in data` holds when a gender is present and equals 0 (as 0, 0.0 or `False` do under Python's `==`) and a count is present |
| Normaliser.ApplyPregnancies | app.py:65-69 | the count is coerced with `int()` when the gender is 0 and a count was sent, and set to 0 otherwise; the step fails exactly when that `int()` fails; the field is always present afterwards; other fields are unchanged |
| Normaliser.ApplyFloats | app.py:71-74 | succeeds exactly when every present listed field coerces under `float()`; on failure it blames the first failing field in list order; on success those fields hold their floats and nothing else changes |
| Normaliser.CountedKeepsNumerics | app.py:62-69 | after the yes/no and gender steps, the `== 0` test of the pregnancy step holds exactly when the raw gender's flag is 0 and a count was sent; the numeric fields are still as sent |
| Normaliser.StepsOutcome | app.py:55-74 | the steps succeed exactly when the count (if kept) and every numeric field coerce; a bad count is blamed before any numeric field |
| Normaliser.StepsFields | app.py:55-74 | the field-by-field content of a successful normalisation, in terms of the raw request |
| Normaliser.StepsReadOnlyTheirFields | app.py:55-74 | requests that agree on the rewritten fields normalise to the same verdict, the same error and the same rewritten fields |
| Normaliser.Normalise | app.py:55-74 | the whole block: when it fails and which field it blames; on success the keys are the request's plus "pregnancies"; each yes/no, gender, pregnancy and numeric field holds its coerced value; unmanaged keys are unchanged; every managed field holds a number |
| Features.Reindex | app.py:30 | the reindexed row has one cell per column; `Features.UnindexReindex` states its contents |
| Features.ReindexUnindex | app.py:30 | reading a row of distinct columns back as a map and reindexing it gives the row again |
| Features.UnindexReindex | app.py:30 | reindexing keeps exactly the listed columns, each holding the sent value or 0, and drops every other key |
| Features.SentValuesReachRow | app.py:30 | every value sent for a schema column is a cell of the reindexed row |
| Features.ReindexIgnoresOtherKeys | app.py:30 | keys outside the columns never affect the reindexed row |
| Features.Numbers | app.py:29-31 | a row reads as numbers exactly when every cell holds one; the numbers are the cells' values; otherwise a non-numeric column is named |
| Features.Assemble | app.py:29-30 | the frame exists exactly when every sent schema column holds a number; cell i is column i's number, or 0.0 when unsent; otherwise a non-numeric schema column is named |
| Features.AssembleIgnoresOtherKeys | app.py:30 | keys outside the schema never change the frame |
| Features.Column | app.py:17-23 | each numeric column's position in the frame holds that column |
| Features.Gather | app.py:31 | `df[numeric_features]` picks each numeric column's cell from its frame position, in scaler order |
| Features.Scale | app.py:31 | the numeric columns of the result are the scaler's output on the numeric columns of the input; every other column is unchanged |
| Features.ScaleIsDetermined | app.py:31 | those two promises determine the scaled row uniquely |
| Risk.TierOf | app.py:35-40 | low exactly below 0.20, medium exactly in [0.20, 0.65), high exactly from 0.65 |
| Risk.BoundariesAreClosedBelow | app.py:35-39 | 0.20 is medium, 0.65 is high, 0 is low and 1 is high |
| Risk.TierIsMonotone | app.py:35-40 | a larger probability never gives a lower tier |
| Risk.TierOfLabel | app.py:36-40 | a label names exactly one tier, so reading the label back recovers the tier |
| Risk.TiersAreDistinguishable | app.py:36-40 | different tiers have different labels, messages and colours |
| Risk.RoundHalfEven | app.py:33 | Python's rounding: the result is within 0.5 of its argument, and even when exactly 0.5 away |
| Risk.RoundHalfEvenIsNearest | app.py:33 | no integer is nearer to the argument than the rounded one |
| Risk.RoundHalfEvenIsDetermined | app.py:33 | the two promises of the rounding determine its result uniquely |
| Risk.HundredthsMeetThresholds | app.py:33-37 | a whole number of hundredths within half a hundredth of the percentage is below 20 only for a low probability and above 65 only for a high one, and it can reach but not cross a threshold from the wrong side |
| Risk.RiskPercent | app.py:33 | `round(prob * 100, 2)` is a whole number of hundredths within 0.005 of `prob * 100`, the even one on a tie, and lies in [0, 100]; a percentage below 20 means a low tier and one above 65 a high tier; a low tier shows at most 20 and a high tier at least 65 |
| Risk.RiskPercentIsDetermined | app.py:33 | those first promises determine the rounded percentage uniquely |
| Risk.ShownPercentCanReachThreshold | app.py:33-38 | rounding can put the percentage on a threshold from the tier below: probability 0.199996 is low and shows 20.0, and 0.649996 is medium and shows 65.0 |
| Service.Report | app.py:33-40 | the reported percentage lies in [0, 100] and within 0.005 of `prob * 100`; the label names the probability's tier; the message and colour are that tier's |
| Service.LabelAgreesWithPercent | app.py:33-40 | a percentage below 20 is labelled low and one above 65 high; a low label shows at most 20, a medium one between 20 and 65, a high one at least 65 |
| Service.ShownPercentCanContradictLabel | app.py:33-38 | the reply for probability 0.199996 shows 20.0 with "LOW RISK", and for 0.649996 it shows 65.0 with "MEDIUM RISK" |
| Service.PredictRisk | app.py:28-40 | succeeds exactly when the frame assembles; the percentage is within 0.005 of 100 times the classifier's probability on the scaled frame; the reply is that probability's report |
| Service.Predict | app.py:51-84 | the reply is a client error exactly when normalisation fails, carrying its error; otherwise it is the assessment of the normalised request |
| Service.NormalisedAssembles | app.py:55-76 | after normalisation the frame always assembles; non-numeric columns never cause an error |
| Service.NormaliseReadsOnlyManagedFields | app.py:55-74 | requests that agree on the managed fields (the count aside when neither keeps it) normalise alike on every schema column |
| Service.PredictReadsOnlyManagedFields | app.py:51-84 | such requests get the same reply |
| Service.PredictIgnoresOtherFields | app.py:29-30 | a field outside the 16-column schema never changes the reply, whatever its value |
| Service.PregnanciesIgnoredUnlessFemale | app.py:66-69 | unless the raw gender's flag is 0, the pregnancy count never changes the reply, even when `int()` would reject it |
| Service.MalformedNumberIsRejected | app.py:72-84 | a numeric field that `float()` rejects makes the reply a client error about the count or a numeric field; no default is substituted |
| Service.MalformedCountIsRejected | app.py:66-84 | when the gender's flag is 0 and the count cannot be coerced with `int()`, the reply is exactly the client error about the count |
| Scenarios.YesNoSpellings | app.py:25-26 | "Yes", "YES", "y" and "Y" give 1; "no", "yes " (with a space), "true", the number 1, JSON `true` and null give 0 |
| Scenarios.GenderSpellings | app.py:62-63 | "Male", "M" and "mALe" give 1; "female", "F", "man", the number 1 and null give 0 |
| Scenarios.SeparatorsAreNotSkipped | app.py:67-74 | a count sent as "\x1c2" and a number sent as "\x1f1" are refused: the separators U+001C to U+001F are not skipped as whitespace |

## Left out

- Flask routing, the `/` page (`render_template`), reading the body and `jsonify`. These are HTTP plumbing. `Service.Predict` returns the reply's content as a `Response` value.
- Loading the scaler and classifier with joblib, and what they compute. Both are parameters (`Features.Scaler`, `Service.Classifier`), and every property holds for all of them.
- Exceptions raised inside the scaler or the classifier. Both are modelled as total functions.
- A request body that is not a JSON object: missing, an array or a scalar. Values that are arrays or objects are left out too. `Values.Value` covers JSON scalars only.
- Values.Value: has no non-finite floats. Python's JSON decoder also accepts the literals `NaN`, `Infinity` and `-Infinity`. Their `str()` is "nan", "inf" and "-inf". `float()` passes them through, so `{"age": NaN}` reaches the scaler and the classifier, and this model does not say what they do with it. `int()` raises on them, so a kept pregnancy count of `NaN` is a client error. The model states neither case.
- Values.Value: does not exclude integers of more than 4300 digits. The JSON decoder refuses such literals, so a request never holds one.
- Risk.RiskPercent: rounds the exact real `prob * 100` half to even. The source multiplies and rounds IEEE doubles, so the product may carry a representation error and a tie may fall differently. Probabilities are exact reals, and the thresholds 0.20 and 0.65 are compared exactly.
- Text.Lower: ASCII case mapping only; Python's Unicode `lower()` also maps non-ASCII capitals.
- Text.Strip: strips space and U+0009 to U+000D, the ASCII whitespace `int()` and `float()` skip; the separators U+001C to U+001F are kept, as there. Python's `int()` and `float()` also strip non-ASCII whitespace such as U+0085 and U+00A0, which the model does not.
- Text.ParseInteger: accepts optional whitespace, a sign and 1 to 4300 decimal digits; longer strings fail, as in CPython's default limit on integer string conversion. Python's `int()` also accepts underscores between digits and non-ASCII digits. The model treats those as failures.
- Text.ParseDecimal: accepts a sign, digits and at most one point, with at least one digit. Python's `float()` also accepts exponents, `inf`, `nan`, underscores and non-ASCII decimal digits (`float("\u0663")` is 3.0). The model treats those as failures. The model also returns the exact decimal value, where `float()` returns the nearest double (`float("31.2")` is not exactly 31.2).
- Text.RealText: `str()` of a float is approximated as sign, integer digits, a point and up to 17 fraction digits, with no exponent form. It is used only to compare against the yes/no and gender words, which no rendering of a number can spell.
- Values.PyFloat: does not model the `OverflowError` that `float()` raises for integers beyond the double range, or the rounding of large integers to doubles.
- The text of Python's exception messages. An error is the `Error` value naming the failing field and coercion.

## Notes

- The label is chosen from the unrounded probability, but the reply shows the rounded percentage. Within 0.005 of a threshold the two can disagree: probability 0.199996 is reported as 20.0 with "LOW RISK" (`Service.ShownPercentCanContradictLabel`). The model keeps this behaviour as written.
- `get_yes_no` and the gender rule compare the lower-cased `str()` of the value. As a result only strings can say yes: the number 1 and JSON `true` both give flag 0 (`Scenarios.YesNoSpellings`, `Normaliser.YesNo`). Every number and boolean gives flag 0. The model keeps this behaviour as written.
- The pregnancy step tests `data.get("gender") == 0` after the gender has been rewritten to a flag. `Normaliser.CountedKeepsNumerics` proves this is the same as "the raw gender's flag is 0". A request without a gender therefore always gets pregnancy count 0.
