/** The request normaliser of the `/predict` handler: yes/no fields become 0/1
    flags, gender becomes a 0/1 flag, the pregnancy count survives only for a
    subject whose gender flag is 0, and the numeric fields are coerced to float.
    Any failed coercion rejects the request.
 */
module Normaliser {
  import opened Results
  import opened Text
  import opened Values
  import opened Schema

  /** A decoded request body: field name to JSON value. */
  type Request = map<string, Value>

  /** A word of letters matches the lower-cased string form of a value exactly
      when the value is a string spelling that word in some mixture of cases. */
  lemma SpellsWord(v: Value, w: string)
    requires |w| > 0 && AllLowerLetters(w)
    requires w != "true" && w != "false" && w != "none"
    ensures Lower(StrForm(v)) == w <==> v.Str? && EqualsIgnoringCase(v.s, w)
  {
    if v.Str? {
      LowerIsWordIffCaseVariant(v.s, w);
    } else {
      NonStringSpellsNoWord(v, w);
    }
  }

  /** The flag rule shared by `get_yes_no` and the gender field: 1 when the
      lower-cased string form of the value is one of two letter words, else 0. */
  function WordFlag(v: Value, long: string, short: string): (r: int)
    requires |long| > 0 && AllLowerLetters(long) && long != "true" && long != "false" && long != "none"
    requires |short| > 0 && AllLowerLetters(short) && short != "true" && short != "false" && short != "none"
    ensures r == 0 || r == 1
    ensures r == 1 <==> v.Str? && (EqualsIgnoringCase(v.s, long) || EqualsIgnoringCase(v.s, short))
  {
    SpellsWord(v, long);
    SpellsWord(v, short);
    var t := Lower(StrForm(v));
    if t == long || t == short then 1 else 0
  }

  /** `get_yes_no`: only a string spelling "yes" or "y" says yes; the number 1
      and JSON `true` both give 0. */
  function YesNo(v: Value): (r: int)
    ensures r == 0 || r == 1
    ensures r == 1 <==> v.Str? && (EqualsIgnoringCase(v.s, "yes") || EqualsIgnoringCase(v.s, "y"))
  {
    WordFlag(v, "yes", "y")
  }

  /** The gender flag: 1 for a string spelling "male" or "m", else 0. */
  function GenderFlag(v: Value): (r: int)
    ensures r == 0 || r == 1
    ensures r == 1 <==> v.Str? && (EqualsIgnoringCase(v.s, "male") || EqualsIgnoringCase(v.s, "m"))
  {
    WordFlag(v, "male", "m")
  }

  /** Python's `v == 0`, which also holds of `0.0` and `False`. */
  predicate EqualsZero(v: Value) {
    match v
    case Int(n) => n == 0
    case Real(x) => x == 0.0
    case Bool(b) => !b
    case _ => false
  }

  // ---------------------------------------------------------------------------
  // The four steps, in the order the handler runs them

  /** Step 1: every listed field that is present is replaced by its yes/no flag. */
  function ApplyYesNo(data: Request, keys: seq<string>): (r: Request)
    requires Distinct(keys)
    ensures r.Keys == data.Keys
    ensures forall k :: k in keys && k in data ==> r[k] == Int(YesNo(data[k]))
    ensures forall k :: k in data && k !in keys ==> r[k] == data[k]
    decreases |keys|
  {
    if keys == [] then data
    else
      var k := keys[0];
      var next := if k in data then data[k := Int(YesNo(data[k]))] else data;
      ApplyYesNo(next, keys[1..])
  }

  /** Step 2: a present gender field is replaced by its gender flag. */
  function ApplyGender(data: Request): (r: Request)
    ensures r.Keys == data.Keys
    ensures GenderField in data ==> r[GenderField] == Int(GenderFlag(data[GenderField]))
    ensures forall k :: k in data && k != GenderField ==> r[k] == data[k]
  {
    if GenderField in data then data[GenderField := Int(GenderFlag(data[GenderField]))] else data
  }

  /** `data.get("gender") == 0 and "pregnancies" in data`, on the map after step 2. */
  predicate KeepsPregnancies(data: Request) {
    GenderField in data && EqualsZero(data[GenderField]) && PregnanciesField in data
  }

  /** Step 3: the pregnancy count is coerced with `int()` when it is kept, and
      set to 0 otherwise; either way the field is present afterwards. */
  function ApplyPregnancies(data: Request): (r: Result<Request>)
    ensures r.Ok? <==> !KeepsPregnancies(data) || PyInt(data[PregnanciesField]).Some?
    ensures r.Err? ==> r.error == CoercionFailed(PregnanciesField, ToInt)
    ensures r.Ok? ==> r.value.Keys == data.Keys + {PregnanciesField}
    ensures r.Ok? && KeepsPregnancies(data) ==> r.value[PregnanciesField] == Int(PyInt(data[PregnanciesField]).value)
    ensures r.Ok? && !KeepsPregnancies(data) ==> r.value[PregnanciesField] == Int(0)
    ensures r.Ok? ==> forall k :: k in data && k != PregnanciesField ==> r.value[k] == data[k]
  {
    if KeepsPregnancies(data) then
      match PyInt(data[PregnanciesField])
      case Some(n) => Ok(data[PregnanciesField := Int(n)])
      case None => Err(CoercionFailed(PregnanciesField, ToInt))
    else
      Ok(data[PregnanciesField := Int(0)])
  }

  /** `keys[i]` is the first listed field, in list order, that is present and
      that `float()` rejects. */
  predicate FailsFirst(data: Request, keys: seq<string>, i: int) {
    && 0 <= i < |keys|
    && keys[i] in data
    && PyFloat(data[keys[i]]).None?
    && forall j :: 0 <= j < i && keys[j] in data ==> PyFloat(data[keys[j]]).Some?
  }

  /** Step 4: every listed field that is present is coerced with `float()`; the
      first one that cannot be coerced rejects the request. */
  function ApplyFloats(data: Request, keys: seq<string>): (r: Result<Request>)
    requires Distinct(keys)
    ensures r.Ok? <==> forall k :: k in keys && k in data ==> PyFloat(data[k]).Some?
    ensures r.Err? ==> exists i :: FailsFirst(data, keys, i) && r.error == CoercionFailed(keys[i], ToFloat)
    ensures r.Ok? ==> r.value.Keys == data.Keys
    ensures r.Ok? ==> forall k :: k in keys && k in data ==> r.value[k] == Real(PyFloat(data[k]).value)
    ensures r.Ok? ==> forall k :: k in data && k !in keys ==> r.value[k] == data[k]
    decreases |keys|
  {
    if keys == [] then Ok(data)
    else
      var k := keys[0];
      if k !in data then
        var r := ApplyFloats(data, keys[1..]);
        FailsFirstShifts(data, data, keys);
        r
      else
        match PyFloat(data[k])
        case None =>
          assert FailsFirst(data, keys, 0);
          Err(CoercionFailed(k, ToFloat))
        case Some(x) =>
          var r := ApplyFloats(data[k := Real(x)], keys[1..]);
          FailsFirstShifts(data, data[k := Real(x)], keys);
          r
  }

  /** A first failure in the rest of the list is a first failure in the whole
      list, when the head field coerces (or is absent) and the rest of the list
      sees the same values. */
  lemma FailsFirstShifts(data: Request, next: Request, keys: seq<string>)
    requires Distinct(keys) && |keys| > 0
    requires keys[0] in data ==> PyFloat(data[keys[0]]).Some?
    requires forall k :: k in keys[1..] ==> (k in next <==> k in data)
    requires forall k :: k in keys[1..] && k in data ==> next[k] == data[k]
    ensures forall i :: FailsFirst(next, keys[1..], i) ==> FailsFirst(data, keys, i + 1)
  {
    forall i | FailsFirst(next, keys[1..], i)
      ensures FailsFirst(data, keys, i + 1)
    {
      assert keys[1..][i] == keys[i + 1];
      forall j | 0 <= j < i + 1 && keys[j] in data
        ensures PyFloat(data[keys[j]]).Some?
      {
        if j > 0 {
          assert keys[1..][j - 1] == keys[j];
        }
      }
    }
  }

  // ---------------------------------------------------------------------------
  // The whole normaliser, described in terms of the raw request

  /** The raw request names a gender whose flag is 0 and carries a pregnancy count. */
  predicate FemaleWithCount(data: Request) {
    GenderField in data && GenderFlag(data[GenderField]) == 0 && PregnanciesField in data
  }

  /** The normaliser's `int()` on the pregnancy count succeeds or is not attempted. */
  predicate PregnanciesCoerce(data: Request) {
    !FemaleWithCount(data) || PyInt(data[PregnanciesField]).Some?
  }

  /** The normaliser's `float()` succeeds on every numeric field present. */
  predicate NumericsCoerce(data: Request) {
    FloatsCoerce(data, NumericFeatures)
  }

  /** The field lists the steps work on, with the separation the handler's
      literal lists have: no repeats, and no field in two groups. */
  predicate Separated(yes: seq<string>, num: seq<string>) {
    && Distinct(yes) && Distinct(num)
    && (forall k :: k in num ==> k !in yes)
    && GenderField !in yes && GenderField !in num
    && PregnanciesField !in yes && PregnanciesField !in num
  }

  lemma HandlerListsAreSeparated()
    ensures Separated(YesNoFields, NumericFeatures)
  {
    GroupsAreDisjoint();
  }

  /** Steps 1 to 4 in order, over the given yes/no and numeric field lists. */
  function Steps(data: Request, yes: seq<string>, num: seq<string>): Result<Request>
    requires Separated(yes, num)
  {
    var gendered := ApplyGender(ApplyYesNo(data, yes));
    match ApplyPregnancies(gendered)
    case Err(e) => Err(e)
    case Ok(counted) => ApplyFloats(counted, num)
  }

  /** The raw request's numeric fields all coerce. */
  predicate FloatsCoerce(data: Request, num: seq<string>) {
    forall k :: k in num && k in data ==> PyFloat(data[k]).Some?
  }

  /** Steps 1 to 3 turn "raw gender flag is 0" into the `== 0` test of step 3
      and leave the numeric fields as they were sent. */
  lemma CountedKeepsNumerics(data: Request, yes: seq<string>, num: seq<string>)
    requires Separated(yes, num)
    ensures KeepsPregnancies(ApplyGender(ApplyYesNo(data, yes))) <==> FemaleWithCount(data)
    ensures ApplyPregnancies(ApplyGender(ApplyYesNo(data, yes))).Ok? ==>
              var counted := ApplyPregnancies(ApplyGender(ApplyYesNo(data, yes))).value;
              && (forall k :: k in num ==> (k in counted <==> k in data))
              && (forall k :: k in num && k in data ==> counted[k] == data[k])
  {
  }

  /** Two requests that agree on the listed fields have the same first failures. */
  lemma FailsFirstSameValues(a: Request, b: Request, keys: seq<string>)
    requires forall k :: k in keys ==> (k in a <==> k in b)
    requires forall k :: k in keys && k in a ==> a[k] == b[k]
    ensures forall i :: FailsFirst(a, keys, i) <==> FailsFirst(b, keys, i)
  {
  }

  /** When the normaliser fails, and which field it blames. */
  lemma StepsOutcome(data: Request, yes: seq<string>, num: seq<string>)
    requires Separated(yes, num)
    ensures Steps(data, yes, num).Ok? <==> PregnanciesCoerce(data) && FloatsCoerce(data, num)
    ensures Steps(data, yes, num).Err? && !PregnanciesCoerce(data) ==>
              Steps(data, yes, num).error == CoercionFailed(PregnanciesField, ToInt)
    ensures Steps(data, yes, num).Err? && PregnanciesCoerce(data) ==>
              exists i :: FailsFirst(data, num, i) && Steps(data, yes, num).error == CoercionFailed(num[i], ToFloat)
  {
    CountedKeepsNumerics(data, yes, num);
    var gendered := ApplyGender(ApplyYesNo(data, yes));
    if ApplyPregnancies(gendered).Ok? {
      var counted := ApplyPregnancies(gendered).value;
      FailsFirstSameValues(counted, data, num);
    }
  }

  /** What the normaliser's result holds, field group by field group. */
  lemma StepsFields(data: Request, yes: seq<string>, num: seq<string>)
    requires Separated(yes, num)
    requires Steps(data, yes, num).Ok?
    ensures Steps(data, yes, num).value.Keys == data.Keys + {PregnanciesField}
    ensures forall k :: k in yes && k in data ==> Steps(data, yes, num).value[k] == Int(YesNo(data[k]))
    ensures GenderField in data ==> Steps(data, yes, num).value[GenderField] == Int(GenderFlag(data[GenderField]))
    ensures FemaleWithCount(data) ==>
              Steps(data, yes, num).value[PregnanciesField] == Int(PyInt(data[PregnanciesField]).value)
    ensures !FemaleWithCount(data) ==> Steps(data, yes, num).value[PregnanciesField] == Int(0)
    ensures forall k :: k in num && k in data ==> Steps(data, yes, num).value[k] == Real(PyFloat(data[k]).value)
    ensures forall k :: k in data && k !in yes && k !in num && k != GenderField && k != PregnanciesField ==>
              Steps(data, yes, num).value[k] == data[k]
    ensures forall k :: k in Steps(data, yes, num).value && (k in yes || k in num || k == GenderField || k == PregnanciesField) ==>
              Steps(data, yes, num).value[k].Int? || Steps(data, yes, num).value[k].Real?
  {
    CountedKeepsNumerics(data, yes, num);
  }

  /** A first failure is unique. */
  lemma FailsFirstUnique(data: Request, keys: seq<string>, i: int, j: int)
    requires FailsFirst(data, keys, i) && FailsFirst(data, keys, j)
    ensures i == j
  {
  }

  /** Two requests that agree on the fields the steps read (the pregnancy count
      aside, when neither request keeps it) go through the steps alike. */
  lemma StepsReadOnlyTheirFields(a: Request, b: Request, yes: seq<string>, num: seq<string>)
    requires Separated(yes, num)
    requires forall k :: (k in yes || k in num || k == GenderField) ==> (k in a <==> k in b)
    requires forall k :: (k in yes || k in num || k == GenderField) && k in a ==> a[k] == b[k]
    requires (!FemaleWithCount(a) && !FemaleWithCount(b)) ||
             ((PregnanciesField in a <==> PregnanciesField in b) &&
              (PregnanciesField in a ==> a[PregnanciesField] == b[PregnanciesField]))
    ensures Steps(a, yes, num).Ok? <==> Steps(b, yes, num).Ok?
    ensures Steps(a, yes, num).Err? ==> Steps(a, yes, num).error == Steps(b, yes, num).error
    ensures Steps(a, yes, num).Ok? ==>
              forall k :: (k in yes || k in num || k == GenderField || k == PregnanciesField) ==>
                && (k in Steps(a, yes, num).value <==> k in Steps(b, yes, num).value)
                && (k in Steps(a, yes, num).value ==> Steps(a, yes, num).value[k] == Steps(b, yes, num).value[k])
  {
    StepsOutcome(a, yes, num);
    StepsOutcome(b, yes, num);
    assert FemaleWithCount(a) <==> FemaleWithCount(b);
    FailsFirstSameValues(a, b, num);
    if Steps(a, yes, num).Err? && PregnanciesCoerce(a) {
      var i :| FailsFirst(a, num, i) && Steps(a, yes, num).error == CoercionFailed(num[i], ToFloat);
      var j :| FailsFirst(b, num, j) && Steps(b, yes, num).error == CoercionFailed(num[j], ToFloat);
      FailsFirstUnique(a, num, i, j);
    }
    if Steps(a, yes, num).Ok? {
      StepsFields(a, yes, num);
      StepsFields(b, yes, num);
    }
  }

  /** The normalisation block of the handler. */
  function Normalise(data: Request): (r: Result<Request>)
    ensures r.Ok? <==> PregnanciesCoerce(data) && NumericsCoerce(data)
    ensures r.Err? && !PregnanciesCoerce(data) ==> r.error == CoercionFailed(PregnanciesField, ToInt)
    ensures r.Err? && PregnanciesCoerce(data) ==>
              exists i :: FailsFirst(data, NumericFeatures, i) && r.error == CoercionFailed(NumericFeatures[i], ToFloat)
    ensures r.Ok? ==> r.value.Keys == data.Keys + {PregnanciesField}
    ensures r.Ok? ==> forall k :: k in YesNoFields && k in data ==> r.value[k] == Int(YesNo(data[k]))
    ensures r.Ok? && GenderField in data ==> r.value[GenderField] == Int(GenderFlag(data[GenderField]))
    ensures r.Ok? && FemaleWithCount(data) ==> r.value[PregnanciesField] == Int(PyInt(data[PregnanciesField]).value)
    ensures r.Ok? && !FemaleWithCount(data) ==> r.value[PregnanciesField] == Int(0)
    ensures r.Ok? ==> forall k :: k in NumericFeatures && k in data ==> r.value[k] == Real(PyFloat(data[k]).value)
    ensures r.Ok? ==> forall k :: k in data && !Managed(k) ==> r.value[k] == data[k]
    ensures r.Ok? ==> forall k :: k in r.value && Managed(k) ==> r.value[k].Int? || r.value[k].Real?
  {
    HandlerListsAreSeparated();
    StepsOutcome(data, YesNoFields, NumericFeatures);
    var r := Steps(data, YesNoFields, NumericFeatures);
    if r.Ok? then StepsFields(data, YesNoFields, NumericFeatures); r else r
  }
}
