/** The fixed field names of the service: the 16-column feature schema the
    scaler and classifier were fitted with, the five numeric columns the scaler
    standardises, and the fields the request normaliser rewrites.
 */
module Schema {

  /** The column order of the feature vector (`final_features`). */
  const FinalFeatures: seq<string> := [
    "gender", "age", "bmi", "hypertension", "cholesterol", "physical_activity",
    "heart_disease", "smoker", "blood_glucose_level", "insulin", "skin_thickness",
    "family_history", "pregnancies", "polyuria", "polydipsia", "polyphagia"
  ]

  /** The columns the scaler standardises, in the order it expects them
      (`numeric_features`; the normaliser coerces the same five fields to float). */
  const NumericFeatures: seq<string> := ["age", "bmi", "blood_glucose_level", "insulin", "skin_thickness"]

  /** The yes/no fields the normaliser turns into 0/1 flags, in its order. */
  const YesNoFields: seq<string> := [
    "hypertension", "cholesterol", "physical_activity", "heart_disease", "smoker",
    "family_history", "polyuria", "polydipsia", "polyphagia"
  ]

  const GenderField: string := "gender"

  const PregnanciesField: string := "pregnancies"

  predicate Distinct<T(==)>(s: seq<T>) {
    forall i, j :: 0 <= i < j < |s| ==> s[i] != s[j]
  }

  /** The field is one the normaliser rewrites. */
  predicate Managed(k: string) {
    k in YesNoFields || k in NumericFeatures || k == GenderField || k == PregnanciesField
  }

  /** The normaliser's four groups of fields are pairwise disjoint and free of
      repeats, so that each field is rewritten by one rule only. */
  lemma GroupsAreDisjoint()
    ensures Distinct(NumericFeatures) && Distinct(YesNoFields)
    ensures forall k :: k in NumericFeatures ==> k !in YesNoFields
    ensures GenderField !in YesNoFields && GenderField !in NumericFeatures
    ensures PregnanciesField !in YesNoFields && PregnanciesField !in NumericFeatures
    ensures GenderField != PregnanciesField
  {
  }

  /** The fields the normaliser rewrites are exactly the columns of the
      schema: every column has a rule, and every rule feeds a column. */
  lemma ManagedIsSchema()
    ensures forall k :: k in FinalFeatures <==> Managed(k)
  {
  }

  /** The schema has 16 columns, none repeated, five of them numeric. */
  lemma SchemaHasNoRepeats()
    ensures |FinalFeatures| == 16 && |NumericFeatures| == 5 && |YesNoFields| == 9
    ensures Distinct(FinalFeatures) && Distinct(NumericFeatures)
    ensures forall k :: k in NumericFeatures ==> k in FinalFeatures
  {
  }
}
