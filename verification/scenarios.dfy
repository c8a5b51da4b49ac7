/** The flags the rules give to concrete values: the spellings that count as
    yes and as male, and near misses that do not; and the separator
    characters the coercions refuse.
 */
module Scenarios {
  import opened Results
  import opened Text
  import opened Values
  import opened Normaliser

  /** Any capitalisation of "yes" or "y" is a yes; nothing else is, not even
      the number 1, JSON `true`, or "yes" with a space around it. */
  lemma YesNoSpellings()
    ensures YesNo(Str("Yes")) == 1 && YesNo(Str("YES")) == 1 && YesNo(Str("y")) == 1 && YesNo(Str("Y")) == 1
    ensures YesNo(Str("no")) == 0 && YesNo(Str("yes ")) == 0 && YesNo(Str("true")) == 0
    ensures YesNo(Int(1)) == 0 && YesNo(Bool(true)) == 0 && YesNo(Null) == 0
  {
    assert EqualsIgnoringCase("YES", "yes");
    assert EqualsIgnoringCase("Yes", "yes");
    assert EqualsIgnoringCase("Y", "y");
  }

  /** "Male" and "m" in any case give flag 1; every other value gives 0. */
  lemma GenderSpellings()
    ensures GenderFlag(Str("Male")) == 1 && GenderFlag(Str("M")) == 1 && GenderFlag(Str("mALe")) == 1
    ensures GenderFlag(Str("female")) == 0 && GenderFlag(Str("F")) == 0 && GenderFlag(Str("man")) == 0
    ensures GenderFlag(Int(1)) == 0 && GenderFlag(Null) == 0
  {
    assert EqualsIgnoringCase("Male", "male");
    assert EqualsIgnoringCase("mALe", "male");
    assert EqualsIgnoringCase("M", "m");
    assert |"man"| == 3 && "F"[0] == 'F' && UpperChar('m') == 'M';
  }

  /** The separators U+001C to U+001F are not skipped: a count sent as
      "\x1c2" is refused, and so is a number sent as "\x1f1". */
  lemma SeparatorsAreNotSkipped()
    ensures PyInt(Str("\U{1C}2")) == None
    ensures PyFloat(Str("\U{1F}1")) == None
  {
    LeadingJunkIsRefused("\U{1C}2");
    LeadingJunkIsRefused("\U{1F}1");
  }
}
