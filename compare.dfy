/**
  The side-by-side comparison of two customer records: the CSS class
  `highlight_differences` gives a pair of field values, the ✅/⚠️ indicator
  the review screens print next to each field label, and the text shown
  for a value.
 */
module Compare {
  import opened Tables
  import Text

  /** `str(v)`: a NULL renders as `None`. */
  function Str(v: Value): (s: string)
    ensures v.Val? ==> s == v.text
  {
    match v
    case Null => "None"
    case Val(t) => t
  }

  /** `str(v).strip().lower()`. */
  function Normalize(v: Value): string {
    Text.Lower(Text.Strip(Str(v)))
  }

  /** The CSS class of a compared field: `''`, `'field-diff'` or `'field-match'`. */
  datatype FieldClass = NoClass | FieldDiff | FieldMatch

  /**
    `highlight_differences(val1, val2)`: two NULLs get no class, a NULL
    against a value is a difference, and two values match exactly when they
    agree after trimming and lower-casing.
   */
  function HighlightDifferences(v1: Value, v2: Value): (c: FieldClass)
    ensures c == NoClass <==> v1.Null? && v2.Null?
    ensures c == FieldMatch <==> v1.Val? && v2.Val? && Normalize(v1) == Normalize(v2)
    ensures c == FieldDiff <==> (v1.Null? != v2.Null?) || (v1.Val? && v2.Val? && Normalize(v1) != Normalize(v2))
  {
    if v1.Null? || v2.Null? then (if v1 != v2 then FieldDiff else NoClass)
    else if Normalize(v1) == Normalize(v2) then FieldMatch
    else FieldDiff
  }

  /** The comparison does not depend on which record is on the left. */
  lemma HighlightSymmetric(v1: Value, v2: Value)
    ensures HighlightDifferences(v1, v2) == HighlightDifferences(v2, v1)
  {
  }

  /** Whitespace around a value does not make a difference. */
  lemma HighlightIgnoresPadding(w1: string, t: string, w2: string, u: string)
    requires Text.AllSpace(w1) && Text.AllSpace(w2)
    ensures HighlightDifferences(Val(w1 + t + w2), Val(u)) == HighlightDifferences(Val(t), Val(u))
  {
    Text.StripPadded(w1, t, w2);
  }

  /** Values that differ only in letter case match. */
  lemma HighlightIgnoresCase(t: string, u: string)
    requires Text.Lower(t) == Text.Lower(u)
    ensures HighlightDifferences(Val(t), Val(u)) == FieldMatch
  {
    Text.StripLower(t);
    Text.StripLower(u);
  }

  /** The indicator next to a field label. */
  datatype Indicator = Check | Warn

  /** `"✅" if str(val1) == str(val2) else "⚠️"`: exact, case- and space-sensitive. */
  function MatchIndicator(v1: Value, v2: Value): (i: Indicator)
    ensures i == Check <==> Str(v1) == Str(v2)
    ensures v1 == v2 ==> i == Check
  {
    if Str(v1) == Str(v2) then Check else Warn
  }

  /** The indicator is the same on both cards of the comparison. */
  lemma IndicatorSymmetric(v1: Value, v2: Value)
    ensures MatchIndicator(v1, v2) == MatchIndicator(v2, v1)
  {
  }

  /** Between two non-NULL values, a ✅ always comes with the `field-match` class. */
  lemma CheckImpliesMatch(v1: Value, v2: Value)
    requires v1.Val? && v2.Val?
    requires MatchIndicator(v1, v2) == Check
    ensures HighlightDifferences(v1, v2) == FieldMatch
  {
  }

  /** A difference in letter case matches for the CSS class but gets ⚠️. */
  lemma CaseDifferenceDisagrees()
    ensures MatchIndicator(Val("a"), Val("A")) == Warn
    ensures HighlightDifferences(Val("a"), Val("A")) == FieldMatch
  {
    assert Text.Lower("a")[0] == Text.Lower("A")[0];
    HighlightIgnoresCase("a", "A");
    assert Str(Val("a"))[0] != Str(Val("A"))[0];
  }

  /** A NULL against the text `None` gets ✅ but is a difference for the CSS class. */
  lemma NullAgainstNoneDisagrees()
    ensures MatchIndicator(Null, Val("None")) == Check
    ensures HighlightDifferences(Null, Val("None")) == FieldDiff
  {
  }

  /** A column that neither customer row has compares as two NULLs: no class, and ✅. */
  lemma MissingColumnBothSides(first: Customer, second: Customer, key: string)
    requires key !in first.fields && key !in second.fields
    ensures HighlightDifferences(Field(first, key), Field(second, key)) == NoClass
    ensures MatchIndicator(Field(first, key), Field(second, key)) == Check
  {
  }

  /** `str(v) if v else "—"`: NULL and the empty string show as a dash. */
  function Shown(v: Value): (s: string)
    ensures s == "—" <==> v.Null? || v.text == "" || v.text == "—"
    ensures v.Val? && v.text != "" ==> s == Str(v)
  {
    if v.Null? || v.text == "" then "—" else v.text
  }
}
