/** The date-picker questions that hold logic of their own: the date-input
    format classifier and the two tolerant reads. A browser read is an
    abstract input (`Result`): its value, or the failure it rejected with. */
module DatePickerQuestions {
  import opened Outcomes

  /** The two answers the format question can give. */
  const AcceptedLabel: string := "MM/DD/YYYY"
  const InvalidLabel: string := "INVALID"

  /** `\d` of a JavaScript regular expression: an ASCII digit only. */
  predicate IsAsciiDigit(c: char)
  {
    '0' <= c <= '9'
  }

  /** The month group `0[1-9]|1[0-2]`. */
  predicate MonthField(hi: char, lo: char)
  {
    || (hi == '0' && '1' <= lo <= '9')
    || (hi == '1' && '0' <= lo <= '2')
  }

  /** The day group `0[1-9]|[12][0-9]|3[01]`. */
  predicate DayField(hi: char, lo: char)
  {
    || (hi == '0' && '1' <= lo <= '9')
    || ((hi == '1' || hi == '2') && IsAsciiDigit(lo))
    || (hi == '3' && (lo == '0' || lo == '1'))
  }

  /** The anchored date pattern, position by position: every alternative of
      both groups is two characters wide, so `^` and `$` fix the length at
      ten. */
  predicate MatchesDatePattern(s: string)
  {
    && |s| == 10
    && MonthField(s[0], s[1])
    && s[2] == '/'
    && DayField(s[3], s[4])
    && s[5] == '/'
    && IsAsciiDigit(s[6]) && IsAsciiDigit(s[7]) && IsAsciiDigit(s[8]) && IsAsciiDigit(s[9])
  }

  /** Classifies the date input's value. */
  function ClassifyDateInput(value: string): (verdict: string)
    ensures verdict == AcceptedLabel || verdict == InvalidLabel
    ensures verdict == AcceptedLabel ==>
      && |value| == 10 && value[2] == '/' && value[5] == '/'
      && forall i | 0 <= i < 10 && i != 2 && i != 5 :: IsAsciiDigit(value[i])
  {
    if MatchesDatePattern(value) then AcceptedLabel else InvalidLabel
  }

  /** The question as asked of the page: a failed read of the input value
      is passed on; a value read is always classified, never an error. */
  function DateInputFormat(inputValue: Result<string>): (answer: Result<string>)
    ensures answer.Err? <==> inputValue.Err?
    ensures inputValue.Err? ==> answer.error == inputValue.error
    ensures inputValue.Ok? ==> answer.value == ClassifyDateInput(inputValue.value)
  {
    match inputValue
    case Err(e) => Err(e)
    case Ok(v) => Ok(ClassifyDateInput(v))
  }

  // Reference definition of an accepted value, by the numbers the fields
  // denote rather than by the pattern's alternatives.

  function DigitValue(c: char): int
  {
    c as int - '0' as int
  }

  /** The number a two-digit field denotes. */
  function FieldValue(hi: char, lo: char): int
  {
    10 * DigitValue(hi) + DigitValue(lo)
  }

  /** Ten characters, `/` at indices 2 and 5, ASCII digits everywhere else. */
  predicate HasDateShape(s: string)
  {
    && |s| == 10 && s[2] == '/' && s[5] == '/'
    && forall i | 0 <= i < 10 && i != 2 && i != 5 :: IsAsciiDigit(s[i])
  }

  /** A month from 1 to 12 and a day from 1 to 31; no check that the month
      has that many days. */
  predicate IsLooseDate(s: string)
  {
    HasDateShape(s) && 1 <= FieldValue(s[0], s[1]) <= 12 && 1 <= FieldValue(s[3], s[4]) <= 31
  }

  lemma MonthFieldIsRange(hi: char, lo: char)
    ensures MonthField(hi, lo) <==> IsAsciiDigit(hi) && IsAsciiDigit(lo) && 1 <= FieldValue(hi, lo) <= 12
  {
  }

  lemma DayFieldIsRange(hi: char, lo: char)
    ensures DayField(hi, lo) <==> IsAsciiDigit(hi) && IsAsciiDigit(lo) && 1 <= FieldValue(hi, lo) <= 31
  {
  }

  /** The classifier accepts exactly the loose dates. */
  lemma ClassifyAcceptsLooseDates(s: string)
    ensures ClassifyDateInput(s) == AcceptedLabel <==> IsLooseDate(s)
  {
  }

  /** Because of the anchors, nothing may precede or follow an accepted value. */
  lemma SurroundingCharactersRejected(s: string, c: char)
    requires ClassifyDateInput(s) == AcceptedLabel
    ensures ClassifyDateInput([c] + s) == InvalidLabel
    ensures ClassifyDateInput(s + [c]) == InvalidLabel
  {
  }

  /** The edge cases of the pattern, value by value. */
  lemma ClassifyExamples()
    ensures ClassifyDateInput("06/15/2025") == AcceptedLabel
    ensures ClassifyDateInput("00/15/2025") == InvalidLabel
    ensures ClassifyDateInput("13/15/2025") == InvalidLabel
    ensures ClassifyDateInput("6/15/2025") == InvalidLabel
    ensures ClassifyDateInput("06/00/2025") == InvalidLabel
    ensures ClassifyDateInput("06/32/2025") == InvalidLabel
    ensures ClassifyDateInput("02/31/2025") == AcceptedLabel
    ensures ClassifyDateInput("04/31/2025") == AcceptedLabel
    ensures ClassifyDateInput("06/15/202") == InvalidLabel
    ensures ClassifyDateInput("06/15/20255") == InvalidLabel
    ensures ClassifyDateInput("06-15-2025") == InvalidLabel
    ensures ClassifyDateInput("") == InvalidLabel
  {
  }

  /** JavaScript's `text || ''`: `null` and the empty string are both falsy,
      so both give `''`; any other text is passed through. */
  function OrEmpty(text: Option<string>): (r: string)
    ensures text.None? ==> r == ""
    ensures text.Some? ==> r == text.value
  {
    if text.None? || text.value == "" then "" else text.value
  }

  /** `CurrentMonth` and `CurrentYear`: the text of the dropdown's checked
      option, or `''` when it has none; a failed read is passed on. */
  function CheckedOptionText(textContent: Result<Option<string>>): (answer: Result<string>)
    ensures textContent.Err? ==> answer == Err(textContent.error)
    ensures textContent == Ok(None) ==> answer == Ok("")
    ensures textContent.Ok? && textContent.value.Some? ==> answer == Ok(textContent.value.value)
  {
    match textContent
    case Err(e) => Err(e)
    case Ok(text) => Ok(OrEmpty(text))
  }

  /** `IsDateEnabled`: the day link's visibility, where a failure of the
      lookup or of the visibility check is caught and answered `false`. */
  function IsDateEnabled(visible: Result<bool>): (enabled: bool)
    ensures enabled <==> visible == Ok(true)
  {
    match visible
    case Ok(v) => v
    case Err(_) => false
  }
}
