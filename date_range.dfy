/** Reading a month number out of a date string, and the one-month range rule built on it. */
module DateRange {
  import opened Wrappers
  import opened KotlinStrings

  /** `String.month()`: `substring(2, 5).toInt()`, the number written at offsets 2, 3 and 4. `None` stands
      for the exception Kotlin throws: `StringIndexOutOfBoundsException` for a string shorter than five
      characters, `NumberFormatException` when those three characters are not an integer. */
  function Month(s: string): (r: Option<int>)
    ensures r.Some? ==> |s| >= 5 && -99 <= r.value <= 999
  {
    if |s| < 5 then None
    else
      var t := s[2..5];
      if ParseInt(t).None? then None
      else if t[0] == '-' || t[0] == '+' then
        ParseIntValue(t);
        DigitsValueBelow(t[1..]);
        ParseInt(t)
      else
        ParseIntValue(t);
        DigitsValueBelow(t);
        ParseInt(t)
  }

  /** `month()` succeeds exactly when offsets 3 and 4 hold digits and offset 2 holds a digit or a sign. */
  lemma MonthDefinedIff(s: string)
    ensures Month(s).Some? <==>
      |s| >= 5 && IsDigit(s[3]) && IsDigit(s[4]) && (IsDigit(s[2]) || s[2] == '-' || s[2] == '+')
  {
    if |s| >= 5 {
      var t := s[2..5];
      assert t[0] == s[2] && t[1] == s[3] && t[2] == s[4];
      assert t[1..][0] == s[3] && t[1..][1] == s[4];
      if AllDigits(t[1..]) {
        DigitsValueBelow(t[1..]);
      }
      if AllDigits(t) {
        DigitsValueBelow(t);
      }
    }
  }

  /** With digits at offsets 2 to 4, `month()` is the three-digit number they spell. */
  lemma MonthOfDigits(s: string)
    requires |s| >= 5 && IsDigit(s[2]) && IsDigit(s[3]) && IsDigit(s[4])
    ensures Month(s) == Some(100 * DigitValue(s[2]) + 10 * DigitValue(s[3]) + DigitValue(s[4]))
  {
    var t := s[2..5];
    assert t[0] == s[2] && t[1] == s[3] && t[2] == s[4];
    ThreeDigits(t);
    DigitsValueBelow(t);
  }

  /** With a sign at offset 2, `month()` is the signed two-digit number at offsets 3 and 4. */
  lemma MonthOfSigned(s: string)
    requires |s| >= 5 && (s[2] == '-' || s[2] == '+') && IsDigit(s[3]) && IsDigit(s[4])
    ensures Month(s) == Some((if s[2] == '-' then -1 else 1) * (10 * DigitValue(s[3]) + DigitValue(s[4])))
  {
    var t := s[2..5];
    assert t[1..][0] == s[3] && t[1..][1] == s[4];
    TwoDigits(t[1..]);
  }

  /** `isInValidRange(dateFrom, dateUntil)`: `dateUntil.month() - dateFrom.month() <= 1`, taking the month of
      `dateUntil` first; `None` when either `month()` throws. */
  function IsInValidRange(dateFrom: string, dateUntil: string): (r: Option<bool>)
  {
    match Month(dateUntil)
    case None => None
    case Some(until) =>
      match Month(dateFrom)
      case None => None
      case Some(from) => Some(until - from <= 1)
  }

  /** The range rule throws exactly when one of the two months cannot be read, and otherwise holds exactly
      when the later month is at most one above the earlier one (any backwards gap is accepted). */
  lemma RangeRule(dateFrom: string, dateUntil: string)
    ensures IsInValidRange(dateFrom, dateUntil).None? <==> Month(dateFrom).None? || Month(dateUntil).None?
    ensures IsInValidRange(dateFrom, dateUntil) == Some(true) <==>
      Month(dateFrom).Some? && Month(dateUntil).Some? && Month(dateUntil).value <= Month(dateFrom).value + 1
  {
  }

  /** Under a `ddMMyyyy` layout, offsets 2 to 4 are the month followed by the first digit of the year, so
      January and February of the same year read as 12 and 22 and fall outside the rule. */
  lemma AdjacentMonthsOutOfRange()
    ensures Month("01012021") == Some(12) && Month("01022021") == Some(22)
    ensures IsInValidRange("01012021", "01022021") == Some(false)
  {
    MonthOfDigits("01012021");
    MonthOfDigits("01022021");
  }

  /** Under a `ddMMyyyy` layout, any two dates of one year whose months are consecutive fail the rule: offset 4
      is the same first year digit in both, so the read values differ by ten. */
  lemma AdjacentMonthsAll(dateFrom: string, dateUntil: string)
    requires |dateFrom| == 8 && |dateUntil| == 8 && AllDigits(dateFrom) && AllDigits(dateUntil)
    requires dateFrom[4] == dateUntil[4]
    requires 10 * DigitValue(dateUntil[2]) + DigitValue(dateUntil[3])
             == 10 * DigitValue(dateFrom[2]) + DigitValue(dateFrom[3]) + 1
    ensures IsInValidRange(dateFrom, dateUntil) == Some(false)
  {
    MonthOfDigits(dateFrom);
    MonthOfDigits(dateUntil);
  }

  /** Under a `ddMMMyyyy` layout with month names, `month()` throws. */
  lemma NamedMonthNotReadable()
    ensures Month("01Jan2021") == None && IsInValidRange("01Jan2021", "01Mar2021") == None
  {
    MonthDefinedIff("01Jan2021");
    MonthDefinedIff("01Mar2021");
  }
}
