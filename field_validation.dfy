/** The checks `validateAndSearch` runs on the four date fields before it decides whether to search. */
module FieldValidation {
  import opened Wrappers
  import opened KotlinStrings
  import opened DateRange

  /** `TravelFieldErrorType`: the error kind shown beside one input field. */
  datatype FieldError = NoError | BlankField | InvalidRange

  /** `TravelFieldsErrorBody`: one error kind per field, in the order of the form. */
  datatype FieldsErrorBody = FieldsErrorBody(
    startDateFromError: FieldError,
    startDateUntilError: FieldError,
    endDateFromError: FieldError,
    endDateUntilError: FieldError)

  /** `TravelsSearchBody`: the four date strings a search is made with. */
  datatype SearchBody = SearchBody(
    startDateFrom: string,
    startDateUntil: string,
    endDateFrom: string,
    endDateUntil: string)

  /** What the checks leave in the locals `noErrors` and the four `*Error` variables. */
  datatype Checked = Checked(noErrors: bool, errors: FieldsErrorBody)

  predicate NoneBlank(f: SearchBody) {
    !IsBlank(f.startDateFrom) && !IsBlank(f.startDateUntil) && !IsBlank(f.endDateFrom) && !IsBlank(f.endDateUntil)
  }

  function BlankCheck(s: string): FieldError {
    if IsBlank(s) then BlankField else NoError
  }

  /** The error kinds of one from/until pair, decided from that pair alone: a blank field is `BlankField`;
      two non-blank fields are both `InvalidRange` or both `NoError` by the range rule; `None` when the
      range rule throws. */
  function PairErrors(dateFrom: string, dateUntil: string): Option<(FieldError, FieldError)> {
    if IsBlank(dateFrom) || IsBlank(dateUntil) then Some((BlankCheck(dateFrom), BlankCheck(dateUntil)))
    else
      match IsInValidRange(dateFrom, dateUntil)
      case None => None
      case Some(inRange) => if inRange then Some((NoError, NoError)) else Some((InvalidRange, InvalidRange))
  }

  /** The reference definition of the checks: the two pairs are decided independently, `noErrors` is
      whether no field is blank, and the whole check throws when either pair's range rule throws. */
  function FieldChecks(f: SearchBody): Option<Checked> {
    match (PairErrors(f.startDateFrom, f.startDateUntil), PairErrors(f.endDateFrom, f.endDateUntil))
    case (Some(s), Some(e)) => Some(Checked(NoneBlank(f), FieldsErrorBody(s.0, s.1, e.0, e.1)))
    case _ => None
  }

  /** The checks as `validateAndSearch` runs them, one field and then one pair at a time; `None` when
      `month()` throws out of it. */
  method CheckFields(startDateFrom: string, startDateUntil: string, endDateFrom: string, endDateUntil: string)
    returns (r: Option<Checked>)
    ensures r == FieldChecks(SearchBody(startDateFrom, startDateUntil, endDateFrom, endDateUntil))
  {
    var noErrors := true;
    var startDateFromError := NoError;
    var startDateUntilError := NoError;
    var endDateFromError := NoError;
    var endDateUntilError := NoError;

    if IsBlank(startDateFrom) {
      startDateFromError := BlankField;
      noErrors := false;
    }
    if IsBlank(startDateUntil) {
      startDateUntilError := BlankField;
      noErrors := false;
    }
    if IsBlank(endDateFrom) {
      endDateFromError := BlankField;
      noErrors := false;
    }
    if IsBlank(endDateUntil) {
      endDateUntilError := BlankField;
      noErrors := false;
    }

    // the range checks set InvalidRange but leave noErrors alone
    if startDateFromError == NoError && startDateUntilError == NoError {
      var inRange := IsInValidRange(startDateFrom, startDateUntil);
      if inRange.None? {
        return None;
      }
      if !inRange.value {
        startDateFromError := InvalidRange;
        startDateUntilError := InvalidRange;
      }
    }
    if endDateFromError == NoError && endDateUntilError == NoError {
      var inRange := IsInValidRange(endDateFrom, endDateUntil);
      if inRange.None? {
        return None;
      }
      if !inRange.value {
        endDateFromError := InvalidRange;
        endDateUntilError := InvalidRange;
      }
    }

    r := Some(Checked(noErrors, FieldsErrorBody(startDateFromError, startDateUntilError, endDateFromError, endDateUntilError)));
  }

  /** Each field is `BlankField` exactly when its own string is blank, whatever the other fields hold. */
  lemma BlankFieldExactlyWhenBlank(f: SearchBody)
    requires FieldChecks(f).Some?
    ensures var e := FieldChecks(f).value.errors;
      && (e.startDateFromError == BlankField <==> IsBlank(f.startDateFrom))
      && (e.startDateUntilError == BlankField <==> IsBlank(f.startDateUntil))
      && (e.endDateFromError == BlankField <==> IsBlank(f.endDateFrom))
      && (e.endDateUntilError == BlankField <==> IsBlank(f.endDateUntil))
  {
  }

  /** A search is due exactly when no field is blank: an invalid range on its own never clears `noErrors`. */
  lemma SearchExactlyWhenNoneBlank(f: SearchBody)
    requires FieldChecks(f).Some?
    ensures FieldChecks(f).value.noErrors <==> NoneBlank(f)
  {
  }

  /** A pair is marked `InvalidRange`, on both of its fields at once, exactly when both fields are non-blank
      and the until-month is more than one above the from-month. */
  lemma InvalidRangeExactlyWhenGap(f: SearchBody)
    requires FieldChecks(f).Some?
    ensures var e := FieldChecks(f).value.errors;
      && (e.startDateFromError == InvalidRange <==> e.startDateUntilError == InvalidRange)
      && (e.endDateFromError == InvalidRange <==> e.endDateUntilError == InvalidRange)
      && (e.startDateFromError == InvalidRange <==>
            !IsBlank(f.startDateFrom) && !IsBlank(f.startDateUntil)
            && Month(f.startDateUntil).value - Month(f.startDateFrom).value > 1)
      && (e.endDateFromError == InvalidRange <==>
            !IsBlank(f.endDateFrom) && !IsBlank(f.endDateUntil)
            && Month(f.endDateUntil).value - Month(f.endDateFrom).value > 1)
  {
    var s := f.startDateFrom;
    var u := f.startDateUntil;
    if !IsBlank(s) && !IsBlank(u) {
      RangeRule(s, u);
    }
    if !IsBlank(f.endDateFrom) && !IsBlank(f.endDateUntil) {
      RangeRule(f.endDateFrom, f.endDateUntil);
    }
  }

  /** The checks throw exactly when some pair has two non-blank fields and one of their months cannot be
      read; a blank field keeps its own pair's `month()` from running. */
  lemma ThrowsExactlyWhenMonthUnreadable(f: SearchBody)
    ensures FieldChecks(f).None? <==>
      (!IsBlank(f.startDateFrom) && !IsBlank(f.startDateUntil)
        && (Month(f.startDateFrom).None? || Month(f.startDateUntil).None?))
      || (!IsBlank(f.endDateFrom) && !IsBlank(f.endDateUntil)
        && (Month(f.endDateFrom).None? || Month(f.endDateUntil).None?))
  {
    RangeRule(f.startDateFrom, f.startDateUntil);
    RangeRule(f.endDateFrom, f.endDateUntil);
  }

  /** The start pair's error kinds depend on the start strings only, and the end pair's on the end strings
      only. */
  lemma PairsDecidedIndependently(f: SearchBody, g: SearchBody)
    requires FieldChecks(f).Some? && FieldChecks(g).Some?
    ensures f.startDateFrom == g.startDateFrom && f.startDateUntil == g.startDateUntil ==>
      FieldChecks(f).value.errors.startDateFromError == FieldChecks(g).value.errors.startDateFromError
      && FieldChecks(f).value.errors.startDateUntilError == FieldChecks(g).value.errors.startDateUntilError
    ensures f.endDateFrom == g.endDateFrom && f.endDateUntil == g.endDateUntil ==>
      FieldChecks(f).value.errors.endDateFromError == FieldChecks(g).value.errors.endDateFromError
      && FieldChecks(f).value.errors.endDateUntilError == FieldChecks(g).value.errors.endDateUntilError
  {
  }

  /** Four filled fields with a two-month start gap: the start pair is `InvalidRange`, yet a search is
      due, and the range errors are never shown. */
  lemma RangeErrorDoesNotStopSearch()
    ensures FieldChecks(SearchBody("01012021", "01032021", "05012021", "05012021"))
      == Some(Checked(true, FieldsErrorBody(InvalidRange, InvalidRange, NoError, NoError)))
  {
    NotBlankWith("01012021", 0);
    NotBlankWith("01032021", 0);
    NotBlankWith("05012021", 0);
    MonthOfDigits("01012021");
    MonthOfDigits("01032021");
    MonthOfDigits("05012021");
  }

  /** Dates written with month names make the checks throw as soon as their pair is filled in. */
  lemma NamedMonthsThrow(endDateFrom: string, endDateUntil: string)
    ensures FieldChecks(SearchBody("01Jan2021", "01Mar2021", endDateFrom, endDateUntil)) == None
  {
    NotBlankWith("01Jan2021", 0);
    NotBlankWith("01Mar2021", 0);
    NamedMonthNotReadable();
  }
}
