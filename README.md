# Agency details view model: date validation and paging

A Dafny model of `AgencyDetailsViewModel`, the view model of the screen that lists the travel expense records of
one federal agency. The model covers its two pieces of logic:

- **Four-field date validation** (`validateAndSearch`, `isInValidRange`, `String.month`). Each of the four date
  strings (start-from, start-until, end-from, end-until) gets an error kind: `NO_ERROR`, `BLANK_FIELD` or
  `INVALID_RANGE`. When no field is blank a search starts; otherwise the four-field error body is published.
- **Paging** (`searchTravels`, `paginate`). The state is `pageSize`, `pageNumber`, `currentPage` and the stored
  `datePeriodToSearch`. A search resets the page number to 1. `paginate` either signals the end of the data or
  moves to the next page and fetches it.

## Layout

- `wrappers.dfy`: `Option`, used for Kotlin's nullable values and for exceptions.
- `kotlin_int.dfy` (`KotlinInt`): 32-bit `Int` increment with wrap-around, and Kotlin's truncating `%`.
- `kotlin_strings.dfy` (`KotlinStrings`): `Char.isWhitespace`, `isBlank`, and base-10 `String.toInt`, with the
  round trip against `Int.toString`.
- `date_range.dfy` (`DateRange`): `month()` and `isInValidRange`.
- `field_validation.dfy` (`FieldValidation`): the error kinds, the error body and search body, the reference
  definition `FieldChecks` of the checks, and `CheckFields`, which runs them step by step as the source does.
- `agency_details.dfy` (`AgencyDetails`): the state as a value (`ViewState`), a step function per entry point
  (`SearchStep`, `PaginateStep`, `ValidateStep`), lemmas about those steps, and the class
  `AgencyDetailsViewModel`. Its methods update its fields in place and are proved to match the step functions.

How the parts outside the file are represented:

- `LiveData` values (travels, loading, error body) are `Option` fields. `None` means never set, or set to
  `null`.
- One-shot `SingleLiveEvent` signals and repository calls are appended to the `events` log, in order.
- Each repository call is a `FetchRequest` in that log. What the call came back with is a `FetchResult`
  parameter: the returned travels, or a failure that the shared error handler catches.
- The launched coroutine is modelled as running to completion inside the call that launched it.
- An exception thrown out of `validateAndSearch` is reported by the flag `thrown`. One thrown out of `paginate`
  is reported by `divisionByZero`. In both cases the state is left as it was.

Behaviour the code has and the model keeps:

- `noErrors` is cleared only by blank fields, so an `INVALID_RANGE` never stops a search, and the range errors
  are thrown away when all four fields are filled (`RangeErrorDoesNotStopSearch`).
- `month()` reads three characters at offsets 2 to 4. With a `ddMMyyyy` layout, January and February of the same
  year read as 12 and 22, which the range rule rejects (`AdjacentMonthsOutOfRange`, and `AdjacentMonthsAll` for
  every pair of consecutive months). A layout with month names
  such as `01Jan2021` makes `month()` throw rather than yield `INVALID_RANGE` (`NamedMonthsThrow`).
- `pageSize` becomes the size of the last page fetched by `paginate`. If `currentPage` holds that page, then
  `n % n == 0` never signals the end. A non-empty page asks for one more page, and an empty page makes the next
  `paginate` divide by zero (`LastPageNeverSignalsEnd`). So a short page fetched by `paginate` does not end the
  paging, although the remainder test at line 142 is evidently meant to detect a short page. `searchTravels`
  leaves `pageSize` alone, so a short first page held against the last page size (15 at first) does end the
  paging (`ShortPageEnds`).
- `pageNumber` goes up before the fetch starts and is not put back when the fetch fails. A retry therefore asks
  for the page after the one that failed.
- `paginate` before any search has read the `lateinit` `datePeriodToSearch` only inside the coroutine. So the
  page number has already gone up and the page event has been emitted when that read throws. No fetch is made.

## Model

| member | source | states |
|---|---|---|
| `KotlinInt.Inc` | app/src/main/java/com/peterkrauz/trab_dso2/presentation/agencydetails/AgencyDetailsViewModel.kt:145 | `pageNumber++` gives the `Int` congruent to n + 1 modulo 2^32, which is n + 1 below `Int.MAX_VALUE` |
| `KotlinInt.Rem` | app/src/main/java/com/peterkrauz/trab_dso2/presentation/agencydetails/AgencyDetailsViewModel.kt:142 | Kotlin's `%` is smaller in magnitude than the divisor, takes the sign of the dividend, and leaves `a - r` a multiple of `b`; these fix the truncated remainder uniquely |
| `KotlinStrings.ParseInt` | app/src/main/java/com/peterkrauz/trab_dso2/presentation/agencydetails/AgencyDetailsViewModel.kt:169 | `toInt` yields only values within the `Int` range; anything else is the `NumberFormatException` case |
| `KotlinStrings.NotBlankWith` | app/src/main/java/com/peterkrauz/trab_dso2/presentation/agencydetails/AgencyDetailsViewModel.kt:73-88 | a string holding a character other than whitespace is not blank, so `isBlank` holds of the empty string and of whitespace only |
| `KotlinStrings.BlankSamples` | app/src/main/java/com/peterkrauz/trab_dso2/presentation/agencydetails/AgencyDetailsViewModel.kt:73-88 | `isBlank` uses the JVM's set: ASCII controls and Unicode spaces, no-break spaces included, are blank; a zero-width space or a letter is not |
| `KotlinStrings.ParseIntAccepts` | app/src/main/java/com/peterkrauz/trab_dso2/presentation/agencydetails/AgencyDetailsViewModel.kt:169 | `toInt` accepts every digit string within the `Int` range, with an optional `-` or `+` sign and leading zeros, and yields the number it spells |
| `KotlinStrings.ParseIntOfIntToString` | app/src/main/java/com/peterkrauz/trab_dso2/presentation/agencydetails/AgencyDetailsViewModel.kt:169 | `toInt` reads back what `toString` writes, for every `Int` |
| `DateRange.Month` | app/src/main/java/com/peterkrauz/trab_dso2/presentation/agencydetails/AgencyDetailsViewModel.kt:168-170 | `month()` succeeds only on strings of at least five characters, with a value between -99 and 999 |
| `DateRange.MonthDefinedIff` | app/src/main/java/com/peterkrauz/trab_dso2/presentation/agencydetails/AgencyDetailsViewModel.kt:168-170 | `month()` succeeds exactly when offsets 3 and 4 are digits and offset 2 is a digit or a sign |
| `DateRange.MonthOfDigits` | app/src/main/java/com/peterkrauz/trab_dso2/presentation/agencydetails/AgencyDetailsViewModel.kt:168-170 | with digits at offsets 2, 3 and 4, `month()` is the three-digit number they spell |
| `DateRange.MonthOfSigned` | app/src/main/java/com/peterkrauz/trab_dso2/presentation/agencydetails/AgencyDetailsViewModel.kt:168-170 | with a sign at offset 2, `month()` is the signed number at offsets 3 and 4 |
| `DateRange.AdjacentMonthsOutOfRange` | app/src/main/java/com/peterkrauz/trab_dso2/presentation/agencydetails/AgencyDetailsViewModel.kt:136-139 | `month("01012021")` is 12 and `month("01022021")` is 22, so this January/February pair fails the range rule |
| `DateRange.AdjacentMonthsAll` | app/src/main/java/com/peterkrauz/trab_dso2/presentation/agencydetails/AgencyDetailsViewModel.kt:136-139 | under a `ddMMyyyy` layout, every pair of dates whose months are consecutive within one year fails the range rule |
| `DateRange.NamedMonthNotReadable` | app/src/main/java/com/peterkrauz/trab_dso2/presentation/agencydetails/AgencyDetailsViewModel.kt:168-170 | `month("01Jan2021")` throws, and so does the range rule on it |
| `FieldValidation.CheckFields` | app/src/main/java/com/peterkrauz/trab_dso2/presentation/agencydetails/AgencyDetailsViewModel.kt:66-111 | the field-by-field updates of `noErrors` and the four error variables end in the reference checks `FieldChecks` |
| `FieldValidation.BlankFieldExactlyWhenBlank` | app/src/main/java/com/peterkrauz/trab_dso2/presentation/agencydetails/AgencyDetailsViewModel.kt:72-91 | each field is `BLANK_FIELD` exactly when its own string is blank, whatever the other fields hold |
| `FieldValidation.SearchExactlyWhenNoneBlank` | app/src/main/java/com/peterkrauz/trab_dso2/presentation/agencydetails/AgencyDetailsViewModel.kt:66-122 | `noErrors` holds exactly when none of the four strings is blank, so invalid ranges never block the search |
| `FieldValidation.InvalidRangeExactlyWhenGap` | app/src/main/java/com/peterkrauz/trab_dso2/presentation/agencydetails/AgencyDetailsViewModel.kt:95-111 | a pair is `INVALID_RANGE` on both fields or neither, exactly when both are non-blank and the month gap exceeds 1 |
| `FieldValidation.ThrowsExactlyWhenMonthUnreadable` | app/src/main/java/com/peterkrauz/trab_dso2/presentation/agencydetails/AgencyDetailsViewModel.kt:95-111 | validation throws exactly when some fully filled pair has a month `month()` cannot read |
| `FieldValidation.PairsDecidedIndependently` | app/src/main/java/com/peterkrauz/trab_dso2/presentation/agencydetails/AgencyDetailsViewModel.kt:95-111 | the start pair's error kinds depend only on the start strings, and the end pair's only on the end strings |
| `FieldValidation.RangeErrorDoesNotStopSearch` | app/src/main/java/com/peterkrauz/trab_dso2/presentation/agencydetails/AgencyDetailsViewModel.kt:95-122 | on the input `01012021`, `01032021`, `05012021`, `05012021` (start months read as 12 and 32) the start pair is `INVALID_RANGE` and a search is still due; the general rule is `InvalidRangeExactlyWhenGap` with `SearchExactlyWhenNoneBlank` |
| `FieldValidation.NamedMonthsThrow` | app/src/main/java/com/peterkrauz/trab_dso2/presentation/agencydetails/AgencyDetailsViewModel.kt:95-102 | the start pair `01Jan2021`, `01Mar2021` makes validation throw, whatever the end pair holds; the general rule is `MonthDefinedIff` with `ThrowsExactlyWhenMonthUnreadable` |
| `AgencyDetails.Initial` | app/src/main/java/com/peterkrauz/trab_dso2/presentation/agencydetails/AgencyDetailsViewModel.kt:22-25 | the initial state (`pageSize` 15, `pageNumber` 1, empty `currentPage`, no search body) has `Int` counters |
| `AgencyDetails.SearchStep` | app/src/main/java/com/peterkrauz/trab_dso2/presentation/agencydetails/AgencyDetailsViewModel.kt:41-58 | a search keeps the paging counters within `Int` |
| `AgencyDetails.PaginateStep` | app/src/main/java/com/peterkrauz/trab_dso2/presentation/agencydetails/AgencyDetailsViewModel.kt:141-164 | `paginate` keeps the paging counters within `Int`, whether the fetch succeeds or fails, given that a returned list has an `Int` size |
| `AgencyDetails.ValidateStep` | app/src/main/java/com/peterkrauz/trab_dso2/presentation/agencydetails/AgencyDetailsViewModel.kt:60-134 | `validateAndSearch` keeps the paging counters within `Int` |
| `AgencyDetails.SearchResetsPaging` | app/src/main/java/com/peterkrauz/trab_dso2/presentation/agencydetails/AgencyDetailsViewModel.kt:41-58 | a search clears the error body, emits clear-items before fetching, stores its body, sets page 1, fetches without a page number, and leaves `pageSize` and `currentPage` alone |
| `AgencyDetails.PaginateAtEnd` | app/src/main/java/com/peterkrauz/trab_dso2/presentation/agencydetails/AgencyDetailsViewModel.kt:141-143 | a non-zero remainder makes `paginate` emit the paged-to-end event and change nothing else |
| `AgencyDetails.PaginateAdvances` | app/src/main/java/com/peterkrauz/trab_dso2/presentation/agencydetails/AgencyDetailsViewModel.kt:144-162 | a zero remainder moves to `pageNumber++` (wrapping at `Int.MAX_VALUE`), announces it, fetches it with the unchanged stored body and the agency code, and takes the returned count as `pageSize`; `loading` ends false after a completed fetch and stays true otherwise |
| `AgencyDetails.PaginateByZeroPage` | app/src/main/java/com/peterkrauz/trab_dso2/presentation/agencydetails/AgencyDetailsViewModel.kt:142 | with `pageSize` 0 the remainder throws and `paginate` changes nothing |
| `AgencyDetails.ShortPageEnds` | app/src/main/java/com/peterkrauz/trab_dso2/presentation/agencydetails/AgencyDetailsViewModel.kt:142 | a non-empty page shorter than `pageSize` reaches the end; an empty or exactly full one does not |
| `AgencyDetails.EndReachedExactlyWhenNotMultiple` | app/src/main/java/com/peterkrauz/trab_dso2/presentation/agencydetails/AgencyDetailsViewModel.kt:142 | the end is reached exactly when the loaded count is not a whole number of pages |
| `AgencyDetails.SearchThenPaginate` | app/src/main/java/com/peterkrauz/trab_dso2/presentation/agencydetails/AgencyDetailsViewModel.kt:41-159 | after a full first page, the next `paginate` fetches page 2 with the search's body |
| `AgencyDetails.LastPageNeverSignalsEnd` | app/src/main/java/com/peterkrauz/trab_dso2/presentation/agencydetails/AgencyDetailsViewModel.kt:141-159 | with the last fetched page as `currentPage`, the next `paginate` asks for more pages, or divides by zero if that page was empty |
| `AgencyDetails.BlankFieldBlocksSearch` | app/src/main/java/com/peterkrauz/trab_dso2/presentation/agencydetails/AgencyDetailsViewModel.kt:114-132 | a blank field never searches: the error body becomes exactly the four computed kinds in field order and nothing else changes, or, when `month()` throws, nothing changes at all |
| `AgencyDetails.FilledFieldsSearch` | app/src/main/java/com/peterkrauz/trab_dso2/presentation/agencydetails/AgencyDetailsViewModel.kt:114-122 | four filled fields search whatever the range rule said, unless `month()` throws |
| `AgencyDetails.AgencyDetailsViewModel.constructor` | app/src/main/java/com/peterkrauz/trab_dso2/presentation/agencydetails/AgencyDetailsViewModel.kt:17-31 | a new view model is in the initial state for its agency |
| `AgencyDetails.AgencyDetailsViewModel.OnSearchTravels` | app/src/main/java/com/peterkrauz/trab_dso2/presentation/agencydetails/AgencyDetailsViewModel.kt:33-35 | emits the search-requested event and changes nothing else |
| `AgencyDetails.AgencyDetailsViewModel.OnSearchFieldError` | app/src/main/java/com/peterkrauz/trab_dso2/presentation/agencydetails/AgencyDetailsViewModel.kt:37-39 | publishes the error body and changes nothing else |
| `AgencyDetails.AgencyDetailsViewModel.SearchTravels` | app/src/main/java/com/peterkrauz/trab_dso2/presentation/agencydetails/AgencyDetailsViewModel.kt:41-58 | the fields end as `SearchStep` of the old state |
| `AgencyDetails.AgencyDetailsViewModel.ValidateAndSearch` | app/src/main/java/com/peterkrauz/trab_dso2/presentation/agencydetails/AgencyDetailsViewModel.kt:60-134 | reports a throw exactly when `FieldChecks` does, and the fields end as `ValidateStep` of the old state |
| `AgencyDetails.AgencyDetailsViewModel.Paginate` | app/src/main/java/com/peterkrauz/trab_dso2/presentation/agencydetails/AgencyDetailsViewModel.kt:141-164 | reports a division by zero exactly when `pageSize` is 0, and the fields end as `PaginateStep` of the old state |

## Left out

- Coroutines: `viewModelScope.launch` runs in the model to completion inside its caller. Overlapping fetches and results that arrive out of order are not modelled.
- The shared `errorHandler` and the `PaginatorViewModel` base class are not part of this model. Whatever the handler does after a failed fetch (for instance resetting the loading flag) is not modelled, so `loading` stays `true` there.
- Nothing in `AgencyDetailsViewModel.kt` assigns `currentPage`; the model assumes that the unseen `PaginatorViewModel` base class does, and keeps it as a public field that no method of the model assigns.
- `travelRepository.getAllInsidePeriod` and `Injector`: the result of each call is a parameter. The repository's default page number is left as "no page number given".
- `LiveData` and `SingleLiveEvent` delivery to observers is represented only by fields and the event log.
- `Travel` and `PublicAgency` internals: a travel is an opaque id, and the agency is its code, as a string.
- `validationCompleteLiveEvent` is declared in the source but never emitted, so the model has no event for it.
- `travelExpensesSumLiveData` (a floating-point sum) and the two activities (UI wiring only) are not part of this model.
- The app crash that follows an exception escaping `validateAndSearch` or `paginate` on the main thread. The model only reports such an exception, through a flag.
- `KotlinStrings.ParseInt`: accepts only ASCII digits. Kotlin on the JVM also accepts the other Unicode decimal digits, through `Character.digit`.
- `KotlinStrings.IsWhitespace`: uses the current Unicode separators. U+180E is left out, although older JVMs count it as a space separator.
- Kotlin strings are UTF-16. Dafny strings are sequences of Unicode scalar values, so `substring(2, 5)` offsets agree only for text without characters outside the Basic Multilingual Plane.
