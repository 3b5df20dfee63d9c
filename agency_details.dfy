/** The travel-search view model of the agency details screen: the paging state, the observable values
    and one-shot events it publishes, and the two entry points `validateAndSearch` and `paginate`. */
module AgencyDetails {
  import opened Wrappers
  import opened KotlinInt
  import opened FieldValidation

  /** A travel expense record; what it holds is not part of this model, only its identity. */
  datatype Travel = Travel(id: nat)

  /** One call of the travel repository's `getAllInsidePeriod`: the four dates, the agency code and the page
      number; the first call of a search passes no page number and takes the repository's default. */
  datatype FetchRequest = FetchRequest(body: SearchBody, agencyCode: string, page: Option<int>)

  /** How the repository call ended: with the list of travels it returned, or with an exception, which the
      shared coroutine error handler catches. */
  datatype FetchResult = Fetched(items: seq<Travel>) | FetchFailed

  /** The one-shot signals the view model emits, and the repository calls it makes, in the order they
      happen. */
  datatype Event =
    | SearchTravelsRequested      // searchTravelsLiveEvent
    | ClearItems                  // clearItemsLiveEvent
    | PaginateTo(page: int)       // paginateLiveEvent, carrying the new page number
    | PagedToEnd                  // pagedToEndLiveEvent
    | FetchIssued(request: FetchRequest)

  /** Everything the view model holds. `currentPage` is assumed to be assigned by the paginator base class,
      which is not part of this model, since this view model never assigns it; the `Option` fields are
      `LiveData` values, `None` while never set or set to `null`; `datePeriodToSearch` is `lateinit`, `None`
      until the first search. */
  datatype ViewState = ViewState(
    pageSize: int,
    pageNumber: int,
    currentPage: seq<Travel>,
    datePeriodToSearch: Option<SearchBody>,
    travels: Option<seq<Travel>>,
    loading: Option<bool>,
    fieldErrors: Option<FieldsErrorBody>,
    events: seq<Event>)

  /** The two paging counters are Kotlin `Int`s. */
  predicate Wellformed(s: ViewState) {
    IsInt(s.pageSize) && IsInt(s.pageNumber)
  }

  /** The view model as constructed: 15 travels to a page, on page 1, with nothing loaded. */
  function Initial(): (s: ViewState)
    ensures Wellformed(s)
  {
    ViewState(15, 1, [], None, None, None, None, [])
  }

  /** What `paginate` finds when it tests `currentPage.size % pageSize`. */
  datatype PageCheck = DivisionByZero | EndReached | NextPage

  function CheckPage(loadedCount: int, pageSize: int): PageCheck {
    if pageSize == 0 then DivisionByZero
    else if Rem(loadedCount, pageSize) != 0 then EndReached
    else NextPage
  }

  /** The state after `searchTravels(body)` and the fetch it launches, which ended with `fetched`. */
  function SearchStep(s: ViewState, agencyCode: string, body: SearchBody, fetched: FetchResult): (r: ViewState)
    ensures Wellformed(s) ==> Wellformed(r)
  {
    var reset := s.(fieldErrors := None, events := s.events + [ClearItems], datePeriodToSearch := Some(body),
                    pageNumber := 1);
    var requested := reset.(loading := Some(true),
                            events := reset.events + [FetchIssued(FetchRequest(body, agencyCode, None))]);
    match fetched
    case FetchFailed => requested
    case Fetched(items) => requested.(travels := Some(items), loading := Some(false))
  }

  /** The state after `paginate()` and the fetch it launches, if it launches one, which ended with
      `fetched`. On `DivisionByZero` the exception leaves `paginate` before anything has changed. */
  function PaginateStep(s: ViewState, agencyCode: string, fetched: FetchResult): (r: ViewState)
    requires Wellformed(s)
    ensures (fetched.Fetched? ==> |fetched.items| <= INT_MAX) ==> Wellformed(r)
  {
    match CheckPage(|s.currentPage|, s.pageSize)
    case DivisionByZero => s
    case EndReached => s.(events := s.events + [PagedToEnd])
    case NextPage =>
      var next := Inc(s.pageNumber);
      var advanced := s.(pageNumber := next, events := s.events + [PaginateTo(next)], loading := Some(true));
      match s.datePeriodToSearch
      // reading the uninitialised lateinit property throws inside the coroutine, before the repository call
      case None => advanced
      case Some(body) =>
        var requested := advanced.(events := advanced.events + [FetchIssued(FetchRequest(body, agencyCode, Some(next)))]);
        match fetched
        case FetchFailed => requested
        case Fetched(items) => requested.(travels := Some(items), pageSize := |items|, loading := Some(false))
  }

  /** The state after `validateAndSearch` on the four strings of `f`: unchanged when `month()` throws, the
      error body published when a field is blank, and otherwise a search. */
  function ValidateStep(s: ViewState, agencyCode: string, f: SearchBody, fetched: FetchResult): (r: ViewState)
    ensures Wellformed(s) ==> Wellformed(r)
  {
    match FieldChecks(f)
    case None => s
    case Some(c) => if c.noErrors then SearchStep(s, agencyCode, f, fetched) else s.(fieldErrors := Some(c.errors))
  }

  /** A search clears the error body, emits the clear signal before it calls the repository, stores its body,
      goes back to page 1 and fetches without a page number; `pageSize` and the base class's page are left
      as they were. */
  lemma SearchResetsPaging(s: ViewState, agencyCode: string, body: SearchBody, fetched: FetchResult)
    ensures var r := SearchStep(s, agencyCode, body, fetched);
      && r.fieldErrors == None && r.datePeriodToSearch == Some(body) && r.pageNumber == 1
      && r.pageSize == s.pageSize && r.currentPage == s.currentPage
      && r.events == s.events + [ClearItems, FetchIssued(FetchRequest(body, agencyCode, None))]
      && (fetched.Fetched? ==> r.travels == Some(fetched.items) && r.loading == Some(false))
      && (fetched.FetchFailed? ==> r.travels == s.travels && r.loading == Some(true))
  {
  }

  /** When the loaded page is not a whole number of pages, `paginate` only emits the end signal. */
  lemma PaginateAtEnd(s: ViewState, agencyCode: string, fetched: FetchResult)
    requires Wellformed(s) && s.pageSize != 0 && Rem(|s.currentPage|, s.pageSize) != 0
    ensures PaginateStep(s, agencyCode, fetched) == s.(events := s.events + [PagedToEnd])
  {
  }

  /** Otherwise `paginate` moves to the next page, announces its number, asks for it with the stored search
      body, which it does not change, and takes the size of what came back as the new page size. */
  lemma PaginateAdvances(s: ViewState, agencyCode: string, fetched: FetchResult)
    requires Wellformed(s) && s.pageSize != 0 && Rem(|s.currentPage|, s.pageSize) == 0
    ensures var r := PaginateStep(s, agencyCode, fetched);
      && r.pageNumber == Inc(s.pageNumber)
      && r.datePeriodToSearch == s.datePeriodToSearch && r.currentPage == s.currentPage
      && r.fieldErrors == s.fieldErrors
      && (s.datePeriodToSearch.None? ==>
            r == s.(pageNumber := r.pageNumber, loading := Some(true), events := s.events + [PaginateTo(r.pageNumber)]))
      && (s.datePeriodToSearch.Some? ==>
            r.events == s.events + [PaginateTo(r.pageNumber),
                                    FetchIssued(FetchRequest(s.datePeriodToSearch.value, agencyCode, Some(r.pageNumber)))])
      && (s.datePeriodToSearch.Some? && fetched.Fetched? ==>
            r.pageSize == |fetched.items| && r.travels == Some(fetched.items) && r.loading == Some(false))
      && (s.datePeriodToSearch.None? || fetched.FetchFailed? ==>
            r.pageSize == s.pageSize && r.travels == s.travels && r.loading == Some(true))
  {
  }

  /** With `pageSize` zero the remainder throws out of `paginate` and nothing changes. */
  lemma PaginateByZeroPage(s: ViewState, agencyCode: string, fetched: FetchResult)
    requires Wellformed(s) && s.pageSize == 0
    ensures PaginateStep(s, agencyCode, fetched) == s
  {
  }

  /** A page shorter than the page size ends the paging; a full page, or none yet, does not. */
  lemma ShortPageEnds(loadedCount: nat, pageSize: int)
    requires pageSize > 0
    ensures 0 < loadedCount < pageSize ==> CheckPage(loadedCount, pageSize) == EndReached
    ensures loadedCount == 0 || loadedCount == pageSize ==> CheckPage(loadedCount, pageSize) == NextPage
  {
    if loadedCount < pageSize {
      SmallRemainder(loadedCount, pageSize);
    }
    if loadedCount == pageSize {
      MultipleHasNoRemainder(1, pageSize);
    }
  }

  /** The end signal depends on the remainder alone: it fires exactly when the loaded count is not a whole
      number of pages. */
  lemma EndReachedExactlyWhenNotMultiple(loadedCount: nat, pageSize: int)
    requires pageSize != 0
    ensures CheckPage(loadedCount, pageSize) == EndReached <==> !exists k: nat :: k * Abs(pageSize) == loadedCount
  {
    if exists k: nat :: k * Abs(pageSize) == loadedCount {
      var k: nat :| k * Abs(pageSize) == loadedCount;
      MultipleHasNoRemainder(k, pageSize);
    } else {
      var q, m := loadedCount / Abs(pageSize), loadedCount % Abs(pageSize);
      assert loadedCount == q * Abs(pageSize) + m;
    }
  }

  /** After a full first page the next `paginate` asks for page 2 with the stored search body, if the fetched
      travels have become the current page. */
  lemma SearchThenPaginate(s: ViewState, agencyCode: string, body: SearchBody, items: seq<Travel>, fetched: FetchResult)
    requires Wellformed(s) && |items| == s.pageSize > 0
    ensures var r := PaginateStep(SearchStep(s, agencyCode, body, Fetched(items)).(currentPage := items), agencyCode, fetched);
      && r.pageNumber == 2
      && r.events[|r.events| - 1] == FetchIssued(FetchRequest(body, agencyCode, Some(2)))
  {
    ShortPageEnds(|items|, s.pageSize);
  }

  /** Once the last fetched page is the current page, the end signal never fires:
      the page size has just become that page's size, so a non-empty page asks for another, and an empty
      one makes the next `paginate` divide by zero. */
  lemma LastPageNeverSignalsEnd(s: ViewState, agencyCode: string, items: seq<Travel>, more: FetchResult)
    requires Wellformed(s) && s.datePeriodToSearch.Some? && |items| <= INT_MAX
    requires CheckPage(|s.currentPage|, s.pageSize) == NextPage
    ensures var r := PaginateStep(s, agencyCode, Fetched(items)).(currentPage := items);
      CheckPage(|r.currentPage|, r.pageSize) == if items == [] then DivisionByZero else NextPage
  {
    if items != [] {
      ShortPageEnds(|items|, |items|);
    }
  }

  /** A blank field never starts a search: the paging state, the stored body, the loaded travels and the
      event log stay as they were; the error body becomes the four computed kinds, in field order, unless
      `month()` threw, in which case nothing changes. */
  lemma BlankFieldBlocksSearch(s: ViewState, agencyCode: string, f: SearchBody, fetched: FetchResult)
    requires !NoneBlank(f)
    ensures FieldChecks(f).Some? ==>
      ValidateStep(s, agencyCode, f, fetched) == s.(fieldErrors := Some(FieldChecks(f).value.errors))
    ensures FieldChecks(f).None? ==> ValidateStep(s, agencyCode, f, fetched) == s
  {
    if FieldChecks(f).Some? {
      SearchExactlyWhenNoneBlank(f);
    }
  }

  /** Four filled fields start a search, whatever the range rule said, unless `month()` throws. */
  lemma FilledFieldsSearch(s: ViewState, agencyCode: string, f: SearchBody, fetched: FetchResult)
    requires NoneBlank(f) && FieldChecks(f).Some?
    ensures ValidateStep(s, agencyCode, f, fetched) == SearchStep(s, agencyCode, f, fetched)
  {
    SearchExactlyWhenNoneBlank(f);
  }

  class AgencyDetailsViewModel {
    const agencyCode: string
    var pageSize: int
    var pageNumber: int
    var currentPage: seq<Travel>
    var datePeriodToSearch: Option<SearchBody>
    var travels: Option<seq<Travel>>
    var loading: Option<bool>
    var fieldErrors: Option<FieldsErrorBody>
    var events: seq<Event>

    ghost function State(): ViewState
      reads this
    {
      ViewState(pageSize, pageNumber, currentPage, datePeriodToSearch, travels, loading, fieldErrors, events)
    }

    ghost predicate Valid()
      reads this
    {
      Wellformed(State())
    }

    constructor (agencyCode: string)
      ensures Valid() && this.agencyCode == agencyCode
      ensures State() == Initial()
    {
      this.agencyCode := agencyCode;
      pageSize := 15;
      pageNumber := 1;
      currentPage := [];
      datePeriodToSearch := None;
      travels := None;
      loading := None;
      fieldErrors := None;
      events := [];
    }

    /** `onSearchTravels`: asks the screen to open the search form. */
    method OnSearchTravels()
      modifies this
      ensures State() == old(State()).(events := old(events) + [SearchTravelsRequested])
    {
      events := events + [SearchTravelsRequested];
    }

    /** `onSearchFieldError`: publishes the error body. */
    method OnSearchFieldError(errorBody: FieldsErrorBody)
      modifies this
      ensures State() == old(State()).(fieldErrors := Some(errorBody))
    {
      fieldErrors := Some(errorBody);
    }

    /** `searchTravels`, with the repository call it launches ending in `fetched`. */
    method SearchTravels(searchBody: SearchBody, fetched: FetchResult)
      requires Valid()
      modifies this
      ensures Valid()
      ensures State() == SearchStep(old(State()), agencyCode, searchBody, fetched)
    {
      fieldErrors := None;
      events := events + [ClearItems];
      datePeriodToSearch := Some(searchBody);
      pageNumber := 1;

      loading := Some(true);
      events := events + [FetchIssued(FetchRequest(searchBody, agencyCode, None))];
      if fetched.Fetched? {
        travels := Some(fetched.items);
        loading := Some(false);
      }
    }

    /** `validateAndSearch`; `thrown` says that `month()` threw out of it. */
    method ValidateAndSearch(startDateFrom: string, startDateUntil: string, endDateFrom: string, endDateUntil: string,
                             fetched: FetchResult)
      returns (thrown: bool)
      requires Valid()
      modifies this
      ensures Valid()
      ensures thrown <==> FieldChecks(SearchBody(startDateFrom, startDateUntil, endDateFrom, endDateUntil)).None?
      ensures State() == ValidateStep(old(State()), agencyCode,
                                      SearchBody(startDateFrom, startDateUntil, endDateFrom, endDateUntil), fetched)
    {
      var checked := CheckFields(startDateFrom, startDateUntil, endDateFrom, endDateUntil);
      match checked
      case None =>
        thrown := true;
      case Some(c) =>
        thrown := false;
        if c.noErrors {
          SearchTravels(SearchBody(startDateFrom, startDateUntil, endDateFrom, endDateUntil), fetched);
        } else {
          OnSearchFieldError(c.errors);
        }
    }

    /** `paginate`, with the repository call it may launch ending in `fetched`; `divisionByZero` says that
        the remainder by a zero page size threw out of it. */
    method Paginate(fetched: FetchResult) returns (divisionByZero: bool)
      requires Valid()
      requires fetched.Fetched? ==> |fetched.items| <= INT_MAX  // a Kotlin list's size is an Int
      modifies this
      ensures Valid()
      ensures divisionByZero <==> old(pageSize) == 0
      ensures State() == PaginateStep(old(State()), agencyCode, fetched)
    {
      if pageSize == 0 {
        return true;
      }
      divisionByZero := false;
      if Rem(|currentPage|, pageSize) != 0 {
        events := events + [PagedToEnd];
      } else {
        pageNumber := Inc(pageNumber);
        events := events + [PaginateTo(pageNumber)];

        loading := Some(true);
        match datePeriodToSearch
        case None =>
        case Some(body) =>
          events := events + [FetchIssued(FetchRequest(body, agencyCode, Some(pageNumber)))];
          if fetched.Fetched? {
            travels := Some(fetched.items);
            pageSize := |fetched.items|;
            loading := Some(false);
          }
      }
    }
  }
}
