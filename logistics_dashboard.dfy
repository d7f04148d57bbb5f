/** The logistics dashboard: the sliding window of three page buttons, the
    CSS class picked for a travel status, and the page state the travel
    summary request updates. */
module LogisticsDashboard {
  import opened Wrappers
  import opened Js
  import Text
  import Pagination

  const TransactionsPerPage: int := 15
  const MaxButtons: int := 3

  function Min(a: int, b: int): int {
    if a < b then a else b
  }

  function Max(a: int, b: int): int {
    if a > b then a else b
  }

  /** The first page of the window in closed form: one before the current
      page, pushed right to page 1 and left so that the window fits. */
  function WindowStart(currentPage: int, totalPages: int): int {
    Max(1, Min(currentPage - 1, totalPages - 2))
  }

  /** `getPageNumbers`. */
  method GetPageNumbers(currentPage: int, totalPages: int) returns (pages: seq<int>)
    ensures |pages| == Min(MaxButtons, Max(totalPages, 0))
    ensures forall i :: 0 <= i < |pages| ==> pages[i] == WindowStart(currentPage, totalPages) + i
    ensures forall i :: 0 <= i < |pages| ==> 1 <= pages[i] <= totalPages
    ensures totalPages <= 0 ==> pages == []
    ensures 1 <= currentPage <= totalPages ==> currentPage in pages
  {
    var start := Max(currentPage - 1, 1);
    var end := Min(start + MaxButtons - 1, totalPages);
    if end - start < MaxButtons - 1 {
      start := Max(end - MaxButtons + 1, 1);
    }
    pages := [];
    var i := start;
    while i <= end
      invariant start <= i <= Max(end + 1, start)
      invariant |pages| == i - start
      invariant forall k :: 0 <= k < |pages| ==> pages[k] == start + k
    {
      pages := pages + [i];
      i := i + 1;
    }
    if 1 <= currentPage <= totalPages {
      assert pages[currentPage - start] == currentPage;
    }
  }

  /** Every window the method can return is a run of consecutive entries of
      the full row of page buttons. */
  lemma WindowIsSliceOfButtons(currentPage: int, totalPages: int, pages: seq<int>)
    requires |pages| == Min(MaxButtons, Max(totalPages, 0))
    requires forall i :: 0 <= i < |pages| ==> pages[i] == WindowStart(currentPage, totalPages) + i
    ensures var s := WindowStart(currentPage, totalPages);
            pages == Pagination.PageButtons(totalPages)[s - 1..s - 1 + |pages|]
  {
  }

  /** The statuses that have a CSS class of their own. */
  predicate KnownStatus(l: string) {
    l == "pending" || l == "expired" || l == "started" || l == "accepted" || l == "completed"
  }

  /** `getStatusClass`: each of the five known statuses, compared after
      lower-casing, has the class `status-` followed by its name, any other
      the default class; calling `toLowerCase` on anything but a string
      throws (None). */
  function StatusClass(status: JsValue): (r: Option<string>)
    ensures r.None? <==> !status.Str?
    ensures r.Some? ==> |r.value| > 7 && r.value[..7] == "status-"
    ensures r.Some? && KnownStatus(Text.Lower(status.s)) ==> r.value == "status-" + Text.Lower(status.s)
    ensures r.Some? && !KnownStatus(Text.Lower(status.s)) ==> r.value == "status-default"
  {
    match status
    case Str(s) =>
      var l := Text.Lower(s);
      if KnownStatus(l) then Some("status-" + l) else Some("status-default")
    case _ => None
  }

  /** The class does not depend on the status's letter case. */
  lemma StatusClassIgnoresCase(s: string)
    ensures StatusClass(Str(s)) == StatusClass(Str(Text.Lower(s)))
  {
    Text.LowerIdempotent(s);
  }

  /** What the travel summary request gives back, as far as the page reads
      it: `pagination.total` (None when `pagination` is missing, so that
      reading `total` throws) and `data`. */
  datatype TravelSummary = TravelSummary(total: Option<int>, data: JsValue)

  class Dashboard {
    var currentPage: int
    var activeTravel: int
    var travelHistory: JsValue

    constructor ()
      ensures currentPage == 1 && activeTravel == 0 && travelHistory == Arr([])
    {
      currentPage := 1;
      activeTravel := 0;
      travelHistory := Arr([]);
    }

    function TotalPages(): (pages: int)
      reads this
      ensures TransactionsPerPage * (pages - 1) < activeTravel <= TransactionsPerPage * pages
    {
      Pagination.TotalPages(activeTravel, TransactionsPerPage)
    }

    /** The buttons shown for the current state. */
    method PageNumbers() returns (pages: seq<int>)
      ensures |pages| <= MaxButtons
      ensures forall i :: 0 <= i < |pages| ==> 1 <= pages[i] <= TotalPages()
      ensures 1 <= currentPage <= TotalPages() ==> currentPage in pages
    {
      pages := GetPageNumbers(currentPage, TotalPages());
    }

    /** The "«" button. */
    method Prev()
      modifies this`currentPage
      ensures currentPage == Pagination.PrevPage(old(currentPage))
    {
      currentPage := Pagination.PrevPage(currentPage);
    }

    /** The "»" button. */
    method Next()
      modifies this`currentPage
      ensures currentPage == Pagination.NextPage(old(currentPage), TotalPages())
    {
      currentPage := Pagination.NextPage(currentPage, TotalPages());
    }

    /** A page-number button. */
    method GoTo(page: int)
      modifies this`currentPage
      ensures currentPage == page
    {
      currentPage := page;
    }

    /** `fetchTravelHistory`, given what the request gave back: a failure or
        a body without `pagination` is caught and changes nothing. */
    method FetchTravelHistory(response: Response<TravelSummary>)
      modifies this`activeTravel, this`travelHistory
      ensures response.Ok? && response.body.total.Some? ==>
                activeTravel == response.body.total.value && travelHistory == response.body.data
      ensures !(response.Ok? && response.body.total.Some?) ==>
                activeTravel == old(activeTravel) && travelHistory == old(travelHistory)
    {
      if response.Ok? && response.body.total.Some? {
        activeTravel := response.body.total.value;
        travelHistory := response.body.data;
      }
    }
  }
}
