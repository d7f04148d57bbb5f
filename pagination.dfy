/** The page arithmetic the paged tables share: the number of pages, the
    clamped previous/next moves, and the full row of page buttons. */
module Pagination {

  /** `Math.ceil(total / perPage)` for a whole-number total. */
  function TotalPages(total: int, perPage: int): (pages: int)
    requires perPage > 0
    ensures perPage * (pages - 1) < total <= perPage * pages
    ensures total >= 0 ==> pages >= 0
    ensures total > 0 ==> pages >= 1
  {
    -((-total) / perPage)
  }

  /** `Math.max(page - 1, 1)` */
  function PrevPage(page: int): (p: int)
    ensures p >= 1
    ensures page > 1 ==> p == page - 1
    ensures page <= 2 ==> p == 1
  {
    if page - 1 > 1 then page - 1 else 1
  }

  /** `Math.min(page + 1, totalPages)` */
  function NextPage(page: int, totalPages: int): (p: int)
    ensures p <= totalPages
    ensures page < totalPages ==> p == page + 1
    ensures page >= totalPages ==> p == totalPages
  {
    if page + 1 < totalPages then page + 1 else totalPages
  }

  /** `disabled={currentPage === 1}` */
  predicate PrevDisabled(page: int) {
    page == 1
  }

  /** `disabled={currentPage === totalPages}` */
  predicate NextDisabled(page: int, totalPages: int) {
    page == totalPages
  }

  /** `Array.from({ length: totalPages }, (_, i) => i + 1)`; a negative length
      counts as 0. */
  function PageButtons(totalPages: int): (pages: seq<int>)
    ensures |pages| == if totalPages > 0 then totalPages else 0
    ensures forall i :: 0 <= i < |pages| ==> pages[i] == i + 1
  {
    if totalPages <= 0 then [] else PageButtons(totalPages - 1) + [totalPages]
  }

  /** The buttons are exactly the pages 1 to `totalPages`. */
  lemma PageButtonsIff(totalPages: int, page: int)
    ensures page in PageButtons(totalPages) <==> 1 <= page <= totalPages
  {
    var pages := PageButtons(totalPages);
    if 1 <= page <= totalPages {
      assert pages[page - 1] == page;
    }
  }

  /** From a page in range, both moves stay in range. */
  lemma MovesStayInRange(page: int, totalPages: int)
    requires 1 <= page <= totalPages
    ensures 1 <= PrevPage(page) <= totalPages
    ensures 1 <= NextPage(page, totalPages) <= totalPages
  {
  }

  /** Each button is disabled exactly when pressing it would leave the page
      where it is. */
  lemma DisabledIffNoMove(page: int, totalPages: int)
    requires 1 <= page <= totalPages
    ensures PrevDisabled(page) <==> PrevPage(page) == page
    ensures NextDisabled(page, totalPages) <==> NextPage(page, totalPages) == page
  {
  }

  /** With no pages at all, "next" moves to page 0, which is not a page, and
      the "next" button is not disabled on page 1 to stop it. */
  lemma NextWithoutPages(page: int)
    requires page >= 1
    ensures NextPage(page, 0) == 0
    ensures 0 !in PageButtons(0)
    ensures !NextDisabled(page, 0)
  {
  }
}
