/** The pagination bar: the page count is `Math.ceil(totalItems /
    itemsPerPage)`, and one button per page is rendered, labelled with its
    page number and highlighted when it is the current page. */
module Pagination {
  import opened Common

  /** The page count, or None when `itemsPerPage` is 0: the quotient is then
      NaN or Infinity and `Array(totalPages)` throws while rendering. */
  function TotalPages(totalItems: nat, itemsPerPage: nat): (r: Option<nat>)
    ensures r.None? <==> itemsPerPage == 0
    ensures r.Some? ==> r.value * itemsPerPage >= totalItems
    ensures r.Some? && r.value > 0 ==> (r.value - 1) * itemsPerPage < totalItems
  {
    if itemsPerPage == 0 then None else Some((totalItems + itemsPerPage - 1) / itemsPerPage)
  }

  /** The count is the least number of pages that holds every item. */
  lemma TotalPagesLeast(totalItems: nat, itemsPerPage: nat, k: nat)
    requires itemsPerPage > 0
    requires k * itemsPerPage >= totalItems
    ensures TotalPages(totalItems, itemsPerPage).value <= k
  {
  }

  /** A rendered button: its label, whether it is highlighted, and the page
      its click hands to `onPageChange`. */
  datatype Button = Button(caption: nat, highlighted: bool, onClick: nat)

  /** `[...Array(totalPages)].map((_, index) => ...)`. */
  function Buttons(totalPages: nat, currentPage: int): (r: seq<Button>)
    ensures |r| == totalPages
    ensures forall i :: 0 <= i < |r| ==> r[i].caption == i + 1 && r[i].onClick == i + 1
    ensures forall i :: 0 <= i < |r| ==> (r[i].highlighted <==> currentPage == i + 1)
  {
    seq(totalPages, (index: int) requires 0 <= index => Button(index + 1, currentPage == index + 1, index + 1))
  }

  /** At most one button is highlighted, and none when the current page is
      outside 1..totalPages. */
  lemma AtMostOneHighlighted(totalPages: nat, currentPage: int, i: nat, j: nat)
    requires i < totalPages && j < totalPages
    requires Buttons(totalPages, currentPage)[i].highlighted && Buttons(totalPages, currentPage)[j].highlighted
    ensures i == j
    ensures 1 <= currentPage <= totalPages
  {
  }

  /** The bar for a list: no button for an empty list, and the labels run
      from 1 up to the page count in ascending order. */
  lemma BarForList(totalItems: nat, itemsPerPage: nat, currentPage: int)
    requires itemsPerPage > 0
    ensures var b := Buttons(TotalPages(totalItems, itemsPerPage).value, currentPage);
            && (totalItems == 0 <==> |b| == 0)
            && (forall i, j :: 0 <= i < j < |b| ==> b[i].caption < b[j].caption)
            && (|b| > 0 ==> b[0].caption == 1 && b[|b| - 1].caption == |b|)
  {
  }
}
