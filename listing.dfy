/** Pieces the paginated tab-list controllers share: the two tabs and the fallbacks they
    apply to a list reply. */
module Listing {
  import opened Json
  import opened Gateway
  import opened Pagination

  datatype Tab = Given | Received

  /** A `totalPages` value the controllers can store as a number: a page count, or a falsy
      value that `|| 1` replaces. */
  predicate PageCount(v: Json) {
    !Truthy(v) || (v.Num? && v.n >= 1)
  }

  /** A reply whose response, if it has one, carries a usable `totalPages`. */
  predicate PagedReply(reply: Reply) {
    reply.Resolved? && !Nullish(reply.response) ==> PageCount(OptMember(reply.response, "totalPages"))
  }

  /** `response.totalPages || 1`: never zero, so the pager always has a page. */
  function PagesOr1(v: Json): (pages: int)
    requires PageCount(v)
    ensures pages >= 1
    ensures Truthy(v) ==> pages == v.n
    ensures !Truthy(v) ==> pages == 1
  {
    if Truthy(v) then v.n else 1
  }

  /** `Array.isArray(v) ? v : []` */
  function ArrayItems(v: Json): (items: seq<Json>)
    ensures v.Arr? ==> items == v.items
    ensures !v.Arr? ==> items == []
  {
    if v.Arr? then v.items else []
  }

  /** The page count after a load: only a response that was read replaces it. */
  function LoadedPages(reply: Reply, before: int): (pages: int)
    requires PagedReply(reply)
    ensures before >= 1 ==> pages >= 1
    ensures reply.Rejected? || Nullish(reply.response) ==> pages == before
    ensures reply.Resolved? && Truthy(OptMember(reply.response, "totalPages")) ==>
              pages == OptMember(reply.response, "totalPages").n
    ensures reply.Resolved? && !Nullish(reply.response) && !Truthy(OptMember(reply.response, "totalPages")) ==>
              pages == 1
  {
    if reply.Rejected? || Nullish(reply.response) then before
    else PagesOr1(Member(reply.response, "totalPages").value)
  }

  /** The guard of `goToPage`. */
  predicate PageAccepted(page: int, totalPages: int) {
    1 <= page <= totalPages
  }

  /** Every link the pager shows is a page `goToPage` accepts, and the current page has a
      link exactly when it lies within the page count. */
  lemma PagerLinksAreAccepted(current: int, total: int)
    ensures forall p :: p in Window(current, total) ==> PageAccepted(p, total)
    ensures current in Window(current, total) <==> PageAccepted(current, total)
  {
    WindowShape(current, total);
  }

  /** Loading an accepted page can shrink the page count below it: on page 3 of 3, a reply
      reporting two pages leaves the current page outside 1..totalPages and without a
      pager link. */
  lemma PageCountCanDropBelowCurrent()
    ensures var reply := Resolved(Obj(map["totalPages" := Num(2)]));
            && PagedReply(reply) && PageAccepted(3, 3)
            && LoadedPages(reply, 3) == 2
            && !PageAccepted(3, LoadedPages(reply, 3))
            && 3 !in Window(3, LoadedPages(reply, 3))
  {
    PagerLinksAreAccepted(3, 2);
  }
}
