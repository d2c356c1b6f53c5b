/** The `/api/search` POST handler: `recursiveYggSearch` fetches result pages
    1, 2, ... from yggapi, 100 results per page, and concatenates them up to
    the first empty page. Nothing guarantees that an empty page ever comes;
    the model asks for one (`last`) and recurses on the distance to it. */
module Search {
  import opened Types

  const PerPage: nat := 100

  /** One page request: its page number and the query parameters it carries. */
  datatype PageRequest = PageRequest(page: nat, search: string, orderBy: OrderBy, perPage: nat)

  /** The request for a given page of a given query. */
  function Request(search: string, orderBy: OrderBy, page: nat): PageRequest {
    PageRequest(page, search, orderBy, PerPage)
  }

  /** The aggregated results (or the exception that aborted the aggregation)
      and the page requests made, in order. */
  datatype Paged<T> = Paged(result: Fetched<seq<T>>, requests: seq<PageRequest>)

  /** A page reply that ends the recursion: it threw, or it is empty. */
  predicate Stops<T>(reply: Fetched<seq<T>>) {
    reply.Threw? || |reply.value| == 0
  }

  /** `recursiveYggSearch(search, orderBy, page)`. A page that throws aborts
      the whole aggregation, so no partial result is ever returned. */
  function RecursiveYggSearch<T>(search: string, orderBy: OrderBy, fetch: PageRequest -> Fetched<seq<T>>,
                                 page: nat, ghost last: nat): Paged<T>
    requires page <= last && Stops(fetch(Request(search, orderBy, last)))
    decreases last - page
  {
    var req := Request(search, orderBy, page);
    match fetch(req)
    case Threw(e) => Paged(Threw(e), [req])
    case Got(links) =>
      if |links| > 0 then
        var rest := RecursiveYggSearch(search, orderBy, fetch, page + 1, last);
        match rest.result
        case Threw(e) => Paged(Threw(e), [req] + rest.requests)
        case Got(more) => Paged(Got(links + more), [req] + rest.requests)
      else
        Paged(Got(links), [req])
  }

  /** The query of a search request. */
  datatype SearchRequest = SearchRequest(search: string, orderBy: OrderBy)

  /** The handler: parse the body (outside any `try`), then reply with the
      aggregated results of pages 1, 2, ... as JSON. */
  function SearchPost<T>(body: Fetched<SearchRequest>, fetch: PageRequest -> Fetched<seq<T>>, ghost last: nat)
    : (r: Fetched<(Response<seq<T>>, seq<PageRequest>)>)
    requires body.Got? ==> 1 <= last && Stops(fetch(Request(body.value.search, body.value.orderBy, last)))
  {
    match body
    case Threw(e) => Threw(e)
    case Got(req) =>
      var paged := RecursiveYggSearch(req.search, req.orderBy, fetch, 1, last);
      match paged.result
      case Threw(e) => Threw(e)
      case Got(results) => Got((Json(results), paged.requests))
  }

  // ---------------------------------------------------------------------
  // Reference definition and properties

  /** The results of pages `lo` .. `hi - 1`, concatenated in page order;
      none of those pages stops the search. */
  function PagesBetween<T>(search: string, orderBy: OrderBy, fetch: PageRequest -> Fetched<seq<T>>,
                           lo: nat, hi: nat): seq<T>
    requires lo <= hi
    requires forall p :: lo <= p < hi ==> !Stops(fetch(Request(search, orderBy, p)))
    decreases hi - lo
  {
    if lo == hi then []
    else
      assert !Stops(fetch(Request(search, orderBy, lo)));
      fetch(Request(search, orderBy, lo)).value + PagesBetween(search, orderBy, fetch, lo + 1, hi)
  }

  /** `k` is the first page, from `page` on, whose reply stops the search. */
  predicate FirstStop<T>(search: string, orderBy: OrderBy, fetch: PageRequest -> Fetched<seq<T>>,
                         page: nat, k: nat) {
    && page <= k
    && Stops(fetch(Request(search, orderBy, k)))
    && forall p :: page <= p < k ==> !Stops(fetch(Request(search, orderBy, p)))
  }

  /** If `k` is the first stopping page from `page` on, the search fetches
      exactly pages `page` .. `k`, one request each, in order and with the
      same query, 100 results per page; it returns the concatenation of
      pages `page` .. `k - 1`, or the exception if page `k` threw. */
  lemma {:induction false} SearchCollectsPagesUpToFirstEmpty<T>(
    search: string, orderBy: OrderBy, fetch: PageRequest -> Fetched<seq<T>>, page: nat, last: nat, k: nat)
    requires page <= last && Stops(fetch(Request(search, orderBy, last)))
    requires FirstStop(search, orderBy, fetch, page, k)
    ensures var r := RecursiveYggSearch(search, orderBy, fetch, page, last);
            && |r.requests| == k - page + 1
            && (forall i :: 0 <= i < |r.requests| ==>
                  r.requests[i] == PageRequest(page + i, search, orderBy, 100))
            && r.result == match fetch(Request(search, orderBy, k))
                           case Threw(e) => Threw(e)
                           case Got(_) => Got(PagesBetween(search, orderBy, fetch, page, k))
    decreases k - page
  {
    if page < k {
      assert !Stops(fetch(Request(search, orderBy, page)));
      assert page + 1 <= last by {
        if page == last { assert false; }
      }
      SearchCollectsPagesUpToFirstEmpty(search, orderBy, fetch, page + 1, last, k);
      var rest := RecursiveYggSearch(search, orderBy, fetch, page + 1, last);
      var r := RecursiveYggSearch(search, orderBy, fetch, page, last);
      assert r.requests == [Request(search, orderBy, page)] + rest.requests;
      forall i | 0 <= i < |r.requests|
        ensures r.requests[i] == PageRequest(page + i, search, orderBy, 100)
      {
        if i > 0 {
          assert r.requests[i] == rest.requests[i - 1];
        }
      }
    }
  }

  /** The handler starts at page 1: with `k` the first stopping page, it
      replies with pages 1 .. k - 1 concatenated after exactly k fetches, or
      fails with no reply when page k threw. */
  lemma SearchPostFetchesFromPageOne<T>(req: SearchRequest, fetch: PageRequest -> Fetched<seq<T>>, last: nat, k: nat)
    requires 1 <= last && Stops(fetch(Request(req.search, req.orderBy, last)))
    requires FirstStop(req.search, req.orderBy, fetch, 1, k)
    ensures var r := SearchPost(Got(req), fetch, last);
            && (r.Got? <==> fetch(Request(req.search, req.orderBy, k)).Got?)
            && (r.Got? ==>
                  && r.value.0 == Response(200, PagesBetween(req.search, req.orderBy, fetch, 1, k))
                  && |r.value.1| == k
                  && forall i :: 0 <= i < k ==> r.value.1[i] == PageRequest(i + 1, req.search, req.orderBy, 100))
  {
    SearchCollectsPagesUpToFirstEmpty(req.search, req.orderBy, fetch, 1, last, k);
  }

  /** An empty first page gives `[]` after a single fetch. */
  lemma EmptyFirstPage<T>(search: string, orderBy: OrderBy, fetch: PageRequest -> Fetched<seq<T>>, last: nat)
    requires 1 <= last && Stops(fetch(Request(search, orderBy, last)))
    requires fetch(Request(search, orderBy, 1)) == Got([])
    ensures RecursiveYggSearch(search, orderBy, fetch, 1, last)
            == Paged(Got([]), [PageRequest(1, search, orderBy, 100)])
  {
  }

  /** A non-empty page contributes its results, in upstream order, ahead of
      everything the following pages contribute. */
  lemma NonEmptyPageComesFirst<T>(search: string, orderBy: OrderBy, fetch: PageRequest -> Fetched<seq<T>>,
                                  page: nat, last: nat)
    requires page <= last && Stops(fetch(Request(search, orderBy, last)))
    requires fetch(Request(search, orderBy, page)).Got? && |fetch(Request(search, orderBy, page)).value| > 0
    ensures page + 1 <= last
    ensures var r := RecursiveYggSearch(search, orderBy, fetch, page, last);
            var rest := RecursiveYggSearch(search, orderBy, fetch, page + 1, last);
            && r.requests == [Request(search, orderBy, page)] + rest.requests
            && (r.result.Got? <==> rest.result.Got?)
            && (r.result.Got? ==> r.result.value == fetch(Request(search, orderBy, page)).value + rest.result.value)
  {
  }
}
