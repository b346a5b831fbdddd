/** The infinite-scroll product list of src/modules/catalog/CatalogApp.jsx.
    apiFetch is one call: the guard, the request for `LIMIT` products from
    the current `skip`, and the update from the response, which is an input
    (a page of products, a body without `products`, or a request that threw). */
module Catalog {
  import opened Wrappers
  import opened Mesh

  /** The page size asked for. */
  const Limit: nat := 20

  /** What the awaited request gave: a thrown request, or a body whose
      `products` field may be absent. */
  datatype Response = Threw | Body(products: Option<seq<Product>>)

  /** The four state variables of the component. */
  datatype CatalogState = CatalogState(products: seq<Product>, skip: int, loading: bool, hasMore: bool)

  /** The state on mount. */
  const Initial := CatalogState([], 0, false, true)

  /** The pagination invariant: `skip` counts the products loaded. */
  predicate SkipCountsProducts(s: CatalogState) {
    s.skip == |s.products|
  }

  /** `res.data?.products || []` */
  function NewData(r: Response): seq<Product>
    requires r.Body?
  {
    if r.products.Some? then r.products.value else []
  }

  /** Whether apiFetch goes past its guard. */
  predicate Fetches(s: CatalogState) {
    !s.loading && s.hasMore
  }

  /** The state after one apiFetch. Past the guard, `loading` is set; a
      thrown request leaves it set. Otherwise the page is appended, `skip`
      grows by its length, a short page ends `hasMore`, and `loading` is
      cleared. */
  function FetchStep(s: CatalogState, r: Response): (t: CatalogState)
    ensures !Fetches(s) ==> t == s
    ensures Fetches(s) && r.Threw? ==> t == s.(loading := true)
    ensures Fetches(s) && r.Body? ==>
      && t.products == s.products + NewData(r)
      && t.skip == s.skip + |NewData(r)|
      && t.hasMore == (|NewData(r)| >= Limit)
      && !t.loading
  {
    if !Fetches(s) then s
    else
      match r
      case Threw => s.(loading := true)
      case Body(_) =>
        var page := NewData(r);
        CatalogState(s.products + page, s.skip + |page|, false, |page| >= Limit)
  }

  /** The `{limit, skip}` query an apiFetch sends, if it sends one. */
  function Request(s: CatalogState): (q: Option<(nat, int)>)
    ensures q.Some? <==> Fetches(s)
    ensures q.Some? ==> q.value == (Limit, s.skip)
  {
    if Fetches(s) then Some((Limit, s.skip)) else None
  }

  /** apiFetch calls, one response each. */
  function Run(s: CatalogState, responses: seq<Response>): CatalogState
    decreases |responses|
  {
    if responses == [] then s else Run(FetchStep(s, responses[0]), responses[1..])
  }

  /** One fetch keeps `skip == |products|`. */
  lemma FetchKeepsSkip(s: CatalogState, r: Response)
    requires SkipCountsProducts(s)
    ensures SkipCountsProducts(FetchStep(s, r))
  {
  }

  /** From mount on, `skip` is always the number of products loaded, so each
      request asks for the products after the ones shown. */
  lemma {:induction false} SkipAlwaysCountsProducts(s: CatalogState, responses: seq<Response>)
    requires SkipCountsProducts(s)
    ensures SkipCountsProducts(Run(s, responses))
    ensures Request(Run(s, responses)).Some? ==>
      Request(Run(s, responses)).value == (Limit, |Run(s, responses).products|)
    decreases |responses|
  {
    if responses != [] {
      FetchKeepsSkip(s, responses[0]);
      SkipAlwaysCountsProducts(FetchStep(s, responses[0]), responses[1..]);
    }
  }

  /** Products are only ever appended: what was shown stays, in order. */
  lemma {:induction false} ProductsOnlyGrow(s: CatalogState, responses: seq<Response>)
    ensures s.products <= Run(s, responses).products
    decreases |responses|
  {
    if responses != [] {
      var t := FetchStep(s, responses[0]);
      assert s.products <= t.products;
      ProductsOnlyGrow(t, responses[1..]);
    }
  }

  /** Once `hasMore` is false nothing changes any more: it is never set back. */
  lemma {:induction false} NoMoreIsFinal(s: CatalogState, responses: seq<Response>)
    requires !s.hasMore
    ensures Run(s, responses) == s
    decreases |responses|
  {
    if responses != [] {
      NoMoreIsFinal(FetchStep(s, responses[0]), responses[1..]);
    }
  }

  /** `hasMore` at the end means it was true at the start. */
  lemma {:induction false} HasMoreNeverReturns(s: CatalogState, responses: seq<Response>)
    ensures Run(s, responses).hasMore ==> s.hasMore
    decreases |responses|
  {
    if !s.hasMore {
      NoMoreIsFinal(s, responses);
    }
  }

  /** After a request that threw, `loading` stays set and every later
      apiFetch is a no-op: the list is stuck. */
  lemma {:induction false} ThrowStopsPaging(s: CatalogState, responses: seq<Response>)
    requires Fetches(s)
    ensures Run(FetchStep(s, Threw), responses) == s.(loading := true)
    decreases |responses|
  {
    if responses != [] {
      StuckWhileLoading(s.(loading := true), responses);
    }
  }

  lemma {:induction false} StuckWhileLoading(s: CatalogState, responses: seq<Response>)
    requires s.loading
    ensures Run(s, responses) == s
    decreases |responses|
  {
    if responses != [] {
      StuckWhileLoading(FetchStep(s, responses[0]), responses[1..]);
    }
  }

  /** A short page is the last one asked for. */
  lemma ShortPageEnds(s: CatalogState, page: seq<Product>, rest: seq<Response>)
    requires Fetches(s) && |page| < Limit
    ensures Run(FetchStep(s, Body(Some(page))), rest) == FetchStep(s, Body(Some(page)))
  {
    NoMoreIsFinal(FetchStep(s, Body(Some(page))), rest);
  }

  /** The component: its state variables as fields. */
  class CatalogApp {
    var products: seq<Product>
    var skip: int
    var loading: bool
    var hasMore: bool

    function State(): CatalogState
      reads this
    {
      CatalogState(products, skip, loading, hasMore)
    }

    constructor ()
      ensures State() == Initial
    {
      products := [];
      skip := 0;
      loading := false;
      hasMore := true;
    }

    /** apiFetch, with `response` the awaited request's outcome. Returns
        the `{limit, skip}` query sent, if any. */
    method ApiFetch(response: Response) returns (query: Option<(nat, int)>)
      modifies this
      ensures query == Request(old(State()))
      ensures State() == FetchStep(old(State()), response)
    {
      if loading || !hasMore {
        return None;
      }
      loading := true;
      query := Some((Limit, skip));
      if response.Threw? {
        return;
      }
      var newData := if response.products.Some? then response.products.value else [];
      products := products + newData;
      skip := skip + |newData|;
      if |newData| < Limit {
        hasMore := false;
      }
      loading := false;
    }
  }
}
