/**
 * The product list of the home screen: paged loading from the catalog
 * service, pull-to-refresh, load-more at the end of the list, a debounced
 * search box, and a "like" flag per product.
 *
 * Every state field of the screen component is a field of the class
 * `HomeScreen`. A request is issued in two steps, as in the component: an
 * event method does the synchronous part (resetting counters, setting
 * `loading` and clearing `error`) and returns the `Request` it issues; the
 * network's answer comes back later through `Receive`, which applies what
 * `fetchProducts` does after its `await`.
 */
module HomeScreen {
  import opened Wrappers
  import opened Text
  import Fetch

  /** Number of products per page (`limit`). */
  const Limit: nat := 10

  /** A product as the list holds it: the catalog's fields plus the local `liked` flag. */
  datatype Product = Product(
    id: int,
    title: string,
    description: string,
    category: string,
    price: real,
    thumbnail: string,
    liked: bool)

  /** The service endpoint a request is sent to, with its query parameters.
      `query` is the trimmed search term; its URL encoding is not modelled. */
  datatype Endpoint =
    | Listing(limit: nat, skip: nat)
    | Search(query: string, limit: nat, skip: nat)

  /** The arguments of one `fetchProducts(page, isRefresh, searchTerm)` call. */
  datatype Request = Request(page: nat, isRefresh: bool, searchTerm: Option<string>)

  /** What came back for a request: the decoded page or a failure. */
  datatype FetchOutcome =
    | Loaded(products: seq<Product>, total: int)
    | Failed(failure: Fetch.Failure)

  /** The message shown for a failed page request. */
  function ErrorMessage(f: Fetch.Failure): string {
    Fetch.ErrorMessage(f, "Failed to fetch products")
  }

  /** The endpoint `fetchProducts` builds: the search endpoint exactly when
      the search term is present and not blank, the plain listing otherwise;
      either way `limit` items starting at `page * limit`. */
  function EndpointFor(page: nat, searchTerm: Option<string>): (e: Endpoint)
    ensures e.limit == Limit && e.skip == page * Limit
    ensures e.Search? <==> searchTerm.Some? && exists i :: 0 <= i < |searchTerm.value| && !IsJsWhitespace(searchTerm.value[i])
    ensures e.Search? ==> e.query == Trim(searchTerm.value) && e.query != []
  {
    TrimEmptyIff(if searchTerm.Some? then searchTerm.value else "");
    if searchTerm.Some? && Trim(searchTerm.value) != [] then
      Search(Trim(searchTerm.value), Limit, page * Limit)
    else
      Listing(Limit, page * Limit)
  }

  /** A fetched product as it enters the list: `{ ...product, liked: false }`. */
  function Unliked(fetched: seq<Product>): (r: seq<Product>)
    ensures |r| == |fetched|
    ensures forall i :: 0 <= i < |r| ==> !r[i].liked && r[i].(liked := fetched[i].liked) == fetched[i]
  {
    seq(|fetched|, i requires 0 <= i < |fetched| => fetched[i].(liked := false))
  }

  /** The list after a page arrives: a refresh replaces the list by the page,
      any other request appends the page after the existing products. */
  function Merged(prev: seq<Product>, isRefresh: bool, fetched: seq<Product>): (r: seq<Product>)
    ensures |r| == (if isRefresh then 0 else |prev|) + |fetched|
    ensures !isRefresh ==> r[..|prev|] == prev
    ensures r[|r| - |fetched|..] == Unliked(fetched)
  {
    (if isRefresh then [] else prev) + Unliked(fetched)
  }

  /** Appending two pages one after the other is appending both at once. */
  lemma MergedPages(prev: seq<Product>, a: seq<Product>, b: seq<Product>)
    ensures Merged(Merged(prev, false, a), false, b) == Merged(prev, false, a + b)
  {
    var both := Unliked(a) + Unliked(b);
    var whole := Unliked(a + b);
    forall i | 0 <= i < |whole| ensures both[i] == whole[i] {
      if i < |a| {
        assert (a + b)[i] == a[i];
      } else {
        assert (a + b)[i] == b[i - |a|];
      }
    }
    assert both == whole;
  }

  /** A refresh forgets the list it replaces. */
  lemma RefreshForgets(prev: seq<Product>, other: seq<Product>, a: seq<Product>)
    ensures Merged(prev, true, a) == Merged(other, true, a)
  {
  }

  /** `toggleLike(productId)`: flips `liked` on every product with that id. */
  function ToggledLike(products: seq<Product>, id: int): (r: seq<Product>)
    ensures |r| == |products|
    ensures forall i :: 0 <= i < |r| ==>
      r[i].(liked := products[i].liked) == products[i]
      && (r[i].liked <==> (products[i].liked != (products[i].id == id)))
  {
    seq(|products|, i requires 0 <= i < |products| =>
      if products[i].id == id then products[i].(liked := !products[i].liked) else products[i])
  }

  /** Toggling the same product twice restores the list. */
  lemma ToggleLikeTwice(products: seq<Product>, id: int)
    ensures ToggledLike(ToggledLike(products, id), id) == products
  {
    var once := ToggledLike(products, id);
    var twice := ToggledLike(once, id);
    assert forall i :: 0 <= i < |twice| ==> twice[i] == products[i];
  }

  /** Toggling an id no product carries changes nothing. */
  lemma ToggleLikeAbsent(products: seq<Product>, id: int)
    requires forall i :: 0 <= i < |products| ==> products[i].id != id
    ensures ToggledLike(products, id) == products
  {
    var r := ToggledLike(products, id);
    assert forall i :: 0 <= i < |r| ==> r[i] == products[i];
  }

  /** What `renderFooter` draws under the list. */
  datatype Footer =
    | NoMore(text: string)
    | LoadingMore(text: string)
    | NoFooter

  function FooterFor(hasMore: bool, loading: bool, isSearching: bool, count: nat): (f: Footer)
    ensures f.NoMore? <==> !hasMore
    ensures f.LoadingMore? <==> hasMore && loading && count > 0
    ensures f.NoMore? ==> f.text == if isSearching then "No more search results" else "No more products to load"
    ensures f.LoadingMore? ==> f.text == if isSearching then "Loading more search results..." else "Loading more products..."
  {
    if !hasMore then
      NoMore(if isSearching then "No more search results" else "No more products to load")
    else if loading && count > 0 then
      LoadingMore(if isSearching then "Loading more search results..." else "Loading more products...")
    else
      NoFooter
  }

  /** What `renderEmpty` draws when the list has no items. */
  datatype EmptyView =
    | InitialLoading
    | ErrorView(message: string)
    | NoSearchResults(query: string)
    | NoProducts

  /** The empty view's priority: the first load, then an error, then a
      search without results, then the generic message. */
  function EmptyViewFor(loading: bool, count: nat, error: Option<string>, isSearching: bool, searchQuery: string): (v: EmptyView)
    ensures v.InitialLoading? <==> loading && count == 0
    ensures v.ErrorView? <==> !(loading && count == 0) && Truthy(error)
    ensures v.ErrorView? ==> v.message == error.value
    ensures v.NoSearchResults? <==> !(loading && count == 0) && !Truthy(error) && isSearching && count == 0
    ensures v.NoSearchResults? ==> v.query == searchQuery
  {
    if loading && count == 0 then InitialLoading
    else if Truthy(error) then ErrorView(error.value)
    else if isSearching && count == 0 then NoSearchResults(searchQuery)
    else NoProducts
  }

  /** The two loading indicators never show at once: the footer's only
      while items exist, the empty view's only while none do. */
  lemma OneLoadingIndicator(hasMore: bool, loading: bool, isSearching: bool, count: nat,
                            error: Option<string>, searchQuery: string)
    ensures !(FooterFor(hasMore, loading, isSearching, count).LoadingMore?
              && EmptyViewFor(loading, count, error, isSearching, searchQuery).InitialLoading?)
  {
  }

  /** The caption above the list (`searchResultsText`). */
  function SearchResultsText(isSearching: bool, total: int, searchQuery: string): (s: string)
    ensures |s| > |IntToString(total)|
    ensures s[..|IntToString(total)|] == IntToString(total)
    ensures isSearching ==> s[|IntToString(total)|..] == " search results for \"" + searchQuery + "\""
    ensures !isSearching ==> s[|IntToString(total)|..] == " products"
  {
    if isSearching then IntToString(total) + " search results for \"" + searchQuery + "\""
    else IntToString(total) + " products"
  }

  /** The count in the caption reads back as `totalProducts`. */
  lemma SearchResultsTextShowsTotal(isSearching: bool, total: int, searchQuery: string)
    ensures ParseInt(SearchResultsText(isSearching, total, searchQuery)[..|IntToString(total)|]) == Some(total)
  {
    IntToStringRoundTrip(total);
  }

  class HomeScreen {
    var searchQuery: string
    var products: seq<Product>
    var loading: bool
    var refreshing: bool
    var error: Option<string>
    var currentPage: nat
    var hasMore: bool
    var totalProducts: int
    var isSearching: bool

    /** A refresh is always a load in progress, and `hasMore` is false only
        when the last page received reached the reported total. */
    ghost predicate Valid()
      reads this
    {
      && (refreshing ==> loading)
      && (!hasMore ==> currentPage * Limit + Limit >= totalProducts)
    }

    /** The component's initial state, before its mount effect runs. */
    constructor ()
      ensures Valid()
      ensures searchQuery == "" && products == [] && loading && !refreshing && error == None
      ensures currentPage == 0 && hasMore && totalProducts == 0 && !isSearching
    {
      searchQuery := "";
      products := [];
      loading := true;
      refreshing := false;
      error := None;
      currentPage := 0;
      hasMore := true;
      totalProducts := 0;
      isSearching := false;
    }

    /** The synchronous start of `fetchProducts`: mark a load in progress,
        clear the error, and issue the request. */
    method BeginFetch(page: nat, isRefresh: bool, searchTerm: Option<string>) returns (req: Request)
      modifies this`loading, this`error
      ensures loading && error == None
      ensures req == Request(page, isRefresh, searchTerm)
    {
      loading := true;
      error := None;
      req := Request(page, isRefresh, searchTerm);
    }

    /** The mount effect: fetch the first page of the plain listing. */
    method Mount() returns (req: Request)
      requires Valid()
      modifies this
      ensures Valid()
      ensures req == Request(0, true, None)
      ensures loading && error == None
      ensures searchQuery == old(searchQuery) && products == old(products) && refreshing == old(refreshing)
      ensures currentPage == old(currentPage) && hasMore == old(hasMore)
      ensures totalProducts == old(totalProducts) && isSearching == old(isSearching)
    {
      req := BeginFetch(0, true, None);
    }

    /** The text box's change handler: the query is stored at once; the
        search itself runs later, in `SearchTimerFired`. */
    method HandleSearch(query: string)
      requires Valid()
      modifies this`searchQuery
      ensures Valid()
      ensures searchQuery == query
    {
      searchQuery := query;
    }

    /** The body of the debounced search callback, for the query typed last:
        back to page 0 with more to come, and a replacing fetch, of search
        results for a non-blank query and of the plain listing otherwise. */
    method SearchTimerFired(query: string) returns (req: Request)
      requires Valid()
      modifies this
      ensures Valid()
      ensures isSearching <==> Trim(query) != []
      ensures currentPage == 0 && hasMore && loading && error == None
      ensures req == Request(0, true, if Trim(query) != [] then Some(Trim(query)) else None)
      ensures searchQuery == old(searchQuery) && products == old(products) && refreshing == old(refreshing)
      ensures totalProducts == old(totalProducts)
    {
      var term := Trim(query);
      if term != [] {
        isSearching := true;
        currentPage := 0;
        hasMore := true;
        req := BeginFetch(0, true, Some(term));
      } else {
        isSearching := false;
        currentPage := 0;
        hasMore := true;
        req := BeginFetch(0, true, None);
      }
    }

    /** Pull-to-refresh: back to page 0 and a replacing fetch for the
        current query (trimmed, and only when it is not blank). */
    method OnRefresh() returns (req: Request)
      requires Valid()
      modifies this
      ensures Valid()
      ensures refreshing && loading && error == None && currentPage == 0 && hasMore
      ensures req == Request(0, true, if Trim(searchQuery) != [] then Some(Trim(searchQuery)) else None)
      ensures searchQuery == old(searchQuery) && products == old(products)
      ensures totalProducts == old(totalProducts) && isSearching == old(isSearching)
    {
      refreshing := true;
      currentPage := 0;
      hasMore := true;
      var query := Trim(searchQuery);
      if query != [] {
        req := BeginFetch(0, true, Some(query));
      } else {
        req := BeginFetch(0, true, None);
      }
    }

    /** The end of the list was reached: unless a load is running or the
        last page is known to be the end, append the next page. */
    method LoadMore() returns (req: Option<Request>)
      requires Valid()
      modifies this
      ensures Valid()
      ensures req.Some? <==> !old(loading) && old(hasMore)
      ensures req.None? ==> loading == old(loading) && error == old(error)
      ensures req.Some? ==>
        && loading && error == None
        && req.value == Request(currentPage + 1, false, if Trim(searchQuery) != [] then Some(Trim(searchQuery)) else None)
      ensures req.Some? && products != [] ==> FooterFor(hasMore, loading, isSearching, |products|).LoadingMore?
      ensures searchQuery == old(searchQuery) && products == old(products) && refreshing == old(refreshing)
      ensures currentPage == old(currentPage) && hasMore == old(hasMore)
      ensures totalProducts == old(totalProducts) && isSearching == old(isSearching)
    {
      req := None;
      if !loading && hasMore {
        var r;
        var query := Trim(searchQuery);
        if query != [] {
          r := BeginFetch(currentPage + 1, false, Some(query));
        } else {
          r := BeginFetch(currentPage + 1, false, None);
        }
        req := Some(r);
      }
    }

    /** The like button of one product. */
    method ToggleLike(productId: int)
      requires Valid()
      modifies this`products
      ensures Valid()
      ensures products == ToggledLike(old(products), productId)
    {
      products := ToggledLike(products, productId);
    }

    /** The clear button of the search box: forget the query, the search
        mode, the list and its total, and fetch the plain listing afresh. */
    method ClearSearch() returns (req: Request)
      requires Valid()
      modifies this
      ensures Valid()
      ensures searchQuery == "" && !isSearching && currentPage == 0 && hasMore
      ensures products == [] && totalProducts == 0 && loading && error == None
      ensures req == Request(0, true, None)
      ensures refreshing == old(refreshing)
    {
      searchQuery := "";
      isSearching := false;
      currentPage := 0;
      hasMore := true;
      products := [];
      totalProducts := 0;
      req := BeginFetch(0, true, None);
    }

    /** The end of `fetchProducts` for request `req`. A page replaces or
        extends the list and sets the page counters; a failure only records
        its message. Either way the load and the refresh are over. */
    method Receive(req: Request, outcome: FetchOutcome)
      requires Valid()
      modifies this
      ensures Valid()
      ensures !loading && !refreshing
      ensures outcome.Loaded? ==>
        && products == Merged(old(products), req.isRefresh, outcome.products)
        && totalProducts == outcome.total
        && (hasMore <==> req.page * Limit + Limit < outcome.total)
        && currentPage == req.page
        && error == old(error)
      ensures outcome.Failed? ==>
        && error == Some(ErrorMessage(outcome.failure))
        && products == old(products) && totalProducts == old(totalProducts)
        && hasMore == old(hasMore) && currentPage == old(currentPage)
      ensures outcome.Failed? && products == [] && ErrorMessage(outcome.failure) != "" ==>
        EmptyViewFor(loading, |products|, error, isSearching, searchQuery) == ErrorView(ErrorMessage(outcome.failure))
      ensures searchQuery == old(searchQuery) && isSearching == old(isSearching)
    {
      match outcome {
        case Loaded(fetched, total) =>
          var skip := EndpointFor(req.page, req.searchTerm).skip;
          products := Merged(products, req.isRefresh, fetched);
          totalProducts := total;
          hasMore := skip + Limit < total;
          currentPage := req.page;
        case Failed(failure) =>
          error := Some(ErrorMessage(failure));
      }
      loading := false;
      refreshing := false;
    }
  }
}
