/**
 * The marketplace page: 24 products per page, the page sliced first and then
 * narrowed by the category filter and the search box, and the Prev/Next buttons.
 * The page keeps a category filter and a handler for it, but renders no category
 * buttons, so the filter keeps its initial "all" and only the search narrows.
 */
module Marketplace {
  import opened Optional
  import Strings
  import Seqs
  import opened Catalog

  const PerPage: nat := 24

  /** Pages are numbered from 1. */
  type Page = n: nat | n >= 1 witness 1

  function StartIndex(page: Page): nat {
    (page - 1) * PerPage
  }

  function EndIndex(page: Page): nat {
    StartIndex(page) + PerPage
  }

  /** `products.slice(startIndex, endIndex)`: a run of at most 24 consecutive products. */
  function PageItems(products: seq<Product>, page: Page): (r: seq<Product>)
    ensures |r| <= PerPage
    ensures forall i :: 0 <= i < |r| ==> StartIndex(page) + i < |products| && r[i] == products[StartIndex(page) + i]
    ensures r == [] <==> StartIndex(page) >= |products|
  {
    SliceBounds(products, StartIndex(page), EndIndex(page));
    Slice(products, StartIndex(page), EndIndex(page))
  }

  /** The search box's test: the lowercased name contains the lowercased query. */
  predicate SearchMatches(p: Product, search: string) {
    Strings.Contains(Strings.ToLower(p.productName), Strings.ToLower(search))
  }

  /** The cards shown: the current page's products that pass the category button and then the search, in page order. */
  function Shown(products: seq<Product>, page: Page, filter: string, search: string): (r: seq<Product>)
    ensures |r| <= PerPage
    ensures Seqs.IsSubseq(r, PageItems(products, page))
    ensures forall p :: p in r <==> p in PageItems(products, page) && CategoryMatches(p, filter) && SearchMatches(p, search)
  {
    var items := PageItems(products, page);
    var byCategory := Seqs.Filter(items, p => CategoryMatches(p, filter));
    var r := Seqs.Filter(byCategory, p => SearchMatches(p, search));
    Seqs.FilterIsSubseq(items, p => CategoryMatches(p, filter));
    Seqs.FilterIsSubseq(byCategory, p => SearchMatches(p, search));
    Seqs.SubseqTransitive(r, byCategory, items);
    r
  }

  /** With the "all" button and an empty search the whole page is shown. */
  lemma ShownUnfiltered(products: seq<Product>, page: Page)
    ensures Shown(products, page, "all", "") == PageItems(products, page)
  {
    var items := PageItems(products, page);
    Seqs.FilterAll(items, p => CategoryMatches(p, "all"));
    forall p | p in items ensures SearchMatches(p, "") {
      assert Strings.ToLower("") == "";
      assert Strings.OccursAt(Strings.ToLower(p.productName), "", 0);
    }
    Seqs.FilterAll(items, p => SearchMatches(p, ""));
  }

  /** Under the initial "all" filter, the only one the page as rendered has, the search alone narrows the page. */
  lemma ShownAllCategories(products: seq<Product>, page: Page, search: string)
    ensures Shown(products, page, "all", search) == Seqs.Filter(PageItems(products, page), p => SearchMatches(p, search))
  {
    Seqs.FilterAll(PageItems(products, page), p => CategoryMatches(p, "all"));
  }

  /** `Math.ceil(n / 24)`: the page count shown. */
  function PageCount(n: nat): nat {
    (n + PerPage - 1) / PerPage
  }

  /** Next is enabled exactly on pages before the last one. */
  lemma NextEnabledBeforeLastPage(n: nat, page: Page)
    ensures EndIndex(page) < n <==> page < PageCount(n)
  {
    var k := page - 1;
    assert EndIndex(page) == 24 * k + 24;
    if 24 * k + 24 < n {
      assert 24 * (k + 1) + 23 <= n + 23;
      assert (n + 23) / 24 >= k + 2 by {
        assert n + 23 >= 24 * (k + 2);
      }
    } else {
      assert n + 23 < 24 * (k + 2);
      assert (n + 23) / 24 < k + 2;
    }
  }

  /** The page Next moves to holds at least one product. */
  lemma NextPageNotEmpty(products: seq<Product>, page: Page)
    requires EndIndex(page) < |products|
    ensures PageItems(products, page + 1) != []
  {
  }

  class MarketplacePage {
    var products: seq<Product>
    var filter: string
    var search: string
    var currentPage: Page

    constructor ()
      ensures products == [] && filter == "all" && search == "" && currentPage == 1
    {
      products, filter, search, currentPage := [], "all", "", 1;
    }

    /** The products fetch: the reply when it is an array, otherwise (or on failure) none. */
    method LoadProducts(reply: Option<seq<Product>>)
      modifies this`products
      ensures products == if reply.Some? then reply.value else []
    {
      products := if reply.Some? then reply.value else [];
    }

    /**
     * `handleData`: the handler a category button would call. The page number stays.
     * No element of this page calls it, so on the page as rendered the filter stays "all".
     */
    method HandleData(data: string)
      modifies this`filter
      ensures filter == data
    {
      filter := data;
    }

    /** The search box's `onChange`. */
    method HandleSearch(value: string)
      modifies this`search
      ensures search == value
    {
      search := value;
    }

    /** `handleNext`: one page on, only while products remain past this page. */
    method HandleNext()
      modifies this`currentPage
      ensures currentPage == if EndIndex(old(currentPage)) < |products| then old(currentPage) + 1 else old(currentPage)
      ensures currentPage != old(currentPage) ==> PageItems(products, currentPage) != []
    {
      if EndIndex(currentPage) < |products| {
        NextPageNotEmpty(products, currentPage);
        currentPage := currentPage + 1;
      }
    }

    /** `handlePrev`: one page back, never below page 1. */
    method HandlePrev()
      modifies this`currentPage
      ensures currentPage == if old(currentPage) > 1 then old(currentPage) - 1 else old(currentPage)
    {
      if currentPage > 1 {
        currentPage := currentPage - 1;
      }
    }
  }
}
