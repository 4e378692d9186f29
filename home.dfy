/**
 * The landing page: 25 products per page, narrowed by the category button first
 * and sliced afterwards, with Prev/Next buttons.
 */
module Home {
  import opened Optional
  import Strings
  import Seqs
  import opened Catalog

  const PerPage: nat := 25

  /** Pages are numbered from 1. */
  type Page = n: nat | n >= 1 witness 1

  function StartIndex(page: Page): nat {
    (page - 1) * PerPage
  }

  function EndIndex(page: Page): nat {
    StartIndex(page) + PerPage
  }

  /** The products that pass the category button, in their original order. */
  function Filtered(products: seq<Product>, filter: string): (r: seq<Product>)
    ensures Seqs.IsSubseq(r, products)
    ensures forall p :: p in r <==> p in products && CategoryMatches(p, filter)
  {
    Seqs.FilterIsSubseq(products, p => CategoryMatches(p, filter));
    Seqs.Filter(products, p => CategoryMatches(p, filter))
  }

  /** The cards shown: the current page, at most 25, of the filtered products. */
  function Shown(products: seq<Product>, filter: string, page: Page): (r: seq<Product>)
    ensures |r| <= PerPage
    ensures forall i :: 0 <= i < |r| ==>
      StartIndex(page) + i < |Filtered(products, filter)| && r[i] == Filtered(products, filter)[StartIndex(page) + i]
    ensures r == [] <==> StartIndex(page) >= |Filtered(products, filter)|
  {
    var all := Filtered(products, filter);
    SliceBounds(all, StartIndex(page), EndIndex(page));
    Slice(all, StartIndex(page), EndIndex(page))
  }

  /** With the "all" button the pages run over every product. */
  lemma FilteredAll(products: seq<Product>)
    ensures Filtered(products, "all") == products
  {
    Seqs.FilterAll(products, p => CategoryMatches(p, "all"));
  }

  /** The Next guard as written: more products (of any category) remain past this page. */
  predicate NextEnabledAsWritten(products: seq<Product>, page: Page) {
    EndIndex(page) < |products|
  }

  /** The Next guard as intended: more filtered products remain past this page. */
  predicate NextEnabled(products: seq<Product>, filter: string, page: Page) {
    EndIndex(page) < |Filtered(products, filter)|
  }

  /** The intended guard only moves to a page that shows something. */
  lemma NextEnabledShowsProducts(products: seq<Product>, filter: string, page: Page)
    requires NextEnabled(products, filter, page)
    ensures Shown(products, filter, page + 1) != []
  {
  }

  /** The intended guard never enables Next where the written one does not. */
  lemma NextEnabledWithinAsWritten(products: seq<Product>, filter: string, page: Page)
    ensures NextEnabled(products, filter, page) ==> NextEnabledAsWritten(products, page)
  {
    Seqs.FilterIsSubseq(products, p => CategoryMatches(p, filter));
  }

  /**
   * One plastic item followed by 25 metal ones, with the "plastic" button: page 1 shows
   * the plastic item, the written guard still enables Next, and page 2 shows nothing.
   */
  lemma NextAsWrittenReachesEmptyPage()
    ensures
      var products := [Product(0, "Bottles", "plastic")] + seq(25, _ => Product(1, "Cans", "metal"));
      && Shown(products, "plastic", 1) != []
      && NextEnabledAsWritten(products, 1)
      && Shown(products, "plastic", 2) == []
      && !NextEnabled(products, "plastic", 1)
  {
    var plastic := Product(0, "Bottles", "plastic");
    var products := [plastic] + seq(25, _ => Product(1, "Cans", "metal"));
    assert Strings.ToLower("plastic") == "plastic";
    assert CategoryMatches(plastic, "plastic");
    forall p | p in products[1..] ensures !CategoryMatches(p, "plastic") {
      assert |Strings.ToLower(p.category)| == 5;
    }
    Seqs.FilterNone(products[1..], p => CategoryMatches(p, "plastic"));
    assert Filtered(products, "plastic") == [plastic];
  }

  class HomePage {
    var products: seq<Product>
    var filter: string
    var currentPage: Page

    constructor ()
      ensures products == [] && filter == "all" && currentPage == 1
    {
      products, filter, currentPage := [], "all", 1;
    }

    /** The products fetch: the reply when it is an array, otherwise (or on failure) none. */
    method LoadProducts(reply: Option<seq<Product>>)
      modifies this`products
      ensures products == if reply.Some? then reply.value else []
    {
      products := if reply.Some? then reply.value else [];
    }

    /** `handleData`: a category button was pressed. The page number stays. */
    method HandleData(data: string)
      modifies this`filter
      ensures filter == data
    {
      filter := data;
    }

    /** `handleNext` as written: the guard counts every product, whatever the filter. */
    method HandleNextAsWritten()
      modifies this`currentPage
      ensures currentPage == if NextEnabledAsWritten(products, old(currentPage)) then old(currentPage) + 1 else old(currentPage)
    {
      if EndIndex(currentPage) < |products| {
        currentPage := currentPage + 1;
      }
    }

    /** `handleNext` with the guard counting the filtered products, so it never lands on an empty page. */
    method HandleNext()
      modifies this`currentPage
      ensures currentPage == if NextEnabled(products, filter, old(currentPage)) then old(currentPage) + 1 else old(currentPage)
      ensures currentPage != old(currentPage) ==> Shown(products, filter, currentPage) != []
    {
      if EndIndex(currentPage) < |Filtered(products, filter)| {
        NextEnabledShowsProducts(products, filter, currentPage);
        currentPage := currentPage + 1;
      }
    }

    /** `handlePrev`: one page back, never below page 1. */
    method HandlePrev()
      modifies this`currentPage
      ensures currentPage == if old(currentPage) > 1 then old(currentPage) - 1 else old(currentPage)
    {
      if currentPage > 1 {
        currentPage := currentPage - 1;
      }
    }
  }
}
