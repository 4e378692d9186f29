/**
 * What the two product-browsing pages share: the product as they use it, the
 * category buttons' test, and `Array.prototype.slice` with its clamping.
 */
module Catalog {
  import Strings

  /** The fields of a product of `GET /api/products` that the pages read. */
  datatype Product = Product(id: nat, productName: string, category: string)

  /** The category buttons' test: "all", or the lowercased category equal to the button's value. */
  predicate CategoryMatches(p: Product, filter: string) {
    filter == "all" || Strings.ToLower(p.category) == filter
  }

  function Min(a: nat, b: nat): nat {
    if a <= b then a else b
  }

  /** JavaScript `s.slice(start, end)` for non-negative bounds: the elements from `start` up to `end`, clamped to the list. */
  function Slice<T>(s: seq<T>, start: nat, end: nat): (r: seq<T>)
    ensures |r| == if start <= end && start <= |s| then Min(end, |s|) - start else 0
    ensures forall i :: 0 <= i < |r| ==> start + i < |s| && r[i] == s[start + i]
  {
    if start <= end && start <= |s| then s[start..Min(end, |s|)] else []
  }

  /** A slice is never longer than its bounds allow, and it is non-empty exactly when it starts inside a non-empty range. */
  lemma SliceBounds<T>(s: seq<T>, start: nat, end: nat)
    ensures |Slice(s, start, end)| <= if start <= end then end - start else 0
    ensures Slice(s, start, end) != [] <==> start < end && start < |s|
  {
  }
}
