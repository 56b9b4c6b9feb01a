/** The product search of the product list and of the adjustments view: a
    product is shown when its lower-cased name or SKU contains the lower-cased
    search term. Both views use the same rule, defined once here. */
module Search {
  import opened Types
  import opened Seqs
  import opened Text

  /** The search rule for one product. */
  predicate Matches(term: string, p: Product)
  {
    Contains(ToLower(p.name), ToLower(term)) || Contains(ToLower(p.sku), ToLower(term))
  }

  /** `filteredProducts`: the products the rule admits, in registry order. */
  function SearchProducts(ps: seq<Product>, term: string): (r: seq<Product>)
    ensures |r| <= |ps|
    ensures forall i :: 0 <= i < |r| ==> r[i] in ps && Matches(term, r[i])
    ensures forall i :: 0 <= i < |ps| && Matches(term, ps[i]) ==> ps[i] in r
    ensures term == "" ==> r == ps
  {
    EmptyTermMatchesAll(ps, term);
    Filter(ps, (p: Product) => Matches(term, p))
  }

  /** The empty term matches every product. */
  lemma EmptyTermMatchesAll(ps: seq<Product>, term: string)
    ensures term == "" ==> forall i :: 0 <= i < |ps| ==> Matches(term, ps[i])
  {
    if term == "" {
      forall i | 0 <= i < |ps| ensures Matches(term, ps[i]) {
        ContainsEmpty(ToLower(ps[i].name));
      }
    }
  }

  /** The result is a subsequence of the products: `idx` picks strictly
      increasing positions of `ps` that spell it out. */
  lemma SearchIsSubsequence(ps: seq<Product>, term: string)
    ensures exists idx: seq<nat> ::
              && |idx| == |SearchProducts(ps, term)|
              && (forall k :: 0 <= k < |idx| ==> idx[k] < |ps| && SearchProducts(ps, term)[k] == ps[idx[k]])
              && (forall k, l :: 0 <= k < l < |idx| ==> idx[k] < idx[l])
  {
    var idx := FilterIndices(ps, (p: Product) => Matches(term, p));
    assert |idx| == |SearchProducts(ps, term)|;
  }

  /** Searching splits over a concatenation: the relative order of the
      products shown is their registry order. */
  lemma SearchConcat(a: seq<Product>, b: seq<Product>, term: string)
    ensures SearchProducts(a + b, term) == SearchProducts(a, term) + SearchProducts(b, term)
  {
    FilterConcat(a, b, (p: Product) => Matches(term, p));
  }

  /** The case of the search term does not matter. */
  lemma SearchIgnoresCase(ps: seq<Product>, term: string)
    ensures SearchProducts(ps, ToLower(term)) == SearchProducts(ps, term)
  {
    ToLowerIdempotent(term);
    FilterAgrees(ps, (p: Product) => Matches(ToLower(term), p), (p: Product) => Matches(term, p));
  }

  /** A product is always found by its own name and by its own SKU. */
  lemma SearchFindsOwnName(ps: seq<Product>, i: nat)
    requires i < |ps|
    ensures ps[i] in SearchProducts(ps, ps[i].name)
    ensures ps[i] in SearchProducts(ps, ps[i].sku)
  {
    ContainsSelf(ToLower(ps[i].name));
    ContainsSelf(ToLower(ps[i].sku));
  }
}
