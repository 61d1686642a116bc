/** The product search filter: keep the products whose name or description
    contains the (already debounced) search term, ignoring case; an empty
    term keeps every product. */
module ProductSearch {
  import opened ShopTypes
  import opened Seqs
  import opened Text

  /** The `product.description && ...` operand: a present, non-empty
      description containing the lower-cased term. */
  predicate DescriptionMatches(p: Product, loweredTerm: string)
  {
    p.description.Some? && p.description.value != "" && Contains(Lower(p.description.value), loweredTerm)
  }

  /** The filter's test for one product against the lower-cased term. */
  predicate Matches(p: Product, loweredTerm: string)
  {
    Contains(Lower(p.name), loweredTerm) || DescriptionMatches(p, loweredTerm)
  }

  function MatchesTerm(loweredTerm: string): Product -> bool
  {
    (p: Product) => Matches(p, loweredTerm)
  }

  /** `filteredProducts`: every product for an empty term; otherwise exactly
      the products that match the lower-cased term, in their order. */
  function FilteredProducts(products: seq<Product>, term: string): (r: seq<Product>)
    ensures term == "" ==> r == products
    ensures term != "" ==> forall i :: 0 <= i < |r| ==> r[i] in products && Matches(r[i], Lower(term))
    ensures term != "" ==> forall i :: 0 <= i < |products| && Matches(products[i], Lower(term)) ==> products[i] in r
  {
    if term == "" then products
    else Filter(products, MatchesTerm(Lower(term)))
  }

  /** The result never reorders or invents products. */
  lemma FilteredIsSubsequence(products: seq<Product>, term: string)
    ensures IsSubsequence(FilteredProducts(products, term), products)
  {
    if term == "" {
      SubsequenceOfSelf(products);
    } else {
      FilterIsSubsequence(products, MatchesTerm(Lower(term)));
    }
  }

  /** The case of the term does not matter. */
  lemma TermCaseIgnored(products: seq<Product>, term: string)
    ensures FilteredProducts(products, term) == FilteredProducts(products, Lower(term))
  {
    LowerIdempotent(term);
  }

  /** Nor does the case of the product's name: a name matches whatever its case. */
  lemma NameCaseIgnored(p: Product, term: string)
    ensures Matches(p, Lower(term)) == Matches(p.(name := Lower(p.name)), Lower(term))
  {
    LowerIdempotent(p.name);
  }

  /** A product without a description is kept only through its name. */
  lemma NoDescriptionNameOnly(products: seq<Product>, term: string, i: int)
    requires term != "" && 0 <= i < |products| && products[i].description.None?
    ensures products[i] in FilteredProducts(products, term) <==> Contains(Lower(products[i].name), Lower(term))
  {
    if products[i] in FilteredProducts(products, term) {
      var r := FilteredProducts(products, term);
      var k :| 0 <= k < |r| && r[k] == products[i];
    }
  }
}
