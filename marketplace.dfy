/**
 * The product filter of the Marketplace page: a product is listed when the
 * lower-cased search term occurs in its lower-cased name or brand, and the
 * selected category is "All" or equals its category exactly.
 */
module Marketplace {
  import opened JsText

  /** One catalogue entry (the star rating, a floating-point number, is not modelled). */
  datatype Product = Product(
    id: int,
    name: string,
    brand: string,
    price: string,
    originalPrice: string,
    reviews: nat,
    image: string,
    category: string,
    description: string,
    benefits: seq<string>)

  /** The category button that disables category filtering. */
  const AllCategories: string := "All"

  /** The page's state when it is first shown: an empty search box, category "All". */
  const InitialSearchTerm: string := ""
  const InitialCategory: string := AllCategories

  /** The search test: the term, lower-cased, is in the lower-cased name or brand. */
  predicate MatchesSearch(p: Product, searchTerm: string) {
    Includes(ToLower(p.name), ToLower(searchTerm)) || Includes(ToLower(p.brand), ToLower(searchTerm))
  }

  /** The category test: "All", or the product's category compared case-sensitively. */
  predicate MatchesCategory(p: Product, selectedCategory: string) {
    selectedCategory == AllCategories || p.category == selectedCategory
  }

  /** The filter's predicate: both tests pass. */
  predicate Keep(p: Product, searchTerm: string, selectedCategory: string) {
    MatchesSearch(p, searchTerm) && MatchesCategory(p, selectedCategory)
  }

  /** `a` is `b` with some elements left out, the rest in their original order. */
  ghost predicate IsSubsequence<T>(a: seq<T>, b: seq<T>)
    decreases |b|
  {
    a == [] || (b != [] && ((a[0] == b[0] && IsSubsequence(a[1..], b[1..])) || IsSubsequence(a, b[1..])))
  }

  /**
   * `products.filter(...)`: the products that pass both tests, in catalogue order,
   * each as many times as it occurs in the catalogue.
   */
  function FilterProducts(products: seq<Product>, searchTerm: string, selectedCategory: string): (r: seq<Product>)
    ensures IsSubsequence(r, products)
    ensures forall i :: 0 <= i < |r| ==> Keep(r[i], searchTerm, selectedCategory)
    ensures forall p :: multiset(r)[p] == if Keep(p, searchTerm, selectedCategory) then multiset(products)[p] else 0
  {
    if products == [] then []
    else
      var rest := FilterProducts(products[1..], searchTerm, selectedCategory);
      assert products == [products[0]] + products[1..];
      if Keep(products[0], searchTerm, selectedCategory) then
        assert ([products[0]] + rest)[1..] == rest;
        [products[0]] + rest
      else
        assert rest != [] ==> IsSubsequence(rest, products[1..]);
        rest
  }

  /** Completeness: every catalogue entry that passes both tests is listed. */
  lemma FilterComplete(products: seq<Product>, searchTerm: string, selectedCategory: string, i: int)
    requires 0 <= i < |products| && Keep(products[i], searchTerm, selectedCategory)
    ensures products[i] in FilterProducts(products, searchTerm, selectedCategory)
  {
    var p := products[i];
    assert p in multiset(products);
    assert multiset(FilterProducts(products, searchTerm, selectedCategory))[p] > 0;
  }

  /** Soundness: every listed product comes from the catalogue and passes both tests. */
  lemma FilterSound(products: seq<Product>, searchTerm: string, selectedCategory: string, p: Product)
    requires p in FilterProducts(products, searchTerm, selectedCategory)
    ensures p in products
    ensures selectedCategory == AllCategories || p.category == selectedCategory
    ensures Includes(ToLower(p.name), ToLower(searchTerm)) || Includes(ToLower(p.brand), ToLower(searchTerm))
  {
    var r := FilterProducts(products, searchTerm, selectedCategory);
    assert multiset(r)[p] > 0;
  }

  /** The initial search term and category let every product through. */
  lemma InitialStateKeepsEvery(p: Product)
    ensures Keep(p, InitialSearchTerm, InitialCategory)
  {
    assert ToLower(InitialSearchTerm) == [] && [] <= ToLower(p.name);
    assert OccursAt(ToLower(p.name), [], 0);
  }

  /** With the initial search term and category the whole catalogue is listed. */
  lemma {:induction false} InitialFilterListsAll(products: seq<Product>)
    ensures FilterProducts(products, InitialSearchTerm, InitialCategory) == products
  {
    if products != [] {
      InitialStateKeepsEvery(products[0]);
      InitialFilterListsAll(products[1..]);
    }
  }

  /** Two search terms that differ only in letter case list the same products. */
  lemma {:induction false} SearchIgnoresCase(products: seq<Product>, term1: string, term2: string, selectedCategory: string)
    requires |term1| == |term2|
    requires forall i :: 0 <= i < |term1| ==> LowerChar(term1[i]) == LowerChar(term2[i])
    ensures FilterProducts(products, term1, selectedCategory) == FilterProducts(products, term2, selectedCategory)
  {
    assert ToLower(term1) == ToLower(term2);
    if products != [] {
      SearchIgnoresCase(products[1..], term1, term2, selectedCategory);
    }
  }

  /** The category test does not fold case: a category differing only in case matches nothing. */
  lemma CategoryIsCaseSensitive(products: seq<Product>, searchTerm: string)
    requires forall p :: p in products ==> p.category == "Immunity"
    ensures FilterProducts(products, searchTerm, "immunity") == []
  {
    var r := FilterProducts(products, searchTerm, "immunity");
    if r != [] {
      assert r[0] in r;
      FilterSound(products, searchTerm, "immunity", r[0]);
    }
  }

  /** "No products found" is shown exactly when no catalogue entry passes both tests. */
  function ShowsNoResults(products: seq<Product>, searchTerm: string, selectedCategory: string): (shown: bool)
    ensures shown <==> forall p :: p in products ==> !Keep(p, searchTerm, selectedCategory)
  {
    var r := FilterProducts(products, searchTerm, selectedCategory);
    assert forall p :: p in products && Keep(p, searchTerm, selectedCategory) ==> multiset(r)[p] > 0;
    |r| == 0
  }
}
