/**
 * The product list page: the search / category / sort effect that derives the
 * shown products from the fetched catalog, and the category list offered in
 * the category selector.
 */
module Catalog {
  import opened Wrappers
  import opened Text
  import opened Sequences
  import opened Sorting

  datatype Rating = Rating(rate: real, count: int)

  /** A catalog product; prices and rates are exact reals, compared only. */
  datatype Product = Product(
    id: int,
    title: string,
    price: real,
    image: string,
    description: Option<string>,
    category: Option<string>,
    rating: Option<Rating>)

  /** The value of the "all categories" option. */
  const AllCategories: string := "all"

  /**
   * The search callback: the lowercased title, or the lowercased description
   * when there is one, contains the lowercased term. The empty term matches
   * every product, and a term longer than both texts matches none.
   */
  function MatchesSearch(p: Product, term: string): (r: bool)
    ensures term == "" ==> r
    ensures r ==> |term| <= |p.title| || (p.description.Some? && |term| <= |p.description.value|)
  {
    Contains(Lower(p.title), Lower(term))
    || (p.description.Some? && Contains(Lower(p.description.value), Lower(term)))
  }

  /** The search ignores case: a term and its lowercased form select the same products. */
  lemma SearchIgnoresCase(p: Product, term: string)
    ensures MatchesSearch(p, Lower(term)) == MatchesSearch(p, term)
  {
    LowerIdempotent(term);
  }

  predicate InCategory(p: Product, category: string) {
    p.category == Some(category)
  }

  /** Whether a product survives both filters of the effect. */
  predicate Keeps(p: Product, searchTerm: string, selectedCategory: string) {
    (searchTerm == "" || MatchesSearch(p, searchTerm))
    && (selectedCategory == AllCategories || InCategory(p, selectedCategory))
  }

  /** The search step: skipped for an empty term, otherwise a filter by `MatchesSearch`. */
  function SearchFilter(products: seq<Product>, searchTerm: string): (r: seq<Product>)
    ensures IsSubsequence(r, products)
    ensures forall p :: multiset(r)[p]
                        == if searchTerm == "" || MatchesSearch(p, searchTerm) then multiset(products)[p] else 0
  {
    if searchTerm == "" then
      SubsequenceReflexive(products);
      products
    else
      Filter(products, p => MatchesSearch(p, searchTerm))
  }

  /** The category step: skipped for `'all'`, otherwise a filter by exact category. */
  function CategoryFilter(products: seq<Product>, selectedCategory: string): (r: seq<Product>)
    ensures IsSubsequence(r, products)
    ensures forall p :: multiset(r)[p]
                        == if selectedCategory == AllCategories || InCategory(p, selectedCategory)
                           then multiset(products)[p] else 0
  {
    if selectedCategory == AllCategories then
      SubsequenceReflexive(products);
      products
    else
      Filter(products, p => InCategory(p, selectedCategory))
  }

  /**
   * The list after both filters: a subsequence of the catalog holding every
   * copy of exactly the products that pass both.
   */
  function Filtered(products: seq<Product>, searchTerm: string, selectedCategory: string): (r: seq<Product>)
    ensures IsSubsequence(r, products)
    ensures forall p :: multiset(r)[p]
                        == if Keeps(p, searchTerm, selectedCategory) then multiset(products)[p] else 0
  {
    var searched := SearchFilter(products, searchTerm);
    var r := CategoryFilter(searched, selectedCategory);
    SubsequenceTransitive(r, searched, products);
    r
  }

  datatype SortOrder = Unsorted | PriceLow | PriceHigh | ByRating

  /** The sort selector's value; anything but the three known keys leaves the order alone. */
  function SortOrderOf(sortBy: string): SortOrder {
    if sortBy == "price-low" then PriceLow
    else if sortBy == "price-high" then PriceHigh
    else if sortBy == "rating" then ByRating
    else Unsorted
  }

  /** `p.rating?.rate || 0`. */
  function RateOrZero(p: Product): real {
    if p.rating.Some? then p.rating.value.rate else 0.0
  }

  /**
   * The key whose ascending order each comparator produces: `a.price - b.price`
   * sorts by price, `b.price - a.price` by minus the price, and the rating
   * comparator by minus the rate.
   */
  function SortKey(order: SortOrder): Product -> real {
    match order
    case PriceLow => (p: Product) => p.price
    case PriceHigh => (p: Product) => -p.price
    case ByRating => (p: Product) => -RateOrZero(p)
    case Unsorted => (p: Product) => 0.0
  }

  /**
   * The effect that recomputes the shown products whenever the catalog, the
   * search term, the selected category or the sort key changes.
   */
  method FilterAndSort(products: seq<Product>, searchTerm: string, selectedCategory: string, sortBy: string)
    returns (result: seq<Product>)
    ensures multiset(result) == multiset(Filtered(products, searchTerm, selectedCategory))
    ensures SortOrderOf(sortBy) == Unsorted ==> result == Filtered(products, searchTerm, selectedCategory)
    ensures SortOrderOf(sortBy) == PriceLow ==>
              forall i, j :: 0 <= i < j < |result| ==> result[i].price <= result[j].price
    ensures SortOrderOf(sortBy) == PriceHigh ==>
              forall i, j :: 0 <= i < j < |result| ==> result[i].price >= result[j].price
    ensures SortOrderOf(sortBy) == ByRating ==>
              forall i, j :: 0 <= i < j < |result| ==> RateOrZero(result[i]) >= RateOrZero(result[j])
    ensures forall k :: WithKey(result, SortKey(SortOrderOf(sortBy)), k)
                     == WithKey(Filtered(products, searchTerm, selectedCategory), SortKey(SortOrderOf(sortBy)), k)
  {
    result := products;
    if searchTerm != "" {
      result := SearchFilter(result, searchTerm);
    }
    if selectedCategory != AllCategories {
      result := CategoryFilter(result, selectedCategory);
    }
    ghost var filtered := result;
    assert filtered == Filtered(products, searchTerm, selectedCategory);
    var order := SortOrderOf(sortBy);
    if order != Unsorted {
      result := SortByKey(result, SortKey(order));
      SortByKeyCorrect(filtered, SortKey(order));
      assert SortedByKey(result, SortKey(order));
    }
  }

  /** `data.map(p => p.category)`, one entry per product in catalog order; a missing category is `""`, falsy like it. */
  function Categories(products: seq<Product>): (r: seq<string>)
    ensures |r| == |products|
    ensures forall i :: 0 <= i < |products| ==>
              r[i] == if products[i].category.Some? then products[i].category.value else ""
  {
    seq(|products|, i requires 0 <= i < |products| =>
      if products[i].category.Some? then products[i].category.value else "")
  }

  /**
   * `data.map(p => p.category).filter(Boolean)`: the present, non-empty
   * categories, one entry per product that has one, in catalog order.
   */
  function CategoryLabels(products: seq<Product>): (r: seq<string>)
    ensures IsSubsequence(r, Categories(products))
    ensures forall c :: multiset(r)[c] == if c == "" then 0 else multiset(Categories(products))[c]
    ensures forall c :: c in r <==> c != "" && exists p :: p in products && p.category == Some(c)
  {
    var cs := Categories(products);
    var keep := (c: string) => c != "";
    forall c
      ensures c in Filter(cs, keep) <==> c != "" && exists p :: p in products && p.category == Some(c)
    {
      FilterMembership(cs, keep, c);
      if c in cs && c != "" {
        var i :| 0 <= i < |cs| && cs[i] == c;
        assert products[i] in products && products[i].category == Some(c);
      }
      if c != "" && exists p :: p in products && p.category == Some(c) {
        var p :| p in products && p.category == Some(c);
        var i :| 0 <= i < |products| && products[i] == p;
        assert cs[i] == c;
      }
    }
    Filter(cs, keep)
  }

  /**
   * The categories offered in the selector: no duplicates, only the present and
   * non-empty categories of some product and all of them, listed in the order
   * of their first occurrence in the catalog.
   */
  function UniqueCategories(products: seq<Product>): (r: seq<string>)
    ensures NoDuplicates(r)
    ensures forall c :: c in r <==> c != "" && exists p :: p in products && p.category == Some(c)
    ensures forall c :: c in r <==> c in CategoryLabels(products)
    ensures forall i, j :: 0 <= i < j < |r| ==>
              FirstIndex(CategoryLabels(products), r[i]) < FirstIndex(CategoryLabels(products), r[j])
  {
    Distinct(CategoryLabels(products))
  }
}
