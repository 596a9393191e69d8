/** The product service: the product list and filter state it holds, the
    filter predicate it applies, and the setters that replace the filter. */
module ProductFiltering {
  import opened Common
  import opened ProductModel

  // ---------------------------------------------------------------------------
  // The filter predicate. Each check is skipped unless its filter field is
  // truthy, exactly as the chain of `if (filter.x && ...) return false`.
  // ---------------------------------------------------------------------------

  /** The lower-cased name, description or category includes the lower-cased term. */
  predicate MatchesSearch(p: Product, term: string) {
    var t := Lower(term);
    Contains(Lower(p.name), t) || Contains(Lower(p.description), t) || Contains(Lower(p.category), t)
  }

  predicate PassesSearch(p: Product, f: ProductFilter) {
    StrTruthy(f.searchTerm) ==> MatchesSearch(p, f.searchTerm.value)
  }

  predicate PassesCategory(p: Product, f: ProductFilter) {
    StrTruthy(f.category) ==> p.category == f.category.value
  }

  predicate PassesMinPrice(p: Product, f: ProductFilter) {
    NumTruthy(f.minPrice) ==> !(p.price < f.minPrice.value)
  }

  predicate PassesMaxPrice(p: Product, f: ProductFilter) {
    NumTruthy(f.maxPrice) ==> !(p.price > f.maxPrice.value)
  }

  predicate PassesDiscount(p: Product, f: ProductFilter) {
    BoolTruthy(f.hasDiscount) ==> NumTruthy(p.discount)
  }

  predicate PassesStock(p: Product, f: ProductFilter) {
    BoolTruthy(f.inStock) ==> !(p.stock <= 0)
  }

  /** The predicate passed to `products.filter` in `applyFilter`. */
  predicate KeepsProduct(p: Product, f: ProductFilter) {
    && PassesSearch(p, f)
    && PassesCategory(p, f)
    && PassesMinPrice(p, f)
    && PassesMaxPrice(p, f)
    && PassesDiscount(p, f)
    && PassesStock(p, f)
  }

  /** `applyFilter`: the products that pass every check, in their original order. */
  function ApplyFilter(products: seq<Product>, f: ProductFilter): (r: seq<Product>)
    ensures SubsequenceOf(r, products)
    ensures forall p :: p in r <==> p in products && KeepsProduct(p, f)
    ensures forall p :: KeepsProduct(p, f) ==> multiset(r)[p] == multiset(products)[p]
    ensures StrTruthy(f.searchTerm) ==> forall p :: p in r ==> MatchesSearch(p, f.searchTerm.value)
    ensures StrTruthy(f.category) ==> forall p :: p in r ==> p.category == f.category.value
    ensures NumTruthy(f.minPrice) ==> forall p :: p in r ==> p.price >= f.minPrice.value
    ensures NumTruthy(f.maxPrice) ==> forall p :: p in r ==> p.price <= f.maxPrice.value
    ensures BoolTruthy(f.hasDiscount) ==> forall p :: p in r ==> p.discount.Some? && p.discount.value != 0
    ensures BoolTruthy(f.inStock) ==> forall p :: p in r ==> p.stock > 0
  {
    FilterIsSubsequence(p => KeepsProduct(p, f), products);
    Filter(p => KeepsProduct(p, f), products)
  }

  /** Two filters that decide every product alike select the same products. */
  lemma SameVerdictsSameResult(products: seq<Product>, f: ProductFilter, g: ProductFilter)
    requires forall p :: p in products ==> KeepsProduct(p, f) == KeepsProduct(p, g)
    ensures ApplyFilter(products, f) == ApplyFilter(products, g)
  {
    FilterCongruent(p => KeepsProduct(p, f), p => KeepsProduct(p, g), products);
  }

  /** A price bound of 0 excludes nothing: it filters exactly like an absent bound. */
  lemma ZeroPriceBoundsExcludeNothing(products: seq<Product>, f: ProductFilter)
    ensures ApplyFilter(products, f.(minPrice := Some(0))) == ApplyFilter(products, f.(minPrice := None))
    ensures ApplyFilter(products, f.(maxPrice := Some(0))) == ApplyFilter(products, f.(maxPrice := None))
  {
    SameVerdictsSameResult(products, f.(minPrice := Some(0)), f.(minPrice := None));
    SameVerdictsSameResult(products, f.(maxPrice := Some(0)), f.(maxPrice := None));
  }

  /** An empty search term or category filters like an absent one. */
  lemma EmptyStringsAreIgnored(products: seq<Product>, f: ProductFilter)
    ensures ApplyFilter(products, f.(category := Some(""))) == ApplyFilter(products, f.(category := None))
    ensures ApplyFilter(products, f.(searchTerm := Some(""))) == ApplyFilter(products, f.(searchTerm := None))
  {
    SameVerdictsSameResult(products, f.(category := Some("")), f.(category := None));
    SameVerdictsSameResult(products, f.(searchTerm := Some("")), f.(searchTerm := None));
  }

  /** `hasDiscount: false` and `inStock: false` filter like absent flags. */
  lemma FalseFlagsAreIgnored(products: seq<Product>, f: ProductFilter)
    ensures ApplyFilter(products, f.(hasDiscount := Some(false))) == ApplyFilter(products, f.(hasDiscount := None))
    ensures ApplyFilter(products, f.(inStock := Some(false))) == ApplyFilter(products, f.(inStock := None))
  {
    SameVerdictsSameResult(products, f.(hasDiscount := Some(false)), f.(hasDiscount := None));
    SameVerdictsSameResult(products, f.(inStock := Some(false)), f.(inStock := None));
  }

  /** A filter none of whose fields is truthy keeps every product, in order. */
  lemma InactiveFilterKeepsAll(products: seq<Product>, f: ProductFilter)
    requires !StrTruthy(f.searchTerm) && !StrTruthy(f.category)
    requires !NumTruthy(f.minPrice) && !NumTruthy(f.maxPrice)
    requires !BoolTruthy(f.hasDiscount) && !BoolTruthy(f.inStock)
    ensures ApplyFilter(products, f) == products
  {
    FilterAll(p => KeepsProduct(p, f), products);
  }

  /** After `clearFilters`, the filtered list is the whole product list. */
  lemma ClearedFilterKeepsAll(products: seq<Product>)
    ensures ApplyFilter(products, EmptyFilter) == products
  {
    InactiveFilterKeepsAll(products, EmptyFilter);
  }

  /** The service state: the loaded products and the current filter
      (`productsSubject` and `filterSubject`). */
  class ProductService {
    var products: seq<Product>
    var filter: ProductFilter

    constructor()
      ensures products == [] && filter == EmptyFilter
    {
      products := [];
      filter := EmptyFilter;
    }

    /** What `filteredProducts$` emits for the current state. */
    function FilteredProducts(): seq<Product>
      reads this
    {
      ApplyFilter(products, filter)
    }

    /** The repository's answer arriving in `loadProducts`. */
    method LoadProducts(loaded: seq<Product>)
      modifies this
      ensures products == loaded && filter == old(filter)
    {
      products := loaded;
    }

    /** `searchProducts`: stores the term as given, even the empty string. */
    method SearchProducts(searchTerm: string)
      modifies this
      ensures filter == old(filter).(searchTerm := Some(searchTerm))
      ensures products == old(products)
    {
      filter := filter.(searchTerm := Some(searchTerm));
    }

    /** `filterByCategory`: null and the empty string store an undefined category. */
    method FilterByCategory(category: Option<string>)
      modifies this
      ensures filter == old(filter).(category := StrOrUndefined(category))
      ensures category.None? ==> filter.category.None?
      ensures products == old(products)
    {
      filter := filter.(category := StrOrUndefined(category));
    }

    /** `filterByPriceRange`: both bounds are replaced, undefined ones included. */
    method FilterByPriceRange(minPrice: Option<int>, maxPrice: Option<int>)
      modifies this
      ensures filter == old(filter).(minPrice := minPrice, maxPrice := maxPrice)
      ensures products == old(products)
    {
      filter := filter.(minPrice := minPrice, maxPrice := maxPrice);
    }

    method FilterByDiscount(hasDiscount: bool)
      modifies this
      ensures filter == old(filter).(hasDiscount := Some(hasDiscount))
      ensures products == old(products)
    {
      filter := filter.(hasDiscount := Some(hasDiscount));
    }

    method FilterByStock(inStock: bool)
      modifies this
      ensures filter == old(filter).(inStock := Some(inStock))
      ensures products == old(products)
    {
      filter := filter.(inStock := Some(inStock));
    }

    /** `clearFilters`: the filter `{}`, under which every product is shown. */
    method ClearFilters()
      modifies this
      ensures filter == EmptyFilter && products == old(products)
      ensures FilteredProducts() == products
    {
      filter := EmptyFilter;
      ClearedFilterKeepsAll(products);
    }
  }
}
