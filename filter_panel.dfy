/** The filter panel component: the five controls it binds, the events it
    emits to its parent, and the filter record it publishes to the UI-context
    service after every change. */
module FilterPanel {
  import opened Common
  import opened ProductModel
  import opened ProductFiltering
  import opened UiContext

  /** The values of the five bound controls. */
  datatype PanelSelection = PanelSelection(
    selectedCategory: Option<string>,
    minPrice: Option<int>,
    maxPrice: Option<int>,
    hasDiscount: bool,
    inStock: bool)

  /** The initial values of the fields, which `clearFilters` restores. */
  const ClearedSelection: PanelSelection := PanelSelection(None, None, None, false, false)

  /** What the panel emits through its outputs. */
  datatype PanelEvent =
    | CategoryFilter(category: Option<string>)
    | PriceRangeFilter(minPrice: Option<int>, maxPrice: Option<int>)
    | DiscountFilter(hasDiscount: bool)
    | StockFilter(inStock: bool)
    | ClearFiltersEvent

  /** The record `updateContextFilters` builds: an empty search term, the
      falsy category and prices as undefined, the two flags as they are. */
  function ContextFilter(s: PanelSelection): ProductFilter {
    ProductFilter(
      StrOrUndefined(s.selectedCategory),
      NumOrUndefined(s.minPrice),
      NumOrUndefined(s.maxPrice),
      Some(s.hasDiscount),
      Some(s.inStock),
      Some(""))
  }

  /** `isAnyFilterActive` of the panel. */
  predicate PanelAnyActive(s: PanelSelection) {
    StrTruthy(s.selectedCategory) || NumTruthy(s.minPrice) || NumTruthy(s.maxPrice)
    || s.hasDiscount || s.inStock
  }

  /** `getActiveFiltersCount` of the panel: a price range counts once. */
  function PanelActiveCount(s: PanelSelection): (r: nat)
    ensures r <= 4
    ensures r > 0 <==> PanelAnyActive(s)
  {
    (if StrTruthy(s.selectedCategory) then 1 else 0)
    + (if NumTruthy(s.minPrice) || NumTruthy(s.maxPrice) then 1 else 0)
    + (if s.hasDiscount then 1 else 0)
    + (if s.inStock then 1 else 0)
  }

  /** The panel and the context it publishes to agree on whether a filter is
      active; the context counts the two price bounds apart, so its count is
      one more than the panel's exactly when both bounds are set. */
  lemma PanelAndContextAgree(s: PanelSelection)
    ensures PanelAnyActive(s) <==> IsAnyFilterActive(ContextFilter(s))
    ensures ActiveFiltersCount(ContextFilter(s)) ==
              PanelActiveCount(s) + (if NumTruthy(s.minPrice) && NumTruthy(s.maxPrice) then 1 else 0)
  {
  }

  /** The published record filters exactly like the selection's own checks:
      the category, then each truthy bound, then the two flags. */
  lemma ContextFilterSelects(products: seq<Product>, s: PanelSelection, p: Product)
    ensures p in ApplyFilter(products, ContextFilter(s)) <==>
              && p in products
              && (StrTruthy(s.selectedCategory) ==> p.category == s.selectedCategory.value)
              && (NumTruthy(s.minPrice) ==> p.price >= s.minPrice.value)
              && (NumTruthy(s.maxPrice) ==> p.price <= s.maxPrice.value)
              && (s.hasDiscount ==> NumTruthy(p.discount))
              && (s.inStock ==> p.stock > 0)
  {
  }

  /** The product service, holding what the panel emitted and no search term,
      shows the same products as the context's record describes, whether the
      bounds are passed on as emitted or through `|| undefined`. */
  lemma EmittedAndPublishedAgree(products: seq<Product>, s: PanelSelection, g: ProductFilter)
    requires g.category == StrOrUndefined(s.selectedCategory)
    requires NumOrUndefined(g.minPrice) == NumOrUndefined(s.minPrice)
    requires NumOrUndefined(g.maxPrice) == NumOrUndefined(s.maxPrice)
    requires g.hasDiscount == Some(s.hasDiscount) && g.inStock == Some(s.inStock)
    requires !StrTruthy(g.searchTerm)
    ensures ApplyFilter(products, g) == ApplyFilter(products, ContextFilter(s))
  {
    SameVerdictsSameResult(products, g, ContextFilter(s));
  }

  /** A cleared panel publishes a record under which every product is shown. */
  lemma ClearedPanelShowsEverything(products: seq<Product>)
    ensures !IsAnyFilterActive(ContextFilter(ClearedSelection))
    ensures ApplyCurrentFilters(products, ContextFilter(ClearedSelection)) == products
  {
    InactiveFiltersShowEverything(products, ContextFilter(ClearedSelection));
  }

  /** The display names of the category enumeration, in its order. */
  const DisplayNames: seq<string> :=
    ["Ropa", "Electrodomésticos", "Comida", "Tecnología", "Hogar", "Deportes", "Libros", "Juguetes"]

  /** `getCategoryDisplayName`: the display name of a category value; any other
      string is returned unchanged. */
  function GetCategoryDisplayName(category: string): (r: string)
    ensures forall i :: 0 <= i < |CategoryKeys| && category == CategoryKeys[i] ==> r == DisplayNames[i]
    ensures category !in CategoryKeys ==> r == category
  {
    if category == "ropa" then "Ropa"
    else if category == "electrodomesticos" then "Electrodomésticos"
    else if category == "comida" then "Comida"
    else if category == "tecnologia" then "Tecnología"
    else if category == "hogar" then "Hogar"
    else if category == "deportes" then "Deportes"
    else if category == "libros" then "Libros"
    else if category == "juguetes" then "Juguetes"
    else category
  }

  /** Distinct categories get distinct display names, none of them empty. */
  lemma DisplayNamesDistinct(a: string, b: string)
    requires a in CategoryKeys && b in CategoryKeys && a != b
    ensures GetCategoryDisplayName(a) != GetCategoryDisplayName(b)
    ensures GetCategoryDisplayName(a) != ""
  {
    var i :| 0 <= i < |CategoryKeys| && CategoryKeys[i] == a;
    var j :| 0 <= j < |CategoryKeys| && CategoryKeys[j] == b;
    assert forall k :: 0 <= k < |DisplayNames| ==> |DisplayNames[k]| > 0 && DisplayNames[k][0] == "RECTHDLJ"[k];
    assert DisplayNames[i][0] != DisplayNames[j][0];
  }

  /** The component: its five bound fields, the events it has emitted, and the
      context service it publishes to. */
  class ProductFilterComponent {
    var selectedCategory: Option<string>
    var minPrice: Option<int>
    var maxPrice: Option<int>
    var hasDiscount: bool
    var inStock: bool
    var emitted: seq<PanelEvent>
    const uiContext: UiContextService

    function Selection(): PanelSelection
      reads this
    {
      PanelSelection(selectedCategory, minPrice, maxPrice, hasDiscount, inStock)
    }

    constructor(uiContext: UiContextService)
      ensures Selection() == ClearedSelection && emitted == []
      ensures this.uiContext == uiContext
    {
      selectedCategory := None;
      minPrice := None;
      maxPrice := None;
      hasDiscount := false;
      inStock := false;
      emitted := [];
      this.uiContext := uiContext;
    }

    /** `isAnyFilterActive`. */
    function IsAnyFilterActive(): (r: bool)
      reads this
      ensures r <==> PanelActiveCount(Selection()) > 0
    {
      PanelAnyActive(Selection())
    }

    /** `updateContextFilters`: replaces the context's filters, dropping any
        search term the context held. */
    method UpdateContextFilters()
      modifies uiContext
      ensures uiContext.currentFilters == ContextFilter(Selection())
      ensures uiContext.currentFilters.searchTerm == Some("")
      ensures uiContext.currentView == old(uiContext.currentView)
      ensures uiContext.searchTerm == old(uiContext.searchTerm)
    {
      uiContext.UpdateCurrentFilters(ContextFilter(Selection()));
    }

    /** `onCategoryChange`, after the select has bound `selected`. */
    method OnCategoryChange(selected: Option<string>)
      modifies this, uiContext
      ensures Selection() == old(Selection()).(selectedCategory := selected)
      ensures emitted == old(emitted) + [CategoryFilter(selected)]
      ensures uiContext.currentFilters == ContextFilter(Selection())
      ensures uiContext.currentView == old(uiContext.currentView)
      ensures uiContext.searchTerm == old(uiContext.searchTerm)
    {
      selectedCategory := selected;
      emitted := emitted + [CategoryFilter(selectedCategory)];
      UpdateContextFilters();
    }

    /** `onPriceRangeChange`, after the inputs have bound `min` and `max`. */
    method OnPriceRangeChange(min: Option<int>, max: Option<int>)
      modifies this, uiContext
      ensures Selection() == old(Selection()).(minPrice := min, maxPrice := max)
      ensures emitted == old(emitted) + [PriceRangeFilter(min, max)]
      ensures uiContext.currentFilters == ContextFilter(Selection())
      ensures uiContext.currentView == old(uiContext.currentView)
      ensures uiContext.searchTerm == old(uiContext.searchTerm)
    {
      minPrice := min;
      maxPrice := max;
      emitted := emitted + [PriceRangeFilter(minPrice, maxPrice)];
      UpdateContextFilters();
    }

    /** `onDiscountChange`, after the checkbox has bound `checked`. */
    method OnDiscountChange(checked: bool)
      modifies this, uiContext
      ensures Selection() == old(Selection()).(hasDiscount := checked)
      ensures emitted == old(emitted) + [DiscountFilter(checked)]
      ensures uiContext.currentFilters == ContextFilter(Selection())
      ensures uiContext.currentView == old(uiContext.currentView)
      ensures uiContext.searchTerm == old(uiContext.searchTerm)
    {
      hasDiscount := checked;
      emitted := emitted + [DiscountFilter(hasDiscount)];
      UpdateContextFilters();
    }

    /** `onStockChange`, after the checkbox has bound `checked`. */
    method OnStockChange(checked: bool)
      modifies this, uiContext
      ensures Selection() == old(Selection()).(inStock := checked)
      ensures emitted == old(emitted) + [StockFilter(checked)]
      ensures uiContext.currentFilters == ContextFilter(Selection())
      ensures uiContext.currentView == old(uiContext.currentView)
      ensures uiContext.searchTerm == old(uiContext.searchTerm)
    {
      inStock := checked;
      emitted := emitted + [StockFilter(inStock)];
      UpdateContextFilters();
    }

    /** `clearFilters`: resets the five fields, emits, and publishes a record
        with no active filter. */
    method ClearFilters()
      modifies this, uiContext
      ensures Selection() == ClearedSelection
      ensures emitted == old(emitted) + [ClearFiltersEvent]
      ensures uiContext.currentFilters == ContextFilter(ClearedSelection)
      ensures !UiContext.IsAnyFilterActive(uiContext.currentFilters)
      ensures uiContext.currentView == old(uiContext.currentView)
      ensures uiContext.searchTerm == old(uiContext.searchTerm)
    {
      selectedCategory := None;
      minPrice := None;
      maxPrice := None;
      hasDiscount := false;
      inStock := false;
      emitted := emitted + [ClearFiltersEvent];
      UpdateContextFilters();
    }
  }
}
