# Storefront overlay engine, cart and filters in Dafny

This project models the core of an Angular storefront with a voice and chat
assistant. In that storefront an assistant response can open popups over the
page: single hints, or guided tours of several steps that point at products,
buttons, the cart and the filter controls. The project also models what the
assistant is told about the page: the cart, the product filters and the
current view. It covers:

- **Overlay engine** (`DynamicPopupService`). The modules involved:
  - `PopupService` holds the registry of open popups keyed by id (create,
    close one, close all), the step sequencer (`nextStep`, `previousStep`,
    `goToStep`), the timer callbacks and the dispatch of an assistant
    response.
  - `SelectorResolver` turns a target key such as `product`, `cart` or
    `filter_panel` into a CSS selector. It runs against an abstract page: the
    `data-product-id` of each product card, in order, plus the set of other
    selectors that match something.
  - `Placement` covers where a popup is placed beside its target and how it is
    clamped to the viewport, when a target counts as in view, and where the
    window scrolls to.
  - `PopupModel` holds the records and the buttons of each tour step.
- **Cart** (`CartApplicationService`, module `Cart`). It covers adding,
  removing, setting a quantity and clearing. The cart totals are folds over
  the line items.
- **Product service** (`ProductService`, module `ProductFiltering`). It covers
  the filter record, its setters and the `applyFilter` predicate with its
  JavaScript truthiness checks.
- **UI context** (`UiContextService`, module `UiContext`). It covers the
  filters and search term reported to the assistant, the active-filter count,
  and how a router URL becomes a view name and query parameters.
- **Filter panel** (`ProductFilterComponent`, module `FilterPanel`). It covers
  the five bound controls, the events the panel emits, and the filter record
  it publishes to the UI context.
- **Mock catalog** (module `MockCatalog`). It covers the twenty products and
  the repository queries.

The model follows these conventions:

- Objects that the code updates in place are classes with `modifies` clauses:
  the popup service, the cart service, the product service, the UI context and
  the filter panel.
- Their contents are values. The popup registry is a `map`, and the cart items
  and product lists are `seq`s.
- Pure computations are functions with lemmas.
- JavaScript's `x || undefined` and truthiness tests are written out in
  `Common`:
  - an empty string, `0`, `false` and a missing value are all falsy
  - `StrOrUndefined` and `NumOrUndefined` turn a falsy value into "absent".
- Prices, quantities and popup durations are unbounded integers. Geometry is
  `real`.
- `decodeURIComponent` is a parameter `decode: string -> string`.
  `toLowerCase` is ASCII lower-casing.
- The page, the measured rectangles (`Layout`) and the clock reading (`now`)
  are inputs.
- Each `setTimeout` callback is a method the environment calls when its delay
  has elapsed:
  - `AutoCloseElapsed`
  - `RevealAfterScrollElapsed`
  - `PlacementCheckElapsed`
  - `StepRescrollElapsed`

  The service records the callbacks it has scheduled in `scheduled` and the
  `window.scrollTo` offsets it has requested in `scrolls`.

Three behaviours of the code that are easy to misread, and how the model
follows them:

- **Auto-close.** A popup closes itself only when its `duration` is truthy, so
  a duration of `0` never closes it (`dynamic-popup.service.ts:112`).
- **Step index invariant.** Any configuration may be registered, including one
  with steps but no valid index. The invariant the registry keeps (`Valid`)
  therefore constrains only instances whose `currentStep` is set. For those,
  the index is in range and agrees with the configuration's `currentStep`.
  `totalSteps`, when set, is the number of steps.
- **Catalog search.** `searchProducts` of the mock catalog matches the name and
  the description only. The product service's `applyFilter` also matches the
  category.

Some consequences of the code that the contracts state outright:

- The filter panel always publishes an empty search term, so changing any
  control drops a search term previously set through `updateSearchTerm`
  (`FilterPanel.ProductFilterComponent.UpdateContextFilters`).
- The panel counts a price range as one filter, while the UI context counts
  the two bounds apart (`FilterPanel.PanelAndContextAgree`).
- The check 100ms after a popup below its target is revealed always fires when
  no clamping was needed. It then places the popup at the same spot
  (`Placement.RecheckAlwaysFiresBelow`).

## Model

| member | source | states |
|---|---|---|
| `Common.StrOrUndefined` | src/app/application/services/ui-context.service.ts:77 | `s \|\| undefined` on a string: present exactly when the string is truthy, and then unchanged |
| `Common.NumOrUndefined` | src/app/presentation/components/product-filter/product-filter.component.ts:160-161 | `n \|\| undefined` on a number: present exactly when it is non-zero, and then unchanged |
| `Common.Lower` | src/app/application/services/product.service.ts:82-85 | lower-casing keeps the length and maps each character (ASCII) |
| `Common.Split` | src/app/application/services/ui-context.service.ts:351 | `split` yields at least one piece, no piece holds the separator, and joining the pieces gives back the input |
| `Common.Filter` | src/app/application/services/product.service.ts:79 | `Array.filter`: exactly the elements the predicate keeps, each as often as in the input |
| `Common.NatToString` | src/app/application/services/dynamic-popup.service.ts:667 | `${now}` writes a non-empty run of decimal digits, one digit exactly below 10 |
| `Common.IntToString` | src/app/application/services/dynamic-popup.service.ts:1105-1113 | `${ID}` starts with a minus sign exactly for a negative number |
| `Common.NatToStringInjective` | src/app/application/services/dynamic-popup.service.ts:667 | distinct clock readings give distinct decimal renderings |
| `Common.IntToStringInjective` | src/app/application/services/dynamic-popup.service.ts:1105-1113 | distinct IDs give distinct decimal renderings |
| `Common.TakeRun` | src/app/application/services/ui-context.service.ts:351 | the text before the first separator: a prefix free of the separator, stopped by it |
| `Common.SplitFirst` | src/app/application/services/ui-context.service.ts:351 | the first piece of a split is the text before the first separator, and the rest is the split of what follows it |
| `Common.SplitAtFirst` | src/app/application/services/ui-context.service.ts:351 | `(a + sep + b).split(sep)` is `a` followed by the pieces of `b` when `a` has no separator |
| `Common.FilterIsSubsequence` | src/app/application/services/product.service.ts:79 | `filter` keeps the kept elements in their original order |
| `Common.FilterAll` | src/app/application/services/product.service.ts:79 | a predicate true of every element keeps the whole array |
| `Common.FilterCongruent` | src/app/application/services/product.service.ts:79 | predicates that agree on every element give the same result |
| `Cart.TotalAppend` | src/app/application/services/cart.service.ts:90-91 | the `reduce` total of a list with one more line item grows by that item's weight |
| `Cart.TotalUpdate` | src/app/application/services/cart.service.ts:90-91 | replacing one line item changes the total by the difference of the two weights |
| `Cart.TotalPartition` | src/app/application/services/cart.service.ts:90-91 | the total splits into the totals of the items a filter keeps and of those it drops |
| `Cart.FindIndex` | src/app/application/services/cart.service.ts:31 | `findIndex`: the first index holding the product id, and -1 exactly when there is none |
| `Cart.ItemsForUnique` | src/app/application/services/cart.service.ts:31-36 | with unique ids a product has at most one line item, the one `findIndex` finds |
| `Cart.QuantityOfUnique` | src/app/application/services/cart.service.ts:31-36 | with unique ids, a product's units are the quantity of that line item, or 0 |
| `Cart.LineTotalGrows` | src/app/application/services/cart.service.ts:91 | growing a line item by `q` units raises its price by `q` times the unit price |
| `Cart.AddedItemsTotals` | src/app/application/services/cart.service.ts:29-56 | adding raises the item count by `quantity` and the price by `quantity` times the unit price, in both branches |
| `Cart.AddedItemsUnique` | src/app/application/services/cart.service.ts:29-56 | adding keeps ids unique; the product then has a line item holding `quantity` more units |
| `Cart.RemovedItemsSpec` | src/app/application/services/cart.service.ts:58-62 | removing keeps the other line items in order, drops exactly the product's, and lowers both totals by the product's share |
| `Cart.RemovedKeepsUnique` | src/app/application/services/cart.service.ts:58-62 | removing keeps ids unique |
| `Cart.UpdatedItems` | src/app/application/services/cart.service.ts:71-73 | the `map` over the items keeps their number |
| `Cart.UpdatedItemsShape` | src/app/application/services/cart.service.ts:64-75 | with unique ids, updating rewrites only the line item `findIndex` finds, or nothing |
| `Cart.UpdatedItemsSpec` | src/app/application/services/cart.service.ts:64-75 | updating keeps ids unique, sets the product's units to `quantity` when it was in the cart, and moves the item count by the difference |
| `Cart.CartOf` | src/app/application/services/cart.service.ts:89-98 | the cart `updateCart` publishes holds the given items |
| `Cart.CartApplicationService.constructor` | src/app/application/services/cart.service.ts:12-16 | the cart starts empty with zero totals |
| `Cart.CartApplicationService.UpdateCart` | src/app/application/services/cart.service.ts:89-98 | the new cart's totals are the folds over its items |
| `Cart.CartApplicationService.AddToCart` | src/app/application/services/cart.service.ts:29-56 | the totals rise by `quantity` units and their price; the product's units rise by `quantity`, one when no quantity is given; ids stay unique and totals consistent |
| `Cart.CartApplicationService.RemoveFromCart` | src/app/application/services/cart.service.ts:58-62 | no line item for the product remains; the item count falls by its units; the invariant is kept |
| `Cart.CartApplicationService.UpdateQuantity` | src/app/application/services/cart.service.ts:64-75 | a quantity of zero or less removes the product; a positive one becomes the product's units if it was in the cart |
| `Cart.CartApplicationService.ClearCart` | src/app/application/services/cart.service.ts:77-83 | the cart is empty again with zero totals |
| `MockCatalog.CatalogIdListIsDecimal` | src/app/infrastructure/adapters/mock-product.repository.ts:11-236 | the i-th product id is the decimal numeral of i + 1 |
| `MockCatalog.CatalogIdsArePositions` | src/app/infrastructure/adapters/mock-product.repository.ts:11-236 | there are twenty products, with ids "1" to "20" in order |
| `MockCatalog.CatalogIdsDistinct` | src/app/infrastructure/adapters/mock-product.repository.ts:11-236 | no two products share an id |
| `MockCatalog.GetAllProducts` | src/app/infrastructure/adapters/mock-product.repository.ts:238-240 | the whole catalog, ids "1" to "20" |
| `MockCatalog.GetProductsByFilter` | src/app/infrastructure/adapters/mock-product.repository.ts:242-244 | ignores the filter and returns the whole catalog |
| `MockCatalog.FindById` | src/app/infrastructure/adapters/mock-product.repository.ts:247 | `find`: the first product with the id, and none exactly when no product has it |
| `MockCatalog.GetProductById` | src/app/infrastructure/adapters/mock-product.repository.ts:246-249 | a catalog product with that id, or null exactly when there is none |
| `MockCatalog.ProductByPosition` | src/app/infrastructure/adapters/mock-product.repository.ts:246-249 | id "k" finds the k-th product |
| `MockCatalog.SearchProducts` | src/app/infrastructure/adapters/mock-product.repository.ts:251-257 | in catalog order, exactly the products whose lower-cased name or description contains the lower-cased term |
| `MockCatalog.SearchEmptyTermReturnsAll` | src/app/infrastructure/adapters/mock-product.repository.ts:251-256 | the empty term returns the whole catalog |
| `ProductFiltering.ApplyFilter` | src/app/application/services/product.service.ts:78-119 | the result is an ordered sub-list holding exactly the products every truthy criterion accepts (search in name, description or category; category; each bound; discount; stock) |
| `ProductFiltering.SameVerdictsSameResult` | src/app/application/services/product.service.ts:78-119 | filters that agree on every product give the same list |
| `ProductFiltering.ZeroPriceBoundsExcludeNothing` | src/app/application/services/product.service.ts:100-105 | a price bound of 0 is falsy and filters like no bound |
| `ProductFiltering.EmptyStringsAreIgnored` | src/app/application/services/product.service.ts:81-97 | an empty search term or category filters like none |
| `ProductFiltering.FalseFlagsAreIgnored` | src/app/application/services/product.service.ts:108-115 | `false` discount or stock flags filter like absent ones |
| `ProductFiltering.InactiveFilterKeepsAll` | src/app/application/services/product.service.ts:78-119 | with no truthy criterion every product is kept |
| `ProductFiltering.ClearedFilterKeepsAll` | src/app/application/services/product.service.ts:70-72 | the cleared filter `{}` keeps every product |
| `ProductFiltering.ProductService.constructor` | src/app/application/services/product.service.ts:11-12 | no products and the empty filter |
| `ProductFiltering.ProductService.LoadProducts` | src/app/application/services/product.service.ts:26-31 | the loaded list replaces the products; the filter is kept |
| `ProductFiltering.ProductService.SearchProducts` | src/app/application/services/product.service.ts:33-35 | only the search term of the filter changes |
| `ProductFiltering.ProductService.FilterByCategory` | src/app/application/services/product.service.ts:37-43 | only the category changes, a falsy one becoming absent |
| `ProductFiltering.ProductService.FilterByPriceRange` | src/app/application/services/product.service.ts:45-52 | only the two bounds change |
| `ProductFiltering.ProductService.FilterByDiscount` | src/app/application/services/product.service.ts:54-60 | only the discount flag changes |
| `ProductFiltering.ProductService.FilterByStock` | src/app/application/services/product.service.ts:62-68 | only the stock flag changes |
| `ProductFiltering.ProductService.ClearFilters` | src/app/application/services/product.service.ts:70-72 | the filter is empty and every product is shown |
| `UiContext.ContextFiltersLikeProductService` | src/app/application/services/ui-context.service.ts:262-303 | the context's early-return filter accepts the same products as the product service's `applyFilter` |
| `UiContext.ActiveFiltersCount` | src/app/application/services/ui-context.service.ts:322-331 | at most six, and zero exactly when every criterion is falsy |
| `UiContext.IsAnyFilterActive` | src/app/application/services/ui-context.service.ts:308-317 | true exactly when the count is positive |
| `UiContext.InactiveFiltersShowEverything` | src/app/application/services/ui-context.service.ts:262-317 | with no active filter every product is shown |
| `UiContext.ViewMapping` | src/app/application/services/ui-context.service.ts:356-364 | every mapped path has a non-empty view name |
| `UiContext.FirstSegment` | src/app/application/services/ui-context.service.ts:377-381 | the reference reading: "unknown", or a non-empty segment without a slash |
| `UiContext.ExtractViewNameIsFirstSegment` | src/app/application/services/ui-context.service.ts:377-381 | split-then-filter yields the first non-empty path segment, else "unknown" |
| `UiContext.ViewName` | src/app/application/services/ui-context.service.ts:366 | a mapped path gets its mapped name, any other path its first segment |
| `UiContext.ParseUrlToViewContext` | src/app/application/services/ui-context.service.ts:350-375 | query parameters are reported only when there is at least one |
| `UiContext.UrlPieces` | src/app/application/services/ui-context.service.ts:351-353 | the path is the text before the first `?`; the parameters are those parsed from the text between the first and a second `?`, reported only when there is at least one |
| `UiContext.ParamFields` | src/app/application/services/ui-context.service.ts:387 | a key is the text before the first `=`; the value is the text after it up to the next `=`, or empty |
| `UiContext.ParamsOfKeys` | src/app/application/services/ui-context.service.ts:386-392 | a key is present exactly when some piece with a non-empty key decodes to it |
| `UiContext.ParamsOfLastWriteWins` | src/app/application/services/ui-context.service.ts:386-392 | a repeated key holds the value of its last occurrence |
| `UiContext.ParamsOfEmptyIff` | src/app/application/services/ui-context.service.ts:386-392 | no parameters exactly when every piece has an empty key |
| `UiContext.NoParamsIffNoKeys` | src/app/application/services/ui-context.service.ts:383-393 | a query string yields no parameters exactly when none of its `&`-pieces has a key |
| `UiContext.FirstSegmentNamesView` | src/app/application/services/ui-context.service.ts:377-381 | `/seg` and `/seg/rest` are both named `seg` |
| `UiContext.OneParamQuery` | src/app/application/services/ui-context.service.ts:383-393 | `key=value` parses to the one decoded pair |
| `UiContext.UrlFromPieces` | src/app/application/services/ui-context.service.ts:350-375 | a URL is named after its path and carries the parameters of its query |
| `UiContext.UrlWithOneParam` | src/app/application/services/ui-context.service.ts:350-375 | `path?key=value` gives the path's view name and the one decoded parameter |
| `UiContext.UiContextService.constructor` | src/app/application/services/ui-context.service.ts:51-54 | view `home`, empty search term, no filters |
| `UiContext.UiContextService.UpdateCurrentFilters` | src/app/application/services/ui-context.service.ts:67-69 | the filters are replaced wholesale; nothing else changes |
| `UiContext.UiContextService.UpdateSearchTerm` | src/app/application/services/ui-context.service.ts:74-80 | only the filter's search term changes, an empty term becoming absent; the term itself is recorded |
| `UiContext.UiContextService.OnNavigationEnd` | src/app/application/services/ui-context.service.ts:340-348 | the current view becomes the parsed URL; the filters are kept |
| `UiContext.UiContextService.VisibleProducts` | src/app/application/services/ui-context.service.ts:262-303 | the products the product service's filter would show; all of them when no filter is active |
| `FilterPanel.PanelActiveCount` | src/app/presentation/components/product-filter/product-filter.component.ts:179-186 | at most four, and positive exactly when a control is active |
| `FilterPanel.PanelAndContextAgree` | src/app/presentation/components/product-filter/product-filter.component.ts:156-186 | panel and context agree on whether a filter is active; the context counts one more exactly when both price bounds are set |
| `FilterPanel.ContextFilterSelects` | src/app/presentation/components/product-filter/product-filter.component.ts:156-166 | the published record keeps exactly the products that pass each active control |
| `FilterPanel.EmittedAndPublishedAgree` | src/app/presentation/components/product-filter/product-filter.component.ts:122-166 | the product service's filter built from the emitted events, with the bounds passed on as emitted or through `\|\| undefined`, shows the same products as the published record |
| `FilterPanel.ClearedPanelShowsEverything` | src/app/presentation/components/product-filter/product-filter.component.ts:145-154 | a cleared panel publishes an inactive record under which every product shows |
| `FilterPanel.GetCategoryDisplayName` | src/app/presentation/components/product-filter/product-filter.component.ts:188-200 | each category key gets its label; any other string is returned unchanged |
| `FilterPanel.DisplayNamesDistinct` | src/app/presentation/components/product-filter/product-filter.component.ts:188-200 | distinct categories get distinct, non-empty labels |
| `FilterPanel.ProductFilterComponent.constructor` | src/app/presentation/components/product-filter/product-filter.component.ts:116-120 | every control starts cleared |
| `FilterPanel.ProductFilterComponent.IsAnyFilterActive` | src/app/presentation/components/product-filter/product-filter.component.ts:169-177 | true exactly when the active count is positive |
| `FilterPanel.ProductFilterComponent.UpdateContextFilters` | src/app/presentation/components/product-filter/product-filter.component.ts:156-167 | the context's filters become the panel's record, whose search term is always empty |
| `FilterPanel.ProductFilterComponent.OnCategoryChange` | src/app/presentation/components/product-filter/product-filter.component.ts:122-125 | the category is bound, emitted and published; the context's view and recorded search term are kept |
| `FilterPanel.ProductFilterComponent.OnPriceRangeChange` | src/app/presentation/components/product-filter/product-filter.component.ts:127-133 | the bounds are bound, emitted together and published; the context's view and recorded search term are kept |
| `FilterPanel.ProductFilterComponent.OnDiscountChange` | src/app/presentation/components/product-filter/product-filter.component.ts:135-138 | the discount flag is bound, emitted and published; the context's view and recorded search term are kept |
| `FilterPanel.ProductFilterComponent.OnStockChange` | src/app/presentation/components/product-filter/product-filter.component.ts:140-143 | the stock flag is bound, emitted and published; the context's view and recorded search term are kept |
| `FilterPanel.ProductFilterComponent.ClearFilters` | src/app/presentation/components/product-filter/product-filter.component.ts:145-154 | every control is cleared, the clear event emitted, and the context left with no active filter; its view and recorded search term are kept |
| `SelectorResolver.NthChildMatches` | src/app/application/services/dynamic-popup.service.ts:1109-1113 | `:nth-child(k)` matches a card exactly when 1 ≤ k ≤ the number of cards |
| `SelectorResolver.ProductCandidates` | src/app/application/services/dynamic-popup.service.ts:1104-1114 | six candidate selectors per ID |
| `SelectorResolver.FirstMatch` | src/app/application/services/dynamic-popup.service.ts:1117-1123 | the first candidate that matches, after only non-matching ones |
| `SelectorResolver.FindProductSelector` | src/app/application/services/dynamic-popup.service.ts:1099-1142 | the early-return loop yields the first matching candidate, else the nearest card, else the first card |
| `SelectorResolver.GenerateSpecificSelector` | src/app/application/services/dynamic-popup.service.ts:1094-1189 | the selector for every target key, product ID and page |
| `SelectorResolver.ProductTargetAlwaysMatches` | src/app/application/services/dynamic-popup.service.ts:1126-1142 | with at least one card, a product target always resolves to something on the page |
| `SelectorResolver.ProductFoundById` | src/app/application/services/dynamic-popup.service.ts:1105 | a card carrying the ID is found by the attribute selector |
| `SelectorResolver.ProductFoundByPosition` | src/app/application/services/dynamic-popup.service.ts:1109 | without an ID attribute, an ID within the card count selects that position |
| `SelectorResolver.ProductPastTheEndFallsBackToLast` | src/app/application/services/dynamic-popup.service.ts:1126-1136 | an ID beyond the cards falls back to the last card |
| `SelectorResolver.FixedKeysResolve` | src/app/application/services/dynamic-popup.service.ts:1150-1188 | the named keys give their fixed selectors on any page; an unknown key is returned unchanged |
| `Placement.Max0` | src/app/application/services/dynamic-popup.service.ts:339-340 | `Math.max(0, x)`: `x` when it is not negative, `0` otherwise |
| `Placement.Anchor` | src/app/application/services/dynamic-popup.service.ts:287-317 | each side sits 12px from the target and is centred along it; `center` centres in the viewport |
| `Placement.PlacedBounds` | src/app/application/services/dynamic-popup.service.ts:319-340 | offsets are never negative; a popup that fits lies within the 10px margins; an anchor inside them is kept; one past the far margin is pulled back |
| `Placement.PositionPopup` | src/app/application/services/dynamic-popup.service.ts:261-346 | the step-by-step clamping computes the clamped anchor |
| `Placement.PlacedPopupIsInView` | src/app/application/services/dynamic-popup.service.ts:319-340 | a popup that fits inside the margins is placed wholly in the viewport |
| `Placement.ScrollTarget` | src/app/application/services/dynamic-popup.service.ts:391 | the scroll aim is never negative |
| `Placement.ScrollTargetPlacesTarget` | src/app/application/services/dynamic-popup.service.ts:377-391 | an unclamped aim puts the target 150px from the top (bottom popups), 150px from the bottom (top popups), or centred |
| `Placement.RecheckAlwaysFiresBelow` | src/app/application/services/dynamic-popup.service.ts:416-430 | an unclamped bottom popup is always within 50px of its target, so the check always fires |
| `PopupModel.StepActionsShape` | src/app/application/services/dynamic-popup.service.ts:855-890 | a back button exactly after the first step, next before the last, finish at the last, close always last |
| `PopupModel.GenerateStepActions` | src/app/application/services/dynamic-popup.service.ts:855-890 | the pushes build exactly those buttons |
| `PopupService.StepShownShows` | src/app/application/services/dynamic-popup.service.ts:977-1008 | a shown step records its index in both fields and shows its text and buttons; id, steps, count and visibility are kept |
| `PopupService.StepShownForgetsEarlierSteps` | src/app/application/services/dynamic-popup.service.ts:934-1008 | showing a step does not depend on the step shown before |
| `PopupService.AfterGoToConsistent` | src/app/application/services/dynamic-popup.service.ts:934-972 | moving to a step keeps every entry under its own id with an in-range index |
| `PopupService.StepBoundaries` | src/app/application/services/dynamic-popup.service.ts:895-929 | next closes exactly at the last step; previous stays put at the first; otherwise each moves the index by one |
| `PopupService.NextThenPreviousReturns` | src/app/application/services/dynamic-popup.service.ts:895-972 | next then previous returns to the same step, text and buttons |
| `PopupService.ApiPopupConfigChoices` | src/app/application/services/dynamic-popup.service.ts:660-746 | only `guide-step` and `info` are accepted; guide steps sit below with no auto-close; info sits below a product with a truthy ID, right of anything else, and closes after 5000ms |
| `PopupService.ApiPopupIdsByKind` | src/app/application/services/dynamic-popup.service.ts:667-725 | guide and info popups never share an id |
| `PopupService.StepTourConfigOpensOnFirstStep` | src/app/application/services/dynamic-popup.service.ts:818-834 | a tour opens on step 1 of n below its target, with no auto-close and the first step's buttons |
| `PopupService.TestTourStartsOnProductOne` | src/app/application/services/dynamic-popup.service.ts:1032-1068 | the test tour's first step finds the card of product 1 |
| `PopupService.TestProductInfoFindsCardFive` | src/app/application/services/dynamic-popup.service.ts:1073-1089 | the test info popup targets the card of product 5 |
| `PopupService.TestProductInfoSitsBelow` | src/app/application/services/dynamic-popup.service.ts:1073-1089 | the test info popup sits below and lasts 5000ms |
| `PopupService.DynamicPopupService.constructor` | src/app/application/services/dynamic-popup.service.ts:69 | the registry starts empty |
| `PopupService.DynamicPopupService.SmoothScrollTo` | src/app/application/services/dynamic-popup.service.ts:450-481 | a scroll is requested only for a change of more than 10px |
| `PopupService.DynamicPopupService.ScrollToTargetAndPositionPopup` | src/app/application/services/dynamic-popup.service.ts:351-433 | a target in view places and reveals at once; otherwise scroll to the aim and schedule the reveal |
| `PopupService.DynamicPopupService.CreatePopup` | src/app/application/services/dynamic-popup.service.ts:77-121 | a missing target changes nothing; otherwise exactly `config.id` is (re)registered, and auto-close is scheduled only for a truthy duration |
| `PopupService.DynamicPopupService.ClosePopup` | src/app/application/services/dynamic-popup.service.ts:589-596 | removes exactly that id; unknown ids change nothing |
| `PopupService.DynamicPopupService.CloseAllPopups` | src/app/application/services/dynamic-popup.service.ts:601-607 | the registry is empty |
| `PopupService.DynamicPopupService.AutoCloseElapsed` | src/app/application/services/dynamic-popup.service.ts:112-114 | the auto-close timer removes exactly its popup |
| `PopupService.DynamicPopupService.RevealAfterScrollElapsed` | src/app/application/services/dynamic-popup.service.ts:406-414 | the popup is placed and revealed and the check is scheduled |
| `PopupService.DynamicPopupService.PlacementCheckElapsed` | src/app/application/services/dynamic-popup.service.ts:416-431 | a bottom popup less than 50px below its target is placed again; otherwise nothing changes |
| `PopupService.DynamicPopupService.StepRescrollElapsed` | src/app/application/services/dynamic-popup.service.ts:963-965 | the window is scrolled towards the step's target on the captured side and the reveal timer armed, even after the popup closed; a registered popup is placed when its target is in view |
| `PopupService.DynamicPopupService.GoToStep` | src/app/application/services/dynamic-popup.service.ts:934-972 | nothing changes for an unknown popup, missing steps, a bad index or a missing target; otherwise both step fields become the index |
| `PopupService.DynamicPopupService.NextStep` | src/app/application/services/dynamic-popup.service.ts:895-910 | no-op unless a step popup; at the last step it closes; otherwise it goes one step forward, scheduling a rescroll exactly when the next target is on the page |
| `PopupService.DynamicPopupService.PreviousStep` | src/app/application/services/dynamic-popup.service.ts:915-929 | no-op unless a step popup, and at the first step; otherwise it goes one step back, scheduling a rescroll exactly when that target is on the page |
| `PopupService.DynamicPopupService.ExecuteAction` | src/app/application/services/dynamic-popup.service.ts:228-256 | close, next and previous act on the popup with their timers; every other kind changes nothing; no action scrolls directly |
| `PopupService.DynamicPopupService.CreateStepPopup` | src/app/application/services/dynamic-popup.service.ts:762-850 | nothing without a first step or its target; otherwise a tour registered on step 0 of n |
| `PopupService.DynamicPopupService.CreatePopupFromApiResponse` | src/app/application/services/dynamic-popup.service.ts:619-757 | a non-empty step list opens a tour on step 0 (registry, reveal timer and scroll given), or changes nothing when the first target is missing; otherwise a known kind with a present target is created with its timers and scroll; anything else yields null and changes nothing |
| `PopupService.DynamicPopupService.CreateTestStepPopup` | src/app/application/services/dynamic-popup.service.ts:1032-1068 | the three-step test tour opens on its first step, registered with its reveal timer and scroll, exactly when that target is present; otherwise nothing changes |
| `PopupService.DynamicPopupService.CreateTestProductInfoPopup` | src/app/application/services/dynamic-popup.service.ts:1073-1089 | exactly one popup below product 5's target, registered with its reveal timer, scroll and 5000ms auto-close; nothing changes when the target is missing |

## Left out

- Everything the popup service draws:
  - the DOM: the HTML strings of `createPopupElement` and `createPopupContent`, styles, arrows (`addArrowIndicator`, `getBorderColor`), `onclick` wiring and transitions. An element is modelled as its content, its buttons, its offsets and whether it is visible.
  - the × close button, which calls `closePopup` like the close action.
- Timer delays. They are not modelled: a callback runs whenever the environment calls its method. The 1000ms `scrolling` class is left out, and `window.scrollTo` is only recorded.
- Callbacks bound to element objects. The reveal, check and step-rescroll callbacks act through the element they captured. The model looks the popup up by id instead, so these cases are not captured:
  - a reveal or check callback that fires after its popup was closed changes nothing in the model, while in the browser it would still restyle a detached element
  - a step-rescroll callback that fires after its popup was closed still scrolls the window and arms the reveal timer in the model, as in the browser; the restyling of the detached element is not recorded
  - a callback that fires after the id was reused would act on the new popup
- Replacing an element. Re-registering an id in `createPopup` leaves the old element in the page. The model keeps only the registry entry.
- The `try/catch` in `createPopup`. The modelled operations do not throw.
- `console` logging everywhere, and `popupSubject` with the other RxJS subjects and observables. The model keeps the state they hold, not the streams.
- Cart aliasing. `addToCart` mutates the shared line-item object in place, which also changes the previously published cart. The model treats carts as values.
- Step lists given as something other than an array, and step objects that are falsy. A response's `steps` is an optional sequence of steps.
- Other fields of `targetInfo`. Only `ID` is read. An `ID` given as a string, where `+ 1` would concatenate, is not modelled.
- The page model. `:nth-child(k)` is assumed to count product cards only, and `querySelector` is modelled as whether a selector matches. Selector syntax is not interpreted.
- Floating point. Prices, quantities and durations are unbounded integers, and geometry is exact `real` arithmetic.
- `toLowerCase` beyond ASCII, and the URI decoding itself: `decodeURIComponent` is a parameter, and its exceptions are not modelled.
- Object keys that are prototype properties. A lookup `viewMapping[path]` with a path such as `constructor` would find an inherited function, and so would `displayNames[category]` in `FilterPanel.GetCategoryDisplayName` (product-filter.component.ts:199) with a category such as `constructor` or `toString`, where the model returns the category as given. A write `params[key] = value` with the key `__proto__` is ignored by JavaScript, so `?__proto__=x` yields no parameters, while `UiContext.ParamsOf` records one.
- `getUiContextWithData`, `getCurrentPageHtml`, `getPageStructureInfo`, the `_userInput$` subject and the router stream plumbing. These are asynchronous or DOM work. `OnNavigationEnd` stands for the router callback.
- `Cart.UpdatedItems`: its own contract states only the length. What it does to the line items is stated by `Cart.UpdatedItemsShape` and `Cart.UpdatedItemsSpec`.
- `UiContext.ParseUrlToViewContext`: its own contract states only that reported parameters are non-empty. The name and parameters for every URL are stated by `UiContext.UrlPieces`, and by `UiContext.UrlFromPieces` and `UiContext.UrlWithOneParam` for one `?`.
