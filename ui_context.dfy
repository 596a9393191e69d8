/** The UI-context service: the filter record the filter panel publishes, the
    search term, and the view derived from each router navigation (a view
    name from the path and the decoded query parameters). */
module UiContext {
  import opened Common
  import opened ProductModel
  import opened ProductFiltering

  // ---------------------------------------------------------------------------
  // Filtering the current product list
  // ---------------------------------------------------------------------------

  /** The callback of `applyCurrentFilters`, written as its chain of early
      returns: `false` at the first failing check, `true` at the end. */
  function CurrentFilterVerdict(p: Product, f: ProductFilter): bool {
    if StrTruthy(f.searchTerm)
       && !Contains(Lower(p.name), Lower(f.searchTerm.value))
       && !Contains(Lower(p.description), Lower(f.searchTerm.value))
       && !Contains(Lower(p.category), Lower(f.searchTerm.value)) then false
    else if StrTruthy(f.category) && p.category != f.category.value then false
    else if NumTruthy(f.minPrice) && p.price < f.minPrice.value then false
    else if NumTruthy(f.maxPrice) && p.price > f.maxPrice.value then false
    else if BoolTruthy(f.hasDiscount) && !NumTruthy(p.discount) then false
    else if BoolTruthy(f.inStock) && p.stock <= 0 then false
    else true
  }

  /** `applyCurrentFilters`. */
  function ApplyCurrentFilters(products: seq<Product>, f: ProductFilter): seq<Product> {
    Filter(p => CurrentFilterVerdict(p, f), products)
  }

  /** The context service and the product service filter alike: the early-return
      chain decides each product as the product service's predicate does, so the
      two lists are equal. */
  lemma ContextFiltersLikeProductService(products: seq<Product>, f: ProductFilter)
    ensures forall p :: CurrentFilterVerdict(p, f) == KeepsProduct(p, f)
    ensures ApplyCurrentFilters(products, f) == ApplyFilter(products, f)
  {
    FilterCongruent(p => CurrentFilterVerdict(p, f), p => KeepsProduct(p, f), products);
  }

  /** `getActiveFiltersCount`: one for each truthy field. */
  function ActiveFiltersCount(f: ProductFilter): (r: nat)
    ensures r <= 6
    ensures r == 0 <==> !StrTruthy(f.searchTerm) && !StrTruthy(f.category)
                        && !NumTruthy(f.minPrice) && !NumTruthy(f.maxPrice)
                        && !BoolTruthy(f.hasDiscount) && !BoolTruthy(f.inStock)
  {
    (if StrTruthy(f.searchTerm) then 1 else 0)
    + (if StrTruthy(f.category) then 1 else 0)
    + (if NumTruthy(f.minPrice) then 1 else 0)
    + (if NumTruthy(f.maxPrice) then 1 else 0)
    + (if BoolTruthy(f.hasDiscount) then 1 else 0)
    + (if BoolTruthy(f.inStock) then 1 else 0)
  }

  /** `isAnyFilterActive`: some field is truthy, that is, the count is positive. */
  function IsAnyFilterActive(f: ProductFilter): (r: bool)
    ensures r <==> ActiveFiltersCount(f) > 0
  {
    StrTruthy(f.searchTerm) || StrTruthy(f.category) || NumTruthy(f.minPrice)
    || NumTruthy(f.maxPrice) || BoolTruthy(f.hasDiscount) || BoolTruthy(f.inStock)
  }

  /** When no filter is active the context reports every product as visible. */
  lemma InactiveFiltersShowEverything(products: seq<Product>, f: ProductFilter)
    requires !IsAnyFilterActive(f)
    ensures ApplyCurrentFilters(products, f) == products
  {
    FilterAll(p => CurrentFilterVerdict(p, f), products);
  }

  // ---------------------------------------------------------------------------
  // Views and URLs
  // ---------------------------------------------------------------------------

  datatype ViewContext = ViewContext(name: string, queryParams: Option<map<string, string>>)

  /** The `viewMapping` record of `parseUrlToViewContext`. */
  function ViewMapping(path: string): (r: Option<string>)
    ensures r.Some? ==> r.value != ""
  {
    if path == "/" then Some("home")
    else if path == "/catalog" then Some("catalog")
    else if path == "/products" then Some("product-list")
    else if path == "/cart" then Some("shopping-cart")
    else if path == "/checkout" then Some("checkout")
    else if path == "/profile" then Some("user-profile")
    else if path == "/orders" then Some("order-history")
    else None
  }

  predicate NonEmpty(s: string) { |s| > 0 }

  /** `extractViewNameFromPath`: the first non-empty `/`-separated segment, or
      `unknown` when there is none. */
  function ExtractViewNameFromPath(path: string): string {
    var segments := Filter(NonEmpty, Split(path, '/'));
    if |segments| > 0 then segments[0] else "unknown"
  }

  /** The path with its leading slashes removed. */
  function DropSlashes(s: string): (r: string)
    ensures |r| == 0 || r[0] != '/'
  {
    if |s| > 0 && s[0] == '/' then DropSlashes(s[1..]) else s
  }

  /** A character-level reading of the same view name: skip the leading
      slashes, then take the text up to the next slash. */
  function FirstSegment(path: string): (r: string)
    ensures r == "unknown" || ('/' !in r && r != "")
  {
    var t := DropSlashes(path);
    if t == "" then "unknown" else TakeRun(t, '/')
  }

  /** The view name the source computes is the first segment of the path. */
  lemma {:induction false} ExtractViewNameIsFirstSegment(path: string)
    ensures ExtractViewNameFromPath(path) == FirstSegment(path)
    decreases |path|
  {
    SplitFirst(path, '/');
    var parts := Split(path, '/');
    if path == "" {
      assert parts == [""];
      assert Filter(NonEmpty, parts) == [];
    } else if path[0] == '/' {
      assert TakeRun(path, '/') == "";
      assert parts == [""] + Split(path[1..], '/');
      assert Filter(NonEmpty, parts) == Filter(NonEmpty, Split(path[1..], '/'));
      ExtractViewNameIsFirstSegment(path[1..]);
    } else {
      assert parts == [parts[0]] + parts[1..];
      assert Filter(NonEmpty, parts)[0] == TakeRun(path, '/');
    }
  }

  /** `viewMapping[path] || extractViewNameFromPath(path)`: every mapped name is
      truthy, so the mapping wins whenever it has the path. */
  function ViewName(path: string): (r: string)
    ensures ViewMapping(path).Some? ==> r == ViewMapping(path).value
    ensures ViewMapping(path).None? ==> r == ExtractViewNameFromPath(path)
  {
    match ViewMapping(path)
    case Some(v) => v
    case None => ExtractViewNameFromPath(path)
  }

  /** `parseUrlToViewContext`: the path is the text before the first `?` and
      the query string the text between the first and the second `?`. */
  function ParseUrlToViewContext(url: string, decode: string -> string): (r: ViewContext)
    ensures r.queryParams.Some? ==> |r.queryParams.value| > 0
  {
    var urlParts := Split(url, '?');
    var path := urlParts[0];
    var queryString := if |urlParts| > 1 then urlParts[1] else "";
    var viewName := ViewName(path);
    var queryParams := ParseQueryString(queryString, decode);
    ViewContext(viewName, if |queryParams| > 0 then Some(queryParams) else None)
  }

  /** The pieces `parseUrlToViewContext` cuts the URL into. */
  lemma UrlPieces(url: string, decode: string -> string)
    ensures var path := TakeRun(url, '?');
            var r := ParseUrlToViewContext(url, decode);
            && (ViewMapping(path).Some? ==> r.name == ViewMapping(path).value)
            && (ViewMapping(path).None? ==> r.name == FirstSegment(path))
            && ('?' !in url ==> r.queryParams.None?)
            && ('?' in url ==>
                  var rest := url[|path| + 1..];
                  var qs := TakeRun(rest, '?');
                  r.queryParams == (if |ParseQueryString(qs, decode)| > 0
                                    then Some(ParseQueryString(qs, decode)) else None))
  {
    SplitFirst(url, '?');
    ExtractViewNameIsFirstSegment(TakeRun(url, '?'));
    if '?' in url {
      SplitFirst(url[|TakeRun(url, '?')| + 1..], '?');
    }
  }

  /** The key of one `key=value` piece: `param.split('=')[0]`. */
  function ParamKey(param: string): string {
    Split(param, '=')[0]
  }

  /** The value of one piece: `param.split('=')[1] || ''`. */
  function ParamValue(param: string): string {
    var kv := Split(param, '=');
    if |kv| > 1 then kv[1] else ""
  }

  /** The key is the text before the first `=`, the value the text between the
      first and the second `=` (empty when there is no `=`). */
  lemma ParamFields(param: string)
    ensures ParamKey(param) == TakeRun(param, '=')
    ensures '=' !in param ==> ParamValue(param) == ""
    ensures '=' in param ==>
              ParamValue(param) == TakeRun(param[|TakeRun(param, '=')| + 1..], '=')
  {
    SplitFirst(param, '=');
    if '=' in param {
      SplitFirst(param[|TakeRun(param, '=')| + 1..], '=');
    }
  }

  /** One step of the `reduce`: a piece with a non-empty key sets the decoded
      key to the decoded value; a piece with an empty key is skipped. */
  function AddParam(params: map<string, string>, param: string, decode: string -> string): map<string, string> {
    var key := ParamKey(param);
    if key != "" then params[decode(key) := decode(ParamValue(param))] else params
  }

  /** The `reduce` over the `&`-separated pieces, from the left, starting at `{}`. */
  function ParamsOf(pieces: seq<string>, decode: string -> string): map<string, string>
    decreases |pieces|
  {
    if |pieces| == 0 then map[]
    else AddParam(ParamsOf(pieces[..|pieces| - 1], decode), pieces[|pieces| - 1], decode)
  }

  /** The piece at `i` writes the decoded key `k`. */
  predicate Writes(pieces: seq<string>, decode: string -> string, i: int, k: string)
    requires 0 <= i < |pieces|
  {
    ParamKey(pieces[i]) != "" && decode(ParamKey(pieces[i])) == k
  }

  /** The keys of the result are exactly the decoded non-empty keys of the pieces. */
  lemma {:induction false} ParamsOfKeys(pieces: seq<string>, decode: string -> string, k: string)
    ensures k in ParamsOf(pieces, decode) <==> exists i :: 0 <= i < |pieces| && Writes(pieces, decode, i, k)
    decreases |pieces|
  {
    if |pieces| > 0 {
      var front := pieces[..|pieces| - 1];
      var last := |pieces| - 1;
      ParamsOfKeys(front, decode, k);
      var acc := ParamsOf(front, decode);
      assert ParamsOf(pieces, decode) == AddParam(acc, pieces[last], decode);
      assert k in ParamsOf(pieces, decode) <==> k in acc || Writes(pieces, decode, last, k);
      if k in acc {
        var i :| 0 <= i < |front| && Writes(front, decode, i, k);
        assert front[i] == pieces[i];
        assert Writes(pieces, decode, i, k);
      }
      if exists i :: 0 <= i < |pieces| && Writes(pieces, decode, i, k) {
        var i :| 0 <= i < |pieces| && Writes(pieces, decode, i, k);
        if i < last {
          assert front[i] == pieces[i];
          assert Writes(front, decode, i, k);
        }
      }
    }
  }

  /** The last piece that writes a key decides its value. */
  lemma {:induction false} ParamsOfLastWriteWins(pieces: seq<string>, decode: string -> string, i: int)
    requires 0 <= i < |pieces| && ParamKey(pieces[i]) != ""
    requires forall j :: i < j < |pieces| ==> !Writes(pieces, decode, j, decode(ParamKey(pieces[i])))
    ensures decode(ParamKey(pieces[i])) in ParamsOf(pieces, decode)
    ensures ParamsOf(pieces, decode)[decode(ParamKey(pieces[i]))] == decode(ParamValue(pieces[i]))
    decreases |pieces|
  {
    var front := pieces[..|pieces| - 1];
    if i < |pieces| - 1 {
      assert front[i] == pieces[i];
      forall j | i < j < |front|
        ensures !Writes(front, decode, j, decode(ParamKey(front[i])))
      {
        assert front[j] == pieces[j];
        assert !Writes(pieces, decode, j, decode(ParamKey(pieces[i])));
      }
      ParamsOfLastWriteWins(front, decode, i);
      assert !Writes(pieces, decode, |pieces| - 1, decode(ParamKey(pieces[i])));
    }
  }

  /** `parseQueryString`: `{}` for the empty string, otherwise the `reduce`
      over the `&`-separated pieces. */
  function ParseQueryString(queryString: string, decode: string -> string): map<string, string> {
    if queryString == "" then map[] else ParamsOf(Split(queryString, '&'), decode)
  }

  /** A map holding a key is not empty. */
  lemma MemberMakesNonEmpty(m: map<string, string>, k: string)
    requires k in m
    ensures |m| > 0
  {
    assert k in m.Keys;
  }

  /** The pieces yield no parameter exactly when none has a non-empty key. */
  lemma ParamsOfEmptyIff(pieces: seq<string>, decode: string -> string)
    ensures |ParamsOf(pieces, decode)| == 0 <==> forall i :: 0 <= i < |pieces| ==> ParamKey(pieces[i]) == ""
  {
    var r := ParamsOf(pieces, decode);
    if exists i :: 0 <= i < |pieces| && ParamKey(pieces[i]) != "" {
      var i :| 0 <= i < |pieces| && ParamKey(pieces[i]) != "";
      var k := decode(ParamKey(pieces[i]));
      ParamsOfKeys(pieces, decode, k);
      assert Writes(pieces, decode, i, k);
      MemberMakesNonEmpty(r, k);
    } else {
      forall k
        ensures k !in r
      {
        ParamsOfKeys(pieces, decode, k);
      }
      assert r == map[];
    }
  }

  /** `parseQueryString` yields no parameter exactly when none of the pieces of
      the query string has a non-empty key (the empty string is the piece `""`). */
  lemma NoParamsIffNoKeys(queryString: string, decode: string -> string)
    ensures |ParseQueryString(queryString, decode)| == 0 <==>
              forall i :: 0 <= i < |Split(queryString, '&')| ==> ParamKey(Split(queryString, '&')[i]) == ""
  {
    if queryString == "" {
      assert Split(queryString, '&') == [""];
      assert ParamKey("") == "" by { SplitFirst("", '='); }
    } else {
      ParamsOfEmptyIff(Split(queryString, '&'), decode);
      assert ParseQueryString(queryString, decode) == ParamsOf(Split(queryString, '&'), decode);
    }
  }

  /** A path `/seg` or `/seg/...` that is not mapped is named `seg`. */
  lemma FirstSegmentNamesView(seg: string, rest: string)
    requires seg != "" && '/' !in seg
    ensures ExtractViewNameFromPath("/" + seg) == seg
    ensures ExtractViewNameFromPath("/" + seg + "/" + rest) == seg
  {
    var p1 := "/" + seg;
    var p2 := "/" + seg + "/" + rest;
    assert FirstSegment(p1) == seg by {
      TakeRunUpTo(seg, rest, '/');
      assert DropSlashes(p1) == DropSlashes(p1[1..]) == seg;
    }
    assert FirstSegment(p2) == seg by {
      TakeRunUpTo(seg, rest, '/');
      assert p2[1..] == seg + "/" + rest;
      assert DropSlashes(p2) == DropSlashes(p2[1..]) == seg + "/" + rest;
    }
    ExtractViewNameIsFirstSegment(p1);
    ExtractViewNameIsFirstSegment(p2);
  }

  /** A query string holding one `key=value` pair yields that one parameter. */
  lemma OneParamQuery(key: string, value: string, decode: string -> string)
    requires key != "" && '=' !in key && '&' !in key
    requires '=' !in value && '&' !in value
    ensures ParseQueryString(key + "=" + value, decode) == map[decode(key) := decode(value)]
  {
    var piece := key + "=" + value;
    assert '&' !in piece;
    SplitFirst(piece, '&');
    TakeRunUpTo(key, value, '=');
    ParamFields(piece);
    assert piece[|key| + 1..] == value;
    TakeRunUpTo(value, "", '=');
    assert ParamsOf([piece], decode) == AddParam(map[], piece, decode);
  }

  /** A URL that splits at `?` into a path and a query string is parsed from those two. */
  lemma UrlFromPieces(url: string, path: string, qs: string, decode: string -> string)
    requires Split(url, '?') == [path, qs]
    ensures ParseUrlToViewContext(url, decode).name == ViewName(path)
    ensures ParseUrlToViewContext(url, decode).queryParams ==
              if |ParseQueryString(qs, decode)| > 0 then Some(ParseQueryString(qs, decode)) else None
  {
  }

  /** A URL `path?key=value` is named after its path and carries that one parameter. */
  lemma UrlWithOneParam(path: string, key: string, value: string, decode: string -> string)
    requires '?' !in path
    requires key != "" && '=' !in key && '&' !in key && '?' !in key
    requires '=' !in value && '&' !in value && '?' !in value
    ensures ParseUrlToViewContext(path + "?" + (key + "=" + value), decode)
              == ViewContext(ViewName(path), Some(map[decode(key) := decode(value)]))
  {
    var qs := key + "=" + value;
    var url := path + "?" + qs;
    assert '?' !in qs;
    assert Split(qs, '?') == [qs] by { SplitFirst(qs, '?'); }
    assert Split(url, '?') == [path, qs] by {
      assert url == path + ['?'] + qs;
      SplitAtFirst(path, qs, '?');
    }
    UrlFromPieces(url, path, qs, decode);
    OneParamQuery(key, value, decode);
    MemberMakesNonEmpty(map[decode(key) := decode(value)], decode(key));
  }

  // ---------------------------------------------------------------------------
  // The service state
  // ---------------------------------------------------------------------------

  /** The state the service keeps: the current view (`_currentView$`), the
      search term (`_searchTerm$`) and `currentFilters`. */
  class UiContextService {
    var currentView: ViewContext
    var searchTerm: string
    var currentFilters: ProductFilter

    constructor()
      ensures currentView == ViewContext("home", None)
      ensures searchTerm == "" && currentFilters == EmptyFilter
      ensures ActiveFiltersCount(currentFilters) == 0
    {
      currentView := ViewContext("home", None);
      searchTerm := "";
      currentFilters := EmptyFilter;
    }

    /** `updateCurrentFilters`: the record replaces the current one as a whole. */
    method UpdateCurrentFilters(filters: ProductFilter)
      modifies this
      ensures currentFilters == filters
      ensures currentView == old(currentView) && searchTerm == old(searchTerm)
    {
      currentFilters := filters;
    }

    /** `updateSearchTerm`: the term goes into the filters (the empty term as
        undefined) and is published as given. */
    method UpdateSearchTerm(term: string)
      modifies this
      ensures currentFilters == old(currentFilters).(searchTerm := StrOrUndefined(Some(term)))
      ensures searchTerm == term && currentView == old(currentView)
      ensures term == "" ==> currentFilters.searchTerm.None?
    {
      currentFilters := currentFilters.(searchTerm := StrOrUndefined(Some(term)));
      searchTerm := term;
    }

    /** The router listener, on a `NavigationEnd` whose `urlAfterRedirects` is `url`. */
    method OnNavigationEnd(url: string, decode: string -> string)
      modifies this
      ensures currentView == ParseUrlToViewContext(url, decode)
      ensures currentFilters == old(currentFilters) && searchTerm == old(searchTerm)
    {
      currentView := ParseUrlToViewContext(url, decode);
    }

    /** The visible products reported in the context for a given product list. */
    method VisibleProducts(products: seq<Product>) returns (r: seq<Product>)
      ensures r == ApplyFilter(products, currentFilters)
      ensures !IsAnyFilterActive(currentFilters) ==> r == products
    {
      ContextFiltersLikeProductService(products, currentFilters);
      r := ApplyCurrentFilters(products, currentFilters);
      if !IsAnyFilterActive(currentFilters) {
        InactiveFiltersShowEverything(products, currentFilters);
      }
    }
  }
}
