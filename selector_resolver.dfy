/** Resolving a popup target key ("product", "cart", "filter_panel", ...) to a
    CSS selector, against an abstract page that answers whether a selector
    matches an element. */
module SelectorResolver {
  import opened Common

  /** The page as the resolver sees it. `cards` lists the `data-product-id` of
      each `.product-card`, in document order; the cards are the children of
      one container, so `:nth-child(k)` is the k-th card. `hooks` holds every
      other selector that matches some element (search box, cart icon,
      filter controls, add-to-cart buttons, ...). */
  datatype Page = Page(cards: seq<string>, hooks: set<string>)

  /** `[data-product-id="id"]`. */
  function AttrSelector(id: string): string {
    "[data-product-id=\"" + id + "\"]"
  }

  /** `.product-card[data-product-id="id"]`. */
  function CardAttrSelector(id: string): string {
    ".product-card" + AttrSelector(id)
  }

  /** `[data-product-id="id"].product-card`. */
  function AttrCardSelector(id: string): string {
    AttrSelector(id) + ".product-card"
  }

  const NthChildPrefix: string := ".product-card:nth-child("

  /** `.product-card:nth-child(k)`, with `k` written as `${k}` writes it. */
  function NthChild(k: int): string {
    NthChildPrefix + IntToString(k) + ")"
  }

  const FirstCard: string := ".product-card:first-child"

  /** `querySelector(s) !== null` on the page. */
  predicate Matches(page: Page, s: string) {
    || s in page.hooks
    || (|page.cards| > 0 && s == FirstCard)
    || exists i :: 0 <= i < |page.cards| && CardSelectorAt(page, i, s)
  }

  /** `s` selects the card at position `i` (0-based). */
  predicate CardSelectorAt(page: Page, i: int, s: string)
    requires 0 <= i < |page.cards|
  {
    || s == AttrSelector(page.cards[i])
    || s == CardAttrSelector(page.cards[i])
    || s == AttrCardSelector(page.cards[i])
    || s == NthChild(i + 1)
  }

  /** Distinct positions give distinct `:nth-child` selectors. */
  lemma NthChildInjective(a: int, b: int)
    requires NthChild(a) == NthChild(b)
    ensures a == b
  {
    var s := NthChild(a);
    assert s[..24] == NthChildPrefix && NthChild(b)[..24] == NthChildPrefix;
    assert IntToString(a) == s[24..|s| - 1] == IntToString(b);
    IntToStringInjective(a, b);
  }

  /** An `:nth-child` selector is none of the attribute selectors and not
      `:first-child`. */
  lemma NthChildIsNoOtherSelector(k: int, id: string)
    ensures NthChild(k) != AttrSelector(id) && NthChild(k) != CardAttrSelector(id)
    ensures NthChild(k) != AttrCardSelector(id) && NthChild(k) != FirstCard
  {
    var s := NthChild(k);
    assert s[0] == '.' && s[13] == ':' && s[14] == 'n';
    assert FirstCard[14] == 'f';
    assert AttrSelector(id)[0] == '[';
    assert CardAttrSelector(id)[13] == '[';
    assert AttrCardSelector(id)[0] == '[';
  }

  /** `:nth-child(k)` selects a card exactly when `k` is a card position,
      unless some other element on the page matches it as well. */
  lemma NthChildMatches(page: Page, k: int)
    requires NthChild(k) !in page.hooks
    ensures Matches(page, NthChild(k)) <==> 1 <= k <= |page.cards|
  {
    var s := NthChild(k);
    if Matches(page, s) {
      NthChildIsNoOtherSelector(k, "");
      var i :| 0 <= i < |page.cards| && CardSelectorAt(page, i, s);
      NthChildIsNoOtherSelector(k, page.cards[i]);
      NthChildInjective(k, i + 1);
    }
    if 1 <= k <= |page.cards| {
      assert CardSelectorAt(page, k - 1, s);
    }
  }

  /** The candidates tried, in order, for a product with a truthy `ID`. */
  function ProductCandidates(id: int): (r: seq<string>)
    ensures |r| == 6
  {
    var s := IntToString(id);
    [AttrSelector(s), CardAttrSelector(s), AttrCardSelector(s), NthChild(id), NthChild(id + 1), NthChild(id - 1)]
  }

  /** The index of the first candidate that matches, or `|cs|` when none does. */
  function FirstMatch(page: Page, cs: seq<string>): (r: nat)
    ensures r <= |cs|
    ensures forall j :: 0 <= j < r ==> !Matches(page, cs[j])
    ensures r < |cs| ==> Matches(page, cs[r])
  {
    if |cs| == 0 then 0
    else if Matches(page, cs[0]) then 0
    else 1 + FirstMatch(page, cs[1..])
  }

  /** A candidate that matches, with none matching before it, is the first match. */
  lemma FirstMatchAt(page: Page, cs: seq<string>, k: int)
    requires 0 <= k <= FirstMatch(page, cs) && k < |cs| && Matches(page, cs[k])
    ensures FirstMatch(page, cs) == k
  {
  }

  /** A candidate that does not match, with none matching before it, is
      passed over. */
  lemma FirstMatchPast(page: Page, cs: seq<string>, k: int)
    requires 0 <= k <= FirstMatch(page, cs) && k < |cs| && !Matches(page, cs[k])
    ensures k + 1 <= FirstMatch(page, cs)
  {
  }

  /** When no candidate matches, the search runs off the end. */
  lemma {:induction false} NoneMatch(page: Page, cs: seq<string>)
    requires forall j :: 0 <= j < |cs| ==> !Matches(page, cs[j])
    ensures FirstMatch(page, cs) == |cs|
  {
    if |cs| > 0 {
      NoneMatch(page, cs[1..]);
    }
  }

  /** The fallback when no candidate matches: the card nearest the ID, or the
      first card. */
  function ProductFallback(page: Page, id: int): string {
    var count := |page.cards|;
    if count > 0 && (if id - 1 < count - 1 then id - 1 else count - 1) >= 0 then
      NthChild((if id - 1 < count - 1 then id - 1 else count - 1) + 1)
    else FirstCard
  }

  /** The selector for the constant keys; None for `product`,
      `product_button` and unknown keys. */
  function FixedSelector(target: string): Option<string> {
    if target == "search" then Some("[data-input=\"search\"]")
    else if target == "search_button" then Some("[data-action=\"search-btn\"]")
    else if target == "clear_search" then Some("[data-action=\"clear-search\"]")
    else if target == "cart" then Some("[data-nav=\"cart\"]")
    else if target == "home" then Some("[data-action=\"navigate-home\"]")
    else if target == "filter_panel" then Some("[data-filter-panel=\"main\"]")
    else if target == "category_filter" then Some("[data-filter=\"category-select\"]")
    else if target == "price_filter" then Some("[data-filter=\"price-min\"]")
    else if target == "discount_filter" then Some("[data-filter=\"discount-checkbox\"]")
    else if target == "stock_filter" then Some("[data-filter=\"stock-checkbox\"]")
    else if target == "clear_filters" then Some("[data-action=\"clear-filters\"]")
    else None
  }

  /** The `product` case with a truthy ID: the first matching candidate, else
      the fallback. */
  function ProductSelector(id: int, page: Page): string {
    var cs := ProductCandidates(id);
    var i := FirstMatch(page, cs);
    if i < |cs| then cs[i] else ProductFallback(page, id)
  }

  /** `generateSpecificSelector(target, targetInfo)` on `page`, where `id` is
      `targetInfo?.ID`. */
  function SpecificSelector(target: string, id: Option<int>, page: Page): string {
    if target == "product" then
      if NumTruthy(id) then ProductSelector(id.value, page) else FirstCard
    else if target == "product_button" then
      if NumTruthy(id) then AttrSelector(IntToString(id.value)) + "[data-action=\"add-to-cart\"]"
      else "[data-action=\"add-to-cart\"]:first-child"
    else match FixedSelector(target)
      case Some(s) => s
      case None => target
  }

  /** The `product` case as written: the candidates are tried in a loop that
      returns the first one found, then the nearest card, then the first card. */
  method FindProductSelector(id: int, page: Page) returns (selector: string)
    ensures selector == ProductSelector(id, page)
  {
    var selectors := ProductCandidates(id);
    for k := 0 to |selectors|
      invariant k <= FirstMatch(page, selectors)
    {
      if Matches(page, selectors[k]) {
        FirstMatchAt(page, selectors, k);
        return selectors[k];
      }
      FirstMatchPast(page, selectors, k);
    }
    var count := |page.cards|;
    if count > 0 {
      var targetIndex := if id - 1 < count - 1 then id - 1 else count - 1;
      if 0 <= targetIndex {
        return NthChild(targetIndex + 1);
      }
    }
    return FirstCard;
  }

  /** `generateSpecificSelector`. */
  method GenerateSpecificSelector(target: string, id: Option<int>, page: Page) returns (selector: string)
    ensures selector == SpecificSelector(target, id, page)
  {
    if target == "product" {
      if NumTruthy(id) {
        selector := FindProductSelector(id.value, page);
        return;
      }
      return FirstCard;
    }
    if target == "product_button" {
      if NumTruthy(id) {
        return AttrSelector(IntToString(id.value)) + "[data-action=\"add-to-cart\"]";
      }
      return "[data-action=\"add-to-cart\"]:first-child";
    }
    match FixedSelector(target) {
      case Some(s) => selector := s;
      case None => selector := target;
    }
  }

  /** With at least one card on the page, a product target always resolves to
      a selector that matches. */
  lemma ProductTargetAlwaysMatches(id: Option<int>, page: Page)
    requires |page.cards| > 0
    ensures Matches(page, SpecificSelector("product", id, page))
  {
    if NumTruthy(id) {
      var cs := ProductCandidates(id.value);
      var i := FirstMatch(page, cs);
      if i < |cs| {
        assert ProductSelector(id.value, page) == cs[i];
      } else {
        var count := |page.cards|;
        var t := if id.value - 1 < count - 1 then id.value - 1 else count - 1;
        if t >= 0 {
          assert CardSelectorAt(page, t, NthChild(t + 1));
        }
      }
    }
  }

  /** A card carrying the id attribute is found by the first candidate. */
  lemma ProductFoundById(id: int, page: Page, i: int)
    requires id != 0
    requires 0 <= i < |page.cards| && page.cards[i] == IntToString(id)
    ensures SpecificSelector("product", Some(id), page) == AttrSelector(IntToString(id))
  {
    assert CardSelectorAt(page, i, AttrSelector(IntToString(id)));
  }

  /** With no id attribute matching, an ID within the card count selects the
      card at that position. */
  lemma ProductFoundByPosition(id: int, page: Page)
    requires 1 <= id <= |page.cards|
    requires forall j :: 0 <= j < 3 ==> !Matches(page, ProductCandidates(id)[j])
    requires NthChild(id) !in page.hooks
    ensures SpecificSelector("product", Some(id), page) == NthChild(id)
  {
    NthChildMatches(page, id);
    var cs := ProductCandidates(id);
    assert Matches(page, cs[3]);
    assert FirstMatch(page, cs) == 3 by {
      assert FirstMatch(page, cs) <= 3;
    }
  }

  /** An ID past the last card (and not just one past it) with no id
      attribute matching falls back to the last card. */
  lemma ProductPastTheEndFallsBackToLast(id: int, page: Page)
    requires |page.cards| + 1 < id
    requires forall j :: 0 <= j < 3 ==> !Matches(page, ProductCandidates(id)[j])
    requires NthChild(id) !in page.hooks && NthChild(id + 1) !in page.hooks && NthChild(id - 1) !in page.hooks
    requires |page.cards| > 0
    ensures SpecificSelector("product", Some(id), page) == NthChild(|page.cards|)
  {
    var cs := ProductCandidates(id);
    forall j | 0 <= j < |cs|
      ensures !Matches(page, cs[j])
    {
      if j == 3 {
        NthChildMatches(page, id);
      } else if j == 4 {
        NthChildMatches(page, id + 1);
      } else if j == 5 {
        NthChildMatches(page, id - 1);
      }
    }
    NoneMatch(page, cs);
    assert ProductSelector(id, page) == ProductFallback(page, id);
  }

  /** The constant keys resolve to their fixed selectors whatever the page,
      and a key the resolver does not know is returned unchanged. */
  lemma FixedKeysResolve(target: string, id: Option<int>, page: Page)
    ensures target != "product" && target != "product_button" && FixedSelector(target).Some? ==>
              SpecificSelector(target, id, page) == FixedSelector(target).value
    ensures target == "cart" ==> SpecificSelector(target, id, page) == "[data-nav=\"cart\"]"
    ensures target == "search" ==> SpecificSelector(target, id, page) == "[data-input=\"search\"]"
    ensures target == "filter_panel" ==> SpecificSelector(target, id, page) == "[data-filter-panel=\"main\"]"
    ensures target != "product" && target != "product_button" && FixedSelector(target).None? ==>
              SpecificSelector(target, id, page) == target
  {
  }
}
