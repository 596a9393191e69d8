/** The cart application service: the cart's line items and the two totals
    it recomputes after every change. */
module Cart {
  import opened Common
  import opened ProductModel

  /** The product snapshot a line item keeps. */
  datatype ItemProduct = ItemProduct(id: string, name: string, price: int, imageUrl: string, stock: int)

  datatype CartItem = CartItem(productId: string, quantity: int, product: ItemProduct)

  /** What the cart subject holds. */
  datatype CartState = CartState(items: seq<CartItem>, totalItems: int, totalPrice: int)

  // ---------------------------------------------------------------------------
  // Sums over line items (the two `reduce` calls of `updateCart`)
  // ---------------------------------------------------------------------------

  function Quantity(item: CartItem): int { item.quantity }

  function LineTotal(item: CartItem): int { item.product.price * item.quantity }

  /** The sum of `w` over the items. */
  function Total(items: seq<CartItem>, w: CartItem -> int): int {
    if |items| == 0 then 0 else w(items[0]) + Total(items[1..], w)
  }

  function TotalItems(items: seq<CartItem>): int { Total(items, Quantity) }

  function TotalPrice(items: seq<CartItem>): int { Total(items, LineTotal) }

  /** Appending an item adds its weight. */
  lemma {:induction false} TotalAppend(items: seq<CartItem>, x: CartItem, w: CartItem -> int)
    ensures Total(items + [x], w) == Total(items, w) + w(x)
  {
    if |items| > 0 {
      assert (items + [x])[1..] == items[1..] + [x];
      TotalAppend(items[1..], x, w);
    }
  }

  /** Replacing one item swaps its weight for the new one's. */
  lemma {:induction false} TotalUpdate(items: seq<CartItem>, i: int, x: CartItem, w: CartItem -> int)
    requires 0 <= i < |items|
    ensures Total(items[i := x], w) == Total(items, w) - w(items[i]) + w(x)
  {
    if i > 0 {
      assert items[i := x][1..] == items[1..][i - 1 := x];
      TotalUpdate(items[1..], i - 1, x, w);
    }
  }

  /** The items kept by a predicate and the items it drops share the total. */
  lemma {:induction false} TotalPartition(items: seq<CartItem>, p: CartItem -> bool, w: CartItem -> int)
    ensures Total(items, w) == Total(Filter(p, items), w) + Total(Filter(x => !p(x), items), w)
  {
    if |items| > 0 {
      TotalPartition(items[1..], p, w);
    }
  }

  // ---------------------------------------------------------------------------
  // Looking items up
  // ---------------------------------------------------------------------------

  /** No two line items are for the same product. */
  predicate UniqueIds(items: seq<CartItem>) {
    forall i, j :: 0 <= i < j < |items| ==> items[i].productId != items[j].productId
  }

  /** `items.findIndex(item => item.productId === id)`. */
  function FindIndex(items: seq<CartItem>, id: string): (r: int)
    ensures -1 <= r < |items|
    ensures r >= 0 ==> items[r].productId == id && forall j :: 0 <= j < r ==> items[j].productId != id
    ensures r == -1 <==> forall j :: 0 <= j < |items| ==> items[j].productId != id
  {
    if |items| == 0 then -1
    else if items[0].productId == id then 0
    else
      var r := FindIndex(items[1..], id);
      if r == -1 then -1 else r + 1
  }

  predicate IsFor(item: CartItem, id: string) { item.productId == id }

  /** The line items for one product. */
  function ItemsFor(items: seq<CartItem>, id: string): seq<CartItem> {
    Filter(x => IsFor(x, id), items)
  }

  /** How many units of one product the cart holds. */
  function QuantityOf(items: seq<CartItem>, id: string): int {
    TotalItems(ItemsFor(items, id))
  }

  /** With unique ids a product has at most one line item, the one `findIndex` finds. */
  lemma {:induction false} ItemsForUnique(items: seq<CartItem>, id: string)
    requires UniqueIds(items)
    ensures var i := FindIndex(items, id);
            ItemsFor(items, id) == if i == -1 then [] else [items[i]]
  {
    if |items| > 0 {
      ItemsForUnique(items[1..], id);
      if items[0].productId == id {
        assert forall j :: 0 <= j < |items[1..]| ==> items[1..][j].productId != id by {
          forall j | 0 <= j < |items[1..]|
            ensures items[1..][j].productId != id
          {
            assert items[1..][j] == items[j + 1];
          }
        }
      }
    }
  }

  /** With unique ids, the units of a product are the quantity of its line item. */
  lemma QuantityOfUnique(items: seq<CartItem>, id: string)
    requires UniqueIds(items)
    ensures var i := FindIndex(items, id);
            QuantityOf(items, id) == if i == -1 then 0 else items[i].quantity
  {
    ItemsForUnique(items, id);
  }

  // ---------------------------------------------------------------------------
  // The item lists each operation produces
  // ---------------------------------------------------------------------------

  /** The line item `addToCart` creates for a product not yet in the cart. */
  function NewItem(product: Product, quantity: int): CartItem {
    CartItem(product.id, quantity,
      ItemProduct(product.id, product.name, product.price, product.imageUrl, product.stock))
  }

  /** The unit price the cart charges for `quantity` more of `product`: the
      snapshot of an existing line item, otherwise the product's price. */
  function UnitPrice(items: seq<CartItem>, product: Product): int {
    var i := FindIndex(items, product.id);
    if i >= 0 then items[i].product.price else product.price
  }

  /** The items after `addToCart`: the existing line item grows by `quantity`,
      or a new line item is appended. */
  function AddedItems(items: seq<CartItem>, product: Product, quantity: int): seq<CartItem> {
    var i := FindIndex(items, product.id);
    if i >= 0 then items[i := items[i].(quantity := items[i].quantity + quantity)]
    else items + [NewItem(product, quantity)]
  }

  /** Growing a line item by `quantity` raises its line total by `quantity` units. */
  lemma LineTotalGrows(item: CartItem, quantity: int)
    ensures LineTotal(item.(quantity := item.quantity + quantity)) == LineTotal(item) + item.product.price * quantity
  {
    assert item.product.price * (item.quantity + quantity)
           == item.product.price * item.quantity + item.product.price * quantity;
  }

  /** Adding raises the item total by `quantity` and the price total by
      `quantity` times the unit price. */
  lemma AddedItemsTotals(items: seq<CartItem>, product: Product, quantity: int)
    ensures TotalItems(AddedItems(items, product, quantity)) == TotalItems(items) + quantity
    ensures TotalPrice(AddedItems(items, product, quantity))
            == TotalPrice(items) + UnitPrice(items, product) * quantity
  {
    var i := FindIndex(items, product.id);
    if i >= 0 {
      var updated := items[i].(quantity := items[i].quantity + quantity);
      TotalUpdate(items, i, updated, Quantity);
      TotalUpdate(items, i, updated, LineTotal);
      LineTotalGrows(items[i], quantity);
    } else {
      var item := NewItem(product, quantity);
      TotalAppend(items, item, Quantity);
      TotalAppend(items, item, LineTotal);
    }
  }

  /** Adding to a cart with unique ids keeps them unique, and the product
      then has one line item, holding `quantity` more units than before. */
  lemma AddedItemsUnique(items: seq<CartItem>, product: Product, quantity: int)
    requires UniqueIds(items)
    ensures UniqueIds(AddedItems(items, product, quantity))
    ensures FindIndex(AddedItems(items, product, quantity), product.id) >= 0
    ensures QuantityOf(AddedItems(items, product, quantity), product.id)
            == QuantityOf(items, product.id) + quantity
  {
    var i := FindIndex(items, product.id);
    var r := AddedItems(items, product, quantity);
    QuantityOfUnique(items, product.id);
    if i >= 0 {
      ReplaceKeepsUnique(items, i, items[i].(quantity := items[i].quantity + quantity));
      assert FindIndex(r, product.id) == i by {
        assert r[i].productId == product.id;
        assert forall j :: 0 <= j < i ==> r[j] == items[j];
      }
    } else {
      AppendKeepsUnique(items, NewItem(product, quantity));
      assert r[|items|].productId == product.id;
      assert FindIndex(r, product.id) == |items|;
    }
    QuantityOfUnique(r, product.id);
  }

  /** Replacing an item by one for the same product keeps ids unique. */
  lemma ReplaceKeepsUnique(items: seq<CartItem>, i: int, x: CartItem)
    requires UniqueIds(items) && 0 <= i < |items| && x.productId == items[i].productId
    ensures UniqueIds(items[i := x])
  {
    var r := items[i := x];
    assert forall k :: 0 <= k < |r| ==> r[k].productId == items[k].productId;
  }

  /** Appending an item for a product not yet present keeps ids unique. */
  lemma AppendKeepsUnique(items: seq<CartItem>, x: CartItem)
    requires UniqueIds(items)
    requires forall k :: 0 <= k < |items| ==> items[k].productId != x.productId
    ensures UniqueIds(items + [x])
  {
    var r := items + [x];
    assert forall k :: 0 <= k < |items| ==> r[k] == items[k];
  }

  /** The items after `removeFromCart`: the line items for other products, in order. */
  function RemovedItems(items: seq<CartItem>, id: string): seq<CartItem> {
    Filter(x => !IsFor(x, id), items)
  }

  /** Removing drops exactly the product's line items, keeps the rest in
      order, keeps ids unique and lowers the totals by the product's share. */
  lemma RemovedItemsSpec(items: seq<CartItem>, id: string)
    ensures var r := RemovedItems(items, id);
            && SubsequenceOf(r, items)
            && (forall x :: x in r <==> x in items && x.productId != id)
            && TotalItems(r) == TotalItems(items) - QuantityOf(items, id)
            && TotalPrice(r) == TotalPrice(items) - TotalPrice(ItemsFor(items, id))
            && (UniqueIds(items) ==> UniqueIds(r))
  {
    var keep := x => !IsFor(x, id);
    var isFor := x => IsFor(x, id);
    FilterIsSubsequence(keep, items);
    TotalPartition(items, isFor, Quantity);
    TotalPartition(items, isFor, LineTotal);
    FilterCongruent(x => !isFor(x), keep, items);
    if UniqueIds(items) {
      RemovedKeepsUnique(items, id);
    }
  }

  /** Dropping items keeps ids unique. */
  lemma {:induction false} RemovedKeepsUnique(items: seq<CartItem>, id: string)
    requires UniqueIds(items)
    ensures UniqueIds(RemovedItems(items, id))
  {
    if |items| > 0 {
      RemovedKeepsUnique(items[1..], id);
      var rest := RemovedItems(items[1..], id);
      if !IsFor(items[0], id) {
        forall k | 0 <= k < |rest|
          ensures rest[k].productId != items[0].productId
        {
          assert rest[k] in items[1..];
          var j :| 0 <= j < |items[1..]| && items[1..][j] == rest[k];
          assert items[j + 1] == rest[k];
        }
        ConsKeepsUnique(items[0], rest);
        assert RemovedItems(items, id) == [items[0]] + rest;
      }
    }
  }

  /** An item whose product is not among the others can go in front of them. */
  lemma ConsKeepsUnique(x: CartItem, rest: seq<CartItem>)
    requires UniqueIds(rest)
    requires forall k :: 0 <= k < |rest| ==> rest[k].productId != x.productId
    ensures UniqueIds([x] + rest)
  {
    var r := [x] + rest;
    forall i, j | 0 <= i < j < |r|
      ensures r[i].productId != r[j].productId
    {
      assert r[j] == rest[j - 1];
      if i > 0 {
        assert r[i] == rest[i - 1];
      }
    }
  }

  /** The items after `updateQuantity` with a positive quantity: every line
      item for the product gets that quantity. */
  function UpdatedItems(items: seq<CartItem>, id: string, quantity: int): (r: seq<CartItem>)
    ensures |r| == |items|
  {
    seq(|items|, i requires 0 <= i < |items| =>
          if items[i].productId == id then items[i].(quantity := quantity) else items[i])
  }

  /** With unique ids, updating rewrites the one line item `findIndex` finds,
      or nothing when the product is not in the cart. */
  lemma UpdatedItemsShape(items: seq<CartItem>, id: string, quantity: int)
    requires UniqueIds(items)
    ensures var i := FindIndex(items, id);
            && (i == -1 ==> UpdatedItems(items, id, quantity) == items)
            && (i >= 0 ==> UpdatedItems(items, id, quantity) == items[i := items[i].(quantity := quantity)])
  {
    var r := UpdatedItems(items, id, quantity);
    var i := FindIndex(items, id);
    if i >= 0 {
      assert r == items[i := items[i].(quantity := quantity)];
    } else {
      assert r == items;
    }
  }

  /** Updating keeps ids unique; the product's units become `quantity` if it
      was in the cart, and the item total moves by the difference. */
  lemma UpdatedItemsSpec(items: seq<CartItem>, id: string, quantity: int)
    requires UniqueIds(items)
    ensures var r := UpdatedItems(items, id, quantity);
            && UniqueIds(r)
            && QuantityOf(r, id) == (if FindIndex(items, id) >= 0 then quantity else 0)
            && TotalItems(r) == TotalItems(items) - QuantityOf(items, id) + QuantityOf(r, id)
  {
    var r := UpdatedItems(items, id, quantity);
    var i := FindIndex(items, id);
    UpdatedItemsShape(items, id, quantity);
    QuantityOfUnique(items, id);
    if i >= 0 {
      TotalUpdate(items, i, items[i].(quantity := quantity), Quantity);
      ReplaceKeepsUnique(items, i, items[i].(quantity := quantity));
      assert FindIndex(r, id) == i by {
        assert r[i].productId == id;
        assert forall j :: 0 <= j < i ==> r[j] == items[j];
      }
    }
    QuantityOfUnique(r, id);
  }

  /** The cart `updateCart` publishes for a list of items. */
  function CartOf(items: seq<CartItem>): (c: CartState)
    ensures c.items == items
  {
    CartState(items, TotalItems(items), TotalPrice(items))
  }

  /** The empty cart the subject starts with and `clearCart` publishes. */
  const EmptyCart: CartState := CartState([], 0, 0)

  /** The totals of a cart are those of its items. */
  predicate Consistent(c: CartState) {
    c.totalItems == TotalItems(c.items) && c.totalPrice == TotalPrice(c.items)
  }

  /** The cart application service: the value held by the cart subject. */
  class CartApplicationService {
    var cart: CartState

    /** The totals match the items and no product has two line items. */
    predicate Valid()
      reads this
    {
      Consistent(cart) && UniqueIds(cart.items)
    }

    constructor()
      ensures cart == EmptyCart && Valid()
    {
      cart := EmptyCart;
    }

    /** `updateCart`: publishes the items with their recomputed totals. */
    method UpdateCart(items: seq<CartItem>)
      modifies this
      ensures cart == CartOf(items) && Consistent(cart)
    {
      cart := CartState(items, TotalItems(items), TotalPrice(items));
    }

    /** `addToCart`; a call without a quantity adds one unit. */
    method AddToCart(product: Product, quantity: int := 1)
      requires Valid()
      modifies this
      ensures Valid()
      ensures cart.items == AddedItems(old(cart.items), product, quantity)
      ensures cart.totalItems == old(cart.totalItems) + quantity
      ensures cart.totalPrice == old(cart.totalPrice) + UnitPrice(old(cart.items), product) * quantity
      ensures QuantityOf(cart.items, product.id) == QuantityOf(old(cart.items), product.id) + quantity
    {
      var items := cart.items;
      var existingItemIndex := FindIndex(items, product.id);
      var updatedItems;
      if existingItemIndex >= 0 {
        var item := items[existingItemIndex];
        updatedItems := items[existingItemIndex := item.(quantity := item.quantity + quantity)];
        assert updatedItems == AddedItems(items, product, quantity);
      } else {
        updatedItems := items + [NewItem(product, quantity)];
        assert updatedItems == AddedItems(items, product, quantity);
      }
      AddedItemsTotals(items, product, quantity);
      AddedItemsUnique(items, product, quantity);
      UpdateCart(updatedItems);
    }

    /** `removeFromCart`. */
    method RemoveFromCart(productId: string)
      requires Valid()
      modifies this
      ensures Valid()
      ensures cart.items == RemovedItems(old(cart.items), productId)
      ensures cart.totalItems == old(cart.totalItems) - QuantityOf(old(cart.items), productId)
      ensures forall x :: x in cart.items ==> x.productId != productId
    {
      RemovedItemsSpec(cart.items, productId);
      UpdateCart(RemovedItems(cart.items, productId));
    }

    /** `updateQuantity`: a quantity of zero or less removes the product. */
    method UpdateQuantity(productId: string, quantity: int)
      requires Valid()
      modifies this
      ensures Valid()
      ensures quantity <= 0 ==> cart.items == RemovedItems(old(cart.items), productId)
      ensures quantity > 0 ==> cart.items == UpdatedItems(old(cart.items), productId, quantity)
      ensures quantity > 0 && FindIndex(old(cart.items), productId) >= 0 ==>
                QuantityOf(cart.items, productId) == quantity
    {
      if quantity <= 0 {
        RemoveFromCart(productId);
        return;
      }
      UpdatedItemsSpec(cart.items, productId, quantity);
      UpdateCart(UpdatedItems(cart.items, productId, quantity));
    }

    /** `clearCart`. */
    method ClearCart()
      modifies this
      ensures cart == EmptyCart && Valid()
    {
      cart := EmptyCart;
    }
  }
}
