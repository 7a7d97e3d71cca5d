/**
 * The cart page (cart/page.tsx): the rule that turns a quantity change in
 * the UI into a request to the cart store, and the totals the page shows.
 */
module CartPage {
  import opened Wrappers
  import opened CartStore

  /** The one mutation handleQuantityUpdate issues. */
  datatype Request = DeleteItem(productId: string) | UpdateItem(productId: string, action: string)

  /** handleQuantityUpdate as written: below 1 deletes, otherwise an update with "increase" or "decrease". */
  function QuantityRequest(productId: string, newVal: int, currentVal: int): (r: Request)
    ensures r.productId == productId
    ensures r.DeleteItem? <==> newVal < 1
    ensures r.UpdateItem? ==> (r.action == "increase" <==> newVal > currentVal)
    ensures r.UpdateItem? ==> (r.action == "decrease" <==> newVal <= currentVal)
  {
    if newVal < 1 then DeleteItem(productId)
    else UpdateItem(productId, if newVal > currentVal then "increase" else "decrease")
  }

  /** The same rule with the action names the cart store understands. */
  function CorrectedQuantityRequest(productId: string, newVal: int, currentVal: int): (r: Request)
    ensures r.productId == productId
    ensures r.DeleteItem? <==> newVal < 1
    ensures r.UpdateItem? ==> (r.action == "increment" <==> newVal > currentVal)
    ensures r.UpdateItem? ==> (r.action == "decrement" <==> newVal <= currentVal)
  {
    if newVal < 1 then DeleteItem(productId)
    else UpdateItem(productId, if newVal > currentVal then "increment" else "decrement")
  }

  /** What the cart store does with a request. */
  function Apply(items: seq<CartItem>, req: Request): seq<CartItem> {
    match req
    case DeleteItem(id) => Deleted(items, id)
    case UpdateItem(id, action) => Updated(items, id, action)
  }

  /** Through the page as written, a quantity change of 1 or more never changes the cart. */
  lemma {:induction false} PageUpdateNeverChangesQuantities(items: seq<CartItem>, productId: string, newVal: int, currentVal: int)
    requires newVal >= 1
    ensures Apply(items, QuantityRequest(productId, newVal, currentVal)) == items
  {
    var req := QuantityRequest(productId, newVal, currentVal);
    UpdateNoop(items, productId, req.action);
  }

  /** Below 1 the page removes the product's line, as written and corrected alike. */
  lemma {:induction false} PageRemovesBelowOne(items: seq<CartItem>, productId: string, newVal: int, currentVal: int)
    requires newVal < 1
    ensures Apply(items, QuantityRequest(productId, newVal, currentVal)) == Deleted(items, productId)
    ensures !HasProduct(Apply(items, QuantityRequest(productId, newVal, currentVal)), productId)
    ensures QuantityRequest(productId, newVal, currentVal) == CorrectedQuantityRequest(productId, newVal, currentVal)
  {
    DeleteFilters(items, productId);
  }

  /** With the corrected action names, a raise adds exactly 1 to the line and a lowering from above 1 takes exactly 1 off. */
  lemma {:induction false} CorrectedRequestMovesQuantity(items: seq<CartItem>, productId: string, newVal: int, currentVal: int)
    requires HasProduct(items, productId) && newVal >= 1
    ensures var i := FindIndex(items, productId);
      var r := Apply(items, CorrectedQuantityRequest(productId, newVal, currentVal));
      && (newVal > currentVal ==> |r| == |items| && r[i].quantity == items[i].quantity + 1)
      && (newVal <= currentVal && items[i].quantity > 1 ==> |r| == |items| && r[i].quantity == items[i].quantity - 1)
      && (newVal <= currentVal && items[i].quantity <= 1 ==> |r| == |items| - 1)
  {
    var i := FindIndex(items, productId);
    if newVal > currentVal {
      UpdateIncrement(items, productId);
    } else if items[i].quantity > 1 {
      UpdateDecrementKeeps(items, productId);
    } else {
      UpdateDecrementRemoves(items, productId);
    }
  }

  // ---------------------------------------------------------------------
  // Totals shown by the page

  /** A property of the store's result, read by name. */
  datatype Property = ItemsProperty(items: seq<CartItem>) | NumberProperty(n: int)

  /** Property access on the object the store returns: names it does not have read as undefined. */
  function PropertyOf(c: CartState, key: string): (r: Option<Property>)
    ensures r.Some? <==> key in {"items", "totalItems", "totalPrice"}
  {
    if key == "items" then Some(ItemsProperty(c.items))
    else if key == "totalItems" then Some(NumberProperty(c.totalItems))
    else if key == "totalPrice" then Some(NumberProperty(c.totalPrice))
    else None
  }

  /** `cartData?.<key> || []` */
  function ItemsOr(data: Option<CartState>, key: string): seq<CartItem> {
    if data.None? then []
    else match PropertyOf(data.value, key)
      case Some(ItemsProperty(xs)) => xs
      case _ => []
  }

  /** `cartData?.<key> || 0` */
  function NumberOr(data: Option<CartState>, key: string): int {
    if data.None? then 0
    else match PropertyOf(data.value, key)
      case Some(NumberProperty(n)) => n
      case _ => 0
  }

  /** `savings`, fixed at 0 in the page. */
  const Savings := 0

  datatype View = View(cart: seq<CartItem>, total: int, recomputed: int, displayTotal: int, finalTotal: int)

  /** The page's totals, given the names it reads the items and the total under. */
  function PageView(data: Option<CartState>, itemsKey: string, totalKey: string): (v: View)
    ensures v.recomputed == SumPrice(v.cart)
    ensures v.total > 0 ==> v.displayTotal == v.total
    ensures v.total <= 0 ==> v.displayTotal == v.recomputed
    ensures v.finalTotal == v.displayTotal
  {
    var cart := ItemsOr(data, itemsKey);
    var total := NumberOr(data, totalKey);
    var recomputed := SumPrice(cart);
    var displayTotal := if total > 0 then total else recomputed;
    View(cart, total, recomputed, displayTotal, displayTotal - Savings)
  }

  /** The page as written reads `cartItems` and `total`. */
  function CartPageView(data: Option<CartState>): View {
    PageView(data, "cartItems", "total")
  }

  /** The page reading the names the store returns, `items` and `totalPrice`. */
  function CorrectedCartPageView(data: Option<CartState>): View {
    PageView(data, "items", "totalPrice")
  }

  /** As written, the page never sees the store's items: it always shows an empty cart and a total of 0. */
  lemma {:induction false} PageSeesNoItems(data: Option<CartState>)
    ensures CartPageView(data).cart == []
    ensures CartPageView(data).displayTotal == 0 && CartPageView(data).finalTotal == 0
  {
  }

  /** Reading the right names, the page shows the sum of price times quantity of a cart whose totals are consistent, whatever their signs. */
  lemma {:induction false} CorrectedPageShowsItemTotal(c: CartState)
    requires TotalsConsistent(c)
    ensures CorrectedCartPageView(Some(c)).cart == c.items
    ensures CorrectedCartPageView(Some(c)).displayTotal == SumPrice(c.items)
    ensures CorrectedCartPageView(Some(c)).finalTotal == c.totalPrice
  {
  }

  /** Example: a cart holding two units at 10 shows 20 when read correctly and 0 as written. */
  lemma {:induction false} PageTotalExample(line: CartItem)
    requires line.price == 10 && line.quantity == 2
    ensures CorrectedCartPageView(Some(WithTotals([line]))).displayTotal == 20
    ensures CartPageView(Some(WithTotals([line]))).displayTotal == 0
  {
    assert SumPrice([line]) == 20 by {
      assert [line][1..] == [];
    }
  }
}
