/**
 * The local cart store (CartApi.ts): a list of line items keyed by productId,
 * persisted as one blob under the storage key "ecom_cart". Every write reads
 * the stored cart, changes its items, recomputes totalItems and totalPrice
 * from the items and writes the result back. Prices are integers in one unit
 * throughout; the totals are sums of price times quantity in that same unit.
 */
module CartStore {
  import opened Wrappers
  import opened ListOps

  const StorageKey := "ecom_cart"

  /** One line of the cart. */
  datatype CartItem = CartItem(
    productId: string,
    name: string,
    image: string,
    price: int,
    quantity: int,
    size: Option<string>,
    color: Option<string>)

  /** The item given to addToCart: a line whose quantity may be absent. */
  datatype NewItem = NewItem(
    productId: string,
    name: string,
    image: string,
    price: int,
    quantity: Option<int>,
    size: Option<string>,
    color: Option<string>)

  /** The persisted object `{ items, totalItems, totalPrice }`. */
  datatype CartState = CartState(items: seq<CartItem>, totalItems: int, totalPrice: int)

  datatype Totals = Totals(totalItems: int, totalPrice: int)

  /**
   * What the storage cell holds: nothing (or the empty string, which the
   * source treats alike), text that does not parse, or a parsed cart.
   */
  datatype Blob = Missing | Corrupt | Stored(snapshot: CartState)

  const EmptyCart := CartState([], 0, 0)

  // ---------------------------------------------------------------------
  // Totals

  function SumQuantity(items: seq<CartItem>): int {
    if items == [] then 0 else items[0].quantity + SumQuantity(items[1..])
  }

  function SumPrice(items: seq<CartItem>): int {
    if items == [] then 0 else items[0].price * items[0].quantity + SumPrice(items[1..])
  }

  /** calculateTotals: the two reductions over the items. */
  function CalculateTotals(items: seq<CartItem>): Totals {
    Totals(SumQuantity(items), SumPrice(items))
  }

  /** The totals a cart carries agree with its items. */
  predicate TotalsConsistent(c: CartState) {
    c.totalItems == SumQuantity(c.items) && c.totalPrice == SumPrice(c.items)
  }

  /** A cart built from `items` with freshly computed totals. */
  function WithTotals(items: seq<CartItem>): (c: CartState)
    ensures c.items == items && TotalsConsistent(c)
  {
    var t := CalculateTotals(items);
    CartState(items, t.totalItems, t.totalPrice)
  }

  lemma {:induction false} SumAppend(a: seq<CartItem>, b: seq<CartItem>)
    ensures SumQuantity(a + b) == SumQuantity(a) + SumQuantity(b)
    ensures SumPrice(a + b) == SumPrice(a) + SumPrice(b)
  {
    if a != [] {
      assert (a + b)[1..] == a[1..] + b;
      SumAppend(a[1..], b);
    } else {
      assert a + b == b;
    }
  }

  /** Replacing the quantity of one line moves the totals by the difference. */
  lemma {:induction false} SumSetQuantity(items: seq<CartItem>, i: nat, q: int)
    requires i < |items|
    ensures SumQuantity(items[i := items[i].(quantity := q)]) == SumQuantity(items) - items[i].quantity + q
    ensures SumPrice(items[i := items[i].(quantity := q)]) == SumPrice(items) - items[i].price * items[i].quantity + items[i].price * q
  {
    if i > 0 {
      assert items[i := items[i].(quantity := q)][1..] == items[1..][i - 1 := items[i].(quantity := q)];
      SumSetQuantity(items[1..], i - 1, q);
    }
  }

  /** Splicing one line out lowers the totals by that line's share. */
  lemma {:induction false} SumRemoveAt(items: seq<CartItem>, i: nat)
    requires i < |items|
    ensures SumQuantity(items[..i] + items[i + 1..]) == SumQuantity(items) - items[i].quantity
    ensures SumPrice(items[..i] + items[i + 1..]) == SumPrice(items) - items[i].price * items[i].quantity
  {
    var before, rest := items[..i], items[i + 1..];
    var from := [items[i]] + rest;
    assert items == before + from;
    assert from[0] == items[i] && from[1..] == rest;
    SumAppend(before, from);
    SumAppend(before, rest);
  }

  lemma {:induction false} Distribute(p: int, a: int, b: int)
    ensures p * (a + b) == p * a + p * b
  {
  }

  /** Adding `q` to the quantity of one line moves the totals by `q` units at that line's price. */
  lemma {:induction false} SumAddQuantity(items: seq<CartItem>, i: nat, q: int)
    requires i < |items|
    ensures SumQuantity(items[i := items[i].(quantity := items[i].quantity + q)]) == SumQuantity(items) + q
    ensures SumPrice(items[i := items[i].(quantity := items[i].quantity + q)]) == SumPrice(items) + items[i].price * q
  {
    SumSetQuantity(items, i, items[i].quantity + q);
    Distribute(items[i].price, items[i].quantity, q);
  }

  // ---------------------------------------------------------------------
  // Lookup and uniqueness

  predicate HasProduct(items: seq<CartItem>, id: string) {
    exists k :: 0 <= k < |items| && items[k].productId == id
  }

  /** No two lines share a productId. */
  predicate UniqueIds(items: seq<CartItem>) {
    forall i, j :: 0 <= i < j < |items| ==> items[i].productId != items[j].productId
  }

  /** `findIndex` by productId: the first matching position, or -1. */
  function FindIndex(items: seq<CartItem>, id: string): (r: int)
    ensures -1 <= r < |items|
    ensures r >= 0 ==> items[r].productId == id
    ensures r >= 0 ==> forall k :: 0 <= k < r ==> items[k].productId != id
    ensures r < 0 <==> !HasProduct(items, id)
  {
    if items == [] then -1
    else if items[0].productId == id then 0
    else
      var k := FindIndex(items[1..], id);
      assert forall j :: 1 <= j < |items| ==> items[j] == items[1..][j - 1];
      if k < 0 then -1 else k + 1
  }

  // ---------------------------------------------------------------------
  // Specifications of the four writes

  /** `newItem.quantity || 1`: an absent or zero quantity counts as 1, any other value (negative ones too) as itself. */
  function RequestedQuantity(q: Option<int>): (r: int)
    ensures r != 0
    ensures q.None? || q.value == 0 ==> r == 1
    ensures q.Some? && q.value != 0 ==> r == q.value
  {
    match q
    case Some(v) => if v == 0 then 1 else v
    case None => 1
  }

  /** The line appended for a product not yet in the cart: `{ ...newItem, quantity: newItem.quantity || 1 }`. */
  function NewLine(n: NewItem): CartItem {
    CartItem(n.productId, n.name, n.image, n.price, RequestedQuantity(n.quantity), n.size, n.color)
  }

  /** The items after addToCart. */
  function Added(items: seq<CartItem>, n: NewItem): seq<CartItem> {
    var i := FindIndex(items, n.productId);
    if i >= 0 then items[i := items[i].(quantity := items[i].quantity + RequestedQuantity(n.quantity))]
    else items + [NewLine(n)]
  }

  /** The items after updateCartItem with the given action text. */
  function Updated(items: seq<CartItem>, id: string, action: string): seq<CartItem> {
    var i := FindIndex(items, id);
    if i < 0 then items
    else if action == "increment" then items[i := items[i].(quantity := items[i].quantity + 1)]
    else if action == "decrement" then
      if items[i].quantity - 1 <= 0 then items[..i] + items[i + 1..]
      else items[i := items[i].(quantity := items[i].quantity - 1)]
    else items
  }

  /** The items after deleteCartItem: every line with another productId, in order. */
  function Deleted(items: seq<CartItem>, id: string): seq<CartItem> {
    Without(items, ProductIdOf, id)
  }

  function ProductIdOf(item: CartItem): string {
    item.productId
  }

  // ---------------------------------------------------------------------
  // Persistence

  /**
   * getCartFromStorage. `browser` is false where there is no window (server
   * rendering): then nothing is read. A parsed blob is returned as it is,
   * with its totals not recomputed.
   */
  function Loaded(browser: bool, blob: Blob): (c: CartState) {
    if !browser then EmptyCart
    else match blob
      case Stored(s) => s
      case _ => EmptyCart
  }

  /** saveCartToStorage: overwrite the cell, or do nothing without a window. */
  function Saved(browser: bool, blob: Blob, c: CartState): Blob {
    if browser then Stored(c) else blob
  }

  /** The store as the cart endpoints see it: one cell behind the storage key. */
  class CartStorage {
    var blob: Blob
    const browser: bool

    constructor (browser: bool, blob: Blob)
      ensures this.browser == browser && this.blob == blob
    {
      this.browser := browser;
      this.blob := blob;
    }

    function Cart(): CartState
      reads this
    {
      Loaded(browser, blob)
    }

    /** getCart and the first step of every write. */
    method GetCartFromStorage() returns (c: CartState)
      ensures c == Loaded(browser, blob)
      ensures !browser || !blob.Stored? ==> c == EmptyCart
    {
      if !browser {
        return EmptyCart;
      }
      match blob
      case Stored(s) => c := s;
      case _ => c := EmptyCart;
    }

    method SaveCartToStorage(c: CartState)
      modifies this
      ensures blob == Saved(browser, old(blob), c)
    {
      if browser {
        blob := Stored(c);
      }
    }

    method AddToCart(newItem: NewItem) returns (r: CartState)
      modifies this
      ensures r == WithTotals(Added(old(Cart()).items, newItem))
      ensures blob == Saved(browser, old(blob), r)
    {
      var cart := GetCartFromStorage();
      var items := cart.items;
      var existingIndex := FindIndex(items, newItem.productId);
      if existingIndex >= 0 {
        var line := items[existingIndex];
        items := items[existingIndex := line.(quantity := line.quantity + RequestedQuantity(newItem.quantity))];
      } else {
        items := items + [NewLine(newItem)];
      }
      var totals := CalculateTotals(items);
      r := CartState(items, totals.totalItems, totals.totalPrice);
      SaveCartToStorage(r);
    }

    method UpdateCartItem(productId: string, action: string) returns (r: CartState)
      modifies this
      ensures r == WithTotals(Updated(old(Cart()).items, productId, action))
      ensures blob == Saved(browser, old(blob), r)
    {
      var cart := GetCartFromStorage();
      var items := cart.items;
      var itemIndex := FindIndex(items, productId);
      if itemIndex >= 0 {
        if action == "increment" {
          items := items[itemIndex := items[itemIndex].(quantity := items[itemIndex].quantity + 1)];
        } else if action == "decrement" {
          items := items[itemIndex := items[itemIndex].(quantity := items[itemIndex].quantity - 1)];
          if items[itemIndex].quantity <= 0 {
            items := items[..itemIndex] + items[itemIndex + 1..];
          }
        }
      }
      var totals := CalculateTotals(items);
      r := CartState(items, totals.totalItems, totals.totalPrice);
      SaveCartToStorage(r);
    }

    method DeleteCartItem(productId: string) returns (r: CartState)
      modifies this
      ensures r == WithTotals(Deleted(old(Cart()).items, productId))
      ensures blob == Saved(browser, old(blob), r)
    {
      var cart := GetCartFromStorage();
      var items := Deleted(cart.items, productId);
      var totals := CalculateTotals(items);
      r := CartState(items, totals.totalItems, totals.totalPrice);
      SaveCartToStorage(r);
    }

    method ClearCart() returns (r: CartState)
      modifies this
      ensures r == EmptyCart && TotalsConsistent(r)
      ensures blob == Saved(browser, old(blob), EmptyCart)
      ensures browser ==> Cart() == EmptyCart
    {
      r := EmptyCart;
      SaveCartToStorage(r);
    }
  }

  // ---------------------------------------------------------------------
  // Properties of the writes

  /** addToCart on a product already present: same number of lines, the first matching line gains the requested quantity and every other line is untouched. */
  lemma {:induction false} AddExisting(items: seq<CartItem>, n: NewItem)
    requires HasProduct(items, n.productId)
    ensures var i := FindIndex(items, n.productId);
      var r := Added(items, n);
      && 0 <= i < |r| == |items|
      && r[i] == items[i].(quantity := items[i].quantity + RequestedQuantity(n.quantity))
      && (forall k :: 0 <= k < |items| && k != i ==> r[k] == items[k])
  {
  }

  /** addToCart on a product already present moves the totals by the requested quantity, at the stored line's price. */
  lemma {:induction false} AddExistingTotals(items: seq<CartItem>, n: NewItem)
    requires HasProduct(items, n.productId)
    ensures var i := FindIndex(items, n.productId);
      var r := Added(items, n);
      && SumQuantity(r) == SumQuantity(items) + RequestedQuantity(n.quantity)
      && SumPrice(r) == SumPrice(items) + items[i].price * RequestedQuantity(n.quantity)
  {
    var i := FindIndex(items, n.productId);
    var q := RequestedQuantity(n.quantity);
    assert Added(items, n) == items[i := items[i].(quantity := items[i].quantity + q)];
    SumAddQuantity(items, i, q);
  }

  /** addToCart on a new product: exactly one line appended at the end, the earlier lines unchanged. */
  lemma {:induction false} AddNew(items: seq<CartItem>, n: NewItem)
    requires !HasProduct(items, n.productId)
    ensures Added(items, n) == items + [NewLine(n)]
    ensures Added(items, n)[|items|].quantity == RequestedQuantity(n.quantity)
    ensures SumQuantity(Added(items, n)) == SumQuantity(items) + RequestedQuantity(n.quantity)
    ensures SumPrice(Added(items, n)) == SumPrice(items) + n.price * RequestedQuantity(n.quantity)
  {
    SumAppend(items, [NewLine(n)]);
  }

  /** addToCart keeps productIds unique and always leaves a line for the added product. */
  lemma {:induction false} AddKeepsUnique(items: seq<CartItem>, n: NewItem)
    requires UniqueIds(items)
    ensures UniqueIds(Added(items, n))
    ensures HasProduct(Added(items, n), n.productId)
  {
    var i := FindIndex(items, n.productId);
    var r := Added(items, n);
    if i < 0 {
      assert r[|items|].productId == n.productId;
    } else {
      assert r[i].productId == n.productId;
    }
  }

  /**
   * Adding the same product over and over: starting from a cart without it,
   * the cart ends with one line for it whose quantity is the sum of the
   * requested quantities (1 for each absent or zero one).
   */
  function AddAll(items: seq<CartItem>, ns: seq<NewItem>): seq<CartItem>
    decreases |ns|
  {
    if ns == [] then items else AddAll(Added(items, ns[0]), ns[1..])
  }

  function SumRequested(ns: seq<NewItem>): int {
    if ns == [] then 0 else RequestedQuantity(ns[0].quantity) + SumRequested(ns[1..])
  }

  lemma {:induction false} RepeatedAddAccumulates(items: seq<CartItem>, ns: seq<NewItem>, id: string)
    requires |ns| > 0 && (forall k :: 0 <= k < |ns| ==> ns[k].productId == id)
    requires !HasProduct(items, id)
    ensures var r := AddAll(items, ns);
      && |r| == |items| + 1
      && r[..|items|] == items
      && r[|items|].productId == id
      && r[|items|].quantity == SumRequested(ns)
  {
    var first := Added(items, ns[0]);
    AddNew(items, ns[0]);
    AddToExistingAccumulates(first, ns[1..], |items|);
  }

  /** The inductive step of RepeatedAddAccumulates: the product already has its line at position `i`. */
  lemma {:induction false} AddToExistingAccumulates(items: seq<CartItem>, ns: seq<NewItem>, i: nat)
    requires i < |items|
    requires forall k :: 0 <= k < i ==> items[k].productId != items[i].productId
    requires forall k :: 0 <= k < |ns| ==> ns[k].productId == items[i].productId
    ensures var r := AddAll(items, ns);
      && |r| == |items|
      && r[i] == items[i].(quantity := items[i].quantity + SumRequested(ns))
      && forall k :: 0 <= k < |items| && k != i ==> r[k] == items[k]
    decreases |ns|
  {
    if ns != [] {
      assert FindIndex(items, ns[0].productId) == i by {
        var j := FindIndex(items, ns[0].productId);
        assert j >= 0 && j <= i;
      }
      var next := Added(items, ns[0]);
      assert next[..i] == items[..i];
      AddToExistingAccumulates(next, ns[1..], i);
    }
  }

  /** increment adds exactly 1 to the matching line and changes nothing else. */
  lemma {:induction false} UpdateIncrement(items: seq<CartItem>, id: string)
    requires HasProduct(items, id)
    ensures var i := FindIndex(items, id);
      var r := Updated(items, id, "increment");
      && |r| == |items|
      && r[i] == items[i].(quantity := items[i].quantity + 1)
      && (forall k :: 0 <= k < |items| && k != i ==> r[k] == items[k])
  {
  }

  lemma {:induction false} IncrementSetsLine(items: seq<CartItem>, id: string)
    requires HasProduct(items, id)
    ensures var i := FindIndex(items, id);
      Updated(items, id, "increment") == items[i := items[i].(quantity := items[i].quantity + 1)]
  {
    assert FindIndex(items, id) >= 0;
  }

  /** increment raises totalItems by 1 and totalPrice by the line's unit price. */
  lemma {:induction false} UpdateIncrementTotals(items: seq<CartItem>, id: string)
    requires HasProduct(items, id)
    ensures var i := FindIndex(items, id);
      var r := Updated(items, id, "increment");
      && SumQuantity(r) == SumQuantity(items) + 1
      && SumPrice(r) == SumPrice(items) + items[i].price
  {
    var i := FindIndex(items, id);
    IncrementSetsLine(items, id);
    SumAddQuantity(items, i, 1);
    assert items[i].price * 1 == items[i].price;
  }

  /** decrement subtracts 1 and keeps the line in place while the result is positive. */
  lemma {:induction false} UpdateDecrementKeeps(items: seq<CartItem>, id: string)
    requires HasProduct(items, id)
    requires items[FindIndex(items, id)].quantity > 1
    ensures var i := FindIndex(items, id);
      var r := Updated(items, id, "decrement");
      && |r| == |items|
      && r[i] == items[i].(quantity := items[i].quantity - 1)
      && (forall k :: 0 <= k < |items| && k != i ==> r[k] == items[k])
      && SumQuantity(r) == SumQuantity(items) - 1
      && SumPrice(r) == SumPrice(items) - items[i].price
  {
    var i := FindIndex(items, id);
    var r := Updated(items, id, "decrement");
    assert r == items[i := items[i].(quantity := items[i].quantity + -1)];
    SumAddQuantity(items, i, -1);
  }

  /** decrement removes the line when the result is 0 or less; with unique ids no line for the product is left. */
  lemma {:induction false} UpdateDecrementRemoves(items: seq<CartItem>, id: string)
    requires HasProduct(items, id)
    requires items[FindIndex(items, id)].quantity <= 1
    ensures var i := FindIndex(items, id);
      var r := Updated(items, id, "decrement");
      && r == items[..i] + items[i + 1..]
      && |r| == |items| - 1
      && SumQuantity(r) == SumQuantity(items) - items[i].quantity
      && SumPrice(r) == SumPrice(items) - items[i].price * items[i].quantity
      && (UniqueIds(items) ==> !HasProduct(r, id))
  {
    var i := FindIndex(items, id);
    SumRemoveAt(items, i);
    var r := Updated(items, id, "decrement");
    assert r == items[..i] + items[i + 1..];
    if UniqueIds(items) {
      forall k | 0 <= k < |r|
        ensures r[k].productId != id
      {
        if k < i {
          assert r[k] == items[k];
        } else {
          assert r[k] == items[k + 1];
        }
      }
    }
  }

  /** An absent productId or an action other than "increment"/"decrement" leaves the items as they were. */
  lemma {:induction false} UpdateNoop(items: seq<CartItem>, id: string, action: string)
    requires !HasProduct(items, id) || (action != "increment" && action != "decrement")
    ensures Updated(items, id, action) == items
  {
  }

  /** updateCartItem keeps productIds unique. */
  lemma {:induction false} UpdateKeepsUnique(items: seq<CartItem>, id: string, action: string)
    requires UniqueIds(items)
    ensures UniqueIds(Updated(items, id, action))
  {
    var i := FindIndex(items, id);
    var r := Updated(items, id, action);
    if i >= 0 && action == "decrement" && items[i].quantity - 1 <= 0 {
      forall a, b | 0 <= a < b < |r|
        ensures r[a].productId != r[b].productId
      {
        var a' := if a < i then a else a + 1;
        var b' := if b < i then b else b + 1;
        assert r[a] == items[a'] && r[b] == items[b'];
      }
    }
  }

  lemma {:induction false} TailLacks(items: seq<CartItem>, id: string)
    requires items != [] && !HasProduct(items, id)
    ensures !HasProduct(items[1..], id)
  {
    forall k | 0 <= k < |items[1..]|
      ensures items[1..][k].productId != id
    {
      assert items[1..][k] == items[k + 1];
    }
  }

  /** deleteCartItem keeps exactly the lines with another productId, in order, and drops their share of the totals. */
  lemma {:induction false} DeleteFilters(items: seq<CartItem>, id: string)
    ensures !HasProduct(Deleted(items, id), id)
    ensures forall x :: x in Deleted(items, id) <==> x in items && x.productId != id
    ensures |Deleted(items, id)| <= |items|
    ensures !HasProduct(items, id) ==> Deleted(items, id) == items
  {
    if items != [] {
      DeleteFilters(items[1..], id);
      assert items == [items[0]] + items[1..];
      if !HasProduct(items, id) {
        TailLacks(items, id);
      }
      var r := Deleted(items, id);
      forall k | 0 <= k < |r|
        ensures r[k].productId != id
      {
        assert r[k] in r;
      }
    }
  }

  /** With unique ids, deleting a present product splices out exactly its line and drops its share of the totals. */
  lemma {:induction false} DeleteUnique(items: seq<CartItem>, id: string)
    requires UniqueIds(items) && HasProduct(items, id)
    ensures var i := FindIndex(items, id);
      && Deleted(items, id) == items[..i] + items[i + 1..]
      && SumQuantity(Deleted(items, id)) == SumQuantity(items) - items[i].quantity
      && SumPrice(Deleted(items, id)) == SumPrice(items) - items[i].price * items[i].quantity
  {
    DeleteSplices(items, id);
    SumRemoveAt(items, FindIndex(items, id));
  }

  lemma {:induction false} DeleteSplices(items: seq<CartItem>, id: string)
    requires UniqueIds(items) && HasProduct(items, id)
    ensures var i := FindIndex(items, id);
      Deleted(items, id) == items[..i] + items[i + 1..]
  {
    var i := FindIndex(items, id);
    if i == 0 {
      UniqueHeadOnly(items, id);
      DeleteFilters(items[1..], id);
    } else {
      UniqueTail(items, id);
      DeleteSplices(items[1..], id);
      assert Deleted(items, id) == [items[0]] + Deleted(items[1..], id);
      SpliceFirst(items, i);
    }
  }

  /** Splicing position `i > 0` out of a sequence splices position `i - 1` out of its tail. */
  lemma {:induction false} SpliceFirst(xs: seq<CartItem>, i: nat)
    requires 0 < i < |xs|
    ensures xs[..i] + xs[i + 1..] == [xs[0]] + (xs[1..][..i - 1] + xs[1..][i..])
  {
    assert xs[1..][..i - 1] == xs[1..i];
    assert xs[1..][i..] == xs[i + 1..];
    assert xs[..i] == [xs[0]] + xs[1..i];
  }

  /** With unique ids, a product on the first line appears nowhere else. */
  lemma {:induction false} UniqueHeadOnly(items: seq<CartItem>, id: string)
    requires UniqueIds(items) && items != [] && items[0].productId == id
    ensures !HasProduct(items[1..], id)
  {
    forall k | 0 <= k < |items[1..]|
      ensures items[1..][k].productId != id
    {
      assert items[1..][k] == items[k + 1];
    }
  }

  /** With unique ids, a product found past the first line is found one position earlier in the tail. */
  lemma {:induction false} UniqueTail(items: seq<CartItem>, id: string)
    requires UniqueIds(items) && HasProduct(items, id) && FindIndex(items, id) > 0
    ensures UniqueIds(items[1..]) && HasProduct(items[1..], id)
    ensures FindIndex(items[1..], id) == FindIndex(items, id) - 1
  {
    var i := FindIndex(items, id);
    assert items[1..][i - 1].productId == id;
  }

  /** deleteCartItem keeps productIds unique. */
  lemma {:induction false} DeleteKeepsUnique(items: seq<CartItem>, id: string)
    requires UniqueIds(items)
    ensures UniqueIds(Deleted(items, id))
  {
    if items != [] {
      DeleteKeepsUnique(items[1..], id);
      DeleteFilters(items[1..], id);
      var rest := Deleted(items[1..], id);
      var r := Deleted(items, id);
      if items[0].productId != id {
        forall b | 0 < b < |r|
          ensures r[0].productId != r[b].productId
        {
          assert r[b] == rest[b - 1] && rest[b - 1] in rest;
          var k :| 0 <= k < |items[1..]| && items[1..][k] == r[b];
          assert items[k + 1] == r[b];
        }
      }
    }
  }

  /** Every line has a positive quantity: what the cart promises to its readers. */
  predicate PositiveQuantities(items: seq<CartItem>) {
    forall k :: 0 <= k < |items| ==> items[k].quantity >= 1
  }

  /** Positive quantities survive addToCart as long as no negative quantity is asked for. */
  lemma {:induction false} AddKeepsPositive(items: seq<CartItem>, n: NewItem)
    requires PositiveQuantities(items)
    requires n.quantity.Some? ==> n.quantity.value >= 0
    ensures PositiveQuantities(Added(items, n))
  {
  }

  /** Positive quantities survive updateCartItem: decrement removes a line rather than storing 0. */
  lemma {:induction false} UpdateKeepsPositive(items: seq<CartItem>, id: string, action: string)
    requires PositiveQuantities(items)
    ensures PositiveQuantities(Updated(items, id, action))
  {
    var u := Updated(items, id, action);
    var i := FindIndex(items, id);
    if i >= 0 && action == "decrement" && items[i].quantity - 1 <= 0 {
      assert u == items[..i] + items[i + 1..];
      forall k | 0 <= k < |u| ensures u[k].quantity >= 1 {
        assert u[k] == if k < i then items[k] else items[k + 1];
      }
    }
  }

  /** Positive quantities survive deleteCartItem. */
  lemma {:induction false} DeleteKeepsPositive(items: seq<CartItem>, id: string)
    requires PositiveQuantities(items)
    ensures PositiveQuantities(Deleted(items, id))
  {
    DeleteFilters(items, id);
    var d := Deleted(items, id);
    forall k | 0 <= k < |d| ensures d[k].quantity >= 1 {
      assert d[k] in d;
    }
  }

  /** The source does not enforce positivity: a negative requested quantity is stored as it is. */
  lemma {:induction false} NegativeRequestStored(n: NewItem)
    requires n.quantity == Some(-3)
    ensures Added([], n) == [NewLine(n)]
    ensures Added([], n)[0].quantity == -3
    ensures !PositiveQuantities(Added([], n))
    ensures SumQuantity(Added([], n)) == -3
  {
  }

  /** Saving and loading again gives back the cart, and saving what was just loaded changes nothing. */
  lemma {:induction false} SaveLoadRoundTrip(blob: Blob, c: CartState)
    ensures Loaded(true, Saved(true, blob, c)) == c
    ensures var b := Saved(true, blob, c); Saved(true, b, Loaded(true, b)) == b
    ensures Loaded(false, Saved(false, blob, c)) == EmptyCart
  {
  }
}
