/**
 * The product table's columns (ProductRow.tsx): the case-insensitive name
 * filter, the status label read from the row's `active` field, and what the
 * row menus hand to the page's callbacks.
 */
module ProductRow {
  import opened Wrappers
  import opened Text

  /** A product row as the seller pages hold it; fields the server may leave out are optional, and `price` is whole dinars. */
  datatype Product = Product(
    id: string,
    name: Option<string>,
    price: Option<int>,
    available: Option<bool>,
    active: Option<bool>,
    sponsored: Option<bool>,
    classification: Option<string>)

  /** The name column's filterFn: the lower-cased name contains the lower-cased filter; a missing name fails. */
  predicate NameFilter(name: Option<string>, filter: string) {
    name.Some? && Contains(Lower(name.value), Lower(filter))
  }

  /** An empty filter passes every row that has a name. */
  lemma {:induction false} EmptyFilterPassesNamed(name: string)
    ensures NameFilter(Some(name), "")
  {
    assert Lower("") == "";
    ContainsEmpty(Lower(name));
  }

  /** A row without a name never passes, whatever the filter. */
  lemma {:induction false} MissingNameFails(filter: string)
    ensures !NameFilter(None, filter)
  {
  }

  /** A name containing the filter as typed passes. */
  lemma {:induction false} SubstringPasses(name: string, filter: string)
    requires Contains(name, filter)
    ensures NameFilter(Some(name), filter)
  {
    ContainsLower(name, filter);
  }

  /** The filter ignores the case of what is typed: upper-casing or lower-casing it changes nothing. */
  lemma {:induction false} FilterIgnoresCase(name: Option<string>, filter: string)
    ensures NameFilter(name, Upper(filter)) <==> NameFilter(name, filter)
    ensures NameFilter(name, Lower(filter)) <==> NameFilter(name, filter)
  {
    assert Lower(Upper(filter)) == Lower(filter) by {
      forall k | 0 <= k < |filter| ensures Lower(Upper(filter))[k] == Lower(filter)[k] {
        var c := filter[k];
        if 'a' <= c <= 'z' {
          assert 'A' <= UpperChar(c) <= 'Z';
        }
      }
    }
    LowerIdempotent(filter);
  }

  /** A passing row's name is at least as long as the filter. */
  lemma {:induction false} PassingNameIsLongEnough(name: string, filter: string)
    requires NameFilter(Some(name), filter)
    ensures |filter| <= |name|
  {
    ContainsLength(Lower(name), Lower(filter));
  }

  /** `product.active !== false ? "active" : "pending"` */
  function StatusLabel(active: Option<bool>): (r: string)
    ensures r == "pending" <==> active == Some(false)
    ensures r == "active" <==> active != Some(false)
  {
    if active != Some(false) then "active" else "pending"
  }

  /** What a row's menus pass to the page. */
  datatype MenuAction =
    | ChangeStatus(productId: string, status: string)
    | Edit(product: Product)
    | Delete(productId: string)

  /** The status menu's two items, then Edit and Delete from the actions menu. */
  function MenuActions(p: Product): (r: seq<MenuAction>)
    ensures forall a :: a in r && a.ChangeStatus? ==> a.productId == p.id && a.status in {"active", "pending"}
    ensures forall a :: a in r && a.Edit? ==> a.product == p
    ensures forall a :: a in r && a.Delete? ==> a.productId == p.id
    ensures ChangeStatus(p.id, "active") in r && ChangeStatus(p.id, "pending") in r
  {
    [ChangeStatus(p.id, "active"), ChangeStatus(p.id, "pending"), Edit(p), Delete(p.id)]
  }
}
