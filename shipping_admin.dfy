/**
 * The seller's shipping page (admin-seller/shipping/page.tsx): the counts
 * shown over the states, the price edit with its guards, and the bulk
 * activation of the selected states. `parseFloat` and the server's answers
 * are parameters.
 */
module ShippingAdmin {
  import opened Wrappers
  import opened Text

  /** A state's shipping row; `price` is a whole number of dinars, so `toString` gives its decimal digits. */
  datatype ShippingState = ShippingState(id: string, name: string, nameAr: string, price: int, available: bool)

  /** The seller id the page sends with every price update. */
  const OwnerId := "019c52df-1e7a-7006-ac12-aa2be28f77b4"

  // ---------------------------------------------------------------------
  // Statistics

  datatype Statistics = Statistics(total: int, active: int, inactive: int)

  /** `states.filter(s => s.available).length` */
  function CountAvailable(states: seq<ShippingState>): (n: nat)
    ensures n <= |states|
    ensures n == 0 <==> forall k :: 0 <= k < |states| ==> !states[k].available
    ensures n == |states| <==> forall k :: 0 <= k < |states| ==> states[k].available
  {
    if states == [] then 0
    else (if states[0].available then 1 else 0) + CountAvailable(states[1..])
  }

  /** The three counts: every state is counted once, as active or as inactive. */
  function StatisticsOf(states: seq<ShippingState>): (r: Statistics)
    ensures r.total == |states|
    ensures 0 <= r.active <= r.total
    ensures 0 <= r.inactive && r.active + r.inactive == r.total
  {
    var total := |states|;
    var active := CountAvailable(states);
    Statistics(total, active, total - active)
  }

  lemma {:induction false} CountAvailableAppend(a: seq<ShippingState>, b: seq<ShippingState>)
    ensures CountAvailable(a + b) == CountAvailable(a) + CountAvailable(b)
  {
    if a == [] {
      assert a + b == b;
    } else {
      assert (a + b)[1..] == a[1..] + b;
      CountAvailableAppend(a[1..], b);
    }
  }

  /** The counts of two lists of states add up. */
  lemma {:induction false} StatisticsAdd(a: seq<ShippingState>, b: seq<ShippingState>)
    ensures StatisticsOf(a + b).active == StatisticsOf(a).active + StatisticsOf(b).active
    ensures StatisticsOf(a + b).inactive == StatisticsOf(a).inactive + StatisticsOf(b).inactive
  {
    CountAvailableAppend(a, b);
  }

  // ---------------------------------------------------------------------
  // Row selection

  /** `Object.keys(rowSelection).filter(key => rowSelection[key])`: the keys whose flag is set, in key order. */
  function SelectedIds(selection: seq<(string, bool)>): (r: seq<string>)
    ensures |r| <= |selection|
    ensures forall k :: 0 <= k < |selection| && selection[k].1 ==> selection[k].0 in r
    ensures forall id :: id in r ==> (id, true) in selection
  {
    if selection == [] then []
    else (if selection[0].1 then [selection[0].0] else []) + SelectedIds(selection[1..])
  }

  /** No id is selected exactly when no flag is set. */
  lemma {:induction false} SelectedIdsEmpty(selection: seq<(string, bool)>)
    ensures SelectedIds(selection) == [] <==> forall k :: 0 <= k < |selection| ==> !selection[k].1
  {
    if selection != [] {
      SelectedIdsEmpty(selection[1..]);
      if !selection[0].1 {
        forall k | 0 <= k < |selection[1..]| ensures selection[1..][k] == selection[k + 1] {
        }
      }
    }
  }

  /** A selection object: each key appears once. */
  predicate DistinctKeys(selection: seq<(string, bool)>) {
    forall i, j :: 0 <= i < j < |selection| ==> selection[i].0 != selection[j].0
  }

  predicate NoRepeats(r: seq<string>) {
    forall i, j :: 0 <= i < j < |r| ==> r[i] != r[j]
  }

  /** With each key once in the selection, each selected id is sent once. */
  lemma {:induction false} SelectedIdsDistinct(selection: seq<(string, bool)>)
    requires DistinctKeys(selection)
    ensures NoRepeats(SelectedIds(selection))
  {
    if selection != [] {
      var tail := selection[1..];
      assert DistinctKeys(tail) by {
        forall i, j | 0 <= i < j < |tail| ensures tail[i].0 != tail[j].0 {
          assert tail[i] == selection[i + 1] && tail[j] == selection[j + 1];
        }
      }
      SelectedIdsDistinct(tail);
      if selection[0].1 {
        var rest := SelectedIds(tail);
        forall id | id in rest ensures id != selection[0].0 {
          var k :| 0 <= k < |tail| && tail[k] == (id, true);
          assert tail[k] == selection[k + 1];
        }
        var r := SelectedIds(selection);
        assert r == [selection[0].0] + rest;
        forall i, j | 0 <= i < j < |r| ensures r[i] != r[j] {
          assert r[j] == rest[j - 1];
          if i > 0 {
            assert r[i] == rest[i - 1];
          } else {
            assert r[0] == selection[0].0;
            assert rest[j - 1] in rest;
          }
        }
      } else {
        assert SelectedIds(selection) == SelectedIds(tail);
      }
    }
  }

  // ---------------------------------------------------------------------
  // The page

  /** A price update; `price` is whatever parseFloat read from the input, fractions included. */
  datatype PriceRequest = PriceRequest(ownerId: string, stateId: string, price: real)

  datatype PriceOutcome = NoSelection | InvalidPrice | PriceSent(request: PriceRequest)

  /** A bulk request carries the selection's keys as the state ids; the table gives no row id, so these are row keys. */
  datatype BulkOutcome = EmptySelection | BulkSent(keys: seq<string>, available: bool)

  /** A parsed price the page accepts: a number, zero included, that is not negative. */
  predicate ValidPrice(parsed: Parsed) {
    parsed.Finite? && parsed.value >= 0.0
  }

  class ShippingPage {
    /** The table's selection, one flag per key, in key order. */
    var rowSelection: seq<(string, bool)>
    var editDialogOpen: bool
    var selectedState: Option<ShippingState>
    var priceInput: string

    constructor ()
      ensures rowSelection == [] && !editDialogOpen && selectedState == None && priceInput == ""
    {
      rowSelection := [];
      editDialogOpen := false;
      selectedState := None;
      priceInput := "";
    }

    /** The row's edit button: selects the state, puts its price in the input and opens the dialog. */
    method OnEditPrice(s: ShippingState)
      modifies this`selectedState, this`priceInput, this`editDialogOpen
      ensures selectedState == Some(s) && priceInput == IntToString(s.price) && editDialogOpen
    {
      selectedState := Some(s);
      priceInput := IntToString(s.price);
      editDialogOpen := true;
    }

    /** The dialog's Cancel button. */
    method CancelEdit()
      modifies this`editDialogOpen, this`priceInput, this`selectedState
      ensures !editDialogOpen && priceInput == "" && selectedState == None
    {
      editDialogOpen := false;
      priceInput := "";
      selectedState := None;
    }

    /**
     * handleUpdatePrice: nothing without a selected state; a price that is
     * not a number or is negative is refused before any request; otherwise
     * the request is sent, and on success the dialog closes and the input and
     * the selection are cleared.
     */
    method HandleUpdatePrice(parsed: Parsed, serverAccepts: bool) returns (r: PriceOutcome)
      modifies this`editDialogOpen, this`priceInput, this`selectedState
      ensures old(selectedState).None? ==> r == NoSelection
      ensures old(selectedState).Some? && !ValidPrice(parsed) ==> r == InvalidPrice
      ensures old(selectedState).Some? && ValidPrice(parsed) ==>
        r == PriceSent(PriceRequest(OwnerId, old(selectedState).value.id, parsed.value))
      ensures r.PriceSent? && serverAccepts ==> !editDialogOpen && priceInput == "" && selectedState == None
      ensures !(r.PriceSent? && serverAccepts) ==>
        && editDialogOpen == old(editDialogOpen) && priceInput == old(priceInput) && selectedState == old(selectedState)
    {
      if selectedState.None? {
        return NoSelection;
      }
      if parsed.NaN? || parsed.value < 0.0 {
        return InvalidPrice;
      }
      r := PriceSent(PriceRequest(OwnerId, selectedState.value.id, parsed.value));
      if serverAccepts {
        editDialogOpen := false;
        priceInput := "";
        selectedState := None;
      }
    }

    /** The part handleBulkActivate and handleBulkDeactivate share: no request for an empty selection, a cleared selection after success. */
    method BulkSetAvailability(available: bool, serverAccepts: bool) returns (r: BulkOutcome)
      modifies this`rowSelection
      ensures SelectedIds(old(rowSelection)) == [] ==> r == EmptySelection
      ensures SelectedIds(old(rowSelection)) != [] ==> r == BulkSent(SelectedIds(old(rowSelection)), available)
      ensures r.BulkSent? && serverAccepts ==> rowSelection == []
      ensures !(r.BulkSent? && serverAccepts) ==> rowSelection == old(rowSelection)
    {
      var selectedIds := SelectedIds(rowSelection);
      if |selectedIds| == 0 {
        return EmptySelection;
      }
      r := BulkSent(selectedIds, available);
      if serverAccepts {
        rowSelection := [];
      }
    }

    method HandleBulkActivate(serverAccepts: bool) returns (r: BulkOutcome)
      modifies this`rowSelection
      ensures SelectedIds(old(rowSelection)) == [] ==> r == EmptySelection
      ensures SelectedIds(old(rowSelection)) != [] ==> r == BulkSent(SelectedIds(old(rowSelection)), true)
      ensures r.BulkSent? && serverAccepts ==> rowSelection == []
      ensures !(r.BulkSent? && serverAccepts) ==> rowSelection == old(rowSelection)
    {
      r := BulkSetAvailability(true, serverAccepts);
    }

    method HandleBulkDeactivate(serverAccepts: bool) returns (r: BulkOutcome)
      modifies this`rowSelection
      ensures SelectedIds(old(rowSelection)) == [] ==> r == EmptySelection
      ensures SelectedIds(old(rowSelection)) != [] ==> r == BulkSent(SelectedIds(old(rowSelection)), false)
      ensures r.BulkSent? && serverAccepts ==> rowSelection == []
      ensures !(r.BulkSent? && serverAccepts) ==> rowSelection == old(rowSelection)
    {
      r := BulkSetAvailability(false, serverAccepts);
    }
  }

  /** A selection whose flags are all cleared sends nothing, however many keys it holds. */
  method ClearedFlagsSendNothing(keys: seq<string>) returns (r: BulkOutcome)
    ensures r == EmptySelection
  {
    var page := new ShippingPage();
    page.rowSelection := seq(|keys|, k requires 0 <= k < |keys| => (keys[k], false));
    SelectedIdsEmpty(page.rowSelection);
    r := page.HandleBulkActivate(true);
  }

  /** A price of zero is accepted and sent as it is. */
  method ZeroPriceSent(s: ShippingState) returns (r: PriceOutcome)
    ensures r == PriceSent(PriceRequest(OwnerId, s.id, 0.0))
  {
    var page := new ShippingPage();
    page.OnEditPrice(s);
    r := page.HandleUpdatePrice(Finite(0.0), true);
  }
}
