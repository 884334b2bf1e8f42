/**
 * The state of the App component: the current bill, the saved-bill archive and
 * the localStorage slot that mirrors the archive. Each handler that calls a
 * state setter is a method that replaces the fields; the totals memo is read
 * from the current items on every call, so it cannot go stale.
 */
module PointOfSale {
  import opened Wrappers
  import opened Types
  import Ledger
  import Archive
  import Seqs

  class App {
    var billItems: seq<BillItem>
    var savedBills: seq<SavedBill>
    /** The list last written to the slot SAVED_BILLS_KEY. */
    ghost var stored: seq<SavedBill>

    /** Every bill, current or saved, has one line per product and positive quantities. */
    ghost predicate Valid()
      reads this
    {
      && Ledger.WellFormed(billItems)
      && forall i | 0 <= i < |savedBills| :: Ledger.WellFormed(savedBills[i].items)
    }

    /**
     * The first render: an empty bill, and the archive read back from storage
     * (`persisted`; an empty list when the slot is missing or unreadable).
     */
    constructor (persisted: seq<SavedBill>)
      ensures billItems == [] && savedBills == persisted && stored == persisted
      ensures Valid() <==> forall i | 0 <= i < |persisted| :: Ledger.WellFormed(persisted[i].items)
    {
      billItems := [];
      savedBills := persisted;
      stored := persisted;
    }

    /** The `{ subtotal, gstAmount, total }` memo. */
    function Totals(): (t: Ledger.Totals)
      reads this
      ensures t.subtotal == Ledger.Subtotal(billItems)
      ensures t.gstAmount == t.subtotal * Ledger.GST_RATE && t.total == t.subtotal + t.gstAmount
      ensures Ledger.NonNegative(billItems) ==> 0.0 <= t.subtotal <= t.total
    {
      Ledger.ComputeTotals(billItems)
    }

    method AddProduct(p: Product)
      modifies this
      ensures billItems == Ledger.AddProduct(old(billItems), p)
      ensures savedBills == old(savedBills) && stored == old(stored)
      ensures old(Valid()) ==> Valid()
    {
      billItems := Ledger.AddProduct(billItems, p);
    }

    method RemoveItem(id: int)
      modifies this
      ensures billItems == Ledger.Remove(old(billItems), id)
      ensures Ledger.Ids(billItems) == Ledger.Ids(old(billItems)) - {id}
      ensures savedBills == old(savedBills) && stored == old(stored)
      ensures old(Valid()) ==> Valid()
    {
      if Ledger.WellFormed(billItems) {
        Ledger.RemoveWellFormed(billItems, id);
      }
      billItems := Ledger.Remove(billItems, id);
    }

    /**
     * A quantity of zero or less removes the line, exactly as `RemoveItem`
     * does; a positive quantity replaces it and keeps every line on the bill.
     */
    method UpdateQuantity(id: int, q: int)
      modifies this
      ensures q <= 0 ==> billItems == Ledger.Remove(old(billItems), id)
      ensures q > 0 ==> billItems == Ledger.SetQuantity(old(billItems), id, q)
      ensures q > 0 ==> Ledger.Ids(billItems) == Ledger.Ids(old(billItems))
      ensures savedBills == old(savedBills) && stored == old(stored)
      ensures old(Valid()) ==> Valid()
    {
      if q <= 0 {
        RemoveItem(id);
      } else {
        billItems := Ledger.SetQuantity(billItems, id, q);
      }
    }

    method ClearBill()
      modifies this
      ensures billItems == []
      ensures savedBills == old(savedBills) && stored == old(stored)
      ensures old(Valid()) ==> Valid()
    {
      billItems := [];
    }

    /**
     * Archive the current bill under `id` (the source takes `Date.now()`) and
     * `date`, write the archive to storage, then start a new bill. An empty
     * bill is not saved.
     */
    method SaveBill(id: int, date: string)
      modifies this
      ensures old(billItems) == [] ==>
        billItems == old(billItems) && savedBills == old(savedBills) && stored == old(stored)
      ensures old(billItems) != [] ==>
        && savedBills == [Archive.Snapshot(id, date, old(billItems))] + old(savedBills)
        && savedBills[0].subtotal == old(Totals()).subtotal
        && savedBills[0].gstAmount == old(Totals()).gstAmount
        && savedBills[0].total == old(Totals()).total
        && stored == savedBills
        && billItems == []
      ensures old(Valid()) ==> Valid()
    {
      if |billItems| == 0 {
        return;
      }
      var t := Totals();
      var saved := SavedBill(id, date, billItems, t.subtotal, t.gstAmount, t.total);
      var updated := [saved] + savedBills;
      savedBills := updated;
      stored := updated;
      ClearBill();
    }

    /** Replace the items with those of the first saved bill with that id, if there is one. */
    method LoadBill(id: int)
      modifies this
      ensures billItems == match Archive.FindBill(old(savedBills), id)
        case Some(b) => b.items
        case None => old(billItems)
      ensures savedBills == old(savedBills) && stored == old(stored)
      ensures old(Valid()) ==> Valid()
    {
      var found := Archive.FindBill(savedBills, id);
      if found.Some? {
        billItems := found.value.items;
      }
    }

    /** Drop every saved bill with that id and write the archive to storage. */
    method DeleteBill(id: int)
      modifies this
      ensures savedBills == Archive.DeleteBill(old(savedBills), id)
      ensures stored == savedBills
      ensures billItems == old(billItems)
      ensures old(Valid()) ==> Valid()
    {
      var updated := Archive.DeleteBill(savedBills, id);
      forall i | 0 <= i < |updated| ensures updated[i] in savedBills {
        Seqs.FilterMembers(savedBills, Archive.NotWithId(id), updated[i]);
      }
      savedBills := updated;
      stored := updated;
    }

    /** Logging out clears the bill; the archive stays. */
    method Logout()
      modifies this
      ensures billItems == []
      ensures savedBills == old(savedBills) && stored == old(stored)
      ensures old(Valid()) ==> Valid()
    {
      ClearBill();
    }
  }

  /**
   * Saving a non-empty bill and loading it back restores its items and its
   * totals, whatever the archive held before and whatever id was used.
   */
  method SaveThenLoad(app: App, id: int, date: string)
    requires app.billItems != []
    modifies app
    ensures app.billItems == old(app.billItems)
    ensures app.Totals() == old(app.Totals())
    ensures app.savedBills == [Archive.Snapshot(id, date, old(app.billItems))] + old(app.savedBills)
    ensures app.stored == app.savedBills
  {
    app.SaveBill(id, date);
    app.LoadBill(id);
  }

  /** Deleting a bill and then loading its id leaves the current bill untouched. */
  method DeleteThenLoad(app: App, id: int)
    modifies app
    ensures app.billItems == old(app.billItems)
    ensures forall i | 0 <= i < |app.savedBills| :: app.savedBills[i].id != id
  {
    app.DeleteBill(id);
    Archive.FindAfterDelete(old(app.savedBills), id, id);
    app.LoadBill(id);
  }
}
