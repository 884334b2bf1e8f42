/**
 * The saved-bill archive of App.tsx: a most-recent-first list of snapshots,
 * searched by `handleLoadBill` and filtered by `handleDeleteBill`.
 */
module Archive {
  import opened Wrappers
  import opened Types
  import Ledger
  import Seqs

  /** `savedBills.find(bill => bill.id === id)`: the first (most recent) bill with that id. */
  function FindBill(bills: seq<SavedBill>, id: int): (r: Option<SavedBill>)
    ensures r.None? <==> forall i | 0 <= i < |bills| :: bills[i].id != id
    ensures r.Some? ==> r.value in bills && r.value.id == id
    ensures forall k | 0 <= k < |bills| && bills[k].id == id && (forall j | 0 <= j < k :: bills[j].id != id) ::
      r == Some(bills[k])
  {
    if bills == [] then None
    else if bills[0].id == id then Some(bills[0])
    else
      var r := FindBill(bills[1..], id);
      assert forall k | 1 <= k < |bills| :: bills[1..][k - 1] == bills[k];
      r
  }

  /** The predicate of `handleDeleteBill`'s `filter`: the bill does not have id `id`. */
  function NotWithId(id: int): SavedBill -> bool
  {
    (b: SavedBill) => b.id != id
  }

  /** `savedBills.filter(bill => bill.id !== id)`. */
  function DeleteBill(bills: seq<SavedBill>, id: int): (r: seq<SavedBill>)
    ensures |r| <= |bills|
    ensures forall i | 0 <= i < |r| :: r[i].id != id
  {
    Seqs.Filter(bills, NotWithId(id))
  }

  /**
   * Deleting keeps every other bill, each as often as before, in the same
   * order, and no bill with that id.
   */
  lemma {:induction false} DeleteKeepsOthers(bills: seq<SavedBill>, id: int)
    ensures Seqs.IsSubsequence(DeleteBill(bills, id), bills)
    ensures forall b: SavedBill :: multiset(DeleteBill(bills, id))[b] == if b.id != id then multiset(bills)[b] else 0
  {
    Seqs.FilterIsSubsequence(bills, NotWithId(id));
    forall b: SavedBill ensures multiset(DeleteBill(bills, id))[b] == if b.id != id then multiset(bills)[b] else 0 {
      Seqs.FilterMultiplicity(bills, NotWithId(id), b);
    }
  }

  /** Deleting an id that no bill has leaves the archive as it is. */
  lemma {:induction false} DeleteAbsent(bills: seq<SavedBill>, id: int)
    requires forall i | 0 <= i < |bills| :: bills[i].id != id
    ensures DeleteBill(bills, id) == bills
  {
    Seqs.FilterKeepsAll(bills, NotWithId(id));
  }

  /**
   * After a delete, loading that id finds nothing, and loading any other id
   * finds the same bill as before.
   */
  lemma {:induction false} FindAfterDelete(bills: seq<SavedBill>, id: int, other: int)
    ensures FindBill(DeleteBill(bills, id), other) == if other == id then None else FindBill(bills, other)
  {
    if bills != [] {
      FindAfterDelete(bills[1..], id, other);
      if bills[0].id != id {
        assert DeleteBill(bills, id) == [bills[0]] + DeleteBill(bills[1..], id);
        assert ([bills[0]] + DeleteBill(bills[1..], id))[1..] == DeleteBill(bills[1..], id);
      } else {
        assert DeleteBill(bills, id) == DeleteBill(bills[1..], id);
      }
    }
  }

  /** The totals recorded on a saved bill are the totals of its items. */
  predicate Consistent(b: SavedBill)
  {
    var t := Ledger.ComputeTotals(b.items);
    b.subtotal == t.subtotal && b.gstAmount == t.gstAmount && b.total == t.total
  }

  /** The record `handleSaveBill` builds from the current items and totals memo. */
  function Snapshot(id: int, date: string, items: seq<BillItem>): (b: SavedBill)
    ensures b.id == id && b.date == date && b.items == items
    ensures Consistent(b)
    ensures Ledger.NonNegative(items) ==> 0.0 <= b.subtotal <= b.total
  {
    var t := Ledger.ComputeTotals(items);
    SavedBill(id, date, items, t.subtotal, t.gstAmount, t.total)
  }
}
