/**
 * The current bill of App.tsx: the updater functions that `handleAddProduct`,
 * `handleUpdateQuantity` and `handleRemoveItem` pass to `setBillItems`, and the
 * totals memo. Every function here returns a new list, as the source does.
 */
module Ledger {
  import opened Wrappers
  import opened Types
  import Seqs

  /** 18% GST, applied to the whole subtotal (App.tsx:28). */
  const GST_RATE: real := 0.18

  /** The product ids that have a line in the bill. */
  function Ids(items: seq<BillItem>): set<int>
  {
    set i | 0 <= i < |items| :: items[i].Id()
  }

  /** At most one line per product id. */
  predicate Unique(items: seq<BillItem>)
  {
    forall i, j | 0 <= i < j < |items| :: items[i].Id() != items[j].Id()
  }

  /** Every line has a quantity of at least one. */
  predicate Positive(items: seq<BillItem>)
  {
    forall i | 0 <= i < |items| :: items[i].quantity >= 1
  }

  /** The shape every reachable bill has. */
  predicate WellFormed(items: seq<BillItem>)
  {
    Unique(items) && Positive(items)
  }

  /** `items.find(item => item.id === id)`: the first line with that id, if any. */
  function FindItem(items: seq<BillItem>, id: int): (r: Option<BillItem>)
    ensures r.None? <==> id !in Ids(items)
    ensures forall k | 0 <= k < |items| && items[k].Id() == id && (forall j | 0 <= j < k :: items[j].Id() != id) ::
      r == Some(items[k])
  {
    if items == [] then None
    else if items[0].Id() == id then Some(items[0])
    else
      assert Ids(items) == {items[0].Id()} + Ids(items[1..]) by {
        forall x | x in Ids(items) ensures x in {items[0].Id()} + Ids(items[1..]) {
          var i :| 0 <= i < |items| && items[i].Id() == x;
          if i > 0 { assert items[1..][i - 1] == items[i]; }
        }
      }
      var r := FindItem(items[1..], id);
      assert forall k | 1 <= k < |items| :: items[1..][k - 1] == items[k];
      r
  }

  /** The quantity the bill shows for a product id; zero when it has no line. */
  function QuantityOf(items: seq<BillItem>, id: int): int
  {
    match FindItem(items, id)
    case Some(it) => it.quantity
    case None => 0
  }

  /** The `map` of `handleAddProduct`: every line with that id gets one more. */
  function Increment(items: seq<BillItem>, id: int): (r: seq<BillItem>)
    ensures |r| == |items|
    ensures forall i | 0 <= i < |r| :: r[i].product == items[i].product
  {
    seq(|items|, i requires 0 <= i < |items| =>
      if items[i].Id() == id then items[i].(quantity := items[i].quantity + 1) else items[i])
  }

  /**
   * The updater of `handleAddProduct`: a product already on the bill has its
   * line incremented, any other is appended with quantity one.
   */
  function AddProduct(items: seq<BillItem>, p: Product): (r: seq<BillItem>)
    ensures Ids(r) == Ids(items) + {p.id}
    ensures |r| == if p.id in Ids(items) then |items| else |items| + 1
    ensures WellFormed(items) ==> WellFormed(r)
  {
    if FindItem(items, p.id).Some? then
      var r := Increment(items, p.id);
      assert forall i | 0 <= i < |r| :: r[i].Id() == items[i].Id();
      r
    else
      var r := items + [BillItem(p, 1)];
      assert forall i | 0 <= i < |items| :: r[i] == items[i];
      assert r[|items|].Id() == p.id;
      r
  }

  /** The `map` of `handleUpdateQuantity`: every line with that id gets quantity `q`. */
  function SetQuantity(items: seq<BillItem>, id: int, q: int): (r: seq<BillItem>)
    ensures |r| == |items|
    ensures forall i | 0 <= i < |r| :: r[i].product == items[i].product
    ensures Ids(r) == Ids(items)
    ensures Unique(items) ==> Unique(r)
    ensures q >= 1 && Positive(items) ==> Positive(r)
  {
    var r := seq(|items|, i requires 0 <= i < |items| =>
      if items[i].Id() == id then items[i].(quantity := q) else items[i]);
    assert forall i | 0 <= i < |r| :: r[i].Id() == items[i].Id();
    r
  }

  /** The predicate of `handleRemoveItem`'s `filter`: the line is not for `id`. */
  function NotFor(id: int): BillItem -> bool
  {
    (it: BillItem) => it.Id() != id
  }

  /** The `filter` of `handleRemoveItem`: drop every line with that id. */
  function Remove(items: seq<BillItem>, id: int): (r: seq<BillItem>)
    ensures |r| <= |items|
    ensures Ids(r) == Ids(items) - {id}
  {
    var r := Seqs.Filter(items, NotFor(id));
    forall x | x in Ids(r) ensures x in Ids(items) - {id} {
      var i :| 0 <= i < |r| && r[i].Id() == x;
      Seqs.FilterMembers(items, NotFor(id), r[i]);
      var j :| 0 <= j < |items| && items[j] == r[i];
    }
    forall x | x in Ids(items) - {id} ensures x in Ids(r) {
      var j :| 0 <= j < |items| && items[j].Id() == x;
      Seqs.FilterMembers(items, NotFor(id), items[j]);
      var i :| 0 <= i < |r| && r[i] == items[j];
    }
    r
  }

  /** The reduction `billItems.reduce((acc, item) => acc + item.price * item.quantity, 0)`. */
  function Subtotal(items: seq<BillItem>): (r: real)
    ensures NonNegative(items) ==> r >= 0.0
  {
    if items == [] then 0.0
    else
      LastNonNegative(items);
      Subtotal(items[..|items| - 1]) + items[|items| - 1].Amount()
  }

  /** Dropping the last line keeps prices and quantities non-negative, and that line's amount is too. */
  lemma {:induction false} LastNonNegative(items: seq<BillItem>)
    requires items != []
    ensures NonNegative(items) ==> NonNegative(items[..|items| - 1]) && items[|items| - 1].Amount() >= 0.0
  {
    var n := |items| - 1;
    if NonNegative(items) {
      forall i | 0 <= i < n ensures items[..n][i] == items[i] { }
      MulNonNegative(items[n].product.price, items[n].quantity as real);
    }
  }

  datatype Totals = Totals(subtotal: real, gstAmount: real, total: real)

  /** Prices and quantities are never negative. */
  predicate NonNegative(items: seq<BillItem>)
  {
    forall i | 0 <= i < |items| :: items[i].product.price >= 0.0 && items[i].quantity >= 0
  }

  /** The totals memo: recomputed from the items alone, so it is never stale. */
  function ComputeTotals(items: seq<BillItem>): (t: Totals)
    ensures t.subtotal == Subtotal(items)
    ensures t.total == t.subtotal + t.gstAmount && t.gstAmount == t.subtotal * GST_RATE
    ensures NonNegative(items) ==> 0.0 <= t.subtotal && 0.0 <= t.gstAmount && t.subtotal <= t.total
  {
    var subtotal := Subtotal(items);
    var gstAmount := subtotal * GST_RATE;
    Totals(subtotal, gstAmount, subtotal + gstAmount)
  }

  /** One more unit adds one price to a line amount. */
  lemma {:induction false} OneMore(it: BillItem)
    ensures it.(quantity := it.quantity + 1).Amount() == it.Amount() + it.product.price
  {
    assert (it.quantity + 1) as real == it.quantity as real + 1.0;
  }

  lemma {:induction false} MulNonNegative(a: real, b: real)
    requires a >= 0.0 && b >= 0.0
    ensures a * b >= 0.0
  {
  }

  // ----- what each updater does to one line and to the rest -----

  /** Under uniqueness the `map` of `handleAddProduct` touches exactly line `k`. */
  lemma {:induction false} IncrementAt(items: seq<BillItem>, k: int)
    requires Unique(items) && 0 <= k < |items|
    ensures Increment(items, items[k].Id()) == items[k := items[k].(quantity := items[k].quantity + 1)]
  {
  }

  /**
   * Adding a product already on the bill adds one to its line and changes
   * nothing else (length, order, other lines); a new product is appended with
   * quantity one.
   */
  lemma {:induction false} AddProductEffect(items: seq<BillItem>, p: Product)
    requires Unique(items)
    ensures forall k | 0 <= k < |items| && items[k].Id() == p.id ::
      AddProduct(items, p) == items[k := items[k].(quantity := items[k].quantity + 1)]
    ensures p.id !in Ids(items) ==> AddProduct(items, p) == items + [BillItem(p, 1)]
  {
    forall k | 0 <= k < |items| && items[k].Id() == p.id
      ensures AddProduct(items, p) == items[k := items[k].(quantity := items[k].quantity + 1)]
    {
      assert p.id in Ids(items);
      IncrementAt(items, k);
    }
  }

  /**
   * With a positive quantity, `handleUpdateQuantity` sets line `k` and keeps
   * every other line and the order; an id with no line leaves the bill as is.
   */
  lemma {:induction false} SetQuantityEffect(items: seq<BillItem>, id: int, q: int)
    ensures Unique(items) ==> forall k | 0 <= k < |items| && items[k].Id() == id ::
      SetQuantity(items, id, q) == items[k := items[k].(quantity := q)]
    ensures id !in Ids(items) ==> SetQuantity(items, id, q) == items
  {
    if id !in Ids(items) {
      assert forall i | 0 <= i < |items| :: items[i].Id() != id;
    }
  }

  /** Removing an id that has no line leaves the bill as it is. */
  lemma {:induction false} RemoveAbsent(items: seq<BillItem>, id: int)
    requires id !in Ids(items)
    ensures Remove(items, id) == items
  {
    assert forall i | 0 <= i < |items| :: NotFor(id)(items[i]);
    Seqs.FilterKeepsAll(items, NotFor(id));
  }

  /**
   * `handleRemoveItem` on a bill with one line per id deletes exactly line `k`;
   * the lines before and after it keep their order.
   */
  lemma {:induction false} RemoveAt(items: seq<BillItem>, k: int)
    requires Unique(items) && 0 <= k < |items|
    ensures Remove(items, items[k].Id()) == items[..k] + items[k + 1..]
  {
    var keep := NotFor(items[k].Id());
    assert items == items[..k] + [items[k]] + items[k + 1..];
    assert forall i | 0 <= i < |items[..k]| :: keep(items[..k][i]) by {
      forall i | 0 <= i < k ensures keep(items[..k][i]) { assert items[..k][i] == items[i]; }
    }
    var after := items[k + 1..];
    assert forall i | 0 <= i < |after| :: keep(after[i]) by {
      forall i | 0 <= i < |after| ensures keep(after[i]) { assert after[i] == items[k + 1 + i]; }
    }
    Seqs.FilterDropsOne(items[..k], items[k], items[k + 1..], keep);
  }

  /**
   * Removal in general, with or without uniqueness: the result is the bill in
   * its order with every copy of every line of that id gone and every other
   * line kept with its multiplicity.
   */
  lemma {:induction false} RemoveKeepsOthers(items: seq<BillItem>, id: int)
    ensures Seqs.IsSubsequence(Remove(items, id), items)
    ensures forall it: BillItem :: multiset(Remove(items, id))[it] == if it.Id() != id then multiset(items)[it] else 0
  {
    var keep := NotFor(id);
    Seqs.FilterIsSubsequence(items, keep);
    forall it: BillItem ensures multiset(Remove(items, id))[it] == if it.Id() != id then multiset(items)[it] else 0 {
      Seqs.FilterMultiplicity(items, keep, it);
    }
  }

  /** Removing lines never breaks the shape of a bill. */
  lemma {:induction false} RemoveWellFormed(items: seq<BillItem>, id: int)
    requires WellFormed(items)
    ensures WellFormed(Remove(items, id))
  {
    if id !in Ids(items) {
      RemoveAbsent(items, id);
    } else {
      var k :| 0 <= k < |items| && items[k].Id() == id;
      RemoveAt(items, k);
      var r := items[..k] + items[k + 1..];
      assert forall i | 0 <= i < |r| :: r[i] == if i < k then items[i] else items[i + 1];
    }
  }

  // ----- totals -----

  lemma {:induction false} SubtotalConcat(a: seq<BillItem>, b: seq<BillItem>)
    ensures Subtotal(a + b) == Subtotal(a) + Subtotal(b)
  {
    if b == [] {
      assert a + b == a;
    } else {
      var n := |b| - 1;
      assert (a + b)[..|a + b| - 1] == a + b[..n];
      assert (a + b)[|a + b| - 1] == b[n];
      SubtotalConcat(a, b[..n]);
    }
  }

  /** Changing one line changes the subtotal by the change in that line's amount. */
  lemma {:induction false} SubtotalUpdate(items: seq<BillItem>, k: int, x: BillItem)
    requires 0 <= k < |items|
    ensures Subtotal(items[k := x]) == Subtotal(items) - items[k].Amount() + x.Amount()
  {
    var before, after := items[..k], items[k + 1..];
    assert items == before + [items[k]] + after;
    assert items[k := x] == before + [x] + after;
    SubtotalConcat(before + [items[k]], after);
    SubtotalConcat(before + [x], after);
    SubtotalConcat(before, [items[k]]);
    SubtotalConcat(before, [x]);
    assert [x][..0] == [] && [items[k]][..0] == [];
  }

  /**
   * Adding a product raises the subtotal by one unit price: the price stored
   * on its existing line, or the catalog price for a new line.
   */
  lemma {:induction false} SubtotalAfterAdd(items: seq<BillItem>, p: Product)
    requires Unique(items)
    ensures Subtotal(AddProduct(items, p)) == Subtotal(items) + match FindItem(items, p.id)
      case Some(it) => it.product.price
      case None => p.price
  {
    AddProductEffect(items, p);
    if p.id in Ids(items) {
      var k :| 0 <= k < |items| && items[k].Id() == p.id;
      var it := items[k];
      var bumped := it.(quantity := it.quantity + 1);
      assert FindItem(items, p.id) == Some(it);
      assert AddProduct(items, p) == items[k := bumped];
      SubtotalUpdate(items, k, bumped);
      OneMore(it);
      assert Subtotal(AddProduct(items, p)) == Subtotal(items) + it.product.price;
    } else {
      assert FindItem(items, p.id) == None;
      assert AddProduct(items, p) == items + [BillItem(p, 1)];
      SubtotalConcat(items, [BillItem(p, 1)]);
      assert [BillItem(p, 1)][..0] == [];
      assert Subtotal([BillItem(p, 1)]) == p.price;
    }
  }

  /** Setting line `k` to a new quantity changes the subtotal by its price times the difference. */
  lemma {:induction false} SubtotalAfterSetQuantity(items: seq<BillItem>, k: int, q: int)
    requires Unique(items) && 0 <= k < |items|
    ensures Subtotal(SetQuantity(items, items[k].Id(), q))
         == Subtotal(items) + items[k].product.price * (q - items[k].quantity) as real
  {
    var x := items[k].(quantity := q);
    assert SetQuantity(items, items[k].Id(), q) == items[k := x] by {
      SetQuantityEffect(items, items[k].Id(), q);
    }
    assert Subtotal(items[k := x]) == Subtotal(items) - items[k].Amount() + x.Amount() by {
      SubtotalUpdate(items, k, x);
    }
    assert x.Amount() - items[k].Amount() == items[k].product.price * (q - items[k].quantity) as real by {
      NewQuantity(items[k], q);
    }
  }

  lemma {:induction false} NewQuantity(it: BillItem, q: int)
    ensures it.(quantity := q).Amount() - it.Amount() == it.product.price * (q - it.quantity) as real
  {
    assert (q - it.quantity) as real == q as real - it.quantity as real;
  }

  /** Removing line `k` lowers the subtotal by exactly that line's amount. */
  lemma {:induction false} SubtotalAfterRemove(items: seq<BillItem>, k: int)
    requires Unique(items) && 0 <= k < |items|
    ensures Subtotal(Remove(items, items[k].Id())) == Subtotal(items) - items[k].Amount()
  {
    RemoveAt(items, k);
    assert items == items[..k] + [items[k]] + items[k + 1..];
    SubtotalConcat(items[..k] + [items[k]], items[k + 1..]);
    SubtotalConcat(items[..k], [items[k]]);
    SubtotalConcat(items[..k], items[k + 1..]);
    assert [items[k]][..0] == [];
  }

  // ----- repeated adds -----

  /** Under uniqueness the quantity shown for a line's id is that line's quantity. */
  lemma {:induction false} QuantityAt(items: seq<BillItem>, k: int)
    requires Unique(items) && 0 <= k < |items|
    ensures QuantityOf(items, items[k].Id()) == items[k].quantity
  {
  }

  /** One add of `p` raises the quantity shown for `p.id` by one and no other. */
  lemma {:induction false} AddQuantity(items: seq<BillItem>, p: Product, id: int)
    requires Unique(items)
    ensures QuantityOf(AddProduct(items, p), id) == QuantityOf(items, id) + if id == p.id then 1 else 0
  {
    var r := AddProduct(items, p);
    AddProductEffect(items, p);
    if id in Ids(items) {
      var k :| 0 <= k < |items| && items[k].Id() == id;
      QuantityAt(items, k);
      if p.id in Ids(items) {
        var j :| 0 <= j < |items| && items[j].Id() == p.id;
        assert r == items[j := items[j].(quantity := items[j].quantity + 1)];
      } else {
        assert r[k] == items[k];
      }
      QuantityAt(r, k);
    } else if id == p.id {
      assert r[|items|] == BillItem(p, 1);
      QuantityAt(r, |items|);
    } else {
      assert id !in Ids(r);
    }
  }

  /** The bill after the products `ps` have been added one by one. */
  ghost function AddAll(items: seq<BillItem>, ps: seq<Product>): seq<BillItem>
    decreases |ps|
  {
    if ps == [] then items else AddAll(AddProduct(items, ps[0]), ps[1..])
  }

  /** How many of `ps` have the id `id`. */
  function CountId(ps: seq<Product>, id: int): nat
  {
    if ps == [] then 0 else (if ps[0].id == id then 1 else 0) + CountId(ps[1..], id)
  }

  /**
   * Any run of adds keeps one line per product, and each product's quantity
   * grows by the number of times it was added.
   */
  lemma {:induction false} AddAllCounts(items: seq<BillItem>, ps: seq<Product>, id: int)
    requires WellFormed(items)
    ensures WellFormed(AddAll(items, ps))
    ensures QuantityOf(AddAll(items, ps), id) == QuantityOf(items, id) + CountId(ps, id)
    decreases |ps|
  {
    if ps != [] {
      AddQuantity(items, ps[0], id);
      AddAllCounts(AddProduct(items, ps[0]), ps[1..], id);
    }
  }
}
