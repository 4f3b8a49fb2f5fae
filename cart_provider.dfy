/** The client's shopping cart (client/src/app/cart/CartProvider.jsx): a list
    of lines, one per medicine, that `add`, `remove`, `setQty` and `clear`
    replace with a new list. Persisting the list in local storage is not
    part of this model. */
module CartProvider {
  import opened Common
  import opened Seqs

  /** A cart line as the pharmacy page adds it: the medicine, its name and
      price when added, and the quantity. */
  datatype CartItem = CartItem(medicineId: MedId, name: string, price: real, qty: int)

  /** `items.findIndex(x => x.medicineId === id)`. */
  function IndexOf(items: seq<CartItem>, id: MedId): (r: Option<nat>)
    ensures r.Some? ==> r.value < |items| && items[r.value].medicineId == id
    ensures r.Some? ==> forall j :: 0 <= j < r.value ==> items[j].medicineId != id
    ensures r.None? <==> forall j :: 0 <= j < |items| ==> items[j].medicineId != id
    decreases |items|
  {
    if items == [] then None
    else if items[0].medicineId == id then Some(0)
    else match IndexOf(items[1..], id)
      case None => None
      case Some(i) => Some(i + 1)
  }

  /** No two lines are for the same medicine. */
  predicate DistinctIds(items: seq<CartItem>)
  {
    forall i, j :: 0 <= i < j < |items| ==> items[i].medicineId != items[j].medicineId
  }

  /** `add(item, qty)`: a medicine already in the cart has that line's
      quantity raised by `qty` in place, keeping the line's own name and
      price; a new medicine is appended with quantity `qty`. */
  function Added(items: seq<CartItem>, item: CartItem, qty: int): (r: seq<CartItem>)
    ensures IndexOf(items, item.medicineId).Some? ==>
      var i := IndexOf(items, item.medicineId).value;
      |r| == |items| && r[i] == items[i].(qty := items[i].qty + qty) &&
      forall j :: 0 <= j < |items| && j != i ==> r[j] == items[j]
    ensures IndexOf(items, item.medicineId).None? ==> r == items + [item.(qty := qty)]
  {
    match IndexOf(items, item.medicineId)
    case Some(i) => items[i := items[i].(qty := items[i].qty + qty)]
    case None => items + [item.(qty := qty)]
  }

  /** Adding keeps the medicines of the cart distinct. */
  lemma AddKeepsDistinct(items: seq<CartItem>, item: CartItem, qty: int)
    requires DistinctIds(items)
    ensures DistinctIds(Added(items, item, qty))
  {
  }

  /** Adding the same medicine twice is one add of the summed quantity. */
  lemma AddTwice(items: seq<CartItem>, item: CartItem, a: int, b: int)
    ensures Added(Added(items, item, a), item, b) == Added(items, item, a + b)
  {
    var once := Added(items, item, a);
    if IndexOf(items, item.medicineId).None? {
      assert once[|items|].medicineId == item.medicineId;
      assert IndexOf(once, item.medicineId) == Some(|items|);
    } else {
      var i := IndexOf(items, item.medicineId).value;
      assert IndexOf(once, item.medicineId) == Some(i);
    }
  }

  /** `count()`: Σ qty. */
  function LinesCount(items: seq<CartItem>): int
    decreases |items|
  {
    if items == [] then 0 else LinesCount(items[..|items| - 1]) + items[|items| - 1].qty
  }

  /** `subtotal()`: Σ price × qty. */
  function LinesSubtotal(items: seq<CartItem>): real
    decreases |items|
  {
    if items == [] then 0.0
    else LinesSubtotal(items[..|items| - 1]) + items[|items| - 1].price * items[|items| - 1].qty as real
  }

  /** Replacing one line changes the sums by that line's difference. */
  lemma {:induction false} SumsUpdate(items: seq<CartItem>, i: nat, x: CartItem)
    requires i < |items|
    ensures LinesCount(items[i := x]) == LinesCount(items) - items[i].qty + x.qty
    ensures LinesSubtotal(items[i := x]) ==
      LinesSubtotal(items) - items[i].price * items[i].qty as real + x.price * x.qty as real
    decreases |items|
  {
    var n := |items| - 1;
    var u := items[i := x];
    assert u[..n] == if i == n then items[..n] else items[..n][i := x];
    if i < n {
      SumsUpdate(items[..n], i, x);
    }
  }

  lemma SumsAppend(items: seq<CartItem>, x: CartItem)
    ensures LinesCount(items + [x]) == LinesCount(items) + x.qty
    ensures LinesSubtotal(items + [x]) == LinesSubtotal(items) + x.price * x.qty as real
  {
    assert (items + [x])[..|items|] == items;
  }

  /** The price an added quantity is charged at: the line's own when the
      medicine is already in the cart, else the added item's. */
  function AddPrice(items: seq<CartItem>, item: CartItem): real
  {
    match IndexOf(items, item.medicineId)
    case Some(i) => items[i].price
    case None => item.price
  }

  /** Adding `qty` raises the count by `qty` and the subtotal by `qty` at
      the line's price. */
  lemma AddSums(items: seq<CartItem>, item: CartItem, qty: int)
    ensures LinesCount(Added(items, item, qty)) == LinesCount(items) + qty
    ensures LinesSubtotal(Added(items, item, qty)) == LinesSubtotal(items) + AddPrice(items, item) * qty as real
  {
    match IndexOf(items, item.medicineId)
    case Some(i) =>
      var x := items[i].(qty := items[i].qty + qty);
      assert Added(items, item, qty) == items[i := x];
      SumsUpdate(items, i, x);
      Distribute(items[i].price, items[i].qty, qty);
      assert AddPrice(items, item) == items[i].price;
    case None =>
      assert Added(items, item, qty) == items + [item.(qty := qty)];
      SumsAppend(items, item.(qty := qty));
  }

  lemma Distribute(p: real, a: int, b: int)
    ensures p * (a + b) as real == p * a as real + p * b as real
  {
    assert (a + b) as real == a as real + b as real;
  }

  /** The test `remove` filters with. */
  function OtherThan(id: MedId): CartItem -> bool
  {
    (x: CartItem) => x.medicineId != id
  }

  /** `remove(id)`: every line of that medicine goes; the rest keep their
      order. */
  function Without(items: seq<CartItem>, id: MedId): (r: seq<CartItem>)
    ensures forall x :: x in r <==> x in items && x.medicineId != id
    ensures IsSubsequence(r, items)
  {
    FilterIsSubsequence(items, OtherThan(id));
    Filter(items, OtherThan(id))
  }

  /** Removing a medicine just added for the first time gives back the
      cart as it was. */
  lemma RemoveAfterAdd(items: seq<CartItem>, item: CartItem, qty: int)
    requires IndexOf(items, item.medicineId).None?
    ensures Without(Added(items, item, qty), item.medicineId) == items
  {
    FilterAppend(items, item.(qty := qty), OtherThan(item.medicineId));
    FilterAll(items, OtherThan(item.medicineId));
  }

  /** `Math.max(1, qty)`. */
  function AtLeastOne(qty: int): (r: int)
    ensures r >= 1 && r >= qty && (qty >= 1 ==> r == qty)
  {
    if qty > 1 then qty else 1
  }

  /** `setQty(id, qty)`: the lines of that medicine get quantity
      `max(1, qty)`; every other line is unchanged. */
  function WithQty(items: seq<CartItem>, id: MedId, qty: int): (r: seq<CartItem>)
    ensures |r| == |items|
    ensures forall j :: 0 <= j < |items| ==>
      r[j] == if items[j].medicineId == id then items[j].(qty := AtLeastOne(qty)) else items[j]
  {
    seq(|items|, j requires 0 <= j < |items| =>
      if items[j].medicineId == id then items[j].(qty := AtLeastOne(qty)) else items[j])
  }

  /** Setting the quantity of a medicine not in the cart changes nothing,
      and with distinct lines it moves the count by the difference. */
  lemma WithQtySpec(items: seq<CartItem>, id: MedId, qty: int)
    ensures IndexOf(items, id).None? ==> WithQty(items, id, qty) == items
    ensures DistinctIds(WithQty(items, id, qty)) == DistinctIds(items)
    ensures DistinctIds(items) && IndexOf(items, id).Some? ==>
      var i := IndexOf(items, id).value;
      LinesCount(WithQty(items, id, qty)) == LinesCount(items) - items[i].qty + AtLeastOne(qty)
  {
    if DistinctIds(items) && IndexOf(items, id).Some? {
      var i := IndexOf(items, id).value;
      assert WithQty(items, id, qty) == items[i := items[i].(qty := AtLeastOne(qty))];
      SumsUpdate(items, i, items[i].(qty := AtLeastOne(qty)));
    }
  }

  /** The cart state: `items`, replaced as a whole by each operation. */
  class Cart {
    var items: seq<CartItem>

    /** The cart restored from storage (empty when nothing was stored). */
    constructor (saved: seq<CartItem>)
      ensures items == saved
    {
      items := saved;
    }

    method Add(item: CartItem, qty: int)
      modifies this
      ensures items == Added(old(items), item, qty)
    {
      var next := items;
      var idx := IndexOf(next, item.medicineId);
      if idx.Some? {
        next := next[idx.value := next[idx.value].(qty := next[idx.value].qty + qty)];
      } else {
        next := next + [item.(qty := qty)];
      }
      items := next;
    }

    method Remove(id: MedId)
      modifies this
      ensures items == Without(old(items), id)
    {
      items := Without(items, id);
    }

    method SetQty(id: MedId, qty: int)
      modifies this
      ensures items == WithQty(old(items), id, qty)
    {
      items := WithQty(items, id, qty);
    }

    method Clear()
      modifies this
      ensures items == []
    {
      items := [];
    }

    function Subtotal(): real
      reads this
    {
      LinesSubtotal(items)
    }

    function Count(): int
      reads this
    {
      LinesCount(items)
    }
  }
}
