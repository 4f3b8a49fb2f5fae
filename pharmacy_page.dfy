/** The pharmacy page (client/src/pages/user/PharmacyPage.jsx): the listing
    request it sends, its page count and Prev/Next buttons, and the stock
    gating of its Add, "+" and "−" buttons on the cart. */
module PharmacyPage {
  import opened Common
  import opened Text
  import opened MedicineModel
  import opened CartProvider
  import Medicines

  const PageSize: nat := 12

  // ---------------------------------------------------------------------------
  // Paging

  /** `Math.max(1, Math.ceil(total / 12))`: the fewest pages of 12 that hold
      `total` items, and at least one. */
  function PageCount(total: nat): (r: nat)
    ensures r >= 1 && total <= r * PageSize
    ensures r == 1 || (r - 1) * PageSize < total
  {
    var c := (total + PageSize - 1) / PageSize;
    if c > 1 then c else 1
  }

  /** Prev: `Math.max(1, p - 1)`. */
  function PrevPage(page: int): (r: int)
    ensures r >= 1 && r <= (if page > 1 then page else 1)
    ensures page > 1 ==> r == page - 1
  {
    if page - 1 > 1 then page - 1 else 1
  }

  /** Next: `Math.min(pages, p + 1)`. */
  function NextPage(page: int, pages: int): (r: int)
    ensures r <= pages && r <= page + 1
    ensures page < pages ==> r == page + 1
  {
    if page + 1 < pages then page + 1 else pages
  }

  /** Starting on a page that exists, Prev and Next stay on pages that
      exist. */
  lemma PagingStaysInRange(page: int, total: nat)
    requires 1 <= page <= PageCount(total)
    ensures 1 <= PrevPage(page) <= PageCount(total)
    ensures 1 <= NextPage(page, PageCount(total)) <= PageCount(total)
  {
  }

  // ---------------------------------------------------------------------------
  // The listing request

  /** What the page's controls hold. */
  datatype Controls = Controls(q: string, category: string, page: nat)

  /** Typing in the search box resets the page to 1. */
  function EditSearch(c: Controls, text: string): (r: Controls)
    ensures r.q == text && r.page == 1 && r.category == c.category
  {
    c.(q := text, page := 1)
  }

  /** A query-string parameter. */
  datatype Param = Param(key: string, value: string)

  /** The parameters of the listing request: always `page` and `limit` 12;
      `q` trimmed and only when not blank; `category` only when it is set
      and not "All". */
  function QueryParams(c: Controls): (r: seq<Param>)
    ensures |r| >= 2 && r[0] == Param("page", NatToString(c.page)) && r[1] == Param("limit", "12")
  {
    [Param("page", NatToString(c.page)), Param("limit", "12")] +
    (if Trim(c.q) != "" then [Param("q", Trim(c.q))] else []) +
    (if c.category != "" && c.category != "All" then [Param("category", c.category)] else [])
  }

  /** `URLSearchParams.get(key)`: the first value under `key`. */
  function Lookup(params: seq<Param>, key: string): (r: Option<string>)
    ensures r.Some? ==> Param(key, r.value) in params
    ensures r.None? ==> forall i :: 0 <= i < |params| ==> params[i].key != key
    decreases |params|
  {
    if params == [] then None
    else if params[0].key == key then Some(params[0].value)
    else Lookup(params[1..], key)
  }

  /** The listing query the server reads from those parameters (the page
      and limit coerced back to numbers). */
  function ServerQuery(c: Controls): Medicines.ListQuery
  {
    var ps := QueryParams(c);
    Medicines.ListQuery(Lookup(ps, "q"), Lookup(ps, "category"),
      Some(DigitsValue(NatToString(c.page))), Some(12))
  }

  lemma {:induction false} LookupAppend(a: seq<Param>, b: seq<Param>, key: string)
    ensures Lookup(a + b, key) == if Lookup(a, key).Some? then Lookup(a, key) else Lookup(b, key)
    decreases |a|
  {
    if a == [] {
      assert a + b == b;
    } else {
      assert (a + b)[1..] == a[1..] + b;
      LookupAppend(a[1..], b, key);
    }
  }

  /** Reading the parameters back gives the trimmed search text when it is
      not blank, and the category when it is set and not "All". */
  lemma LookupParams(c: Controls)
    ensures Lookup(QueryParams(c), "q") == if Trim(c.q) != "" then Some(Trim(c.q)) else None
    ensures Lookup(QueryParams(c), "category") ==
      if c.category != "" && c.category != "All" then Some(c.category) else None
  {
    var head := [Param("page", NatToString(c.page)), Param("limit", "12")];
    var qs := if Trim(c.q) != "" then [Param("q", Trim(c.q))] else [];
    var cs := if c.category != "" && c.category != "All" then [Param("category", c.category)] else [];
    assert QueryParams(c) == head + (qs + cs);
    LookupAppend(head, qs + cs, "q");
    LookupAppend(head, qs + cs, "category");
    LookupAppend(qs, cs, "q");
    LookupAppend(qs, cs, "category");
  }

  /** The request always passes the server's query schema once the page is
      at least 1, with that page and 12 per page. */
  lemma RequestIsValid(c: Controls)
    requires c.page >= 1
    ensures Medicines.ListQueryValid(ServerQuery(c))
    ensures Medicines.PageOf(ServerQuery(c)) == c.page && Medicines.LimitOf(ServerQuery(c)) == 12
  {
    NatToStringValue(c.page);
  }

  /** The request filters exactly as the controls say: no category filter
      for "All", and no text filter for a blank search. */
  lemma RequestMeansControls(c: Controls, m: Medicine)
    ensures Medicines.ListMatches(m, ServerQuery(c)) <==>
      (c.category == "" || c.category == "All" || m.category == c.category) &&
      (Trim(c.q) == "" ||
       ContainsIgnoreCase(m.name, Trim(c.q)) || ContainsIgnoreCase(m.description, Trim(c.q)) ||
       ContainsIgnoreCase(m.category, Trim(c.q)))
  {
    LookupParams(c);
  }

  // ---------------------------------------------------------------------------
  // The cart buttons on a medicine card

  /** The quantity of a medicine in the cart: its line's, or 0. */
  function QtyInCart(items: seq<CartItem>, id: MedId): (r: int)
    ensures IndexOf(items, id).None? ==> r == 0
    ensures IndexOf(items, id).Some? ==> r == items[IndexOf(items, id).value].qty
  {
    match IndexOf(items, id)
    case Some(i) => items[i].qty
    case None => 0
  }

  /** The line a card adds: the medicine's id, name and price. */
  function ItemOf(m: Medicine): CartItem
  {
    CartItem(m.id, m.name, m.price, 0)
  }

  datatype Button = AddButton | MinusButton | PlusButton

  /** The card shows Add while the medicine is not in the cart, and "−" and
      "+" once it is. */
  predicate Shown(items: seq<CartItem>, m: Medicine, b: Button)
  {
    (b == AddButton) == (QtyInCart(items, m.id) == 0)
  }

  /** A press: Add refuses a medicine out of stock, "+" refuses going past
      the stock, "−" removes the line at quantity 1 and otherwise lowers it
      by one. The second component is the error toast, if any. An accepted
      Add or "+" raises the medicine's quantity by one, and "−" lowers it by
      one or takes it out of the cart. */
  function Press(items: seq<CartItem>, m: Medicine, b: Button): (r: (seq<CartItem>, Option<string>))
    ensures r.1.Some? ==> r.0 == items
    ensures b == AddButton ==> (r.1.Some? <==> m.stock <= 0)
    ensures b == PlusButton ==> (r.1.Some? <==> QtyInCart(items, m.id) + 1 > m.stock)
    ensures b == MinusButton ==> r.1.None?
    ensures r.1.None? && b != MinusButton ==> QtyInCart(r.0, m.id) == QtyInCart(items, m.id) + 1
    ensures b == MinusButton ==>
      QtyInCart(r.0, m.id) == (if QtyInCart(items, m.id) <= 1 then 0 else QtyInCart(items, m.id) - 1)
  {
    var qty := QtyInCart(items, m.id);
    match b
    case AddButton =>
      if m.stock <= 0 then (items, Some("Out of stock"))
      else AddedQty(items, ItemOf(m), 1); (Added(items, ItemOf(m), 1), None)
    case MinusButton =>
      if qty <= 1 then WithoutLeavesNone(items, m.id); (Without(items, m.id), None)
      else WithQtyQty(items, m.id, qty - 1); (WithQty(items, m.id, qty - 1), None)
    case PlusButton =>
      if qty + 1 > m.stock then (items, Some("Not enough stock"))
      else AddedQty(items, ItemOf(m), 1); (Added(items, ItemOf(m), 1), None)
  }

  /** `add` raises the medicine's quantity by `qty`, whether it had a line
      or not. */
  lemma AddedQty(items: seq<CartItem>, item: CartItem, qty: int)
    ensures QtyInCart(Added(items, item, qty), item.medicineId) == QtyInCart(items, item.medicineId) + qty
  {
    var r := Added(items, item, qty);
    if IndexOf(items, item.medicineId).Some? {
      IndexOfSameIds(items, r, item.medicineId);
    } else {
      assert r[|items|].medicineId == item.medicineId;
      assert IndexOf(r, item.medicineId) == Some(|items|);
    }
  }

  /** `setQty` to a quantity of at least 1 gives the medicine, if in the
      cart, exactly that quantity. */
  lemma WithQtyQty(items: seq<CartItem>, id: MedId, qty: int)
    requires qty >= 1
    ensures QtyInCart(WithQty(items, id, qty), id) == (if IndexOf(items, id).Some? then qty else 0)
  {
    IndexOfWithQty(items, id, id, qty);
  }

  /** The first line of a medicine after `setQty` is that line with the new
      quantity. */
  lemma IndexOfWithQty(items: seq<CartItem>, id: MedId, other: MedId, qty: int)
    ensures IndexOf(WithQty(items, id, qty), other) == IndexOf(items, other)
  {
    var r := WithQty(items, id, qty);
    assert forall j :: 0 <= j < |items| ==> r[j].medicineId == items[j].medicineId;
    IndexOfSameIds(items, r, other);
  }

  /** `findIndex` depends only on the ids. */
  lemma {:induction false} IndexOfSameIds(a: seq<CartItem>, b: seq<CartItem>, id: MedId)
    requires |a| == |b| && forall j :: 0 <= j < |a| ==> a[j].medicineId == b[j].medicineId
    ensures IndexOf(a, id) == IndexOf(b, id)
    decreases |a|
  {
    if a != [] {
      IndexOfSameIds(a[1..], b[1..], id);
    }
  }

  /** Removing a medicine's lines leaves no line of it. */
  lemma WithoutLeavesNone(items: seq<CartItem>, id: MedId)
    ensures IndexOf(Without(items, id), id).None?
  {
    var r := Without(items, id);
    forall j | 0 <= j < |r| ensures r[j].medicineId != id {
      assert r[j] in r;
    }
  }

  /** What a press the card offers keeps: the cart's lines distinct, the
      medicine's quantity within the displayed stock (or out of the cart),
      and every other medicine's quantity. */
  predicate KeepsStock(items: seq<CartItem>, r: seq<CartItem>, m: Medicine, other: MedId)
  {
    DistinctIds(r) &&
    (QtyInCart(r, m.id) == 0 || QtyInCart(r, m.id) <= m.stock) &&
    QtyInCart(r, other) == QtyInCart(items, other)
  }

  lemma PressAddKeepsStock(items: seq<CartItem>, m: Medicine, other: MedId)
    requires DistinctIds(items) && QtyInCart(items, m.id) == 0 && other != m.id
    ensures KeepsStock(items, Press(items, m, AddButton).0, m, other)
  {
    var r := Press(items, m, AddButton).0;
    if m.stock > 0 {
      AddKeepsDistinct(items, ItemOf(m), 1);
      if IndexOf(items, m.id).None? {
        assert r == items + [ItemOf(m).(qty := 1)];
        assert r[|items|].medicineId == m.id;
        assert IndexOf(r, m.id) == Some(|items|);
        IndexOfAppend(items, ItemOf(m).(qty := 1), other);
      } else {
        // a line of quantity 0 is raised to 1 in place
        var i := IndexOf(items, m.id).value;
        IndexOfSameIds(items, r, m.id);
        IndexOfSameIds(items, r, other);
        assert r[i].qty == 1;
      }
    }
  }

  /** Appending a line of another medicine leaves a lookup as it was. */
  lemma {:induction false} IndexOfAppend(items: seq<CartItem>, x: CartItem, id: MedId)
    requires x.medicineId != id
    ensures IndexOf(items + [x], id) == IndexOf(items, id)
    decreases |items|
  {
    if items == [] {
      assert [x][1..] == [];
    } else {
      assert (items + [x])[1..] == items[1..] + [x];
      IndexOfAppend(items[1..], x, id);
    }
  }

  lemma PressMinusKeepsStock(items: seq<CartItem>, m: Medicine, other: MedId)
    requires DistinctIds(items) && QtyInCart(items, m.id) != 0 && other != m.id
    requires QtyInCart(items, m.id) <= m.stock
    ensures KeepsStock(items, Press(items, m, MinusButton).0, m, other)
  {
    var qty := QtyInCart(items, m.id);
    var r := Press(items, m, MinusButton).0;
    if qty <= 1 {
      WithoutLeavesNone(items, m.id);
      assert forall j :: 0 <= j < |r| ==> r[j] in items;
      WithoutKeepsOthers(items, m.id, other);
      WithoutKeepsDistinct(items, m.id);
    } else {
      WithQtySpec(items, m.id, qty - 1);
      IndexOfWithQty(items, m.id, m.id, qty - 1);
      IndexOfWithQty(items, m.id, other, qty - 1);
    }
  }

  lemma PressPlusKeepsStock(items: seq<CartItem>, m: Medicine, other: MedId)
    requires DistinctIds(items) && QtyInCart(items, m.id) != 0 && other != m.id
    requires QtyInCart(items, m.id) <= m.stock
    ensures KeepsStock(items, Press(items, m, PlusButton).0, m, other)
  {
    var qty := QtyInCart(items, m.id);
    var r := Press(items, m, PlusButton).0;
    if qty + 1 <= m.stock {
      AddKeepsDistinct(items, ItemOf(m), 1);
      var i := IndexOf(items, m.id).value;
      IndexOfSameIds(items, r, m.id);
      IndexOfSameIds(items, r, other);
      assert r[i].qty == qty + 1;
    }
  }

  /** A press the card offers keeps the cart's lines distinct, keeps the
      medicine's quantity within the displayed stock (or out of the cart),
      and leaves every other medicine's quantity alone. */
  lemma PressKeepsStock(items: seq<CartItem>, m: Medicine, b: Button, other: MedId)
    requires DistinctIds(items) && Shown(items, m, b)
    requires QtyInCart(items, m.id) == 0 || QtyInCart(items, m.id) <= m.stock
    requires other != m.id
    ensures KeepsStock(items, Press(items, m, b).0, m, other)
  {
    match b
    case AddButton => PressAddKeepsStock(items, m, other);
    case MinusButton => PressMinusKeepsStock(items, m, other);
    case PlusButton => PressPlusKeepsStock(items, m, other);
  }

  /** Removing lines keeps the rest distinct. */
  lemma {:induction false} WithoutKeepsDistinct(items: seq<CartItem>, id: MedId)
    requires DistinctIds(items)
    ensures DistinctIds(Without(items, id))
    decreases |items|
  {
    if items != [] {
      var rest := Without(items[1..], id);
      WithoutKeepsDistinct(items[1..], id);
      assert Without(items, id) == (if items[0].medicineId != id then [items[0]] else []) + rest;
      forall j | 0 <= j < |rest| ensures rest[j].medicineId != items[0].medicineId {
        assert rest[j] in items[1..];
      }
    }
  }

  /** Dropping one medicine's lines leaves another's quantity as it was,
      given distinct lines. */
  lemma WithoutKeepsOthers(items: seq<CartItem>, id: MedId, other: MedId)
    requires DistinctIds(items) && other != id
    ensures QtyInCart(Without(items, id), other) == QtyInCart(items, other)
  {
    var r := Without(items, id);
    match IndexOf(items, other)
    case None =>
      forall j | 0 <= j < |r| ensures r[j].medicineId != other {
        assert r[j] in items;
      }
    case Some(i) =>
      assert items[i] in r;
      var k :| 0 <= k < |r| && r[k] == items[i];
      WithoutKeepsDistinct(items, id);
      IndexOfDistinct(r, k);
  }

  /** In distinct lines, a line is the first with its medicine. */
  lemma IndexOfDistinct(items: seq<CartItem>, k: nat)
    requires DistinctIds(items) && k < |items|
    ensures IndexOf(items, items[k].medicineId) == Some(k)
  {
  }
}
