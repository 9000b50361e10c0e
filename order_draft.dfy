/** The order draft that the views keep in `request.session['order']`
    (restaurant/views.py): a dict from the string form of a menu item id to a
    snapshot entry. The views change it in place; the functions here say what
    each change produces, and the lemmas relate the changes to each other and
    to the totals the views compute. */
module OrderDraft {
  import opened Wrappers
  import opened Dicts
  import opened Models

  predicate IsDigit(c: char)
  {
    '0' <= c <= '9'
  }

  function DigitChar(d: nat): (c: char)
    requires d < 10
    ensures IsDigit(c)
  {
    ('0' as int + d) as char
  }

  function DigitValue(c: char): nat
    requires IsDigit(c)
  {
    c as int - '0' as int
  }

  /** `str(item_id)` for a non-negative id: its decimal digits, no leading zeros. */
  function IdKey(n: nat): (s: string)
    ensures s != [] && forall i :: 0 <= i < |s| ==> IsDigit(s[i])
  {
    if n < 10 then [DigitChar(n)] else IdKey(n / 10) + [DigitChar(n % 10)]
  }

  function DigitsValue(s: string): nat
    requires forall i :: 0 <= i < |s| ==> IsDigit(s[i])
  {
    if s == [] then 0 else DigitsValue(s[..|s| - 1]) * 10 + DigitValue(s[|s| - 1])
  }

  /** `int(key)` for a key made of decimal digits; `None` for any other text. */
  function ParseKey(s: string): (r: Option<nat>)
    ensures r.Some? <==> s != [] && forall i :: 0 <= i < |s| ==> IsDigit(s[i])
  {
    if s != [] && forall i :: 0 <= i < |s| ==> IsDigit(s[i]) then Some(DigitsValue(s)) else None
  }

  lemma {:induction false} DigitsValueIdKey(n: nat)
    ensures DigitsValue(IdKey(n)) == n
  {
    if n < 10 {
      assert IdKey(n)[..0] == [];
    } else {
      DigitsValueIdKey(n / 10);
      var s := IdKey(n);
      assert s[..|s| - 1] == IdKey(n / 10);
    }
  }

  /** `int(str(item_id)) == item_id`: checkout finds the menu item that was added. */
  lemma ParseIdKey(n: nat)
    ensures ParseKey(IdKey(n)) == Some(n)
  {
    DigitsValueIdKey(n);
  }

  /** Different items get different keys. */
  lemma IdKeyInjective(a: nat, b: nat)
    requires IdKey(a) == IdKey(b)
    ensures a == b
  {
    ParseIdKey(a);
    ParseIdKey(b);
  }

  /** One draft entry: name and unit price as they were when the item was
      first added, the quantity, and the image path. */
  datatype Entry = Entry(name: string, price: int, quantity: int, image: Option<string>)

  type Draft = Dict<Entry>

  /** What the views keep true of the draft: every key is an item id in
      decimal and every quantity is at least 1. */
  predicate WellFormed(d: Draft)
  {
    && Valid(d)
    && forall k :: k in d.items ==> ParseKey(k).Some? && d.items[k].quantity >= 1
  }

  /** The entry for an item added for the first time. */
  function Snapshot(item: MenuItem): (e: Entry)
    ensures e.quantity == 1
    ensures e.name == item.name && e.price == item.price && e.image == item.image
    ensures Subtotal(e) == item.price
  {
    Entry(item.name, item.price, 1, item.image)
  }

  function Subtotal(e: Entry): int
  {
    e.price * e.quantity
  }

  /** The grand total of the draft at the snapshot prices. */
  function Total(d: Draft): int
    requires Valid(d)
  {
    SumValues(d, Subtotal)
  }

  /** `add_to_order` on a draft. */
  function Add(d: Draft, itemId: nat, item: MenuItem): (r: Draft)
    requires WellFormed(d)
    ensures WellFormed(r)
    ensures IdKey(itemId) in r.items
    ensures r.items.Keys == d.items.Keys + {IdKey(itemId)}
    ensures forall k :: k in d.items && k != IdKey(itemId) ==> r.items[k] == d.items[k]
    ensures IdKey(itemId) in d.items ==>
      var old_ := d.items[IdKey(itemId)];
      && r.keys == d.keys
      && r.items[IdKey(itemId)].quantity == old_.quantity + 1
      && r.items[IdKey(itemId)] == old_.(quantity := r.items[IdKey(itemId)].quantity)
    ensures IdKey(itemId) !in d.items ==>
      && r.keys == d.keys + [IdKey(itemId)]
      && r.items[IdKey(itemId)] == Entry(item.name, item.price, 1, item.image)
  {
    ParseIdKey(itemId);
    var k := IdKey(itemId);
    if k in d.items then
      Put(d, k, d.items[k].(quantity := d.items[k].quantity + 1))
    else
      Put(d, k, Snapshot(item))
  }

  /** `update_order_quantity` on a draft, with the quantity already read from
      the form. */
  function SetQuantity(d: Draft, itemId: nat, q: int): (r: Draft)
    requires WellFormed(d)
    ensures WellFormed(r)
    ensures IdKey(itemId) !in d.items ==> r == d
    ensures IdKey(itemId) in d.items && q <= 0 ==>
      && r.items.Keys == d.items.Keys - {IdKey(itemId)}
      && r.keys == Without(d.keys, IdKey(itemId)) && |r.keys| == |d.keys| - 1
    ensures IdKey(itemId) in d.items && q > 0 ==>
      && r.keys == d.keys
      && r.items.Keys == d.items.Keys
      && r.items[IdKey(itemId)].quantity == q
      && r.items[IdKey(itemId)] == d.items[IdKey(itemId)].(quantity := q)
    ensures forall k :: k in r.items && k != IdKey(itemId) ==> k in d.items && r.items[k] == d.items[k]
  {
    var k := IdKey(itemId);
    if k in d.items then
      if q <= 0 then Del(d, k) else Put(d, k, d.items[k].(quantity := q))
    else
      d
  }

  /** `remove_from_order` on a draft. */
  function Remove(d: Draft, itemId: nat): (r: Draft)
    requires WellFormed(d)
    ensures WellFormed(r)
    ensures r.items.Keys == d.items.Keys - {IdKey(itemId)}
    ensures r.keys == Without(d.keys, IdKey(itemId))
    ensures forall k :: k in r.items ==> r.items[k] == d.items[k]
    ensures IdKey(itemId) !in d.items ==> r == d
  {
    var k := IdKey(itemId);
    if k in d.items then Del(d, k) else d
  }

  /** Removing twice is removing once. */
  lemma RemoveIdempotent(d: Draft, itemId: nat)
    requires WellFormed(d)
    ensures Remove(Remove(d, itemId), itemId) == Remove(d, itemId)
  {
  }

  /** Removing an item closes its gap in the draft: the entries before and
      after it keep their order, so the order page and checkout list them
      as before. */
  lemma RemoveKeepsOrder(d: Draft, itemId: nat, i: nat)
    requires WellFormed(d) && i < |d.keys| && d.keys[i] == IdKey(itemId)
    ensures Remove(d, itemId).keys == d.keys[..i] + d.keys[i + 1..]
  {
    WithoutAt(d.keys, IdKey(itemId), i);
  }

  /** Setting a quantity of zero or less is the same as removing the item. */
  lemma SetNonPositiveIsRemove(d: Draft, itemId: nat, q: int)
    requires WellFormed(d) && q <= 0
    ensures SetQuantity(d, itemId, q) == Remove(d, itemId)
  {
  }

  /** Adding an item that was not in the draft and then removing it gives
      back the draft, order of the other entries included. */
  lemma RemoveUndoesAdd(d: Draft, itemId: nat, item: MenuItem)
    requires WellFormed(d) && IdKey(itemId) !in d.items
    ensures Remove(Add(d, itemId, item), itemId) == d
  {
    DelPutNew(d, IdKey(itemId), Snapshot(item));
  }

  /** Adding an item that is already in the draft and then setting its old
      quantity back gives back the draft. */
  lemma SetQuantityUndoesAdd(d: Draft, itemId: nat, item: MenuItem)
    requires WellFormed(d) && IdKey(itemId) in d.items
    ensures SetQuantity(Add(d, itemId, item), itemId, d.items[IdKey(itemId)].quantity) == d
  {
    var k := IdKey(itemId);
    assert d.items[k := d.items[k]] == d.items;
  }

  /** Raising an entry's quantity by one raises the total by its unit price. */
  lemma IncrementTotal(d: Draft, k: string)
    requires Valid(d) && k in d.items
    ensures var e := d.items[k];
      SumValues(Put(d, k, e.(quantity := e.quantity + 1)), Subtotal) == Total(d) + e.price
  {
    var e := d.items[k];
    var e' := e.(quantity := e.quantity + 1);
    SumValuesPut(d, k, e', Subtotal);
    assert Subtotal(e') == Subtotal(e) + e.price by {
      assert e.price * (e.quantity + 1) == e.price * e.quantity + e.price;
    }
  }

  /** Adding raises the total by one unit price: the snapshot price for an
      item already in the draft, the current menu price for a new one. */
  lemma AddTotal(d: Draft, itemId: nat, item: MenuItem)
    requires WellFormed(d)
    ensures Total(Add(d, itemId, item))
            == Total(d) + (if IdKey(itemId) in d.items then d.items[IdKey(itemId)].price else item.price)
  {
    var k := IdKey(itemId);
    if k in d.items {
      IncrementTotal(d, k);
    } else {
      SumValuesPut(d, k, Snapshot(item), Subtotal);
    }
  }

  /** Setting a positive quantity changes the total by the unit price times
      the change in quantity; a non-positive one takes the line out. */
  lemma SetQuantityTotal(d: Draft, itemId: nat, q: int)
    requires WellFormed(d) && IdKey(itemId) in d.items
    ensures var e := d.items[IdKey(itemId)];
      Total(SetQuantity(d, itemId, q))
      == Total(d) - e.price * e.quantity + (if q <= 0 then 0 else e.price * q)
  {
    var k := IdKey(itemId);
    if q <= 0 {
      SumValuesDel(d, k, Subtotal);
    } else {
      SumValuesPut(d, k, d.items[k].(quantity := q), Subtotal);
    }
  }

  /** Removing a present item takes its subtotal out of the total. */
  lemma RemoveTotal(d: Draft, itemId: nat)
    requires WellFormed(d)
    ensures Total(Remove(d, itemId))
            == Total(d) - (if IdKey(itemId) in d.items then Subtotal(d.items[IdKey(itemId)]) else 0)
  {
    if IdKey(itemId) in d.items {
      SumValuesDel(d, IdKey(itemId), Subtotal);
    }
  }

  /** One row of the order page. */
  datatype Line = Line(itemId: string, name: string, price: int, quantity: int, subtotal: int, image: Option<string>)

  function LineOf(k: string, e: Entry): Line
  {
    Line(k, e.name, e.price, e.quantity, e.price * e.quantity, e.image)
  }

  function SumSubtotals(lines: seq<Line>): int
  {
    if lines == [] then 0 else SumSubtotals(lines[..|lines| - 1]) + lines[|lines| - 1].subtotal
  }

  /** The order page's lines for the entries at `ks`, in that order. */
  function LinesOf(ks: seq<string>, m: map<string, Entry>): (r: seq<Line>)
    requires forall k :: k in ks ==> k in m
    ensures |r| == |ks|
  {
    if ks == [] then [] else LinesOf(ks[..|ks| - 1], m) + [LineOf(ks[|ks| - 1], m[ks[|ks| - 1]])]
  }

  /** The i-th line shows the i-th entry, with subtotal = price x quantity. */
  lemma {:induction false} LinesAt(ks: seq<string>, m: map<string, Entry>, i: nat)
    requires (forall k :: k in ks ==> k in m) && i < |ks|
    ensures LinesOf(ks, m)[i] == LineOf(ks[i], m[ks[i]])
    ensures LinesOf(ks, m)[i].subtotal == LinesOf(ks, m)[i].price * LinesOf(ks, m)[i].quantity
  {
    if i < |ks| - 1 {
      LinesAt(ks[..|ks| - 1], m, i);
    }
  }

  /** The page's total is the sum of its lines' subtotals. */
  lemma {:induction false} LinesTotal(ks: seq<string>, m: map<string, Entry>)
    requires forall k :: k in ks ==> k in m
    ensures SumSubtotals(LinesOf(ks, m)) == Sum(ks, m, Subtotal)
  {
    if ks != [] {
      var ls := LinesOf(ks, m);
      assert ls[..|ls| - 1] == LinesOf(ks[..|ks| - 1], m);
      LinesTotal(ks[..|ks| - 1], m);
    }
  }

  /** One line that checkout prepares per draft entry, before it touches the
      store: the menu item id read back from the key, the quantity and the
      subtotal at the snapshot price. */
  datatype PendingLine = PendingLine(menuItemId: nat, quantity: nat, subtotal: int)

  /** The keys are item ids in decimal and the quantities are not negative. */
  predicate Readable(ks: seq<string>, m: map<string, Entry>)
  {
    forall k :: k in ks ==> k in m && ParseKey(k).Some? && m[k].quantity >= 0
  }

  function PendingOf(k: string, e: Entry): PendingLine
    requires ParseKey(k).Some? && e.quantity >= 0
  {
    PendingLine(ParseKey(k).value, e.quantity, e.price * e.quantity)
  }

  /** The lines for the entries at `ks`, in that order. */
  function PendingLines(ks: seq<string>, m: map<string, Entry>): (r: seq<PendingLine>)
    requires Readable(ks, m)
    ensures |r| == |ks|
  {
    if ks == [] then []
    else PendingLines(ks[..|ks| - 1], m) + [PendingOf(ks[|ks| - 1], m[ks[|ks| - 1]])]
  }

  predicate AllInMenu(ps: seq<PendingLine>, menu: map<nat, MenuItem>)
  {
    forall i :: 0 <= i < |ps| ==> ps[i].menuItemId in menu
  }

  /** The order line checkout persists for one pending line: its quantity and
      the price the menu item has now. */
  function ItemOf(orderId: nat, p: PendingLine, menu: map<nat, MenuItem>): OrderItem
    requires p.menuItemId in menu
  {
    OrderItem(orderId, p.menuItemId, p.quantity, menu[p.menuItemId].price)
  }

  function OrderItemsOf(orderId: nat, ps: seq<PendingLine>, menu: map<nat, MenuItem>): (r: seq<OrderItem>)
    requires AllInMenu(ps, menu)
    ensures |r| == |ps|
  {
    if ps == [] then []
    else OrderItemsOf(orderId, ps[..|ps| - 1], menu) + [ItemOf(orderId, ps[|ps| - 1], menu)]
  }

  /** The sum of price times quantity over persisted order lines. */
  function LineTotal(items: seq<OrderItem>): int
  {
    if items == [] then 0
    else LineTotal(items[..|items| - 1]) + items[|items| - 1].price * items[|items| - 1].quantity
  }

  /** The i-th pending line comes from the i-th key of the draft. */
  lemma {:induction false} PendingLinesAt(ks: seq<string>, m: map<string, Entry>, i: nat)
    requires Readable(ks, m) && i < |ks|
    ensures PendingLines(ks, m)[i] == PendingOf(ks[i], m[ks[i]])
  {
    if i < |ks| - 1 {
      PendingLinesAt(ks[..|ks| - 1], m, i);
    }
  }

  /** The i-th order line has the i-th pending line's item and quantity and
      the menu's current price. */
  lemma {:induction false} OrderItemsAt(orderId: nat, ps: seq<PendingLine>, menu: map<nat, MenuItem>, i: nat)
    requires AllInMenu(ps, menu) && i < |ps|
    ensures OrderItemsOf(orderId, ps, menu)[i]
            == OrderItem(orderId, ps[i].menuItemId, ps[i].quantity, menu[ps[i].menuItemId].price)
  {
    if i < |ps| - 1 {
      OrderItemsAt(orderId, ps[..|ps| - 1], menu, i);
    }
  }

  /** The snapshot prices in the draft are still the menu's prices. */
  predicate PricesCurrent(ks: seq<string>, m: map<string, Entry>, menu: map<nat, MenuItem>)
    requires Readable(ks, m)
  {
    forall k :: k in ks ==> ParseKey(k).value in menu && menu[ParseKey(k).value].price == m[k].price
  }

  /** When no price changed since the items were added, the order total
      (computed from the draft) equals the sum over the persisted lines
      (priced from the menu). */
  lemma {:induction false} TotalsAgreeWhenPricesCurrent(orderId: nat, ks: seq<string>, m: map<string, Entry>, menu: map<nat, MenuItem>)
    requires Readable(ks, m) && PricesCurrent(ks, m, menu)
    requires AllInMenu(PendingLines(ks, m), menu)
    ensures LineTotal(OrderItemsOf(orderId, PendingLines(ks, m), menu)) == Sum(ks, m, Subtotal)
  {
    if ks != [] {
      var front := ks[..|ks| - 1];
      var k := ks[|ks| - 1];
      var ps := PendingLines(ks, m);
      var p := PendingOf(k, m[k]);
      assert ps == PendingLines(front, m) + [p];
      assert ps[..|ps| - 1] == PendingLines(front, m);
      TotalsAgreeWhenPricesCurrent(orderId, front, m, menu);
      var items := OrderItemsOf(orderId, ps, menu);
      var init := OrderItemsOf(orderId, PendingLines(front, m), menu);
      assert items == init + [ItemOf(orderId, p, menu)];
      assert items[..|items| - 1] == init;
    }
  }

  lemma TwoEntryTotal(d: Draft)
    requires Valid(d) && d.keys == ["1", "2"]
    ensures Total(d) == Subtotal(d.items["1"]) + Subtotal(d.items["2"])
    ensures Readable(d.keys, d.items) ==>
      PendingLines(d.keys, d.items) == [PendingOf("1", d.items["1"]), PendingOf("2", d.items["2"])]
  {
    assert d.keys[..1] == ["1"];
    assert d.keys[..1][..0] == [];
    assert Sum(d.keys[..1], d.items, Subtotal) == Subtotal(d.items["1"]);
  }

  lemma TwoOrderItems(orderId: nat, p1: PendingLine, p2: PendingLine, menu: map<nat, MenuItem>)
    requires p1.menuItemId in menu && p2.menuItemId in menu
    ensures AllInMenu([p1, p2], menu)
    ensures OrderItemsOf(orderId, [p1, p2], menu) == [ItemOf(orderId, p1, menu), ItemOf(orderId, p2, menu)]
  {
    assert [p1, p2][..1] == [p1];
    assert [p1][..0] == [];
  }

  lemma TwoLineTotal(a: OrderItem, b: OrderItem)
    ensures LineTotal([a, b]) == a.price * a.quantity + b.price * b.quantity
  {
    assert [a, b][..1] == [a];
    assert [a][..0] == [];
    assert LineTotal([a]) == a.price * a.quantity;
  }

  /** The draft {'1': 9.99 x 2, '2': 5.00 x 1}. */
  function TwoDishDraft(): (d: Draft)
    ensures WellFormed(d)
  {
    Dict(["1", "2"], map["1" := Entry("Soup", 999, 2, None), "2" := Entry("Bread", 500, 1, None)])
  }

  /** Checkout prepares the lines (1, 2, 19.98) and (2, 1, 5.00) from that
      draft, whose total is 24.98. */
  lemma TwoDishPending()
    ensures Total(TwoDishDraft()) == 2498
    ensures PendingLines(TwoDishDraft().keys, TwoDishDraft().items) == [PendingLine(1, 2, 1998), PendingLine(2, 1, 500)]
  {
    var d := TwoDishDraft();
    TwoEntryTotal(d);
    assert ParseKey("1") == Some(1) && ParseKey("2") == Some(2);
  }

  /** The draft totals 24.98 and, while the menu prices are unchanged,
      checkout persists a line of two at 9.99 and a line of one at 5.00. */
  lemma TwoDishExample(menu: map<nat, MenuItem>)
    requires menu == map[1 := MenuItem("Soup", 999, None, true), 2 := MenuItem("Bread", 500, None, true)]
    ensures Total(TwoDishDraft()) == 2498
    ensures AllInMenu(PendingLines(TwoDishDraft().keys, TwoDishDraft().items), menu)
    ensures OrderItemsOf(7, PendingLines(TwoDishDraft().keys, TwoDishDraft().items), menu)
            == [OrderItem(7, 1, 2, 999), OrderItem(7, 2, 1, 500)]
  {
    TwoDishPending();
    TwoOrderItems(7, PendingLine(1, 2, 1998), PendingLine(2, 1, 500), menu);
  }

  /** The same draft after dish 1 went up to 10.99 on the menu: the order
      total still says 24.98 while its persisted lines add up to 26.98. */
  lemma StalePriceExample(menu: map<nat, MenuItem>)
    requires menu == map[1 := MenuItem("Soup", 1099, None, true), 2 := MenuItem("Bread", 500, None, true)]
    ensures Total(TwoDishDraft()) == 2498
    ensures AllInMenu(PendingLines(TwoDishDraft().keys, TwoDishDraft().items), menu)
    ensures LineTotal(OrderItemsOf(7, PendingLines(TwoDishDraft().keys, TwoDishDraft().items), menu)) == 2698
  {
    TwoDishPending();
    TwoOrderItems(7, PendingLine(1, 2, 1998), PendingLine(2, 1, 500), menu);
    TwoLineTotal(OrderItem(7, 1, 2, 1099), OrderItem(7, 2, 1, 500));
  }
}
