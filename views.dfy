/** The request handlers of restaurant/views.py that change or read state:
    the order draft kept in the session, checkout, and the staff forms for
    order status and reservation confirmation. A request is reduced to what
    the handler reads from it: whether it is a POST, the posted fields, and
    the signed-in user. */
module Views {
  import opened Wrappers
  import opened Dicts
  import opened Models
  import opened OrderDraft
  import Admin

  /** `is_staff`: signed in, and either flagged as staff or in the 'Staff' group. */
  function IsStaff(authenticated: bool, staffFlag: bool, inStaffGroup: bool): (r: bool)
    ensures !authenticated ==> !r
    ensures r ==> staffFlag || inStaffGroup
    ensures authenticated && staffFlag ==> r
    ensures authenticated && inStaffGroup ==> r
  {
    authenticated && (staffFlag || inStaffGroup)
  }

  /** The years-of-service figure on the home page, from the age in days of
      the oldest review (`None` when there is no review). */
  function YearsServing(firstReviewAgeDays: Option<int>): (years: int)
    ensures years >= 1
    ensures firstReviewAgeDays.None? ==> years == 10
    ensures firstReviewAgeDays.Some? && firstReviewAgeDays.value < 730 ==> years == 1
    ensures firstReviewAgeDays.Some? && firstReviewAgeDays.value >= 365 ==>
      years * 365 <= firstReviewAgeDays.value < (years + 1) * 365
  {
    match firstReviewAgeDays
    case None => 10
    case Some(days) =>
      // Python's `//` rounds down; so does Dafny's `/` for a positive divisor.
      var years := days / 365;
      if years < 1 then 1 else years
  }

  /** An older first review never shows fewer years. */
  lemma YearsServingMonotone(d1: int, d2: int)
    requires d1 <= d2
    ensures YearsServing(Some(d1)) <= YearsServing(Some(d2))
  {
    assert d1 / 365 <= d2 / 365;
  }

  /** The user's session; `order` is `None` while the session has no 'order' key. */
  class Session {
    var order: Option<Draft>

    ghost predicate Valid()
      reads this
    {
      order.Some? ==> WellFormed(order.value)
    }

    constructor ()
      ensures Valid() && order == None
    {
      order := None;
    }
  }

  /** The draft a handler sees: an absent 'order' key reads as an empty draft. */
  function DraftOf(o: Option<Draft>): Draft
  {
    match o
    case Some(d) => d
    case None => Empty()
  }

  /** `add_to_order`: a 404 when the menu item does not exist; otherwise the
      session gets a draft if it had none and the item is added to it. */
  method AddToOrder(session: Session, db: Database, itemId: nat) returns (found: bool)
    requires session.Valid()
    modifies session
    ensures session.Valid()
    ensures found <==> itemId in db.menu
    ensures !found ==> session.order == old(session.order)
    ensures found ==> session.order == Some(Add(DraftOf(old(session.order)), itemId, db.menu[itemId]))
  {
    if itemId !in db.menu {
      return false;
    }
    var item := db.menu[itemId];
    if session.order.None? {
      session.order := Some(Empty());
    }
    var order := session.order.value;
    var key := IdKey(itemId);
    ParseIdKey(itemId);
    ghost var before := order;
    if key in order.items {
      var e := order.items[key];
      order := Put(order, key, e.(quantity := e.quantity + 1));
    } else {
      order := Put(order, key, Entry(item.name, item.price, 1, item.image));
    }
    assert order == Add(before, itemId, item);
    session.order := Some(order);
    found := true;
  }

  /** `order_view`: one line per draft entry, in the draft's order, with
      subtotal = price x quantity, and the total of those subtotals. */
  method OrderView(session: Session) returns (lines: seq<Line>, total: int)
    requires session.Valid()
    ensures session.order.None? ==> lines == [] && total == 0
    ensures session.order.Some? ==>
      var d := session.order.value;
      && |lines| == |d.keys|
      && (forall i :: 0 <= i < |lines| ==> lines[i] == LineOf(d.keys[i], d.items[d.keys[i]]))
      && total == Total(d)
    ensures total == SumSubtotals(lines)
  {
    lines, total := [], 0;
    if session.order.Some? {
      var d := session.order.value;
      var i := 0;
      while i < |d.keys|
        invariant 0 <= i <= |d.keys|
        invariant lines == LinesOf(d.keys[..i], d.items)
        invariant total == Sum(d.keys[..i], d.items, Subtotal)
      {
        var k := d.keys[i];
        var e := d.items[k];
        var itemTotal := e.price * e.quantity;
        lines := lines + [Line(k, e.name, e.price, e.quantity, itemTotal, e.image)];
        total := total + itemTotal;
        assert d.keys[..i + 1][..i] == d.keys[..i];
        i := i + 1;
      }
      assert d.keys[..i] == d.keys;
      LinesTotal(d.keys, d.items);
      forall i | 0 <= i < |lines|
        ensures lines[i] == LineOf(d.keys[i], d.items[d.keys[i]])
      {
        LinesAt(d.keys, d.items, i);
      }
    }
  }

  /** `update_order_quantity`: on a POST, and only when the draft holds the
      item, the posted quantity (0 when the field is missing) replaces the
      entry's quantity, or removes the entry when it is not positive. */
  method UpdateOrderQuantity(session: Session, itemId: nat, isPost: bool, posted: Option<int>)
    requires session.Valid()
    modifies session
    ensures session.Valid()
    ensures !isPost || old(session.order).None? ==> session.order == old(session.order)
    ensures isPost && old(session.order).Some? ==>
      session.order == Some(SetQuantity(old(session.order).value, itemId, posted.GetOr(0)))
  {
    if isPost {
      var quantity := posted.GetOr(0);
      if session.order.Some? {
        var order := session.order.value;
        var key := IdKey(itemId);
        if key in order.items {
          if quantity <= 0 {
            order := Del(order, key);
          } else {
            order := Put(order, key, order.items[key].(quantity := quantity));
          }
          session.order := Some(order);
        }
      }
    }
  }

  /** `remove_from_order`: on a POST, drops the item from the draft if it is there. */
  method RemoveFromOrder(session: Session, itemId: nat, isPost: bool)
    requires session.Valid()
    modifies session
    ensures session.Valid()
    ensures !isPost || old(session.order).None? ==> session.order == old(session.order)
    ensures isPost && old(session.order).Some? ==>
      session.order == Some(Remove(old(session.order).value, itemId))
  {
    if isPost && session.order.Some? {
      var order := session.order.value;
      var key := IdKey(itemId);
      if key in order.items {
        order := Del(order, key);
        session.order := Some(order);
      }
    }
  }

  /** The signed-in user, as far as checkout reads it. */
  datatype User = User(id: nat, username: string, firstName: string, lastName: string, email: string)

  /** The checkout form's fields as posted. */
  datatype CheckoutForm = CheckoutForm(name: Option<string>, email: Option<string>, phone: Option<string>)

  datatype CheckoutOutcome =
    | EmptyOrder
    | FormShown(lines: seq<PendingLine>, total: int, customerName: string, customerEmail: string, fieldsMissing: bool)
    | Placed(orderId: nat)
    | MenuItemNotFound

  /** A posted field that Python treats as true: present and not empty. */
  predicate Filled(field: Option<string>)
  {
    field.Some? && field.value != []
  }

  /** The name the checkout form is filled in with. */
  function DefaultCustomerName(user: User): (name: string)
    ensures user.firstName == [] && user.lastName == [] ==> name == user.username
    ensures user.firstName != [] || user.lastName != [] ==>
      && |name| == |user.firstName| + 1 + |user.lastName|
      && name[..|user.firstName|] == user.firstName
      && name[|user.firstName|] == ' '
      && name[|user.firstName| + 1..] == user.lastName
  {
    if user.firstName != [] || user.lastName != [] then user.firstName + " " + user.lastName else user.username
  }

  /** The loop at the start of `checkout`: one pending line per draft entry,
      in the draft's order, and the draft's total at the snapshot prices. */
  method PrepareLines(d: Draft) returns (pending: seq<PendingLine>, total: int)
    requires WellFormed(d)
    ensures pending == PendingLines(d.keys, d.items)
    ensures total == Total(d)
  {
    pending, total := [], 0;
    var i := 0;
    while i < |d.keys|
      invariant 0 <= i <= |d.keys|
      invariant pending == PendingLines(d.keys[..i], d.items)
      invariant total == Sum(d.keys[..i], d.items, Subtotal)
    {
      var k := d.keys[i];
      var e := d.items[k];
      pending := pending + [PendingLine(ParseKey(k).value, e.quantity, e.price * e.quantity)];
      total := total + e.price * e.quantity;
      assert d.keys[..i + 1][..i] == d.keys[..i];
      i := i + 1;
    }
    assert d.keys[..i] == d.keys;
  }

  /** The `transaction.atomic()` block of `checkout`: creates `order` and
      then one order line per pending line at the menu's current price. When
      a menu item is missing, the tables are rolled back to where they were. */
  method PlaceOrder(db: Database, order: Order, pending: seq<PendingLine>) returns (ok: bool)
    requires db.Valid() && order.id == db.nextOrderId
    modifies db`orders, db`orderItems, db`nextOrderId
    ensures db.Valid()
    ensures ok <==> AllInMenu(pending, db.menu)
    ensures ok ==>
      && db.orders == old(db.orders)[order.id := order]
      && db.orderItems == old(db.orderItems) + OrderItemsOf(order.id, pending, db.menu)
      && db.nextOrderId == old(db.nextOrderId) + 1
    ensures !ok ==>
      db.orders == old(db.orders) && db.orderItems == old(db.orderItems) && db.nextOrderId == old(db.nextOrderId)
  {
    var savedOrders, savedItems, savedNext := db.orders, db.orderItems, db.nextOrderId;
    db.orders := db.orders[order.id := order];
    db.nextOrderId := db.nextOrderId + 1;
    var j := 0;
    while j < |pending|
      invariant 0 <= j <= |pending|
      invariant AllInMenu(pending[..j], db.menu)
      invariant db.orderItems == savedItems + OrderItemsOf(order.id, pending[..j], db.menu)
      invariant db.orders == savedOrders[order.id := order] && db.nextOrderId == savedNext + 1
      invariant db.Valid()
    {
      var p := pending[j];
      if p.menuItemId !in db.menu {
        // get_object_or_404 raises inside the block: nothing persists
        db.orders, db.orderItems, db.nextOrderId := savedOrders, savedItems, savedNext;
        return false;
      }
      db.orderItems := db.orderItems + [OrderItem(order.id, p.menuItemId, p.quantity, db.menu[p.menuItemId].price)];
      assert pending[..j + 1][..j] == pending[..j];
      j := j + 1;
    }
    assert pending[..j] == pending;
    ok := true;
  }

  /** `checkout`. An absent or empty draft creates nothing. Otherwise the
      pending lines and total are computed from the draft; a GET, or a POST
      without name or email, shows the form and changes nothing. A complete
      POST creates, as one transaction, a Pending order whose total is the
      draft's total and one order line per entry at the menu's current
      price, then empties the draft; if a menu item is gone, the transaction
      is rolled back and the draft kept. */
  method Checkout(session: Session, db: Database, user: User, form: Option<CheckoutForm>) returns (outcome: CheckoutOutcome)
    requires session.Valid() && db.Valid()
    modifies session, db`orders, db`orderItems, db`nextOrderId
    ensures session.Valid() && db.Valid()
    ensures outcome.EmptyOrder? <==> DraftOf(old(session.order)).keys == []
    ensures outcome.FormShown? <==>
      DraftOf(old(session.order)).keys != [] && !(form.Some? && Filled(form.value.name) && Filled(form.value.email))
    ensures var d := DraftOf(old(session.order));
      outcome.MenuItemNotFound? <==>
        && d.keys != []
        && form.Some? && Filled(form.value.name) && Filled(form.value.email)
        && !AllInMenu(PendingLines(d.keys, d.items), db.menu)
    ensures var d := DraftOf(old(session.order));
      outcome.Placed? <==>
        && d.keys != []
        && form.Some? && Filled(form.value.name) && Filled(form.value.email)
        && AllInMenu(PendingLines(d.keys, d.items), db.menu)
    ensures outcome.Placed? ==>
      var d := DraftOf(old(session.order));
      var f := form.value;
      && outcome.orderId == old(db.nextOrderId)
      && outcome.orderId !in old(db.orders)
      && db.orders == old(db.orders)[outcome.orderId :=
           Order(outcome.orderId, Some(user.id), Total(d), Pending, f.name, f.email, Some(f.phone.GetOr("")))]
      && db.orderItems == old(db.orderItems) + OrderItemsOf(outcome.orderId, PendingLines(d.keys, d.items), db.menu)
      && db.nextOrderId == old(db.nextOrderId) + 1
      && session.order == Some(Empty())
    ensures !outcome.Placed? ==>
      && db.orders == old(db.orders)
      && db.orderItems == old(db.orderItems)
      && db.nextOrderId == old(db.nextOrderId)
      && session.order == old(session.order)
    ensures outcome.FormShown? ==>
      var d := DraftOf(old(session.order));
      && outcome.lines == PendingLines(d.keys, d.items)
      && outcome.total == Total(d)
      && outcome.customerName == DefaultCustomerName(user)
      && outcome.customerEmail == user.email
      && outcome.fieldsMissing == form.Some?
  {
    if session.order.None? || session.order.value.keys == [] {
      return EmptyOrder;
    }
    var d := session.order.value;
    var pending, total := PrepareLines(d);
    if form.None? {
      return FormShown(pending, total, DefaultCustomerName(user), user.email, false);
    }
    var f := form.value;
    if !(Filled(f.name) && Filled(f.email)) {
      return FormShown(pending, total, DefaultCustomerName(user), user.email, true);
    }
    var orderId := db.nextOrderId;
    var order := Order(orderId, Some(user.id), total, Pending, f.name, f.email, Some(f.phone.GetOr("")));
    var ok := PlaceOrder(db, order, pending);
    if !ok {
      return MenuItemNotFound;
    }
    session.order := Some(Empty());
    outcome := Placed(orderId);
  }

  /** `update_order_status` on one order: the posted value becomes the status
      when it names one of the four choices, whatever the current status. */
  function StaffSetStatus(current: Status, posted: Option<string>): (r: Status)
    ensures posted.Some? && posted.value in StatusChoices() ==> StatusName(r) == posted.value
    ensures !(posted.Some? && posted.value in StatusChoices()) ==> r == current
  {
    match posted
    case Some(t) => ParseStatus(t).GetOr(current)
    case None => current
  }

  /** The staff form reaches every status from every status. */
  lemma StaffReachesAnyStatus(current: Status, target: Status)
    ensures StaffSetStatus(current, Some(StatusName(target))) == target
  {
    StatusNameRoundTrip(target);
  }

  /** The contrast between the two ways to change a status: no series of
      one-click admin actions takes a Completed order anywhere, while the
      staff form puts it back to Pending or cancels it. */
  lemma StaffFormBypassesWorkflow(cs: seq<Admin.OneClick>)
    ensures Admin.ApplyAll(Completed, cs) == Completed
    ensures StaffSetStatus(Completed, Some("Pending")) == Pending
    ensures StaffSetStatus(Completed, Some("Cancelled")) == Cancelled
  {
    Admin.TerminalStaysPut(Completed, cs);
  }

  /** `update_order_status` (staff only): a 404 for an unknown order; on a
      POST the status is set as `StaffSetStatus` says, with a success message
      exactly when the posted value was accepted. */
  method UpdateOrderStatus(db: Database, orderId: nat, isPost: bool, posted: Option<string>) returns (notice: Admin.Notice)
    requires db.Valid()
    modifies db`orders
    ensures db.Valid()
    ensures orderId !in old(db.orders) ==> notice == Admin.NotFound && db.orders == old(db.orders)
    ensures orderId in old(db.orders) ==>
      var o := old(db.orders)[orderId];
      && db.orders == old(db.orders)[orderId := o.(status := if isPost then StaffSetStatus(o.status, posted) else o.status)]
      && (notice == Admin.Success <==> isPost && posted.Some? && posted.value in StatusChoices())
      && (notice != Admin.Success ==> notice == Admin.Silent)
  {
    if orderId !in db.orders {
      return Admin.NotFound;
    }
    var order := db.orders[orderId];
    notice := Admin.Silent;
    if isPost && posted.Some? {
      var status := ParseStatus(posted.value);
      if status.Some? {
        db.orders := db.orders[orderId := order.(status := status.value)];
        notice := Admin.Success;
      }
    }
    if notice == Admin.Silent {
      assert order.(status := order.status) == order;
    }
  }

  /** `confirm_reservation_staff` (staff only): sets `confirmed` without
      looking at it, on any request method. */
  method ConfirmReservationStaff(db: Database, id: nat) returns (notice: Admin.Notice)
    requires db.Valid()
    modifies db`reservations
    ensures db.Valid()
    ensures id !in old(db.reservations) ==> notice == Admin.NotFound && db.reservations == old(db.reservations)
    ensures id in old(db.reservations) ==>
      db.reservations == old(db.reservations)[id := old(db.reservations)[id].(confirmed := true)]
      && notice == Admin.Success
  {
    if id !in db.reservations {
      return Admin.NotFound;
    }
    db.reservations := db.reservations[id := db.reservations[id].(confirmed := true)];
    notice := Admin.Success;
  }

  /** Staff and admin confirmation leave a reservation in the same state;
      they differ only in the message a second confirmation gives. */
  lemma ConfirmationPathsAgree(r: Reservation)
    ensures Admin.Confirm(r).0 == r.(confirmed := true)
    ensures r.confirmed ==> Admin.Confirm(r).1 == Admin.Info
  {
  }
}
