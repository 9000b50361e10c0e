/** The records of the restaurant application (restaurant/models.py) and the
    store that holds them. Money is in integer cents; dates, times, images
    and descriptions are opaque strings or left out. */
module Models {
  import opened Wrappers

  /** `Order.status_choices`. */
  datatype Status = Pending | Processing | Completed | Cancelled

  /** The stored value of a status, as in the choice list. */
  function StatusName(s: Status): string
  {
    match s
    case Pending => "Pending"
    case Processing => "Processing"
    case Completed => "Completed"
    case Cancelled => "Cancelled"
  }

  /** The four values a status column may hold. */
  function StatusChoices(): seq<string>
  {
    ["Pending", "Processing", "Completed", "Cancelled"]
  }

  /** Reads a submitted status value back into a status; `None` for any
      text that is not one of the four choices. */
  function ParseStatus(t: string): (r: Option<Status>)
    ensures r.Some? <==> t in StatusChoices()
    ensures r.Some? ==> StatusName(r.value) == t
  {
    if t == "Pending" then Some(Pending)
    else if t == "Processing" then Some(Processing)
    else if t == "Completed" then Some(Completed)
    else if t == "Cancelled" then Some(Cancelled)
    else None
  }

  /** Every status is stored as one of the choices, and reads back as itself. */
  lemma StatusNameRoundTrip(s: Status)
    ensures StatusName(s) in StatusChoices()
    ensures ParseStatus(StatusName(s)) == Some(s)
  {
  }

  /** A dish on the menu; `price` is the `DecimalField` in cents. */
  datatype MenuItem = MenuItem(name: string, price: int, image: Option<string>, available: bool)

  /** A persisted order header. */
  datatype Order = Order(
    id: nat,
    user: Option<nat>,
    total: int,
    status: Status,
    customerName: Option<string>,
    customerEmail: Option<string>,
    customerPhone: Option<string>)

  /** An order created with every field left at its default. */
  function NewOrder(id: nat): (o: Order)
    ensures o.id == id && o.total == 0
    ensures o.status == Pending && StatusName(o.status) == StatusChoices()[0]
    ensures o.user.None? && o.customerName.None? && o.customerEmail.None? && o.customerPhone.None?
  {
    Order(id, None, 0, Pending, None, None, None)
  }

  /** A persisted order line: the unit price is its own column, copied when
      the line is created. */
  datatype OrderItem = OrderItem(orderId: nat, menuItemId: nat, quantity: nat, price: int)

  datatype Reservation = Reservation(
    user: Option<nat>,
    name: string,
    email: string,
    date: string,
    time: string,
    numberOfGuests: nat,
    confirmed: bool)

  /** A reservation created with `confirmed` left at its default. */
  function NewReservation(user: Option<nat>, name: string, email: string, date: string, time: string, guests: nat): (r: Reservation)
    ensures !r.confirmed
    ensures r.(confirmed := true) == Reservation(user, name, email, date, time, guests, true)
  {
    Reservation(user, name, email, date, time, guests, false)
  }

  datatype Review = Review(menuItem: Option<nat>, user: Option<nat>, rating: int, comment: Option<string>)

  /** `rating_choices`, built from `range(1, 6)`. */
  function RatingChoices(): (cs: seq<int>)
    ensures |cs| == 5
    ensures forall r :: r in cs <==> 1 <= r <= 5
  {
    var cs := seq(5, i => i + 1);
    assert cs == [1, 2, 3, 4, 5];
    cs
  }

  /** Two reviews that the unique constraint on (menu_item, user) forbids to
      coexist. As with any SQL unique constraint, a NULL in either column
      never collides. */
  predicate Clash(a: Review, b: Review)
  {
    a.menuItem.Some? && a.user.Some? && a.menuItem == b.menuItem && a.user == b.user
  }

  predicate UniqueReviews(rs: seq<Review>)
  {
    forall i, j :: 0 <= i < j < |rs| ==> !Clash(rs[i], rs[j])
  }

  /** The unique constraint accepts `rv` beside `rs`. */
  predicate Admits(rs: seq<Review>, rv: Review)
  {
    forall i :: 0 <= i < |rs| ==> !Clash(rs[i], rv)
  }

  /** Inserting an admitted review keeps the table free of clashes. */
  lemma InsertKeepsUnique(rs: seq<Review>, rv: Review)
    requires UniqueReviews(rs) && Admits(rs, rv)
    ensures UniqueReviews(rs + [rv])
  {
    var rs' := rs + [rv];
    forall i, j | 0 <= i < j < |rs'|
      ensures !Clash(rs'[i], rs'[j])
    {
      if j == |rs| {
        assert rs'[i] == rs[i] && rs'[j] == rv;
      } else {
        assert rs'[i] == rs[i] && rs'[j] == rs[j];
      }
    }
  }

  /** In a table that keeps the constraint, a signed-in user has at most one
      review of a given menu item. */
  lemma AtMostOneReviewPerPair(rs: seq<Review>, i: nat, j: nat, item: nat, user: nat)
    requires UniqueReviews(rs) && i < |rs| && j < |rs|
    requires rs[i].menuItem == rs[j].menuItem == Some(item)
    requires rs[i].user == rs[j].user == Some(user)
    ensures i == j
  {
    if i < j {
      assert Clash(rs[i], rs[j]);
    } else if j < i {
      assert Clash(rs[j], rs[i]);
    }
  }

  /** A review without a user never collides, however many exist. */
  lemma AnonymousReviewsAdmitted(rs: seq<Review>, rv: Review)
    requires rv.user.None?
    ensures Admits(rs, rv)
  {
  }

  /** The persisted tables, as the ORM exposes them. Ids of new orders come
      from `nextOrderId`. */
  class Database {
    var menu: map<nat, MenuItem>
    var orders: map<nat, Order>
    var orderItems: seq<OrderItem>
    var nextOrderId: nat
    var reservations: map<nat, Reservation>
    var reviews: seq<Review>

    /** Primary keys are positive and below the next one handed out, every
        order line refers to a stored order and menu item, and the reviews
        keep the unique constraint and the non-negative rating column and
        refer to no missing menu item. */
    ghost predicate Valid()
      reads this
    {
      && nextOrderId >= 1
      && (forall id :: id in orders ==> 1 <= id < nextOrderId && orders[id].id == id)
      && (forall i :: 0 <= i < |orderItems| ==>
            orderItems[i].orderId in orders && orderItems[i].menuItemId in menu)
      && UniqueReviews(reviews)
      && (forall i :: 0 <= i < |reviews| ==> reviews[i].rating >= 0)
      && (forall i :: 0 <= i < |reviews| ==> reviews[i].menuItem.None? || reviews[i].menuItem.value in menu)
    }

    constructor (menu: map<nat, MenuItem>, reservations: map<nat, Reservation>)
      ensures Valid()
      ensures this.menu == menu && this.reservations == reservations
      ensures orders == map[] && orderItems == [] && reviews == [] && nextOrderId == 1
    {
      this.menu := menu;
      this.reservations := reservations;
      orders := map[];
      orderItems := [];
      reviews := [];
      nextOrderId := 1;
    }

    /** Editing a menu item's price. Order lines keep the price they were
        created with. */
    method SetMenuPrice(id: nat, price: int) returns (found: bool)
      requires Valid()
      modifies this`menu
      ensures Valid()
      ensures found <==> id in old(menu)
      ensures menu == if found then old(menu)[id := old(menu)[id].(price := price)] else old(menu)
      ensures orderItems == old(orderItems) && orders == old(orders)
    {
      found := id in menu;
      if found {
        menu := menu[id := menu[id].(price := price)];
      }
    }

    /** `Review.objects.create`: the unique constraint on (menu_item, user)
        rejects a clashing review, the column check of a positive integer
        field rejects a negative rating, and the foreign key rejects a menu
        item that is not stored, each with an integrity error. Any other
        rating, in the choice list or not, is stored. */
    method InsertReview(rv: Review) returns (ok: bool)
      requires Valid()
      modifies this`reviews
      ensures Valid()
      ensures ok <==> && rv.rating >= 0
                      && (rv.menuItem.None? || rv.menuItem.value in menu)
                      && Admits(old(reviews), rv)
      ensures reviews == if ok then old(reviews) + [rv] else old(reviews)
    {
      ok := rv.rating >= 0 && (rv.menuItem.None? || rv.menuItem.value in menu) && forall i :: 0 <= i < |reviews| ==> !Clash(reviews[i], rv);
      if ok {
        InsertKeepsUnique(reviews, rv);
        reviews := reviews + [rv];
      }
    }
  }
}
