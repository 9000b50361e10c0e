/** The admin site's custom columns and one-click actions
    (restaurant/admin.py): the guarded order workflow, reservation
    confirmation and the shortened review comment. */
module Admin {
  import opened Wrappers
  import opened Models

  /** What a request reports back: a 404 from the lookup, or the kind of
      flash message it leaves (`messages.success`, `.error`, `.info`), or none. */
  datatype Notice = NotFound | Success | Error | Info | Silent

  // ---- OrderAdmin ----

  predicate CanProcess(s: Status)
  {
    s == Pending
  }

  predicate CanComplete(s: Status)
  {
    s == Processing
  }

  /** The status after the "Process Order" action. */
  function Process(s: Status): (r: Status)
    ensures r != s <==> CanProcess(s)
    ensures CanProcess(s) ==> r == Processing
  {
    if s == Pending then Processing else s
  }

  /** The status after the "Complete Order" action. */
  function Complete(s: Status): (r: Status)
    ensures r != s <==> CanComplete(s)
    ensures CanComplete(s) ==> r == Completed
  {
    if s == Processing then Completed else s
  }

  /** The `custom_actions` column: a button for the one action that applies,
      or the text 'Order Complete'. */
  datatype OrderAction = ProcessButton | CompleteButton | OrderCompleteLabel

  function CustomActions(s: Status): (a: OrderAction)
    ensures a == ProcessButton <==> Process(s) != s
    ensures a == CompleteButton <==> Complete(s) != s
    ensures a == OrderCompleteLabel <==> Process(s) == s && Complete(s) == s
  {
    if s == Pending then ProcessButton
    else if s == Processing then CompleteButton
    else OrderCompleteLabel
  }

  datatype OneClick = ProcessClick | CompleteClick

  function Apply(s: Status, c: OneClick): Status
  {
    match c
    case ProcessClick => Process(s)
    case CompleteClick => Complete(s)
  }

  /** The status after a series of one-click actions. */
  function ApplyAll(s: Status, cs: seq<OneClick>): Status
    decreases cs
  {
    if cs == [] then s else ApplyAll(Apply(s, cs[0]), cs[1..])
  }

  /** Position along Pending, Processing, Completed. */
  function Rank(s: Status): nat
  {
    match s
    case Pending => 0
    case Processing => 1
    case Completed => 2
    case Cancelled => 3
  }

  /** Process and then Complete takes a new order to Completed; Complete
      first is refused. */
  lemma ProcessThenComplete()
    ensures Complete(Process(Pending)) == Completed
    ensures Complete(Pending) == Pending
    ensures Process(Complete(Pending)) == Processing
  {
  }

  /** Completed and Cancelled orders are fixed points of every series of
      one-click actions. */
  lemma {:induction false} TerminalStaysPut(s: Status, cs: seq<OneClick>)
    requires s == Completed || s == Cancelled
    ensures ApplyAll(s, cs) == s
    decreases cs
  {
    if cs != [] {
      TerminalStaysPut(Apply(s, cs[0]), cs[1..]);
    }
  }

  /** One-click actions only move an order forward and never cancel it. */
  lemma {:induction false} OneClickForwardOnly(s: Status, cs: seq<OneClick>)
    ensures Rank(ApplyAll(s, cs)) >= Rank(s)
    ensures ApplyAll(s, cs) == Cancelled <==> s == Cancelled
    decreases cs
  {
    if cs != [] {
      OneClickForwardOnly(Apply(s, cs[0]), cs[1..]);
    }
  }

  /** `process_order`: Pending becomes Processing; any other status is left
      alone and an error reported. */
  method ProcessOrder(db: Database, orderId: nat) returns (notice: Notice)
    requires db.Valid()
    modifies db`orders
    ensures db.Valid()
    ensures orderId !in old(db.orders) ==> notice == NotFound && db.orders == old(db.orders)
    ensures orderId in old(db.orders) ==>
      var o := old(db.orders)[orderId];
      && db.orders == old(db.orders)[orderId := o.(status := Process(o.status))]
      && notice == if CanProcess(o.status) then Success else Error
  {
    if orderId !in db.orders {
      return NotFound;
    }
    var order := db.orders[orderId];
    if order.status == Pending {
      db.orders := db.orders[orderId := order.(status := Processing)];
      notice := Success;
    } else {
      notice := Error;
    }
  }

  /** `complete_order`: Processing becomes Completed; any other status,
      Pending included, is left alone and an error reported. */
  method CompleteOrder(db: Database, orderId: nat) returns (notice: Notice)
    requires db.Valid()
    modifies db`orders
    ensures db.Valid()
    ensures orderId !in old(db.orders) ==> notice == NotFound && db.orders == old(db.orders)
    ensures orderId in old(db.orders) ==>
      var o := old(db.orders)[orderId];
      && db.orders == old(db.orders)[orderId := o.(status := Complete(o.status))]
      && notice == if CanComplete(o.status) then Success else Error
  {
    if orderId !in db.orders {
      return NotFound;
    }
    var order := db.orders[orderId];
    if order.status == Processing {
      db.orders := db.orders[orderId := order.(status := Completed)];
      notice := Success;
    } else {
      notice := Error;
    }
  }

  /** A newly created order shows the Process button and has a zero total. */
  lemma NewOrderAwaitsProcessing(id: nat)
    ensures CustomActions(NewOrder(id).status) == ProcessButton
    ensures NewOrder(id).total == 0
  {
  }

  // ---- ReservationAdmin ----

  /** The `confirmation_action` column. */
  datatype ConfirmationColumn = ConfirmButton | ConfirmedLabel

  function ConfirmationAction(r: Reservation): (c: ConfirmationColumn)
    ensures c == ConfirmButton <==> !r.confirmed
  {
    if !r.confirmed then ConfirmButton else ConfirmedLabel
  }

  /** The reservation after `confirm_reservation`, with the message it leaves:
      success on the first confirmation, 'already confirmed' after that. */
  function Confirm(r: Reservation): (res: (Reservation, Notice))
    ensures res.0.confirmed
    ensures res.0.(confirmed := r.confirmed) == r
    ensures res.1 == Success <==> ConfirmationAction(r) == ConfirmButton
    ensures res.1 != Success ==> res.0 == r && res.1 == Info
  {
    if !r.confirmed then (r.(confirmed := true), Success) else (r, Info)
  }

  /** Confirming twice leaves the reservation as confirming once, and the
      second time only reports that it was already confirmed. */
  lemma ConfirmIdempotent(r: Reservation)
    ensures Confirm(Confirm(r).0).0 == Confirm(r).0
    ensures Confirm(Confirm(r).0).1 == Info
  {
  }

  /** A new reservation is unconfirmed and offers the Confirm button. */
  lemma NewReservationOffersConfirm(user: Option<nat>, name: string, email: string, date: string, time: string, guests: nat)
    ensures ConfirmationAction(NewReservation(user, name, email, date, time, guests)) == ConfirmButton
  {
  }

  /** `confirm_reservation`: looks the reservation up and confirms it. */
  method ConfirmReservation(db: Database, id: nat) returns (notice: Notice)
    requires db.Valid()
    modifies db`reservations
    ensures db.Valid()
    ensures id !in old(db.reservations) ==> notice == NotFound && db.reservations == old(db.reservations)
    ensures id in old(db.reservations) ==>
      var res := Confirm(old(db.reservations)[id]);
      db.reservations == old(db.reservations)[id := res.0] && notice == res.1
  {
    if id !in db.reservations {
      return NotFound;
    }
    var reservation := db.reservations[id];
    if !reservation.confirmed {
      db.reservations := db.reservations[id := reservation.(confirmed := true)];
      notice := Success;
    } else {
      notice := Info;
    }
  }

  // ---- ReviewAdmin ----

  /** The `short_comment` column: 'No comment' for a missing or empty
      comment, the comment itself up to 50 characters, otherwise its first
      50 characters followed by '...'. */
  function ShortComment(comment: Option<string>): (s: string)
    ensures |s| <= 53
    ensures comment.None? || comment.value == [] ==> s == "No comment"
    ensures comment.Some? && 0 < |comment.value| <= 50 ==> s == comment.value
    ensures comment.Some? && |comment.value| > 50 ==>
      |s| == 53 && s[..50] == comment.value[..50] && s[50..] == "..."
  {
    if comment.Some? && comment.value != [] then
      if |comment.value| > 50 then comment.value[..50] + "..." else comment.value
    else
      "No comment"
  }
}
