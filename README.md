# Restaurant ordering core in Dafny

This project models the state-handling core of a Django restaurant site.

- **Order draft.** A signed-in customer builds a draft order in the session, under the key `'order'`. The draft is a dict from the decimal string of a menu item id to a snapshot `{name, price, quantity, image}`. `add_to_order`, `update_order_quantity` and `remove_from_order` change it in place. `order_view` lists it with subtotals and a total.
- **Checkout.** `checkout` turns the draft into one `Order` and one `OrderItem` per entry inside one transaction, then empties the draft.
- **Order status.** Two paths change an order's status:
  - the guarded one-click admin actions `process_order` (Pending → Processing) and `complete_order` (Processing → Completed);
  - the unguarded staff form `update_order_status`, which accepts any of the four statuses from any status.
- **Reservations.** The admin `confirm_reservation` is guarded and idempotent. The staff `confirm_reservation_staff` is unconditional.
- **Small pure helpers.** The admin columns `custom_actions`, `confirmation_action` and `short_comment`; `is_staff`; the home page's `years_serving`; and the `cart_count` context processor.
- **Record model.** The record definitions and constraints from `models.py`: status choices and default, the `OrderItem` price column, the `Reservation.confirmed` default, rating choices and the `unique_together` on reviews.

Modules follow the source files:

| module | file | contents |
|---|---|---|
| `Wrappers` | `wrappers.dfy` | `Option` |
| `Dicts` | `dicts.dfy` | A Python dict as a value: the keys in insertion order beside a map. Also `d[k] = v`, `del d[k]` and sums over `values()`, with their lemmas. |
| `Models` | `models.dfy` | The records of `models.py`, plus the `Database` class whose fields are the tables. |
| `OrderDraft` | `order_draft.dfy` | Key encoding (`str`/`int` of an id), the draft operations as functions, and the lines that the order page and checkout build from a draft. |
| `Admin` | `admin.dfy` | `admin.py` |
| `Views` | `views.dfy` | The request handlers of `views.py`. The session is a class. `AddToOrder` and `Checkout` are methods over the session and the `Database`. `OrderView`, `UpdateOrderQuantity` and `RemoveFromOrder` take only the session. The staff forms `UpdateOrderStatus` and `ConfirmReservationStaff` take only the `Database`. |
| `ContextProcessors` | `context_processors.dfy` | `cart_count` |

Modelling choices:

- Money is in integer cents. The session stores `float(item.price)`, but here it stores the cents value.
- A request is reduced to what the handler reads from it: whether it is a POST, the posted fields as `Option`s (`None` for a missing field), and the signed-in user.
- `get_object_or_404` becomes a lookup, and a missing object leaves the state unchanged:
  - the status and confirmation handlers return the `NotFound` notice;
  - `AddToOrder` returns `found == false`;
  - `Checkout` returns the `MenuItemNotFound` outcome.
- A `Notice` result stands for the kind of flash message only in the status and confirmation handlers (`ProcessOrder`, `CompleteOrder`, `ConfirmReservation`, `UpdateOrderStatus`, `ConfirmReservationStaff`). The draft handlers' success messages (restaurant/views.py:177, 221, 235) are not modelled, and `Checkout`'s messages are its outcome.
- Checkout's `transaction.atomic()` is all-or-nothing on the `Database`. If a menu item is missing midway, every table, including the next order id, is put back as it was. The draft is not cleared.

Behaviour of the code that the model keeps:

- The order total is computed from the draft's snapshot prices, but each order line's `price` is the menu item's price at checkout time. The two agree whenever no price has changed (`OrderDraft.TotalsAgreeWhenPricesCurrent`). `OrderDraft.StalePriceExample` shows them disagreeing.
- `add_to_order` does not look at `is_available`: any existing menu item can be added.
- The one-click admin actions refuse a wrong status with an error message and no change. The staff form, however, sets Completed, Cancelled or Pending from any status. Of the modelled handlers, only the staff form reaches Cancelled.
- `confirm_reservation_staff` confirms on any request method, not only POST.
- `cart_count` reads the session key `'cart'`, which none of the views writes; they write `'order'`. The model keeps the two apart, so the count it states is over a `'cart'` dict.

## Model

| member | source | states |
|---|---|---|
| `Models.ParseStatus` | restaurant/models.py:34-40 | A submitted text is accepted as a status exactly when it is one of the four choices, and it reads back to the same text. |
| `Models.StatusNameRoundTrip` | restaurant/models.py:34-40 | Every status is stored as one of the four choices and parses back to itself. |
| `Models.RatingChoices` | restaurant/models.py:83 | The rating choices are exactly the five integers 1 to 5. |
| `Models.NewOrder` | restaurant/models.py:33-40 | A new order has total 0 and status Pending, the first of the choices, and no user or customer details. |
| `Models.NewReservation` | restaurant/models.py:62-72 | A new reservation is unconfirmed and otherwise holds the given details. |
| `Models.InsertKeepsUnique` | restaurant/models.py:90 | Adding a review that the (menu_item, user) constraint admits keeps the table free of clashes. |
| `Models.AtMostOneReviewPerPair` | restaurant/models.py:90 | In a table that keeps the constraint, two reviews with the same menu item and the same user are the same row. |
| `Models.AnonymousReviewsAdmitted` | restaurant/models.py:81-82 | A review whose user is NULL never clashes, as in SQL unique constraints over nullable columns. |
| `Models.Database.constructor` | restaurant/models.py:30-57 | A new store holds the given menu and reservations, no orders, no order lines and no reviews, and satisfies the store invariant. |
| `Models.Database.SetMenuPrice` | restaurant/views.py:79-89 | Editing a dish's price changes only that menu entry. Stored orders and order lines, with their own price column (restaurant/models.py:57), are unchanged. |
| `Models.Database.InsertReview` | restaurant/models.py:80-90 | The insert succeeds exactly when three things hold: the rating is not negative (the column check of a positive integer field, restaurant/models.py:84); the menu item is NULL or stored (its foreign key, restaurant/models.py:81); and no stored review has the same non-NULL menu item and user. On success the review is appended as given, otherwise nothing changes. The invariant, which includes these column checks, is kept. |
| `OrderDraft.IdKey` | restaurant/views.py:164 | `str(item_id)` is a non-empty string of decimal digits. |
| `OrderDraft.ParseKey` | restaurant/views.py:248 | `int(key)` succeeds exactly on a non-empty string of decimal digits. |
| `OrderDraft.Snapshot` | restaurant/views.py:169-174 | A first-time entry has quantity 1 and the menu item's name, price and image, so its subtotal is the item's price. |
| `OrderDraft.ParseIdKey` | restaurant/views.py:164 | `int(str(item_id)) == item_id`, so checkout reads back the id that was added (restaurant/views.py:248). |
| `OrderDraft.IdKeyInjective` | restaurant/views.py:164 | Different item ids get different session keys. |
| `OrderDraft.Add` | restaurant/views.py:160-174 | The key set grows by exactly the item's key, and the other entries are unchanged. An existing entry's quantity goes up by 1, its other fields and the key order stay as they were. A new entry is appended with the menu item's name, price and image and quantity 1. Drafts stay well-formed. |
| `OrderDraft.SetQuantity` | restaurant/views.py:213-217 | If the key is absent, nothing changes. A quantity ≤ 0 deletes the key and keeps the order of the others. A positive one replaces that entry's quantity and keeps its other fields and the key order. Other entries are untouched. |
| `OrderDraft.Remove` | restaurant/views.py:232-233 | The key set loses exactly the item's key, and the key order is the old one with that key taken out. The remaining entries are unchanged, and an absent key changes nothing. |
| `OrderDraft.RemoveKeepsOrder` | restaurant/views.py:233 | Deleting the entry at position i leaves the other keys in their order, as `del` on a Python dict does, so the order page and checkout list them as before. |
| `OrderDraft.RemoveIdempotent` | restaurant/views.py:225-237 | Removing twice is the same as removing once. |
| `OrderDraft.SetNonPositiveIsRemove` | restaurant/views.py:214-215 | Setting a quantity ≤ 0 is the same as removing the item. |
| `OrderDraft.RemoveUndoesAdd` | restaurant/views.py:169-174 | Removing a newly added item gives back the original draft, order of the keys included. |
| `OrderDraft.SetQuantityUndoesAdd` | restaurant/views.py:166-167 | Adding an existing item and then setting its old quantity back gives back the original draft. |
| `OrderDraft.AddTotal` | restaurant/views.py:166-174 | Adding raises the draft total by one unit price: the snapshot price for an existing entry, the current menu price for a new one. |
| `OrderDraft.SetQuantityTotal` | restaurant/views.py:213-217 | Setting quantity q changes the total from price×old to price×q, or removes the line when q ≤ 0. |
| `OrderDraft.RemoveTotal` | restaurant/views.py:232-233 | Removing a present item takes its subtotal out of the total. |
| `OrderDraft.LinesAt` | restaurant/views.py:186-195 | The i-th order-page line shows the i-th entry, with subtotal = price × quantity. |
| `OrderDraft.LinesTotal` | restaurant/views.py:196 | The sum of the lines' subtotals equals the draft total. |
| `OrderDraft.PendingLinesAt` | restaurant/views.py:245-251 | The i-th prepared checkout line carries the i-th entry's item id, quantity and snapshot subtotal. |
| `OrderDraft.OrderItemsAt` | restaurant/views.py:272-279 | The i-th persisted order line has the i-th prepared line's item and quantity and the menu's current price. |
| `OrderDraft.TotalsAgreeWhenPricesCurrent` | restaurant/views.py:245-279 | While every snapshot price equals the menu price, the order lines sum to the order total. |
| `OrderDraft.TwoDishExample` | restaurant/views.py:245-279 | A draft of two 9.99 and one 5.00 totals 24.98 and persists lines (1, 2, 9.99) and (2, 1, 5.00). |
| `OrderDraft.StalePriceExample` | restaurant/views.py:252 | When dish 1 has gone up to 10.99, the same draft still gives a total of 24.98, while its persisted lines add up to 26.98 (price taken at restaurant/views.py:278). |
| `Admin.Process` | restaurant/admin.py:60-67 | The status changes exactly when it is Pending, and then becomes Processing. |
| `Admin.Complete` | restaurant/admin.py:70-77 | The status changes exactly when it is Processing, and then becomes Completed. |
| `Admin.CustomActions` | restaurant/admin.py:37-48 | The Process button is offered exactly when processing would change the status, the Complete button exactly when completing would, and 'Order Complete' otherwise. |
| `Admin.ProcessThenComplete` | restaurant/admin.py:60-78 | Process then Complete takes Pending to Completed. Complete on Pending changes nothing. |
| `Admin.TerminalStaysPut` | restaurant/admin.py:60-78 | Completed and Cancelled are fixed points of every series of one-click actions. |
| `Admin.OneClickForwardOnly` | restaurant/admin.py:60-78 | One-click actions never move an order back along Pending, Processing, Completed, and they never produce or leave Cancelled. |
| `Admin.ProcessOrder` | restaurant/admin.py:60-68 | An unknown id gives a 404 and no change. Otherwise the status becomes `Process` of it, with success exactly when it was Pending and an error otherwise. No other order changes. |
| `Admin.CompleteOrder` | restaurant/admin.py:70-78 | As `ProcessOrder`, for Processing → Completed. |
| `Admin.NewOrderAwaitsProcessing` | restaurant/models.py:33-40 | A new order has total 0 and status Pending, and so shows the Process button. |
| `Admin.ConfirmationAction` | restaurant/admin.py:87-93 | The Confirm button is offered exactly when the reservation is unconfirmed. |
| `Admin.Confirm` | restaurant/admin.py:106-111 | Afterwards the reservation is confirmed and otherwise unchanged. Success is reported exactly when the button was offered; otherwise nothing changes and 'already confirmed' is reported. |
| `Admin.ConfirmIdempotent` | restaurant/admin.py:104-111 | Confirming twice is confirming once, and the second time only reports 'already confirmed'. |
| `Admin.NewReservationOffersConfirm` | restaurant/models.py:72 | A new reservation is unconfirmed and offers the Confirm button. |
| `Admin.ConfirmReservation` | restaurant/admin.py:104-112 | An unknown id gives a 404 and no change. Otherwise the reservation and the notice are those of `Confirm`, and no other reservation changes. |
| `Admin.ShortComment` | restaurant/admin.py:120-123 | A missing or empty comment gives 'No comment'. One of 1–50 characters is returned unchanged. A longer one gives its first 50 characters followed by '...', 53 characters. Never more than 53. |
| `Views.IsStaff` | restaurant/views.py:13-14 | An anonymous user is never staff. A staff user has the staff flag or is in the Staff group, and a signed-in user with either one is staff. |
| `Views.YearsServing` | restaurant/views.py:114-120 | At least 1. It is 10 with no review, 1 below 730 days, and otherwise the whole number of 365-day years elapsed. |
| `Views.YearsServingMonotone` | restaurant/views.py:116-118 | An older first review never shows fewer years. |
| `Views.Session.constructor` | restaurant/views.py:160 | A new session has no 'order' key. |
| `Views.AddToOrder` | restaurant/views.py:157-178 | It reports found exactly when the menu item exists. If it does not, the session is unchanged. If it does, the draft (created empty when absent) becomes `Add` of it. The draft stays well-formed. |
| `Views.OrderView` | restaurant/views.py:180-202 | Read-only. It gives one line per draft entry in draft order, each `LineOf` that entry, and a total equal to the draft total and to the sum of the lines' subtotals. With no draft, it gives no lines and 0. |
| `Views.UpdateOrderQuantity` | restaurant/views.py:204-223 | On a POST with a draft, the draft becomes `SetQuantity` of the posted quantity, with 0 when the field is missing. Otherwise nothing changes. |
| `Views.RemoveFromOrder` | restaurant/views.py:225-237 | On a POST with a draft, the draft becomes `Remove` of it. Otherwise nothing changes. |
| `Views.DefaultCustomerName` | restaurant/views.py:290 | With neither first nor last name, the form's name is the username. Otherwise it is the first name, a space and the last name. |
| `Views.PrepareLines` | restaurant/views.py:242-252 | The loop yields one pending line per entry in draft order, and the draft total at snapshot prices. |
| `Views.PlaceOrder` | restaurant/views.py:261-279 | Success exactly when every line's menu item exists. On success, the order is stored under the next id and one line per pending line is appended at current menu prices. On failure, orders, lines and the id counter are as before. The store invariant is kept. |
| `Views.Checkout` | restaurant/views.py:239-302 | The outcome is the empty-order error exactly when the draft is empty or absent. The form is shown exactly when the draft is non-empty and name or email is missing. The not-found error comes exactly when the form is complete but a menu item is gone. An order is placed exactly when the draft is non-empty, name and email are posted and non-empty, and every item is still on the menu. The placed order is new, Pending, totals the draft at snapshot prices, and gets one line per entry at current prices; the draft is then emptied. In every other case the store and the draft are unchanged. The form shows the draft's lines and total and the user's name and email. |
| `Views.StaffSetStatus` | restaurant/views.py:51-53 | The posted value becomes the status exactly when it is one of the four choices, from any status. Otherwise the status is kept. |
| `Views.StaffReachesAnyStatus` | restaurant/views.py:51-53 | Every status can be set from every status. |
| `Views.StaffFormBypassesWorkflow` | restaurant/views.py:51-53 | No series of one-click actions moves a Completed order, while the staff form puts it back to Pending or cancels it. |
| `Views.UpdateOrderStatus` | restaurant/views.py:47-56 | An unknown id gives a 404 and no change. On a POST the status becomes `StaffSetStatus` of the posted value, with success exactly when the value was accepted. A GET changes nothing. |
| `Views.ConfirmReservationStaff` | restaurant/views.py:58-64 | An unknown id gives a 404. Otherwise `confirmed` is set to true whatever it was, with a success message. |
| `Views.ConfirmationPathsAgree` | restaurant/views.py:61 | The staff and admin confirmations leave the reservation in the same state; on an already confirmed one, only the admin reports 'already confirmed' (restaurant/admin.py:111). |
| `ContextProcessors.CartCount` | restaurant/context_processors.py:1-6 | Read-only. 0 with no 'cart' key, otherwise the sum of the entries' quantities (missing ones as 0), and non-negative when every quantity is. |
| `ContextProcessors.QuantityOf` | restaurant/context_processors.py:5 | An entry without 'quantity' counts 0, and otherwise its quantity counts. |
| `ContextProcessors.TwoEntryCartCountsFive` | restaurant/tests.py:24-31 | The cart {'1': 2, '2': 3} counts 5. |
| `ContextProcessors.MissingQuantityCountsZero` | restaurant/context_processors.py:5 | An entry without 'quantity' adds nothing to the count. |
| `ContextProcessors.PutQuantityCount` | restaurant/context_processors.py:4-5 | Storing quantity q at a key changes the count by q minus what was counted there. |

## Left out

- HTTP plumbing: rendering, redirects, template contexts and flash message texts. Notices keep only the kind of message.
- Authentication: `login_required` and `user_passes_test(is_staff)` are not modelled. `IsStaff` is a predicate over three flags. Only `Checkout` takes the signed-in user, because it stores the user's id and fills the form from the user's names and email. The other draft handlers and the staff handlers take no user.
- The parse errors of `int()` on the posted quantity: it arrives as an `Option<int>`, so a non-numeric field, which raises in the source, is not modelled.
- `OrderDraft.ParseKey` accepts only non-empty decimal digit strings, not the signs, whitespace or underscores `int()` also accepts. Keys written by `add_to_order` are always plain digits.
- Floating point: the session's `float` prices and the home page's `round(average_rating, 1)` are not modelled; prices are integer cents.
- `DecimalField` digit limits (`max_digits`) are not modelled.
- ORM queries, ordering, counts and averages on the dashboard, home page and profile. Cascade and SET_NULL deletes are not modelled either.
- The real transaction and id-sequence machinery. Checkout's atomic block is all-or-nothing on the `Database` value, with order ids drawn from a counter.
- `order_date`, `created_at` and the current date: `YearsServing` takes the elapsed days of the oldest review as a parameter.
- Image URLs are opaque optional strings.
- `reservation_view`, `submit_review`, `register`, `staff_login`, `add_menu_item` and `delete_menu_item` are plain form handling and ORM inserts. Editing a menu item is reduced to `SetMenuPrice`.
- `Models.Database.InsertReview`: a non-negative rating outside 1–5 is stored. Choice validation happens only in forms, so `objects.create` does not check it. `RatingChoices` states the 1–5 range, and no operation enforces it. The column's upper bound, which depends on the database, is not modelled.
- `Models.Database.InsertReview`: the foreign key on `user` (restaurant/models.py:82) is not checked, because the model keeps no users table. The view that creates reviews passes only the signed-in user or NULL.
- The `OrderItem` quantity default of 1: checkout always passes the draft's quantity, so the default is never used.
- `urls.py`, `forms.py`, `static/restaurant/js/main.js`, `tailwind.config.js` and the management command are not part of this model.
- The Django admin's generic change forms are not modelled: the status field, which is not read-only (restaurant/admin.py:28), lets an admin set any status, Cancelled included; the list-editable `confirmed` column (restaurant/admin.py:84) lets an admin un-confirm a reservation; and `is_available` is list-editable too (restaurant/admin.py:15). Only the custom columns and one-click actions are modelled.
- Concurrent requests on one session or on the same rows: every handler runs alone.
