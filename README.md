# A verified model of a teaching repository's design-pattern and refactoring examples

The repository collects small Java and Python programs that teach design
patterns, refactorings, the SOLID principles and architecture styles, each
usually as a "before" and an "after" version. This project models the parts
of it that compute or keep state, and proves what each version promises and
where the two versions agree or differ:

- the adapter (`CustomerInfoDisplay`, `DatabaseCustomerProvider`, the legacy XML
  service and the `indexOf`/`substring` adapter) — `adapter.dfy`;
- the notifiers: e-mail address and SMS phone derivation from
  `String.hashCode`, the priority, signature and prefix decorators, the manual
  decorations they replace, `NotifierFactory.createNotifier` and the inline
  if/else selection — `notifiers.dfy`, over `java_int.dfy` (32-bit `int`
  arithmetic, `Math.abs`, `hashCode`, `%010d`) and `java_text.dfy` (decimal
  rendering, `indexOf`, `substring`, `toUpperCase`, `rstrip`);
- the order workflow of the shotgun-surgery refactoring: the enum status
  machine with `OrderService.updateOrder`, the boolean-flag `ShotgunOrder`, and
  the handler table of the live version — `shotgun_surgery.dfy`;
- the bloater refactoring: `BloatedOrder` and the split `Order`,
  `OrderProcessor` and `ShipmentManager` — `bloater.dfy`, over `java_list.dfy`
  (`ArrayList.add`/`remove(Object)`);
- the forward and reverse list iterators — `iterators.dfy`;
- the event bus with its stock and news producers and the investor consumer —
  `event_bus.dfy`;
- the weather-station observers (fixed displays before, a registry after) and
  the `Subject` example — `observers.dfy`;
- the singleton — `singleton.dfy`;
- the shipping strategies and the `switch` they replace — `shipping.dfy`;
- the shopping-cart visitors and the loops they replace — `cart.dfy`;
- the Liskov examples (rectangles and squares, file-system items) — `liskov.dfy`;
- the Python book service: the dict-backed table of the current version and
  the list-backed table of the older one — `book_rest.dfy`, over `py_json.dfy`;
- the refactored Python client: `CrudResource` URL building and the
  operation-to-request mapping (`crud.dfy`) and the `Book` record (`book.dfy`).

Shared datatypes (`Option`, `Result`, the `Outcome` of a call that may throw,
and the exceptions the programs raise) are in `common.dfy`.

Every class whose fields the source updates is a Dafny `class` whose methods
state the whole new state; pure expressions are functions; loops are
methods with invariants, proved against a specification function. Printing is
replaced by the returned value or by a record of calls (an `Outbox` of
database writes and e-mails, a log of notified observers). Money, weights and
humidity are `real`: no IEEE rounding is claimed.

## Model

| member | source | states |
|---|---|---|
| Adapter.DatabaseData | src/design_patterns/lecture/adapter/PostAdapterMain.java:11-14 | the database provider's string starts with "DB Customer Data {ID: ", so it is never empty |
| Adapter.GetUserData | src/design_patterns/lecture/adapter/PostAdapterMain.java:31-36 | the legacy service always returns XML content (never a null content), the id in decimal inside the fixed user template |
| Adapter.ConvertXmlToString | src/design_patterns/lecture/adapter/PostAdapterMain.java:69-86 | "" exactly when the XML object or its content is null; the adapted string of the three first-occurrence fields when all three `substring` calls succeed; otherwise the error string with the XML appended |
| Adapter.LegacyFields | src/design_patterns/lecture/adapter/PostAdapterMain.java:77-79 | in the legacy XML for any id text without `<`, the first `<ID>`/`</ID>`, `<Name>`/`</Name>`, `<Contact>`/`</Contact>` pairs enclose the id, the legacy name and the legacy contact |
| Adapter.Extract | src/design_patterns/lecture/adapter/PostAdapterMain.java:77-79 | `xml.substring(xml.indexOf(open) + |open|, xml.indexOf(close))`: a missing closing tag throws; a success is exactly the text of `xml` that starts right after the first opening tag and ends at the first closing tag |
| Adapter.IdField | src/design_patterns/lecture/adapter/PostAdapterMain.java:77 | the id extraction of the legacy XML yields exactly the id text |
| Adapter.NameField | src/design_patterns/lecture/adapter/PostAdapterMain.java:78 | the name extraction of the legacy XML yields "Jane Smith (Legacy)" |
| Adapter.ContactField | src/design_patterns/lecture/adapter/PostAdapterMain.java:79 | the contact extraction of the legacy XML yields "jane.legacy@example.net" |
| Adapter.AdapterRoundTrip | src/design_patterns/lecture/adapter/PostAdapterMain.java:55-66 | for every id, the adapter returns "Adapted Legacy Data {ID: <id>, Name: 'Jane Smith (Legacy)', Contact: 'jane.legacy@example.net'}" |
| Adapter.GetCustomerDataById | src/design_patterns/lecture/adapter/PostAdapterMain.java:11-66 | whichever provider answers, the string is never empty; the database provider gives its own record and the adapter gives the conversion of the legacy service's XML for that id |
| Adapter.MissingCloseTag | src/design_patterns/lecture/adapter/PostAdapterMain.java:76-85 | if any closing tag is absent, `substring` throws and the adapter returns "Error processing legacy data: " followed by the XML |
| Adapter.Show | src/design_patterns/lecture/adapter/PostAdapterMain.java:99-104 | `displayCustomer` takes the "No data found" branch exactly when the provider's string is null or empty, and otherwise displays that string |
| Adapter.ProvidersAlwaysDisplay | src/design_patterns/lecture/adapter/PreAdapterMain.java:55-61 | with either provider, `displayCustomer` always shows data |
| Adapter.CustomerInfoDisplay.constructor | src/design_patterns/lecture/adapter/PostAdapterMain.java:93-95 | the client holds the provider it was given |
| Adapter.CustomerInfoDisplay.DisplayCustomer | src/design_patterns/lecture/adapter/PostAdapterMain.java:97-105 | asks the current provider for the id and picks the branch from its answer; a null provider throws `NullPointerException` |
| Adapter.CustomerInfoDisplay.SetDataProvider | src/design_patterns/lecture/adapter/PostAdapterMain.java:107-110 | replaces the provider, so later calls query only the new one; a null provider throws at `getClass` and leaves the old one in place |
| Adapter.DemoRecords | src/design_patterns/lecture/adapter/PostAdapterMain.java:134-135 | the adapter's answers for ids 202 and 203 carry "202" and "203" and the legacy name and contact |
| Adapter.AdapterScenario | src/design_patterns/lecture/adapter/PostAdapterMain.java:115-138 | the demo displays the database record for 101, then the adapted legacy records for 202 and 203 |
| Notifiers.EmailAddressRoundTrip | src/design_patterns/live/decorator/PostDecoratorMain.java:20-22 | the e-mail address is the user id followed by "@example.com", and the user id is recovered from it, so different users get different addresses |
| Notifiers.EmailAddress | src/design_patterns/live/decorator/PostDecoratorMain.java:22 | the address is the user id followed by "@example.com" and nothing else |
| Notifiers.UserOfEmail | src/design_patterns/lecture/decorator/PreDecoratorMain.java:23 | the user recovered from an address is strictly shorter than the address |
| Notifiers.PhoneDigits | src/design_patterns/lecture/decorator/PreDecoratorMain.java:43 | unless `hashCode` is `Integer.MIN_VALUE`, the phone is "+1" followed by exactly ten digits whose value is `Math.abs(hashCode)` (the modulo by 10^10 changes nothing) |
| Notifiers.Phone | src/design_patterns/lecture/decorator/PreDecoratorMain.java:43 | the phone number starts with "+1" and has at least ten characters after it |
| Notifiers.PhoneOfMinHash | src/design_patterns/lecture/decorator/PreDecoratorMain.java:43 | when `hashCode` is `Integer.MIN_VALUE`, `Math.abs` stays negative and the phone is "+1-2147483648" |
| Notifiers.HashStep | src/design_patterns/lecture/decorator/PreDecoratorMain.java:43 | one more character multiplies the 32-bit hash by 31 and adds the character, wrapping to `int` |
| Notifiers.MinHashWitness | src/design_patterns/lecture/decorator/PreDecoratorMain.java:43 | such an input exists: "polygenelubricants" hashes to `Integer.MIN_VALUE` and gets the phone "+1-2147483648" |
| Notifiers.Core | src/design_patterns/live/decorator/PostDecoratorMain.java:58-72 | the notifier at the centre of any stack of decorators is an e-mail or SMS notifier |
| Notifiers.Send | src/design_patterns/live/decorator/PostDecoratorMain.java:20-129 | a decorated send reaches the user it was given, the body keeps at least the message's length, and the channel is the base notifier's: the e-mail address for an e-mail core, the phone number for an SMS core |
| Notifiers.SendReachesCore | src/design_patterns/live/decorator/PostDecoratorMain.java:69-72 | every decorator passes the user id through unchanged, down to the channel of the base notifier (the address or phone of that user) |
| Notifiers.SendFrames | src/design_patterns/live/decorator/PostDecoratorMain.java:85-129 | the delivered body is the message framed by the layers: priority marks and prefixes before it with the innermost layer's text leftmost, signatures after it |
| Notifiers.SendShape | src/design_patterns/lecture/decorator/PostDecoratorMain.java:24-84 | a stack of decorators delivers once to the base notifier's channel for the same user, with the body framed by the layers' texts |
| Notifiers.StackedPrefixes | src/design_patterns/live/decorator/PostDecoratorMain.java:124-128 | with two prefix decorators, the inner prefix ends up leftmost in the delivered message |
| Notifiers.PrioritySignatureCommute | src/design_patterns/lecture/decorator/PostDecoratorMain.java:40-64 | priority and signature decorators commute: either nesting delivers the same thing |
| Notifiers.DecoratorsMatchManual | src/design_patterns/lecture/decorator/PreDecoratorMain.java:75-85 | signature over priority over e-mail delivers the manual "[HIGH PRIORITY] " + message + signature; the "URGENT: " prefix over SMS delivers the manual "URGENT: " + message |
| Notifiers.ManualEmailDecoration | src/design_patterns/lecture/decorator/PreDecoratorMain.java:75-77 | the hand-built e-mail body is "[HIGH PRIORITY] ", then the message unchanged, then the signature |
| Notifiers.ManualSmsDecoration | src/design_patterns/lecture/decorator/PreDecoratorMain.java:82-83 | the hand-built SMS body is "URGENT: " followed by the message unchanged |
| Notifiers.SingleLayerDemo | src/design_patterns/live/decorator/PostDecoratorMain.java:143-154 | the one-layer compositions of the demo deliver "[HIGH PRIORITY] " + report by e-mail and "URGENT: " + alert by SMS |
| Notifiers.TwoLayerDemo | src/design_patterns/live/decorator/PostDecoratorMain.java:159-171 | signature over priority over e-mail delivers "[HIGH PRIORITY] " + m + signature; signature over the "URGENT: " prefix over SMS delivers "URGENT: " + m + signature |
| Notifiers.ConfiguredEmail | src/design_patterns/live/factory/PostFactoryMain.java:84-88 | the factory's e-mail notifier defaults to "smtp.example.com" and port 587 when the properties are absent |
| Notifiers.ConfiguredSms | src/design_patterns/live/factory/PostFactoryMain.java:90-98 | the factory's SMS notifier defaults to the fixed account id and token when the environment variables are missing |
| Notifiers.CreateNotifier | src/design_patterns/live/factory/PostFactoryMain.java:78-113 | returns a notifier exactly when the type is non-null and upper-cases to "EMAIL" or "SMS", the e-mail one for "EMAIL"; null and empty types give null |
| Notifiers.CreateNotifierIgnoresCase | src/design_patterns/live/factory/PostFactoryMain.java:83 | two type names that upper-case alike select the same notifier |
| Notifiers.SelectNotifier | src/design_patterns/live/factory/PreFactoryMain.java:81-117 | the inline chain selects a notifier exactly for the exact strings "EMAIL" and "SMS"; a null type is unsupported without throwing |
| Notifiers.SelectionRefinedByFactory | src/design_patterns/live/factory/PreFactoryMain.java:91-106 | for exactly "EMAIL" or "SMS" the factory builds the same notifier as the inline chain |
| Notifiers.SelectionCaseDivergence | src/design_patterns/live/factory/PreFactoryMain.java:91 | the two differ on other casings: "email" is unsupported inline but an e-mail notifier from the factory |
| Notifiers.SendNotification | src/design_patterns/live/factory/PostFactoryMain.java:129-148 | one delivery with the given user and message exactly when the factory returns a notifier, by e-mail exactly for "EMAIL" in any case; none otherwise |
| Notifiers.PreSendNotification | src/design_patterns/live/factory/PreFactoryMain.java:80-132 | one delivery exactly for "EMAIL" or "SMS", by e-mail for "EMAIL"; nothing is sent otherwise |
| Notifiers.SendNotificationRefines | src/design_patterns/live/factory/PreFactoryMain.java:121-132 | wherever the old service sends, the refactored one sends the same delivery |
| ShotgunSurgery.StatusUpdateEmail | src/refactoring/shotgun_surgery/Order.java:67-81 | `sendStatusUpdate` throws `IllegalArgumentException("Unknown order status")` exactly for NEW, and otherwise sends the confirmation matching the status to that customer and order |
| ShotgunSurgery.Step | src/refactoring/shotgun_surgery/Order.java:28-50 | an operation is accepted exactly from its own source status, and then moves the order one status further along NEW, PAID, SHIPPED, DELIVERED |
| ShotgunSurgery.StepAdvances | src/refactoring/shotgun_surgery/Order.java:28-50 | an accepted operation moves the status exactly one stage along NEW, PAID, SHIPPED, DELIVERED |
| ShotgunSurgery.DeliveredIsTerminal | src/refactoring/shotgun_surgery/Order.java:28-50 | from DELIVERED every operation is refused |
| ShotgunSurgery.OneOperationPerStatus | src/refactoring/shotgun_surgery/Order.java:29-45 | at most one operation is accepted from any status |
| ShotgunSurgery.Run | src/refactoring/shotgun_surgery/Order.java:28-50 | a series of operations advances the status by at most one stage per operation and never moves it back |
| ShotgunSurgery.RunFromDelivered | src/refactoring/shotgun_surgery/Order.java:28-98 | once delivered, no series of operations changes the status |
| ShotgunSurgery.LifecycleFromNew | src/refactoring/shotgun_surgery/Order.java:18-50 | from NEW, pay, ship and deliver reach DELIVERED, and whatever follows leaves it there |
| ShotgunSurgery.NoUnknownStatusAfterStep | src/refactoring/shotgun_surgery/Order.java:78-79 | every status an accepted operation reaches has an e-mail, so the throwing branch of `sendStatusUpdate` is unreachable from `Order` |
| ShotgunSurgery.UpdateOrderEffects | src/refactoring/shotgun_surgery/Order.java:54-57 | `updateOrder` first writes the status name to the database, and sends an e-mail as the second call exactly when the status is not NEW |
| ShotgunSurgery.Outbox.constructor | src/refactoring/shotgun_surgery/Order.java:60-94 | the record of database and mailer calls starts empty |
| ShotgunSurgery.Outbox.Record | src/refactoring/shotgun_surgery/Order.java:60-94 | a call is appended to the record, after the earlier ones |
| ShotgunSurgery.Order.constructor | src/refactoring/shotgun_surgery/Order.java:18-24 | a new order stores its id, customer, address and total and starts in NEW |
| ShotgunSurgery.Order.UpdateOrder | src/refactoring/shotgun_surgery/Order.java:54-57 | records the status write and then the e-mail for the current status; throws for NEW after the write |
| ShotgunSurgery.Order.Apply | src/refactoring/shotgun_surgery/Order.java:28-50 | a refused operation throws `IllegalStateException` with its message and changes neither the status nor the record; an accepted one sets the status first and then records exactly the status write and matching e-mail |
| ShotgunSurgery.Order.MarkAsPaid | src/refactoring/shotgun_surgery/Order.java:28-34 | only from NEW: then PAID, "PAID" written and the payment confirmation sent; otherwise it throws and nothing changes |
| ShotgunSurgery.Order.ShipOrder | src/refactoring/shotgun_surgery/Order.java:36-42 | only from PAID: then SHIPPED, "SHIPPED" written and the shipping confirmation sent; otherwise it throws and nothing changes |
| ShotgunSurgery.Order.DeliverOrder | src/refactoring/shotgun_surgery/Order.java:44-50 | only from SHIPPED: then DELIVERED, "DELIVERED" written and the delivery confirmation sent; otherwise it throws and nothing changes |
| ShotgunSurgery.ShotgunOrder.constructor | src/refactoring/shotgun_surgery/ShotgunOrder.java:8-15 | all three flags start false (Java's defaults) |
| ShotgunSurgery.ShotgunOrder.MarkAsPaid | src/refactoring/shotgun_surgery/ShotgunOrder.java:19-25 | no guard: sets the paid flag, and every call records "PAID" and sends the payment confirmation again |
| ShotgunSurgery.ShotgunOrder.ShipOrder | src/refactoring/shotgun_surgery/ShotgunOrder.java:27-36 | throws `IllegalStateException` and changes nothing when not paid; otherwise sets the shipped flag and records "SHIPPED" and the confirmation, also on repeats; delivered implies shipped implies paid is kept |
| ShotgunSurgery.ShotgunOrder.DeliverOrder | src/refactoring/shotgun_surgery/ShotgunOrder.java:38-47 | throws and changes nothing when not shipped; otherwise sets the delivered flag and records "DELIVERED" and the confirmation, also on repeats |
| ShotgunSurgery.FlagsAfter | src/refactoring/shotgun_surgery/ShotgunOrder.java:13-47 | the flags after any series of operations still satisfy delivered implies shipped implies paid, and no flag is ever cleared |
| ShotgunSurgery.FlagsOf | src/refactoring/shotgun_surgery/ShotgunOrder.java:13-15 | the flags matching each enum status are ordered |
| ShotgunSurgery.FlagsRefineStatus | src/refactoring/shotgun_surgery/ShotgunOrder.java:19-47 | along any series the enum version accepts in full, the flag version reaches the flags of the same status |
| ShotgunSurgery.FlagsAcceptRepeatedPayment | src/refactoring/shotgun_surgery/ShotgunOrder.java:19-25 | the flag version is laxer: paying twice then shipping succeeds there, while the enum version refuses the second payment |
| ShotgunLive.Validate | src/refactoring/shotgun_surgery/live/PaidStatusHandler.java:6-10 | the PAID handler's `validate` passes iff the status is NEW and otherwise throws `IllegalStateException("Wrong order status for PAID update.")`; the SHIPPED and DELIVERED handlers always throw `UnsupportedOperationException` |
| ShotgunLive.OnEnter | src/refactoring/shotgun_surgery/live/PaidStatusHandler.java:13-18 | the PAID handler records "PAID" and then sends the payment confirmation; the other handlers throw and make no call; none changes the status |
| ShotgunLive.OnlyNewToPaid | src/refactoring/shotgun_surgery/live/OrderService.java:10-15 | the only change of status that succeeds is NEW to PAID |
| ShotgunLive.ChangeOutcome | src/refactoring/shotgun_surgery/live/OrderService.java:10-15 | requesting NEW always throws a NullPointerException (no handler); the change completes exactly when a NEW order is moved to PAID |
| ShotgunLive.NewHasNoHandler | src/refactoring/shotgun_surgery/live/OrderService.java:6-11 | the table has no handler for NEW, so requesting NEW throws `NullPointerException` |
| ShotgunLive.Order.constructor | src/refactoring/shotgun_surgery/live/OrderService.java:10-15 | the live order holds the id, customer and status the handlers read and write |
| ShotgunLive.ChangeStatus | src/refactoring/shotgun_surgery/live/OrderService.java:10-15 | a missing handler or a failed `validate` leaves the status and the record unchanged; otherwise the status is assigned before `onEnter` runs and the record gains exactly `onEnter`'s calls |
| JavaList.RemoveFirst | src/refactoring/bloater/BloatedOrder.java:74-77 | `List.remove(Object)`: an absent element leaves the list unchanged; a present one removes exactly one occurrence and nothing else, as multisets |
| JavaList.RemoveFirstAt | src/refactoring/bloater/Order.java:40-42 | the occurrence removed is the first one: what precedes it and what follows it stay in order |
| JavaList.AddThenRemove | src/refactoring/bloater/Order.java:36-42 | appending an element not yet present and removing it gives the list back |
| JavaList.RemoveFirstDistinct | src/design_patterns/lecture/observer/PostObserverMain.java:51-55 | removing from a list without duplicates keeps it so and leaves no occurrence of the element behind |
| JavaList.JList.constructor | src/refactoring/bloater/BloatedOrder.java:13-23 | a list object holding the given elements |
| JavaList.JList.Add | src/refactoring/bloater/BloatedOrder.java:70 | `add` appends at the end |
| JavaList.JList.Remove | src/refactoring/bloater/BloatedOrder.java:75 | `remove` reports whether the element was there and drops its first occurrence |
| Bloater.ShipFlags | src/refactoring/bloater/BloatedOrder.java:99-111 | `shipOrder` sets only the shipped flag, and sets it iff the order is paid (a shipped order stays shipped) |
| Bloater.DeliverFlags | src/refactoring/bloater/BloatedOrder.java:113-125 | `deliverOrder` sets only the delivered flag, and sets it iff the order is shipped (a delivered order stays delivered) |
| Bloater.GuardedCallsKeepOrder | src/refactoring/bloater/BloatedOrder.java:99-125 | as long as the flags change only by paying and through `shipOrder`/`deliverOrder`, delivered implies shipped implies paid |
| Bloater.SettersBreakOrder | src/refactoring/bloater/BloatedOrder.java:49-67 | the public setters bypass the guards: a fresh order can be marked delivered without being paid or shipped, or shipped and then unpaid |
| Bloater.BloatedOrder.constructor | src/refactoring/bloater/BloatedOrder.java:13-23 | stores the fields, keeps the caller's list object itself (aliasing), and starts with all three flags false |
| Bloater.BloatedOrder.SetPaid | src/refactoring/bloater/BloatedOrder.java:49-51 | sets only the paid flag |
| Bloater.BloatedOrder.SetShipped | src/refactoring/bloater/BloatedOrder.java:57-59 | sets only the shipped flag |
| Bloater.BloatedOrder.SetDelivered | src/refactoring/bloater/BloatedOrder.java:65-67 | sets only the delivered flag |
| Bloater.BloatedOrder.AddItem | src/refactoring/bloater/BloatedOrder.java:69-72 | appends the item to the shared list and adds the price to the total; the flags do not change |
| Bloater.BloatedOrder.RemoveItem | src/refactoring/bloater/BloatedOrder.java:74-77 | removes the first equal item if present, and subtracts the price even when the item was absent |
| Bloater.BloatedOrder.ProcessOrder | src/refactoring/bloater/BloatedOrder.java:90-97 | refuses exactly when unpaid and changes no field either way |
| Bloater.BloatedOrder.ShipOrder | src/refactoring/bloater/BloatedOrder.java:99-111 | refuses an unpaid order, reports an already shipped one, and otherwise sets the shipped flag; nothing else changes |
| Bloater.BloatedOrder.DeliverOrder | src/refactoring/bloater/BloatedOrder.java:113-125 | refuses an unshipped order, reports an already delivered one, and otherwise sets the delivered flag; nothing else changes |
| Bloater.RemoveAbsentStillCharges | src/refactoring/bloater/BloatedOrder.java:74-77 | removing an item the order does not hold leaves its list as it was, yet the price is still subtracted from the total |
| Bloater.AddRemoveRestores | src/refactoring/bloater/BloatedOrder.java:69-77 | adding an item the order does not hold and removing it again restores the list, the total and the flags |
| Bloater.Customer.constructor | src/refactoring/bloater/Order.java:45-50 | a customer holds its name and address |
| Bloater.Item.constructor | src/refactoring/bloater/Order.java:52-57 | an item holds its name and price |
| Bloater.Order.constructor | src/refactoring/bloater/Order.java:18-24 | a new order is UNPAID and NOT_SHIPPED and holds the caller's list |
| Bloater.Order.AddItem | src/refactoring/bloater/Order.java:36-38 | appends the item |
| Bloater.Order.RemoveItem | src/refactoring/bloater/Order.java:40-42 | removes the first occurrence of that item object if present |
| Bloater.ShipStatus | src/refactoring/bloater/Order.java:79-91 | an unpaid order keeps its shipment status; a paid one is SHIPPED afterwards, whatever it was |
| Bloater.DeliverStatus | src/refactoring/bloater/Order.java:93-105 | the result is DELIVERED exactly when the order was shipped or delivered; only SHIPPED changes |
| Bloater.ProcessOrder | src/refactoring/bloater/Order.java:67-76 | refuses exactly when not PAID and changes nothing |
| Bloater.ShipOrder | src/refactoring/bloater/Order.java:79-91 | refuses an unpaid order, reports one whose status is SHIPPED, and otherwise sets SHIPPED; the payment status never changes |
| Bloater.DeliverOrder | src/refactoring/bloater/Order.java:93-105 | moves only SHIPPED to DELIVERED, refuses every other status, and never produces the "already delivered" line |
| Bloater.ShippingUndoesDelivery | src/refactoring/bloater/Order.java:84-89 | shipping a paid DELIVERED order moves it back to SHIPPED, because only SHIPPED is checked |
| Bloater.FreshOrderNeverShips | src/refactoring/bloater/Order.java:22-83 | nothing in the file changes the payment status, so an order as built stays NOT_SHIPPED whatever the managers do |
| Iterators.Reversed | src/design_patterns/iterator/Iterator.java:51-69 | the reversed list has the same length, and its i-th element is the list's (size-1-i)-th |
| Iterators.ReversedTwice | src/iterator/IteratorExample.java:14-23 | reversing twice gives the list back |
| Iterators.MyList.constructor | src/design_patterns/iterator/Iterator.java:18-19 | a `MyList` starts with a new, empty list |
| Iterators.MyList.AddItem | src/design_patterns/iterator/Iterator.java:21-23 | `addItem` appends |
| Iterators.MyList.CreateIterator | src/design_patterns/iterator/Iterator.java:25-27 | `createIterator` returns a new forward iterator over the live list itself (not a copy), with its cursor at 0 |
| Iterators.MyListIterator.constructor | src/iterator/MyListIterator.java:8-12 | the forward cursor starts at 0 on the shared list |
| Iterators.MyListIterator.HasNext | src/iterator/MyListIterator.java:14-16 | `hasNext` holds iff the cursor is below the list's current size, and changes nothing |
| Iterators.MyListIterator.Next | src/iterator/MyListIterator.java:18-22 | below the size, returns the element under the cursor and moves one step on; otherwise `get` throws and the cursor stays |
| Iterators.MyReverseListIterator.constructor | src/iterator/MyReverseListIterator.java:10-13 | the reverse cursor is fixed at size-1 of the list at construction |
| Iterators.MyReverseListIterator.HasNext | src/iterator/MyReverseListIterator.java:15-17 | true exactly when the cursor is at 0 or above; once false, a valid cursor sits at -1 |
| Iterators.MyReverseListIterator.Next | src/iterator/MyReverseListIterator.java:19-23 | inside the list, returns the element under the cursor and moves one step back; outside it `get` throws and the cursor stays |
| Iterators.Remaining | src/design_patterns/iterator/Iterator.java:39-47 | what a forward cursor still has to give: the list from the cursor on, in order, or nothing once the list is shorter |
| Iterators.DrainForward | src/iterator/IteratorExample.java:14-17 | looping `while (hasNext()) next()` yields exactly the rest of the list in order and leaves the cursor at the end |
| Iterators.DrainReverse | src/iterator/IteratorExample.java:20-23 | draining a reverse iterator yields the list up to the cursor in reverse order and ends at -1; a cursor past the end (the list shrank) makes the first `next` throw |
| Iterators.ForwardFromStart | src/design_patterns/iterator/Iterator.java:31-48 | from a fresh cursor the forward drain is the whole list |
| Iterators.ReverseFromStart | src/design_patterns/iterator/Iterator.java:51-69 | a fresh reverse cursor covers the whole list, so its drain reversed again is the list |
| Iterators.Example | src/iterator/IteratorExample.java:8-24 | over three items the forward drain gives them in order and the reverse drain gives them in reverse order |
| Iterators.AppendAfterCreation | src/iterator/MyReverseListIterator.java:12 | an item appended after both iterators are built is visited by the forward one but never by the reverse one |
| Iterators.RemoveAfterCreation | src/iterator/MyReverseListIterator.java:12-20 | if the list shrinks after the reverse iterator is built, its first `next` throws |
| EventDriven.UpdateLine | src/architectures/event_driven/consumers/InvestorImpl.java:13-24 | exact, case-sensitive dispatch: "PRICE_CHANGED" gives the price line and throws `NullPointerException` for a null stock; "NEWS_UPDATE" gives the news line without touching the stock; any other type gives the unknown-event line; every line carries the investor's name |
| EventDriven.InvestorImpl.constructor | src/architectures/event_driven/consumers/InvestorImpl.java:8-10 | the name is fixed at construction |
| EventDriven.InvestorImpl.Update | src/architectures/event_driven/consumers/InvestorImpl.java:13-24 | `update` produces the line `UpdateLine` describes, reading the stock's symbol and price at that moment |
| EventDriven.Published | src/architectures/event_driven/EventBus.java:25-32 | publishing to a list of subscribers calls `update` once per entry in order, so it yields one line per subscriber; it throws only for a price event with a null stock and a non-empty list |
| EventDriven.Subscribed | src/architectures/event_driven/EventBus.java:14-16 | `subscribe` appends the investor to that type's list, creating the list on first use, and leaves the other types alone |
| EventDriven.Unsubscribed | src/architectures/event_driven/EventBus.java:18-23 | `unsubscribe` removes one occurrence from that type's list, is a no-op for an unknown type or an absent investor, and leaves the other types alone |
| EventDriven.EventBus.constructor | src/architectures/event_driven/EventBus.java:12 | the bus starts with no subscriptions |
| EventDriven.EventBus.Subscribe | src/architectures/event_driven/EventBus.java:14-16 | the new map is `Subscribed` of the old one |
| EventDriven.EventBus.Unsubscribe | src/architectures/event_driven/EventBus.java:18-23 | the new map is `Unsubscribed` of the old one; removal is of the first occurrence |
| EventDriven.EventBus.Publish | src/architectures/event_driven/EventBus.java:25-32 | the loop produces exactly what `Published` gives for the type's subscribers (nothing for an unknown type) and does not change the subscription map |
| EventDriven.Stock.constructor | src/architectures/event_driven/producers/Stock.java:10-14 | stores symbol, price and bus |
| EventDriven.Stock.SetPrice | src/architectures/event_driven/producers/Stock.java:16-19 | stores the new price before publishing, so every subscriber of "PRICE_CHANGED" reads the new price; exactly one event, carrying this stock; the symbol is unchanged |
| EventDriven.News.constructor | src/architectures/event_driven/producers/News.java:9-12 | the headline is fixed at construction |
| EventDriven.News.AnnounceNews | src/architectures/event_driven/producers/News.java:14-17 | one "NEWS_UPDATE" event with a null stock, which never throws, and the headline line after the subscribers' lines |
| EventDriven.NewsNeverThrows | src/architectures/event_driven/consumers/InvestorImpl.java:18-20 | a news event never makes `publish` throw, whatever the stock argument |
| EventDriven.DuplicateSubscriptionTwice | src/architectures/event_driven/EventBus.java:15-30 | an investor subscribed twice to a type is notified twice per event |
| EventDriven.SubscribeThenUnsubscribe | src/architectures/event_driven/EventBus.java:14-23 | subscribing a new investor and unsubscribing it again leaves every type's list as it was |
| EventDriven.UnsubscribeSilences | src/architectures/event_driven/Main.java:54-58 | an investor subscribed once to a type is no longer in its list after unsubscribing, so it hears nothing more of that type |
| EventDriven.PublishedToTwo | src/architectures/event_driven/EventBus.java:28-30 | publishing to two subscribers yields their two lines in subscription order |
| EventDriven.PublishedToOne | src/architectures/event_driven/EventBus.java:28-30 | publishing to one subscriber yields its line |
| EventDriven.ExampleSubscriptions | src/architectures/event_driven/Main.java:36-47 | after the four subscriptions, both types list Alice then Bob |
| EventDriven.ExampleBothSubscribed | src/architectures/event_driven/Main.java:49-50 | the price change reaches Alice then Bob with the new price; the news reaches Alice then Bob and then the headline is printed |
| EventDriven.ExampleUnsubscribe | src/architectures/event_driven/Main.java:54-55 | after Bob unsubscribes from both types, only Alice remains in each |
| EventDriven.Example | src/architectures/event_driven/Main.java:35-59 | the whole run prints, in order, both investors' updates for 155 and the news, both for 160, then only Alice's for 170 and the last news |
| Weather.PreTrend | src/design_patterns/live/observer/PreObserverMain.java:59-70 | "need more data" exactly when last is -1; otherwise improving, same or rainy exactly as the current humidity is above, equal to or below the last |
| Weather.PostTrend | src/design_patterns/lecture/observer/PostObserverMain.java:156-176 | the -1 guard first, showing the current reading; otherwise the same three-way comparison |
| Weather.TrendsAgree | src/design_patterns/lecture/observer/PostObserverMain.java:159-175 | the coupled and the refactored forecast agree whenever last is not -1; at -1 both ask for more data, the refactored one also showing the reading |
| Weather.HumidityAfter | src/design_patterns/lecture/observer/PostObserverMain.java:146-154 | after readings the forecast holds the last one as current and the one before as last; before any it holds (-1, 0), after the first (0, reading) |
| Weather.NeedMoreDataOnlyAfterMinusOne | src/design_patterns/live/observer/PreObserverMain.java:49-56 | once a reading has arrived, "need more data" is shown exactly when the previous reading was -1, in both versions: current starts at 0, so the first update already compares |
| Weather.FirstUpdateComparesWithZero | src/design_patterns/lecture/observer/PostObserverMain.java:146-151 | after the first reading both forecasts show the trend of that reading against 0, not "need more data" |
| WeatherPre.CurrentConditionsDisplay.constructor | src/design_patterns/live/observer/PreObserverMain.java:8-10 | both values start at 0 |
| WeatherPre.CurrentConditionsDisplay.Update | src/design_patterns/live/observer/PreObserverMain.java:13-22 | keeps both values received and shows them |
| WeatherPre.StatisticsDisplay.constructor | src/design_patterns/live/observer/PreObserverMain.java:28-30 | the last temperature starts at 0 |
| WeatherPre.StatisticsDisplay.Update | src/design_patterns/live/observer/PreObserverMain.java:33-42 | keeps the latest temperature and shows it |
| WeatherPre.ForecastDisplay.constructor | src/design_patterns/live/observer/PreObserverMain.java:48-50 | last humidity starts at -1 and current at 0 |
| WeatherPre.ForecastDisplay.Update | src/design_patterns/live/observer/PreObserverMain.java:53-57 | moves the current humidity into last, stores the new one, and shows the trend between them |
| WeatherPre.WeatherStation.constructor | src/design_patterns/live/observer/PreObserverMain.java:91-95 | keeps the three display references, any of them possibly null; measurements start at 0 |
| WeatherPre.WeatherStation.MeasurementsChanged | src/design_patterns/live/observer/PreObserverMain.java:104-125 | updates the current, statistics and forecast displays in that fixed order, skipping null ones, each with the stored values |
| WeatherPre.WeatherStation.SetMeasurements | src/design_patterns/live/observer/PreObserverMain.java:128-143 | stores both values (so the getters return them), then notifies the displays as above |
| WeatherPost.Next | src/design_patterns/lecture/observer/PostObserverMain.java:113-154 | one `update` changes only the fields of that display's kind: current keeps both values, statistics the temperature, forecast shifts its humidity; the heat index is not tracked |
| WeatherPost.Shown | src/design_patterns/lecture/observer/PostObserverMain.java:119-198 | each display prints the line of its own kind and only that: current conditions, statistics, forecast trend or heat index |
| WeatherPost.NextAll | src/design_patterns/lecture/observer/PostObserverMain.java:63-65 | updating a list of displays updates each one, position by position |
| WeatherPost.ShownAll | src/design_patterns/lecture/observer/PostObserverMain.java:63-65 | the lines of a list of displays, one per display, in order |
| WeatherPost.ShownNextStep | src/design_patterns/lecture/observer/PostObserverMain.java:63-65 | the lines after one more display is updated are the lines so far and that display's own line |
| WeatherPost.Display.constructor | src/design_patterns/lecture/observer/PostObserverMain.java:99-147 | a new display has zero values, and the forecast's last humidity is -1 |
| WeatherPost.Display.Update | src/design_patterns/lecture/observer/PostObserverMain.java:112-122 | the display's fields become `Next` of the old ones and it shows the new fields |
| WeatherPost.States | src/design_patterns/lecture/observer/PostObserverMain.java:34 | the fields of each registered display, position by position |
| WeatherPost.WeatherStationRefactored.constructor | src/design_patterns/lecture/observer/PostObserverMain.java:38-40 | the registry starts empty, with no nulls and no duplicates |
| WeatherPost.WeatherStationRefactored.RegisterObserver | src/design_patterns/lecture/observer/PostObserverMain.java:43-48 | null and already registered observers are ignored; any other observer is appended and announced; the registry keeps no nulls and no duplicates |
| WeatherPost.WeatherStationRefactored.RemoveObserver | src/design_patterns/lecture/observer/PostObserverMain.java:51-55 | a registered observer is removed (and no longer present) and announced; any other argument changes nothing |
| WeatherPost.WeatherStationRefactored.NotifyObservers | src/design_patterns/lecture/observer/PostObserverMain.java:58-66 | announces the count, then updates every registered display exactly once in registration order with the stored values |
| WeatherPost.WeatherStationRefactored.SetMeasurements | src/design_patterns/lecture/observer/PostObserverMain.java:75-81 | stores both values before notifying, then notifies every registered display once; the registry is unchanged |
| WeatherPost.RemoveThenMeasure | src/design_patterns/lecture/observer/PostObserverMain.java:226-228 | after `removeObserver(o)`, a later measurement no longer reaches o: its fields stay as they were |
| WeatherPost.RegisterAll | src/design_patterns/lecture/observer/PostObserverMain.java:215-219 | registering four different displays on an empty station lists them in that order |
| WeatherPost.ExampleRegistrations | src/design_patterns/lecture/observer/PostObserverMain.java:206-219 | the demo's station holds the four new displays in registration order |
| WeatherPost.MeasureAt | src/design_patterns/lecture/observer/PostObserverMain.java:222-223 | one measurement updates the display at a given position and returns the line it prints |
| WeatherPost.ExampleFirstReadings | src/design_patterns/lecture/observer/PostObserverMain.java:222-223 | with all four displays, the forecast's first line is "improving" (65 against 0) and after the second reading it holds last 65 and current 70 |
| WeatherPost.RemoveAt | src/design_patterns/lecture/observer/PostObserverMain.java:51-55 | removing the display at a position of a duplicate-free registry drops exactly that entry |
| WeatherPost.Example | src/design_patterns/lecture/observer/PostObserverMain.java:204-234 | the demo: the forecast first shows a trend, misses the third reading after its removal, and the statistics miss the fourth; the current display ends at 90 and 75 |
| SubjectExample.Subject.constructor | src/design_patterns/observer/Subject.java:7-8 | the state starts at 0 with no observers |
| SubjectExample.Subject.Attach | src/design_patterns/observer/Subject.java:19-21 | appends without a duplicate check |
| SubjectExample.Subject.NotifyAllObservers | src/design_patterns/observer/Subject.java:23-26 | one `update` per attached entry, in attach order, each reading its subject's current state |
| SubjectExample.Subject.SetState | src/design_patterns/observer/Subject.java:14-17 | stores the state before notifying, so every observer reading `getState` sees the new value |
| SubjectExample.HexObserver.constructor | src/design_patterns/observer/HexObserver.java:5-8 | a new observer attaches itself to its subject, at the end |
| SubjectExample.Updates | src/design_patterns/observer/Subject.java:23-26 | the calls for a list of entries: one per entry, each with the state of that entry's subject |
| SubjectExample.UpdatesPerEntry | src/design_patterns/observer/Subject.java:19-26 | the observers called are exactly the attached entries in order, so an observer attached twice is updated twice |
| SingletonPattern.Singleton.constructor | src/design_patterns/singleton/Singleton.java:5-8 | a new instance's info is "Initial  info  class", with its double spaces |
| SingletonPattern.Singleton.SetInfo | src/design_patterns/singleton/Singleton.java:18-24 | `setInfo` stores the value every later `getInfo` returns |
| SingletonPattern.SingletonHolder.constructor | src/design_patterns/singleton/Singleton.java:4 | before the first call there is no instance and none has been built |
| SingletonPattern.SingletonHolder.GetInstance | src/design_patterns/singleton/Singleton.java:10-16 | the first call builds the instance with the initial info; every later call returns that same object and leaves its info alone; at most one object is ever built |
| SingletonPattern.TwoCallsShareInstance | src/design_patterns/singleton/Singleton.java:7-16 | two calls return one object, built exactly once |
| SingletonPattern.Example | src/design_patterns/singleton/Main.java:4-12 | both references are the same object, so the info read through the first is the one set through the second |
| Shipping.TotalsAdditive | src/design_patterns/live/strategy/PostStrategyMain.java:125-131 | the total weight and total value of two item lists joined are the sums of their totals |
| Shipping.TotalWeight | src/design_patterns/live/strategy/PostStrategyMain.java:125-127 | the total weight of items that all weigh zero or more is zero or more |
| Shipping.TotalValue | src/design_patterns/live/strategy/PostStrategyMain.java:129-131 | the total value of items that all cost zero or more is zero or more |
| Shipping.Calculate | src/design_patterns/live/strategy/PostStrategyMain.java:54-100 | a flat rate costs its rate whatever the order holds; weight-based costs total weight times the per-kg rate; the threshold strategy is free strictly above the threshold and costs the fallback rate at or below it |
| Shipping.FlatRateIgnoresItems | src/design_patterns/live/strategy/PostStrategyMain.java:54-57 | any two orders cost the same under one flat rate |
| Shipping.WeightBasedMonotone | src/design_patterns/live/strategy/PostStrategyMain.java:68-74 | adding an item of non-negative weight never lowers the weight-based cost at a non-negative rate |
| Shipping.Order.constructor | src/design_patterns/live/strategy/PostStrategyMain.java:110-113 | a new order has no items and no strategy |
| Shipping.Order.AddItem | src/design_patterns/live/strategy/PostStrategyMain.java:115-117 | the item is appended and the strategy is kept |
| Shipping.Order.SetShippingStrategy | src/design_patterns/live/strategy/PostStrategyMain.java:120-123 | the strategy is stored; the items stay; a null strategy is stored and then throws a NullPointerException when its class name is printed |
| Shipping.Order.GetItems | src/design_patterns/live/strategy/PostStrategyMain.java:133-135 | a fresh list holding the order's items in order |
| Shipping.Order.GetShippingCost | src/design_patterns/live/strategy/PostStrategyMain.java:139-156 | 0 when no strategy is set, otherwise what the set strategy calculates for the order's items |
| Shipping.CopyIsDetached | src/design_patterns/live/strategy/PostStrategyMain.java:133-135 | adding to the returned copy leaves the order's items unchanged |
| Shipping.PreShippingCost | src/design_patterns/live/strategy/PreStrategyMain.java:58-114 | a null or empty method name costs 0; a name that upper-cases to none of FLATRATE, WEIGHTBASED, FREETHRESHOLD costs 0 |
| Shipping.ConfiguredStrategy | src/design_patterns/live/strategy/PostStrategyMain.java:163-165 | a strategy exists for a name exactly when it upper-cases to one of the three names the switch knows |
| Shipping.PreIgnoresCase | src/design_patterns/live/strategy/PreStrategyMain.java:78 | two names with the same upper case cost the same and select the same strategy |
| Shipping.PreAgreesWithStrategies | src/design_patterns/live/strategy/PreStrategyMain.java:78-109 | for every name and every item list, the switch costs what the strategy configured for that name calculates, and 0 when no strategy matches, as an order with no strategy does |
| Shipping.PreOrder.constructor | src/design_patterns/live/strategy/PreStrategyMain.java:32-34 | a new order has no items and a null method name |
| Shipping.PreOrder.AddItem | src/design_patterns/live/strategy/PreStrategyMain.java:36-38 | the item is appended and the method name kept |
| Shipping.PreOrder.SetShippingMethod | src/design_patterns/live/strategy/PreStrategyMain.java:40-42 | the name, null included, is stored and the items kept |
| Shipping.PreOrder.CalculateShippingCost | src/design_patterns/live/strategy/PreStrategyMain.java:58-114 | the cost is the switch's cost for the stored name and items |
| Shipping.TwoItems | src/design_patterns/live/strategy/PostStrategyMain.java:125-131 | the totals of a two-item order are the sums of the two items' weights and prices |
| Shipping.Example | src/design_patterns/live/strategy/PostStrategyMain.java:163-191 | order 1 ships free above the threshold, then costs 2.7 × 1.50 by weight; order 2 ships free, then costs the flat 5.00 |
| Cart.PreShoppingCart.constructor | src/design_patterns/lecture/visitor/PreVisitorCartMain.java:118-119 | a new cart is empty |
| Cart.PreItemTax | src/design_patterns/lecture/visitor/PreVisitorCartMain.java:168-190 | a book is taxed at 5%, an exempt grocery at 0, any other item at 8% |
| Cart.PrePackingLine | src/design_patterns/lecture/visitor/PreVisitorCartMain.java:202-214 | the line is "- ", the item's name, any packing note, and a newline; an item of no known kind gets no note |
| Cart.PreShoppingCart.AddItem | src/design_patterns/lecture/visitor/PreVisitorCartMain.java:121-123 | the item is appended |
| Cart.PreShoppingCart.CalculateTotalShipping | src/design_patterns/lecture/visitor/PreVisitorCartMain.java:127-160 | the sum over the items, from the first, of weight at 1.5 per kg plus 5.0 for electronics that need insurance; the items are not changed |
| Cart.PreShoppingCart.CalculateTotalTax | src/design_patterns/lecture/visitor/PreVisitorCartMain.java:163-195 | the sum over the items of each item's tax by its kind; the items are not changed |
| Cart.PreShoppingCart.GeneratePackingList | src/design_patterns/lecture/visitor/PreVisitorCartMain.java:198-218 | the heading followed by one line per item, in order |
| Cart.AppendPackingLine | src/design_patterns/lecture/visitor/PreVisitorCartMain.java:202-214 | one iteration appends the dash, the name, the tag of a known kind (none for another kind) and the newline, and nothing else |
| Cart.PrePackingStep | src/design_patterns/lecture/visitor/PreVisitorCartMain.java:201-215 | the lines of the first k+1 items are the lines of the first k followed by the line of item k |
| Cart.ShippingAccumulates | src/design_patterns/lecture/visitor/PostVisitorCartMain.java:152-192 | a shipping visitor over any items adds their total shipping to its running total and changes no other field, whatever it held before |
| Cart.ItemShipping | src/design_patterns/lecture/visitor/PostVisitorCartMain.java:161-191 | an item's shipping is its weight at 1.5 per kg, plus the 5.0 fee exactly for electronics that need extra insurance |
| Cart.ItemTax | src/design_patterns/lecture/visitor/PostVisitorCartMain.java:204-231 | the tax of an item with a non-negative price lies between 0 and 8% of it; an exempt grocery pays 0 and a book 5% |
| Cart.PackingLine | src/design_patterns/lecture/visitor/PostVisitorCartMain.java:241-255 | each line is "- ", the item's name, its packing note, and a newline |
| Cart.VisitAll | src/design_patterns/lecture/visitor/PostVisitorCartMain.java:267-272 | visiting the items keeps the visitor's kind and changes only the total that kind of visitor keeps |
| Cart.TaxAccumulates | src/design_patterns/lecture/visitor/PostVisitorCartMain.java:195-231 | a tax visitor adds the items' total tax to its running total and changes nothing else |
| Cart.VisitAllPackingStep | src/design_patterns/lecture/visitor/PostVisitorCartMain.java:234-256 | visiting one more item appends exactly that item's line to the packing list |
| Cart.AppendTwice | src/design_patterns/lecture/visitor/PostVisitorCartMain.java:234-256 | two appends to the packing list are one append of the two strings joined |
| Cart.PackingAccumulates | src/design_patterns/lecture/visitor/PostVisitorCartMain.java:234-256 | a packing visitor appends each item's line once, in order, after what it held, and changes nothing else |
| Cart.ShoppingCart.constructor | src/design_patterns/lecture/visitor/PostVisitorCartMain.java:259-260 | a new cart is empty |
| Cart.ShoppingCart.AddItem | src/design_patterns/lecture/visitor/PostVisitorCartMain.java:262-264 | the item is appended |
| Cart.ShoppingCart.ApplyVisitor | src/design_patterns/lecture/visitor/PostVisitorCartMain.java:267-272 | the visitor ends in the state of visiting every item once, in insertion order, each through its own kind's overload |
| Cart.Visitor.constructor | src/design_patterns/lecture/visitor/PostVisitorCartMain.java:152-155 | a new visitor of any kind has totals 0 and an empty packing list |
| Cart.Visitor.Visit | src/design_patterns/lecture/visitor/PostVisitorCartMain.java:66-68 | accepting an item runs the visit overload of the item's kind on the visitor's class |
| Cart.TaxVersionsAgree | src/design_patterns/lecture/visitor/PreVisitorCartMain.java:163-195 | for every list of visitable items the loop's tax, with its book rate written 0.08 - 0.03, equals the visitor's tax |
| Cart.PackingVersionsAgree | src/design_patterns/lecture/visitor/PreVisitorCartMain.java:198-218 | for every list of visitable items the loop's packing lines equal the visitor's |
| Cart.LineAgrees | src/design_patterns/lecture/visitor/PostVisitorCartMain.java:242-255 | each kind of item gets the same packing line in both versions |
| Cart.ShippingVisitorMatchesLoop | src/design_patterns/lecture/visitor/PostVisitorCartMain.java:267-272 | a new shipping visitor applied to a cart ends with the total the loop version returns |
| Cart.TaxVisitorMatchesLoop | src/design_patterns/lecture/visitor/PostVisitorCartMain.java:267-272 | a new tax visitor applied to a cart ends with the total the loop version returns |
| Cart.PackingVisitorMatchesLoop | src/design_patterns/lecture/visitor/PostVisitorCartMain.java:267-272 | a new packing visitor applied to a cart ends with the loop version's list minus its heading |
| Cart.ShippingAppliedTwice | src/design_patterns/lecture/visitor/PostVisitorCartMain.java:152-192 | the total is never reset, so applying one shipping visitor twice counts every item twice |
| Cart.PackingAppliedTwice | src/design_patterns/lecture/visitor/PostVisitorCartMain.java:234-256 | the list is never cleared, so a second pass appends every line again |
| LiskovShapes.BadRectangle.constructor | src/SOLID/liskov/Rectangle.java:11-13 | both sides start at 0, so a new square already has equal sides |
| LiskovShapes.BadRectangle.SetWidth | src/SOLID/liskov/Rectangle.java:15-17 | the width is set; a rectangle keeps its height, a square sets its height to the same value and keeps equal sides |
| LiskovShapes.BadRectangle.SetHeight | src/SOLID/liskov/Rectangle.java:19-21 | the height is set; a rectangle keeps its width, a square sets its width to the same value and keeps equal sides |
| LiskovShapes.BadRectangle.Area | src/SOLID/liskov/Rectangle.java:31-33 | width × height as a Java int: congruent to the product modulo 2^32, and equal to it when it fits |
| LiskovShapes.ResizeAndMeasure | src/SOLID/liskov/Rectangle.java:3-9 | after setting width w and height h, a rectangle's area is w × h and a square's is h × h (both wrapped to int) |
| LiskovShapes.SquareBreaksClient | src/SOLID/liskov/Rectangle.java:36-46 | setting 2 and then 3 gives area 6 on a rectangle and 9 on a square |
| LiskovShapes.Rectangle.constructor | src/SOLID/liskov/Rectangle.java:65-68 | the sides are the constructor's arguments |
| LiskovShapes.Rectangle.SetWidth | src/SOLID/liskov/Rectangle.java:70-72 | only the width changes |
| LiskovShapes.Rectangle.SetHeight | src/SOLID/liskov/Rectangle.java:74-76 | only the height changes |
| LiskovShapes.Rectangle.Area | src/SOLID/liskov/Rectangle.java:86-88 | width × height wrapped to int, exact when it fits |
| LiskovShapes.Square.constructor | src/SOLID/liskov/Rectangle.java:94-96 | the side is the constructor's argument |
| LiskovShapes.Square.SetSide | src/SOLID/liskov/Rectangle.java:98-100 | the side is set |
| LiskovShapes.Square.Area | src/SOLID/liskov/Rectangle.java:106-108 | side × side wrapped to int, exact when it fits |
| LiskovShapes.RectangleKeepsClient | src/SOLID/liskov/Rectangle.java:61-89 | with independent setters the client gets w × h (wrapped) from any rectangle |
| LiskovShapes.AreaWrapsToZero | src/SOLID/liskov/Rectangle.java:106-108 | a square of side 65536 has area 0 in int |
| LiskovShapes.AreaWrapsNegative | src/SOLID/liskov/Rectangle.java:106-108 | a square of side 46341 has a negative area in int |
| LiskovFiles.BadFileSystemItem.constructor | src/SOLID/liskov/FileSystemItem.java:13-15 | the name is the constructor's argument; the class is fixed |
| LiskovFiles.BadFileSystemItem.SetName | src/SOLID/liskov/FileSystemItem.java:17-19 | the name is set |
| LiskovFiles.BadFileSystemItem.GetSize | src/SOLID/liskov/FileSystemItem.java:25-53 | it throws UnsupportedOperationException("Not implemented") exactly for an object of the base class; a file returns its stored size and a directory 0 |
| LiskovFiles.FileSystemItem.constructor | src/SOLID/liskov/FileSystemItem.java:67-69 | the name is the constructor's argument |
| LiskovFiles.FileSystemItem.SetName | src/SOLID/liskov/FileSystemItem.java:71-73 | the name is set |
| LiskovFiles.FileSystemItem.GetSize | src/SOLID/liskov/FileSystemItem.java:85-105 | a file returns its stored size and a directory 0; there is no error case |
| LiskovFiles.HierarchiesAgree | src/SOLID/liskov/FileSystemItem.java:64-106 | for matching objects of the two hierarchies, the first returns without throwing exactly the size the second returns |
| LiskovFiles.RenameKeepsSize | src/SOLID/liskov/FileSystemItem.java:71-77 | after a rename the name is the new one and the size is unchanged |
| BookRest.MaxId | src/architectures/rest/pyhton/book_rest.py:45 | `max(keys, default=0)`: 0 for no ids, otherwise an id present that no id exceeds |
| BookRest.Merge | src/architectures/rest/pyhton/book_rest.py:62-65 | each of title, author and year takes the body's value when the body names it and keeps the stored one otherwise |
| BookRest.MergeIdempotent | src/architectures/rest/pyhton/book_rest.py:62-65 | sending the same update body twice leaves the book as sending it once |
| BookRest.MergeOfFullBody | src/architectures/rest/pyhton/book_rest.py:62-65 | a body naming all three fields gives the same book whatever was stored |
| BookRest.Listing | src/architectures/rest/pyhton/book_rest.py:26-28 | one entry per key in insertion order, each the id with its stored record |
| BookRest.IndexedAdd | src/architectures/rest/pyhton/book_rest.py:51 | storing a new key and appending it to the insertion order keeps the keys and the order in step, each key once |
| BookRest.IndexedRemove | src/architectures/rest/pyhton/book_rest.py:74 | deleting a key and its place in the insertion order keeps them in step |
| BookRest.InitialIndexed | src/architectures/rest/pyhton/book_rest.py:11-22 | the initial table holds ids 1 to 10 in order with their ten records |
| BookRest.BookTable.constructor | src/architectures/rest/pyhton/book_rest.py:11-22 | the table starts with the ten books, keyed 1 to 10 in that order |
| BookRest.BookTable.GetBooks | src/architectures/rest/pyhton/book_rest.py:26-28 | the listing holds every book with its id, in insertion order, and changes nothing |
| BookRest.BookTable.GetBook | src/architectures/rest/pyhton/book_rest.py:32-37 | 404 exactly when the id is absent, otherwise 200 with the id and the stored record |
| BookRest.NewBook | src/architectures/rest/pyhton/book_rest.py:46-50 | the record `create_book` stores: the body's title, and author and year from the body when present, otherwise "" |
| BookRest.BookTable.CreateBook | src/architectures/rest/pyhton/book_rest.py:41-52 | 400 and no change for a missing or empty body or one without a title; otherwise 201 with id one more than the largest id (1 for an empty table), an id not in use, title from the body and author and year defaulting to the empty string, stored and appended to the order |
| BookRest.BookTable.UpdateBook | src/architectures/rest/pyhton/book_rest.py:56-66 | 404 for an absent id before 400 for an empty body, both changing nothing; otherwise only that book changes, to the merge of its record with the body, and 200 returns it |
| BookRest.BookTable.DeleteBook | src/architectures/rest/pyhton/book_rest.py:70-75 | 404 and no change for an absent id; otherwise exactly that key leaves the table and the order, and the result is true |
| BookRest.DeleteMaxThenCreate | src/architectures/rest/pyhton/book_rest.py:45-74 | after deleting the largest id, while the id below it remains, the next created book gets the deleted id again |
| BookRest.DeleteTenThenCreate | src/architectures/rest/pyhton/book_rest.py:11-74 | from the initial table, deleting book 10 and creating a book hands out id 10 again |
| BookRestList.Matching | bin/architectures/rest/pyhton/book_rest.py:21 | the comprehension keeps only books with the id, and is empty exactly when no book has it |
| BookRestList.MatchingStartsAtFirst | bin/architectures/rest/pyhton/book_rest.py:21 | the comprehension's first element is the first book with the id |
| BookRestList.PositionOf | bin/architectures/rest/pyhton/book_rest.py:21-24 | -1 exactly when no book has the id, otherwise the index of the first book with it, which the comprehension returns first |
| BookRestList.BinBookTable.constructor | bin/architectures/rest/pyhton/book_rest.py:6-9 | the list starts with the two books, ids 1 and 2 |
| BookRestList.BinBookTable.GetBooks | bin/architectures/rest/pyhton/book_rest.py:14-15 | the whole list, ids strictly increasing, unchanged |
| BookRestList.BinBookTable.GetBook | bin/architectures/rest/pyhton/book_rest.py:19-24 | the first book with the id when there is one; otherwise the call to `abort`, which the module never imports, raises NameError |
| BookRestList.BinBookTable.CreateBook | bin/architectures/rest/pyhton/book_rest.py:28-39 | NameError and no change for a missing or empty body or one without a title; IndexError on an empty list; otherwise a book with id one more than the last book's, title from the body, author and year defaulting to the empty string, appended |
| BookRestList.BinBookTable.UpdateBook | bin/architectures/rest/pyhton/book_rest.py:43-53 | NameError and no change for an absent id or an empty body; otherwise the first book with the id takes the body's fields where named, in place, and nothing else changes |
| BookRestList.BinBookTable.DeleteBook | bin/architectures/rest/pyhton/book_rest.py:57-63 | NameError and no change for an absent id; otherwise exactly the first book with the id is removed |
| BookRestList.DeleteLastThenCreate | bin/architectures/rest/pyhton/book_rest.py:33-62 | after deleting the last of two or more books, the next book gets the new last id plus one, an id no greater than the deleted one |
| BookRestList.DeleteSecondThenCreate | bin/architectures/rest/pyhton/book_rest.py:6-62 | from the initial list, deleting book 2 and creating a book hands out id 2 again |
| BookRestList.InitialPositions | bin/architectures/rest/pyhton/book_rest.py:6-21 | book 1 sits at index 0, and once it is removed book 2 sits at index 0 |
| BookRestList.CreateOnEmpty | bin/architectures/rest/pyhton/book_rest.py:33 | once both initial books are deleted, creating a book raises IndexError on `books[-1]` |
| PyJson.Get | src/architectures/rest/pyhton/refactored_book/book.py:8-10 | `d.get(key, default)`: the stored value when the key is present, the default otherwise |
| PyJson.Str | src/architectures/rest/pyhton/refactored_book/book.py:15-16 | Python's `str` of a scalar: a string is itself and an integer its decimal digits |
| BookEntity.FromDict | src/architectures/rest/pyhton/refactored_book/book.py:8-10 | success exactly when id, title, author and year are all present, giving the book of those four values; otherwise KeyError naming the first missing key in the order id, title, author, year |
| BookEntity.ToDict | src/architectures/rest/pyhton/refactored_book/book.py:12-13 | exactly the keys title, author and year, holding the book's values; the id is not written |
| BookEntity.FromDictToDict | src/architectures/rest/pyhton/refactored_book/book.py:8-13 | a book read from a dict writes back that dict cut down to title, author and year |
| BookEntity.ToDictFromDict | src/architectures/rest/pyhton/refactored_book/book.py:8-13 | reading back what `to_dict` wrote raises KeyError for the missing id |
| BookEntity.ToDictWithIdRoundTrip | src/architectures/rest/pyhton/refactored_book/book.py:8-13 | adding the id back to what `to_dict` wrote reads back the same book |
| BookEntity.Show | src/architectures/rest/pyhton/refactored_book/book.py:15-16 | the line starts with the id and ": ", ends in ")", and has the four values' lengths plus the nine fixed characters |
| BookEntity.ShowStrings | src/architectures/rest/pyhton/refactored_book/book.py:15-16 | a book with an integer id and string fields shows as "id: title by author (year)" |
| Crud.RStripIdle | src/architectures/rest/pyhton/refactored_book/crud.py:9 | stripping a string that does not end in the character leaves it alone |
| Crud.RStripAppend | src/architectures/rest/pyhton/refactored_book/crud.py:9 | stripping after one more trailing character gives the same result |
| Crud.New | src/architectures/rest/pyhton/refactored_book/crud.py:8-9 | the base URL loses all its trailing slashes and nothing else; the endpoint is the class's |
| Crud.NewIdempotent | src/architectures/rest/pyhton/refactored_book/crud.py:8-9 | normalising an already normalised base URL changes nothing |
| Crud.Url | src/architectures/rest/pyhton/refactored_book/crud.py:11-12 | the joined base, endpoint and path without trailing slashes: a prefix of the joined text that never ends in a slash, only slashes cut |
| Crud.CollectionUrl | src/architectures/rest/pyhton/refactored_book/crud.py:11-12 | with a non-empty endpoint not ending in a slash, the empty path gives base/endpoint |
| Crud.ItemUrl | src/architectures/rest/pyhton/refactored_book/crud.py:11-12 | with such an endpoint, the decimal id as path gives base/endpoint/id |
| Crud.DefaultEndpointUrl | src/architectures/rest/pyhton/refactored_book/crud.py:6-12 | with the base class's empty endpoint, the collection URL is the base URL itself |
| Crud.RequestOf | src/architectures/rest/pyhton/refactored_book/crud.py:26-39 | listing and reading use GET, creating POST, updating PUT, deleting DELETE; reading, updating and deleting address the id's URL and the others the collection URL; only creating and updating send the data as JSON |
| Crud.RequestUrls | src/architectures/rest/pyhton/refactored_book/crud.py:26-39 | with a proper endpoint, listing and creating go to base/endpoint and the by-id operations to base/endpoint/id |
| Crud.ItemUnderCollection | src/architectures/rest/pyhton/refactored_book/crud.py:26-30 | an item URL is the collection URL with "/" and the id appended |
| Crud.SameIdSameUrl | src/architectures/rest/pyhton/refactored_book/crud.py:29-39 | reading, updating and deleting the same id address the same URL |
| JavaText.Decimal | src/design_patterns/lecture/adapter/PostAdapterMain.java:33 | string concatenation of an `int`: non-empty, digits with a leading minus exactly for a negative number |
| JavaText.DigitsValue | src/design_patterns/lecture/adapter/PostAdapterMain.java:33 | the digits of a natural number read back as that number |
| JavaText.DigitsLength | src/design_patterns/lecture/decorator/PreDecoratorMain.java:43 | a number below 10^k has at most k digits |
| JavaText.ZeroPadDigits | src/design_patterns/lecture/decorator/PreDecoratorMain.java:43 | `%010d` padding of a short enough digit string gives exactly the width in digits, with the same value |
| JavaText.IndexFrom | src/design_patterns/lecture/adapter/PostAdapterMain.java:77-79 | -1 exactly when the pattern occurs at no position from the start index; otherwise the first such position |
| JavaText.IndexOfAt | src/design_patterns/lecture/adapter/PostAdapterMain.java:77-79 | `indexOf` returns the first position where the pattern occurs |
| JavaText.IndexOf | src/design_patterns/lecture/adapter/PostAdapterMain.java:77-79 | `indexOf` is -1 exactly when the pattern occurs nowhere, and otherwise the position of its first occurrence |
| JavaText.Substring | src/design_patterns/lecture/adapter/PostAdapterMain.java:77-79 | `substring(b, e)` succeeds exactly when 0 <= b <= e <= length, giving the e - b characters from b on; otherwise it throws an index-out-of-bounds exception |
| JavaText.RStrip | src/architectures/rest/pyhton/refactored_book/crud.py:9 | Python's `rstrip` of one character: a prefix not ending in it, with only that character removed |
| JavaText.Upper | src/design_patterns/live/strategy/PreStrategyMain.java:78 | same length; each lower-case ASCII letter becomes its upper-case letter (code point minus 32), so none is left; every other character unchanged |
| JavaInt.Wrap32 | src/SOLID/liskov/Rectangle.java:31-33 | the `int` Java keeps: in range, congruent modulo 2^32, and the value itself when it fits |
| JavaInt.Mul32 | src/SOLID/liskov/Rectangle.java:31-33 | `int` multiplication: an int congruent to the product modulo 2^32, the product itself when it fits |
| JavaInt.Abs32 | src/design_patterns/lecture/decorator/PreDecoratorMain.java:43 | `Math.abs`: non-negative exactly when the argument is not the minimum int, and then the argument or its negation |
| JavaInt.Rem | src/design_patterns/lecture/decorator/PreDecoratorMain.java:43 | Java's `%`: the remainder has the dividend's sign, is smaller than the divisor in magnitude, and the dividend is the divisor times the truncated quotient plus it |
| JavaInt.Quot | src/design_patterns/lecture/decorator/PreDecoratorMain.java:43 | Java's integer `/` by a positive divisor: the floor quotient for non-negative operands, never positive for non-positive ones, 0 for operands smaller than the divisor in magnitude |
| JavaInt.Format010 | src/design_patterns/lecture/decorator/PreDecoratorMain.java:43 | `%010d`: at least ten characters, starting with '-' exactly for negative values; a value in 0 .. 10^10 - 1 prints as exactly ten digits that read back as the value |
| JavaInt.HashCode | src/design_patterns/lecture/decorator/PreDecoratorMain.java:43 | `String.hashCode` is always an `int` |
| JavaInt.HashPolynomialSnoc | src/design_patterns/lecture/decorator/PreDecoratorMain.java:43 | the mathematical hash of one more character is 31 times the hash plus the character |
| JavaInt.HashCodeIsPolynomial | src/design_patterns/lecture/decorator/PreDecoratorMain.java:43 | the wrapped step-by-step hash is the polynomial sum of 31^(n-1-i) times each character, wrapped once |
| JavaInt.WrapOfCongruent | src/SOLID/liskov/Rectangle.java:31-33 | wrapping any value congruent to an int gives that int |

## Left out

- Console output: every `System.out`/`System.err` line and Python `print` is either left out or replaced by a returned value or a recorded call. `BloatedOrder.printOrderDetails`, which only prints, is not modelled.
- Floating point: `double` and `float` values are `real`. The model says which rate, fee or comparison applies. IEEE rounding, NaN and the `%.2f` formatting of prices, weights and humidity are not modelled.
- The heat-index polynomial of `HeatIndexDisplay` is floating-point arithmetic. The model records only that the display showed a reading, not the value it computed.
- `Integer.toHexString` in `HexObserver` is a library formatter. The model records which observer was updated with which state, not the hex text it prints.
- Configuration reads (`System.getProperty`, `System.getenv` and `Integer.parseInt` of the port) in the notifier factories are a `Config` parameter. A port string that does not parse, which would throw `NumberFormatException`, is not modelled.
- Java `char` is a UTF-16 code unit and Dafny `char` a Unicode scalar value. `String.hashCode` is taken over the character codes, which agree for text within the Basic Multilingual Plane.
- Bloater.ShipOrder, Bloater.DeliverOrder: the refactored `Order` (src/refactoring/bloater/Order.java:11-43) declares no `setShipmentStatus`, so the calls at src/refactoring/bloater/Order.java:89 and :103 do not compile as written; the model takes each call to assign the order's shipment status field.
- JavaText.Upper: upper-cases ASCII letters only. `String.toUpperCase` maps further letters (accented Latin, Greek, `ß` to `SS`), which this model does not. The no-argument `toUpperCase()` in src/design_patterns/live/factory/PostFactoryMain.java:83 and src/design_patterns/live/strategy/PreStrategyMain.java:78 uses the JVM's default locale; the model assumes a default locale that upper-cases ASCII letters to ASCII. Under a Turkish or Azerbaijani locale `i` becomes `İ`, so `createNotifier("email")` would return null and "weightbased" would cost 0.0; Notifiers.CreateNotifier, Notifiers.CreateNotifierIgnoresCase, Shipping.PreShippingCost, Shipping.ConfiguredStrategy and Shipping.PreIgnoresCase hold under that assumption only.
- JavaText.RStrip: models Python's `str.rstrip` with a single character, the only form the client uses. A multi-character argument is not modelled.
- PyJson.Str: covers scalar JSON values only. The `str` of a list or dict field is not modelled, so `BookEntity.Show` requires scalar fields.
- JSON numbers are integers. Floating-point JSON numbers, a non-object JSON body and Flask's 415 response to a request without a JSON content type are not modelled.
- HTTP: Flask routing, `jsonify`, the Spring services, `CrudResource._request` (`requests.request`, `time.time`, status printing) and the endpoint subclass of the client are not part of this model. `Crud.RequestOf` stops at the verb, URL and body that `_request` is given.
- The live shotgun-surgery `Order` class is not shown in the source. It is modelled as the fields the handlers read and write.
- `ShotgunOrder` shows no constructor. Its flags start at Java's default `false`.
- A `null` user id or message passed to the notifiers is not modelled, nor a `null` event type passed to `InvestorImpl.update`, whose `switch (eventType)` (src/architectures/event_driven/consumers/InvestorImpl.java:14) would throw `NullPointerException`. Dafny strings cannot be null, and the source never passes one; EventDriven.UpdateLine covers non-null event types only.
- The private constructor of `Singleton` is modelled by the rule that only `GetInstance` creates one, with a ghost counter of created objects. Reflection and serialization, which could build a second instance, are not modelled.
- Concurrency: `getInstance` is not synchronized, and the model is single-threaded. A race that builds two instances is not modelled.
- BookRestList.DeleteLastThenCreate: an id comes back only when the deleted book's id was exactly one more than the id before it. The method states the general relation (the new id is the new last id plus one, and at most the deleted one), not equality with the deleted id.
