# spring-kafka-demo event pipeline, modelled in Dafny

This project models the in-process event pipeline of spring-kafka-demo. An HTTP
`trackEvent` request becomes a typed event: a page view, an add-to-cart or a
purchase. The event is sent to the `user-events` Kafka topic under its id, and
the registered processors handle it synchronously. The controller then answers
200, 400 or 500. In the backend application, events can also be stored as
documents and read back as a generic `Event` view.

The repository holds two copies of the pipeline:

- the root application (`src/`), whose money is `double`;
- the `backend/` application, whose money is `BigDecimal`.

Both are modelled. Their `createEvent`, `createUserContext` and `createItemContext`
have the same text except for one line: the backend's `createItemContext` wraps
the price's `doubleValue()` in `BigDecimal.valueOf`, where the root tree keeps the
`double`. Money is an exact decimal in both trees here (see "Left out"), so that
line has the same meaning and the three are modelled once (module `Translation`).

Modules, in dependency order:

- `JavaLang`: nullable references (`Option`), the exceptions the core raises, a
  `Result` type for code that throws, 32-bit `int`, `String.toUpperCase` on ASCII,
  and `Integer.parseInt`.
- `Decimals`: `BigDecimal` as an unscaled integer and a scale. It covers exact
  `multiply` and `add`, comparison with zero, `setScale(2, HALF_UP)` and
  `new BigDecimal(String)`. A ghost `Real` gives each decimal its exact value.
- `EventTypes`: the 22 event kinds, `valueOf`, and the controllers'
  case-insensitive lookup.
- `Contexts`: `ItemContext` and `UserContext` as values, and the line total and
  order total of purchase items.
- `Events`: the `Event` interface as a value. A tagged payload holds the
  kind-specific fields and answers `instanceof`.
- `Requests`: the untyped `Map<String, Object>` request data. It covers map
  reads and the Java casts (`(String)`, `(int)`, `(Number)`, `(Map)`, `(List)`)
  with their ClassCast and NullPointer failures.
- `SrcEvents` and `BackendEvents`: the event classes of each tree, as Dafny
  classes that mutate their fields. The backend's instance initializer is a method
  that fills only unset fields, and both constructors run it.
- `Factory`: `EventFactory`.
- `Translation`: `createEvent` and its helpers.
- `Processors`: `EventProcessorManager.processEvent` as a loop over the processor
  list, proved equal to a trace-producing specification, and `PurchaseEventProcessor`.
- `Kafka`: `KafkaTemplate.send` as an outbox of records.
- `SrcController` and `BackendController`: the two `trackEvent` handlers. The
  backend handler also reshapes flat form fields into event data: it synthesizes
  a purchase item and validates its price and quantity.
- `Storage`: `EventDocument`, `EventRepository` over an in-memory sequence of
  stored documents, and `EventStorageService`.
- `LogService`: `EventLogService`, the error-containment wrapper around storage.

Inputs the model takes as parameters:

- The UUID generator, the clock (`now`) and `new Date().toString()` (`date`).
- Whether a Kafka send, a store save, a store read or a store clear fails at
  once (`sendFails`, `saveFails`, `readFails`, `fails`).
- The id the store generates for a new document (`generatedId`).

Where the code and its description differ, the model follows the code:

- The backend ADD_TO_CART path drops the form's quantity. The handler puts it
  only into the nested item map, and `createEvent` reads `quantity` from the top
  level, so every such event has quantity 1 and is worth one unit price.
  `BackendController.AddToCartQuantityIsOne` states this.
- A purchase built from the flat form fields gets a null currency, whatever the
  request says (`BackendController.SynthesizedPurchaseHasNoCurrency`).
- An IllegalArgumentException thrown by a processor gives 400 in the root
  application. In the backend it is wrapped in a RuntimeException and gives 500.

Source paths below are relative to the repository root.

## Model

| member | source | states |
|---|---|---|
| JavaLang.ParseInt | backend/src/main/java/com/example/kafkademo/controller/EventController.java:149 | `Integer.parseInt` accepts only an optional '+' or '-' followed by at least one digit, and only values in `int` range; everything else is the NumberFormatException (`None`) |
| JavaLang.ParseIntPlusSign | backend/src/main/java/com/example/kafkademo/controller/EventController.java:149 | a leading '+' in front of an unsigned text changes nothing |
| JavaLang.ParseIntLeadingZero | backend/src/main/java/com/example/kafkademo/controller/EventController.java:149 | a leading zero after the optional sign changes nothing |
| JavaLang.ParseIntNegativeZero | backend/src/main/java/com/example/kafkademo/controller/EventController.java:149 | "-0" is read as 0 |
| JavaLang.ParseIntOfToString | backend/src/main/java/com/example/kafkademo/controller/EventController.java:149 | parsing the decimal text of an integer gives that integer back exactly when it fits in an `int`, and fails otherwise |
| JavaLang.ToUpperCase | backend/src/main/java/com/example/kafkademo/controller/EventController.java:86 | upper-casing keeps the length and maps every character to its upper-case form |
| JavaLang.ToUpperCaseIdempotent | backend/src/main/java/com/example/kafkademo/controller/EventController.java:208 | upper-casing twice is upper-casing once, so `createEvent`'s second `toUpperCase` on the handler's upper-cased kind changes nothing |
| Decimals.OfInt | backend/src/main/java/com/example/kafkademo/events/AddToCartEvent.java:25 | `BigDecimal.valueOf(quantity)` has exactly the value of the quantity |
| Decimals.Multiply | backend/src/main/java/com/example/kafkademo/events/AddToCartEvent.java:25 | `multiply` is exact: its value is the product, its scale the sum of the scales |
| Decimals.Add | backend/src/main/java/com/example/kafkademo/events/PurchaseEvent.java:68-70 | `add` is exact: its value is the sum, its scale the larger scale |
| Decimals.IsZero | backend/src/main/java/com/example/kafkademo/events/PurchaseEvent.java:67 | `compareTo(ZERO) == 0` holds exactly when the value is zero, whatever the scale |
| Decimals.IsNegative | backend/src/main/java/com/example/kafkademo/controller/EventController.java:136 | `compareTo(ZERO) < 0` holds exactly when the value is negative |
| Decimals.SetScale2HalfUp | backend/src/main/java/com/example/kafkademo/controller/EventController.java:132-135 | the result has scale 2 and lies within half a cent of the input; on a tie it takes the neighbour away from zero; an input of scale at most 2 keeps its value |
| Decimals.RoundedNegativeIff | backend/src/main/java/com/example/kafkademo/controller/EventController.java:134-136 | the rounded price is negative exactly when the parsed value is at most -0.005 |
| Decimals.RoundingExamples | backend/src/main/java/com/example/kafkademo/controller/EventController.java:134-135 | -0.004 rounds to 0.00, -0.005 to -0.01, 12.345 to 12.35, and 5 to 5.00 |
| Decimals.ParseDecimalAccepts | backend/src/main/java/com/example/kafkademo/controller/EventController.java:134 | every text `new BigDecimal` accepts is an optional sign, then digits, then possibly a point and more digits, with at least one digit in all |
| Decimals.ParseDecimalFraction | backend/src/main/java/com/example/kafkademo/controller/EventController.java:134 | a signed text with a point is read as all its digits, signed, at the scale of the digits after the point |
| Decimals.ParseDecimalWhole | backend/src/main/java/com/example/kafkademo/controller/EventController.java:134 | a signed text without a point is read as its digits, signed, at scale 0 |
| Decimals.ParsedValue | backend/src/main/java/com/example/kafkademo/controller/EventController.java:134 | the value read is the sign times the whole digits plus the fraction digits over ten to the number of fraction digits |
| Decimals.DigitsValueAppend | backend/src/main/java/com/example/kafkademo/controller/EventController.java:134 | digits written after digits: the number of the whole is the first part shifted by the length of the second, plus the second |
| Decimals.ParseExamples | backend/src/main/java/com/example/kafkademo/controller/EventController.java:134 | `new BigDecimal` reads "-0.004", "19.99" and "+7" with the scale of their fraction digits, and refuses "1.2.3", "-" and "abc" |
| EventTypes.ValueOf | src/main/java/com/example/kafkademo/enums/EventType.java:3-35 | `valueOf(s)` finds a constant only when its name is `s`, and fails exactly when no constant has that name |
| EventTypes.ValueOfName | src/main/java/com/example/kafkademo/enums/EventType.java:3-35 | `valueOf(s)` yields `t` if and only if `s` is t's name |
| EventTypes.NamesUpper | src/main/java/com/example/kafkademo/enums/EventType.java:3-35 | every constant's name uses only upper-case letters and underscores |
| EventTypes.Lookup | src/main/java/com/example/kafkademo/controller/EventController.java:46 | the lookup succeeds exactly when the upper-cased text names a constant, and it finds that constant |
| EventTypes.LookupIgnoresCase | src/main/java/com/example/kafkademo/controller/EventController.java:46 | a kind's name and its lower-case spelling both find the kind |
| Contexts.LineTotal | backend/src/main/java/com/example/kafkademo/events/PurchaseEvent.java:69 | a line is worth its price times its quantity, exactly |
| Contexts.AmountAppend | backend/src/main/java/com/example/kafkademo/events/PurchaseEvent.java:68-70 | the amount of a list with one more line is the old amount plus that line |
| Contexts.Total | backend/src/main/java/com/example/kafkademo/events/PurchaseEvent.java:68-70 | the `reduce(ZERO, add)` over the line totals has the exact sum of price times quantity over all items |
| Contexts.TotalOfNone | backend/src/main/java/com/example/kafkademo/events/PurchaseEvent.java:70 | the total of no items is `BigDecimal.ZERO` |
| Requests.Get | backend/src/main/java/com/example/kafkademo/controller/EventController.java:79 | `get` of a missing key is null |
| Requests.GetOrDefault | backend/src/main/java/com/example/kafkademo/controller/EventController.java:222 | `getOrDefault` gives the stored value when the key is present, even a null one, and the default only when the key is absent |
| Requests.OfString | backend/src/main/java/com/example/kafkademo/controller/EventController.java:93-95 | a String put into the event data reads back through `(String)` unchanged, null included |
| Requests.AsString | backend/src/main/java/com/example/kafkademo/controller/EventController.java:79-80 | `(String)` succeeds exactly on null and on strings; anything else is a ClassCastException |
| Requests.AsInt | backend/src/main/java/com/example/kafkademo/controller/EventController.java:222 | `(int)` unboxes exactly an `Integer`; null is a NullPointerException |
| Requests.AsNumber | backend/src/main/java/com/example/kafkademo/controller/EventController.java:255 | `(Number)` accepts integers and doubles with their values; null is a NullPointerException |
| Requests.AsMap | backend/src/main/java/com/example/kafkademo/controller/EventController.java:218 | `(Map)` succeeds exactly on null and on maps |
| Requests.AsList | backend/src/main/java/com/example/kafkademo/controller/EventController.java:226 | `(List)` succeeds exactly on null and on lists |
| Requests.DecimalText | backend/src/main/java/com/example/kafkademo/controller/EventController.java:134 | `new BigDecimal(v.toString())` parses a string's text and reads a number as itself; booleans, lists and maps fail |
| Requests.IntegerText | backend/src/main/java/com/example/kafkademo/controller/EventController.java:149 | `Integer.parseInt(v.toString())` parses a string's text and reads an int as itself; a double or any other value fails |
| Translation.CreateUserContext | backend/src/main/java/com/example/kafkademo/controller/EventController.java:243-249 | the user context carries the session id, user agent and address, and never a userId; a non-string field is a ClassCastException |
| Translation.CreateItemContext | backend/src/main/java/com/example/kafkademo/controller/EventController.java:251-259 | a null map is a NullPointerException; each field comes from its key; the quantity is 1 when the key is absent; every failure is a cast or a null |
| Translation.ItemsOf | backend/src/main/java/com/example/kafkademo/controller/EventController.java:226-228 | items are converted one to one and in order, or the conversion fails with the exception of a failing element |
| Translation.ItemContexts | backend/src/main/java/com/example/kafkademo/controller/EventController.java:226 | a null items value is a NullPointerException and a non-list a ClassCastException |
| Translation.CreateEvent | backend/src/main/java/com/example/kafkademo/controller/EventController.java:207-240 | the imperative `createEvent` returns exactly the event, or throws exactly the exception, that the stated dispatch on the kind gives |
| Translation.IllegalArgumentOnlyFromKind | backend/src/main/java/com/example/kafkademo/controller/EventController.java:207-239 | `createEvent` throws an IllegalArgumentException if and only if the kind is unknown or has no factory |
| Translation.KindOfEvent | backend/src/main/java/com/example/kafkademo/controller/EventController.java:207-239 | an event is built only for PAGE_VIEW, ADD_TO_CART or PURCHASE, and it has the kind that was asked for |
| Translation.CaseInsensitive | src/main/java/com/example/kafkademo/controller/EventController.java:46 | two spellings of a kind that upper-case alike build the same event, unless the kind has no factory, whose message repeats the text as given |
| Translation.PageViewHasNoOwner | src/main/java/com/example/kafkademo/controller/EventController.java:49-54 | a page view built by `createEvent` has a null userId and no referrer, and its "url" property is the data's pageUrl |
| Translation.AddToCartQuantity | src/main/java/com/example/kafkademo/controller/EventController.java:56-62 | the add-to-cart quantity is the data's top-level "quantity", 1 when absent; it replaces the item's own quantity; the value is price times quantity |
| Translation.PurchaseFromItems | src/main/java/com/example/kafkademo/controller/EventController.java:64-74 | an empty items list is an IndexOutOfBoundsException; a built purchase has the items one to one, the first item's currency and the exact total as value |
| Factory.CreatePageView | src/main/java/com/example/kafkademo/factory/EventFactory.java:13-19 | the page view has the context's userId, kind PAGE_VIEW, and no "referrer" property |
| Factory.CreateAddToCart | src/main/java/com/example/kafkademo/factory/EventFactory.java:21-27 | the event has the given userId, kind ADD_TO_CART, the given quantity, and value price times quantity |
| Factory.CreatePurchase | src/main/java/com/example/kafkademo/factory/EventFactory.java:29-39 | it succeeds exactly for a non-empty item list and otherwise throws IndexOutOfBounds(0, 0); the currency is the first item's and the value the exact total |
| SrcEvents.BaseEvent.constructor | src/main/java/com/example/kafkademo/events/BaseEvent.java:18-23 | a new event has the generated id, the given userId, the clock reading and an empty property map, so every `getProperty` is null |
| SrcEvents.BaseEvent.AddProperty | src/main/java/com/example/kafkademo/events/BaseEvent.java:25-31 | after `addProperty(k, v)`, `getProperty(k)` is v; every other key keeps its value; the keys grow by k only; nothing else changes |
| SrcEvents.PageViewProperties | src/main/java/com/example/kafkademo/events/PageViewEvent.java:21-23 | "url" is always present, even for a null url; "pageTitle" and "referrer" are present exactly when non-null; there are no other keys |
| SrcEvents.PageViewEvent.constructor | src/main/java/com/example/kafkademo/events/PageViewEvent.java:16-24 | the fields are the arguments, and the base event's properties are exactly the page-view properties |
| SrcEvents.Purchase | src/main/java/com/example/kafkademo/events/PurchaseEvent.java:22-30 | the purchase keeps its arguments, has kind PURCHASE, and its value is always the exact total of the items, zero for none |
| BackendEvents.BaseEvent.Initialize | backend/src/main/java/com/example/kafkademo/events/BaseEvent.java:27-38 | each default fills its field only while unset: eventId if null, timestamp if 0, properties if null; userId is untouched |
| BackendEvents.BaseEvent.Default | backend/src/main/java/com/example/kafkademo/events/BaseEvent.java:14-38 | the no-argument constructor leaves a generated id, the clock reading, a null userId and an empty map, so every `getProperty` is null |
| BackendEvents.BaseEvent.constructor | backend/src/main/java/com/example/kafkademo/events/BaseEvent.java:22-38 | `BaseEvent(userId)` sets the userId after the defaults; id and timestamp are set and the map is empty |
| BackendEvents.BaseEvent.AddProperty | backend/src/main/java/com/example/kafkademo/events/BaseEvent.java:40-46 | after `addProperty(k, v)`, `getProperty(k)` is v and every other key keeps its value |
| BackendEvents.BaseEvent.SetUserId | backend/src/main/java/com/example/kafkademo/events/BaseEvent.java:13 | the Lombok setter changes the userId only |
| BackendEvents.AddToCartEvent.constructor | backend/src/main/java/com/example/kafkademo/events/AddToCartEvent.java:20-27 | the item gets the given quantity; the value is price times quantity exactly; the currency is the item's; orderId stays null |
| BackendEvents.PurchaseEvent | backend/src/main/java/com/example/kafkademo/events/PurchaseEvent.java:46-55 | the arguments are kept verbatim, except that null items become the empty list |
| BackendEvents.Create | backend/src/main/java/com/example/kafkademo/events/PurchaseEvent.java:57-76 | a non-zero value is kept; a zero value with items becomes their exact total; a zero value without items stays zero; the userId is the given one |
| Processors.Upto | backend/src/main/java/com/example/kafkademo/processor/EventProcessorManager.java:16 | the list positions 0 to n-1 in order |
| Processors.InvokedAppend | backend/src/main/java/com/example/kafkademo/processor/EventProcessorManager.java:16-18 | the processors run in two consecutive parts of a trace are those of the first part followed by those of the second |
| Processors.QueriedAppend | backend/src/main/java/com/example/kafkademo/processor/EventProcessorManager.java:16-18 | likewise for the processors asked |
| Processors.RunsExactlyClaiming | backend/src/main/java/com/example/kafkademo/processor/EventProcessorManager.java:15-19 | when nothing throws, every processor is asked once in list order, and `process` runs exactly for the claiming ones, in list order |
| Processors.ThrownStays | backend/src/main/java/com/example/kafkademo/processor/EventProcessorManager.java:16-18 | once a `process` call has thrown, no later processor is asked or run |
| Processors.StopsAtFailure | backend/src/main/java/com/example/kafkademo/processor/EventProcessorManager.java:16-18 | an escaping exception comes from one claiming processor k; everything before k completed; nothing after k happened |
| Processors.NoClaimNoRun | backend/src/main/java/com/example/kafkademo/processor/EventProcessorManager.java:17-18 | when no processor claims the event, nothing is processed and nothing is thrown |
| Processors.NobodyClaims | backend/src/main/java/com/example/kafkademo/processor/EventProcessorManager.java:17 | when no processor claims the event, the set of claiming processors is empty and nothing is thrown |
| Processors.EventProcessorManager.ProcessEvent | backend/src/main/java/com/example/kafkademo/processor/EventProcessorManager.java:15-19 | the loop makes exactly the calls of the lazy stream and propagates the first exception, as `Run` states |
| Processors.PurchaseProcess | backend/src/main/java/com/example/kafkademo/processor/PurchaseEventProcessor.java:16-23 | a `PurchaseEvent` gets one line naming its order; any other event gets nothing; it never throws |
| Processors.StoredPurchaseIgnored | backend/src/main/java/com/example/kafkademo/processor/PurchaseEventProcessor.java:12-18 | a PURCHASE-kind view read from storage is claimed, but processing it does nothing |
| Processors.PurchaseDispatch | backend/src/main/java/com/example/kafkademo/processor/PurchaseEventProcessor.java:12-23 | an event of another kind is not claimed; a typed purchase is claimed and gets its line |
| Kafka.KafkaTemplate.Send | backend/src/main/java/com/example/kafkademo/controller/EventController.java:173 | a send that does not fail at once appends exactly one record, with that topic, key and event; a failing send changes nothing |
| SrcController.Rejected | src/main/java/com/example/kafkademo/controller/EventController.java:40-42 | an IllegalArgumentException becomes 400 "Invalid event type: " plus its message; every other exception leaves the handler unchanged |
| SrcController.EventController.TrackEvent | src/main/java/com/example/kafkademo/controller/EventController.java:26-43 | a failed build sends nothing; a built event is sent once to "user-events" under its id and then processed; the answer is 200, the 400 rejection, or the escaping exception |
| SrcController.BadKindIs400 | src/main/java/com/example/kafkademo/controller/EventController.java:40-46 | an unknown or unsupported kind is answered 400 with the message of `valueOf` or of the default branch |
| SrcController.BadDataEscapes | src/main/java/com/example/kafkademo/controller/EventController.java:32-42 | for a supported kind, a failure caused by the data is never answered 400; it leaves the handler |
| BackendController.BackCompatPrice | backend/src/main/java/com/example/kafkademo/controller/EventController.java:131-143 | an absent price is 0.00; unparsable text is "Invalid price format"; otherwise the price is rounded HALF_UP to cents, accepted exactly when above -0.005, and refused with "Price cannot be negative" |
| BackendController.BackCompatQuantity | backend/src/main/java/com/example/kafkademo/controller/EventController.java:146-157 | an absent quantity is 1; unparsable text is "Invalid quantity format"; a value below 1 is "Quantity must be at least 1"; an accepted quantity is an int of at least 1 |
| BackendController.TinyNegativePriceIsZero | backend/src/main/java/com/example/kafkademo/controller/EventController.java:131-140 | "-0.004" is accepted as 0.00 |
| BackendController.HalfCentNegativePriceRefused | backend/src/main/java/com/example/kafkademo/controller/EventController.java:131-138 | "-0.005" is refused as negative |
| BackendController.PriceInCents | backend/src/main/java/com/example/kafkademo/controller/EventController.java:134-135 | "19.99" is accepted as 19.99 |
| BackendController.PriceNotANumber | backend/src/main/java/com/example/kafkademo/controller/EventController.java:141-142 | "abc" is refused with "Invalid price format. Please provide a valid number." |
| BackendController.IntegerPrice | backend/src/main/java/com/example/kafkademo/controller/EventController.java:134-135 | the integer 5 is accepted as 5.00 |
| BackendController.SynthesizedItem | backend/src/main/java/com/example/kafkademo/controller/EventController.java:124-157 | the form item has exactly the keys itemId, itemType, price and quantity; itemType defaults to "UNKNOWN"; price and quantity are the checked values; it fails exactly when a check fails, with an IllegalArgumentException |
| BackendController.PurchaseItems | backend/src/main/java/com/example/kafkademo/controller/EventController.java:118-160 | a list in the request is used whatever the form fields say; otherwise a non-null itemId gives the one synthesized item; otherwise no items |
| BackendController.BuildPurchaseItems | backend/src/main/java/com/example/kafkademo/controller/EventController.java:118-160 | the imperative filling of the items list gives exactly `PurchaseItems` |
| BackendController.BuildEventData | backend/src/main/java/com/example/kafkademo/controller/EventController.java:86-163 | the put-by-put building of the event data gives exactly the stated event data, or the same exception |
| BackendController.ErrorResponse | backend/src/main/java/com/example/kafkademo/controller/EventController.java:189-204 | an IllegalArgumentException is a 400 and anything else a 500; both bodies have exactly error, message and timestamp, with the exception's message and the date |
| BackendController.EventController.TrackEvent | backend/src/main/java/com/example/kafkademo/controller/EventController.java:69-205 | a request refused before sending sends nothing; an admitted event is sent once and processed; a send or processing failure is a 500; success is 200 "Event tracked successfully" |
| BackendController.MissingFieldsAre400 | backend/src/main/java/com/example/kafkademo/controller/EventController.java:72-84 | a null body, or a null userId or eventType, is answered with a 400 before anything is built |
| BackendController.AdmitBuilds | backend/src/main/java/com/example/kafkademo/controller/EventController.java:79-167 | with string userId and eventType, the request is admitted exactly when building succeeds, and what building throws is what the handler answers for |
| BackendController.BadKindIs400 | backend/src/main/java/com/example/kafkademo/controller/EventController.java:86-98 | an unknown or unsupported kind, in any letter case, is a 400 "Invalid event type" once the session fields are strings |
| BackendController.SendOrProcessFailureIs500 | backend/src/main/java/com/example/kafkademo/controller/EventController.java:183-203 | a failure while sending or processing is a 500 whose message names the cause, even when the cause is an IllegalArgumentException |
| BackendController.AddToCartQuantityIsOne | backend/src/main/java/com/example/kafkademo/controller/EventController.java:104-110 | every add-to-cart event the handler builds has quantity 1 and is worth exactly one unit price |
| BackendController.PurchaseItemsPrecedence | backend/src/main/java/com/example/kafkademo/controller/EventController.java:113-161 | an items list in the request ends up in the event data; without one, an itemId yields exactly the synthesized item |
| BackendController.SynthesizedPurchaseData | backend/src/main/java/com/example/kafkademo/controller/EventController.java:122-161 | for a purchase without an items list but with an itemId, the event data's items are the synthesized item alone |
| BackendController.SingleItemPurchase | backend/src/main/java/com/example/kafkademo/controller/EventController.java:225-235 | a purchase built from one item map has one item, converted from that map, and the currency of that item |
| BackendController.SynthesizedItemContext | backend/src/main/java/com/example/kafkademo/controller/EventController.java:124-159 | the synthesized item converts to an item without currency, with the checked price and quantity |
| BackendController.BuildPurchase | backend/src/main/java/com/example/kafkademo/controller/EventController.java:98-167 | a built purchase went through the PURCHASE branch of both the reshaping and `createEvent` |
| BackendController.SynthesizedPurchaseHasNoCurrency | backend/src/main/java/com/example/kafkademo/controller/EventController.java:113-161 | a purchase from flat form fields has one item with the checked price and quantity, and a null currency whatever the request says |
| Storage.EventDocument.Default | backend/src/main/java/com/example/kafkademo/model/EventDocument.java:37-39 | only createdAt is set; eventId, userId, eventType, properties and id are null and timestamp is 0 |
| Storage.EventDocument.constructor | backend/src/main/java/com/example/kafkademo/model/EventDocument.java:41-49 | the five fields are stored verbatim, createdAt is set as by `this()`, and id stays null |
| Storage.WithUser | backend/src/main/java/com/example/kafkademo/repository/EventRepository.java:13 | a document is in the result exactly when it is stored with that userId; the result is no longer than the store |
| Storage.WithType | backend/src/main/java/com/example/kafkademo/repository/EventRepository.java:17 | a document is in the result exactly when it is stored with that kind; the result is no longer than the store |
| Storage.WithUserAndType | backend/src/main/java/com/example/kafkademo/repository/EventRepository.java:15 | exactly the documents matching both the userId and the kind |
| Storage.WithTimestampBetween | backend/src/main/java/com/example/kafkademo/repository/EventRepository.java:19 | exactly the documents whose timestamp lies between the bounds, with inclusiveness a parameter |
| Storage.UserAndTypeIsKindAmongUser | backend/src/main/java/com/example/kafkademo/repository/EventRepository.java:13-15 | querying by user and kind is querying by kind among the user's documents, in the same order |
| Storage.AppendedComesLast | backend/src/main/java/com/example/kafkademo/repository/EventRepository.java:13 | a newly inserted document comes last among its owner's documents and changes no other owner's |
| Storage.Replace | backend/src/main/java/com/example/kafkademo/repository/EventRepository.java:11 | every stored document with the id is replaced and the rest stay in place |
| Storage.EventRepository.Save | backend/src/main/java/com/example/kafkademo/repository/EventRepository.java:11 | a document without an id is inserted at the end under the generated id; one with an id replaces its namesake, or is inserted |
| Storage.EventRepository.DeleteAll | backend/src/main/java/com/example/kafkademo/repository/EventRepository.java:11 | the store is empty afterwards |
| Storage.EventRepository.FindByUserId | backend/src/main/java/com/example/kafkademo/repository/EventRepository.java:13 | exactly the stored documents with that userId |
| Storage.EventRepository.FindByUserIdAndEventType | backend/src/main/java/com/example/kafkademo/repository/EventRepository.java:15 | those of the user's documents that have the kind, so a part of `findByUserId` |
| Storage.EventRepository.FindByEventType | backend/src/main/java/com/example/kafkademo/repository/EventRepository.java:17 | exactly the stored documents of that kind |
| Storage.EventRepository.FindByTimestampBetween | backend/src/main/java/com/example/kafkademo/repository/EventRepository.java:19 | only documents within the closed bounds, and every document strictly inside them |
| Storage.EmptyStoreFindsNothing | backend/src/main/java/com/example/kafkademo/repository/EventRepository.java:11-19 | after `deleteAll`, every finder returns an empty list |
| Storage.ViewProperties | backend/src/main/java/com/example/kafkademo/service/EventStorageService.java:86-93 | the view keeps the keys; a string value reads as itself and a null value as "" |
| Storage.MapToEvent | backend/src/main/java/com/example/kafkademo/service/EventStorageService.java:66-100 | the view keeps eventId, userId, eventType and timestamp; it has properties exactly when the document has a map, with the same keys; it is no e-commerce event |
| Storage.MapAll | backend/src/main/java/com/example/kafkademo/service/EventStorageService.java:45-47 | the documents are mapped one to one, in order |
| Storage.DocumentOf | backend/src/main/java/com/example/kafkademo/service/EventStorageService.java:27-35 | the document has the event's eventId, userId, kind, timestamp and properties, the creation time and no id |
| Storage.RoundTrip | backend/src/main/java/com/example/kafkademo/service/EventStorageService.java:27-93 | saving an event and reading it back keeps its identity, kind and time, and keeps its properties when no value is null |
| Storage.NullValueReadsEmpty | backend/src/main/java/com/example/kafkademo/service/EventStorageService.java:91 | a null property value comes back as "", so that round trip fails |
| Storage.EventStorageService.SaveEvent | backend/src/main/java/com/example/kafkademo/service/EventStorageService.java:24-42 | the store gains exactly the event's document at the end; with null properties or a failing store nothing changes and nothing is thrown |
| Storage.EventStorageService.GetEventsByUserId | backend/src/main/java/com/example/kafkademo/service/EventStorageService.java:44-48 | the documents the repository finds for the user are mapped one to one, in the order found; a failing store read throws |
| Storage.EventStorageService.GetEventsByUserIdAndType | backend/src/main/java/com/example/kafkademo/service/EventStorageService.java:50-54 | the same for the user's documents of the kind |
| Storage.EventStorageService.ClearEvents | backend/src/main/java/com/example/kafkademo/service/EventStorageService.java:56-64 | the store is emptied; a failure leaves it and is rethrown as RuntimeException("Failed to clear events from the database") |
| Storage.SavedEventReadsLast | backend/src/main/java/com/example/kafkademo/service/EventStorageService.java:24-48 | after a save, the owner's events read back are the earlier ones followed by the view of the saved document |
| LogService.Retrieved | backend/src/main/java/com/example/kafkademo/service/EventLogService.java:29-36 | a storage result passes unchanged; a storage failure becomes RuntimeException("Failed to retrieve events") with that cause |
| LogService.EventLogService.LogEvent | backend/src/main/java/com/example/kafkademo/service/EventLogService.java:18-27 | logging has exactly the effect of `saveEvent` and never throws |
| LogService.EventLogService.GetEventsByUserId | backend/src/main/java/com/example/kafkademo/service/EventLogService.java:29-36 | the storage result is returned unchanged, and a read failure is wrapped as "Failed to retrieve events" |
| LogService.EventLogService.GetEventsByUserIdAndType | backend/src/main/java/com/example/kafkademo/service/EventLogService.java:38-45 | likewise for the user's events of one kind |
| LogService.EventLogService.ClearEvents | backend/src/main/java/com/example/kafkademo/service/EventLogService.java:47-55 | it has exactly storage's effect; storage's failure is wrapped once more as "Failed to clear events" |

## Left out

- Kafka delivery is not modelled. A send that does not fail at once is a record in an outbox. The asynchronous callbacks, partitions, the producer (`UserEventProducer`) and the consumer (`UserEventConsumer`) are not part of this model.
- The GET and clear HTTP handlers of the backend controller are not modelled, nor its `eventLogService` field. `trackEvent` never logs or stores. The GET handler's String argument to an `EventType` parameter is not modelled either.
- `MongoConfig`, `MskClusterUtils`, `UserEvent` and the frontend are not part of this model. The Spring Data query machinery is also left out: the repository is an in-memory sequence of documents.
- Storage copies are values. A Mongo document holds a copy of the event's map, and a Dafny map is a value, so a later change to the event cannot reach the store. Aliasing is therefore not modelled.
- Floating point is not modelled. The root tree's `double` prices and values are carried as exact decimals. So is the backend's `price.doubleValue()` followed by `BigDecimal.valueOf(double)`. Only the numeric value carries over: the scale after that round trip (5.00 comes back as 5.0) is not tracked, and neither is binary rounding.
- `Requests.DecimalText`: a `Double`'s `toString` can use exponent notation ("1.0E10"). `new BigDecimal` accepts that, but the model reads the double as its own decimal. Exponent notation in strings is refused, which is a NumberFormatException here as well.
- `JavaLang.ToUpperCase`: only ASCII letters change. Locale-dependent and non-ASCII case mapping is not modelled, nor Unicode digits in `parseInt` or in `new BigDecimal`, which both accept them and the model refuses.
- An `IllegalArgumentException` without a message is not modelled: every one the core throws, `EventType.valueOf`'s included, carries a message, so `IllegalArgument` holds a non-null string.
- JDK exception messages are not modelled. A NullPointerException, a ClassCastException or a client-library failure has a null message here, so the 500 body's message is null for them.
- Spring request binding (`@RequestParam`, `@RequestBody` conversion) is left out. The root handler receives a non-null userId, eventType and data map.
- The root application's `AddToCartEvent` and `ItemContext` are not part of this model. `EventFactory.createAddToCart` builds the backend `AddToCartEvent`, and the backend `ItemContext`, whose price is a `BigDecimal`, serves both trees.
- Lombok builders, `toString`, `equals` and the no-argument `PurchaseEvent()` are left out. The builders are modelled as the constructors they call.
- `BackendEvents.Create`: a null `value` is excluded by typing. In the source, `value.compareTo` on a null value would throw a NullPointerException.
- A null item price is not modelled. `AsNumber` turns a null price into a NullPointerException at conversion, and a priced item always has a price.
- `Processors.EventProcessor`: `canProcess` is a total function here, so a throwing `canProcess` is not modelled. Only `process` may throw.
- After a successful save, the Mongo id written back into the document object is not modelled: that object is never read again.
- `Storage.MapToEvent`: the view's `getProperties()` is computed when it is called, and a document without a map makes that call throw. It is modelled as a view with null properties. A document property value other than a string or null cannot arise from `saveEvent`, so `toString` of other objects is not modelled.
- Logging is left out, and so is `System.out` except for the processor's line, which is its output. UUIDs, the clock and `new Date()` are inputs.
