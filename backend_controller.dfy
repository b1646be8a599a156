/**
 * The backend's `EventController.trackEvent`: the flat request is checked,
 * reshaped into the event data `createEvent` reads, turned into an event,
 * sent and processed; every failure becomes a 400 or a 500 answer.
 */
module BackendController {
  import opened JavaLang
  import opened Decimals
  import opened EventTypes
  import opened Contexts
  import opened Events
  import opened Requests
  import opened Web
  import opened Kafka
  import opened Processors
  import opened Translation

  const MISSING_FIELDS: string := "Missing required fields: userId and eventType are required"
  const INVALID_PRICE: string := "Invalid price format. Please provide a valid number."
  const NEGATIVE_PRICE: string := "Price cannot be negative"
  const INVALID_QUANTITY: string := "Invalid quantity format"
  const QUANTITY_TOO_SMALL: string := "Quantity must be at least 1"

  /**
   * The price of a purchase item built from the flat form: 0.00 when absent,
   * otherwise the parsed value rounded HALF_UP to cents, refused when the
   * rounded value is negative or the text is no number.
   */
  function BackCompatPrice(price: Value): (r: Result<Decimal>)
    ensures r.Ok? ==> r.value.scale == 2 && !IsNegative(r.value)
    ensures price.VNull? ==> r == Ok(Decimal(0, 2))
    ensures !price.VNull? && DecimalText(price).None? ==> r == Thrown(IllegalArgument(INVALID_PRICE))
    ensures !price.VNull? && DecimalText(price).Some? ==>
      var d := DecimalText(price).value;
      && (r.Ok? <==> 200 * d.unscaled + Pow10(d.scale) > 0)
      && (r.Ok? ==> HalfUpRounds(d, r.value.unscaled))
      && (r.Thrown? ==> r.exception == IllegalArgument(NEGATIVE_PRICE))
  {
    if price.VNull? then Ok(SetScale2HalfUp(Zero))
    else match DecimalText(price)
      case None => Thrown(IllegalArgument(INVALID_PRICE))
      case Some(d) =>
        var rounded := SetScale2HalfUp(d);
        RoundedNegativeIff(d);
        if IsNegative(rounded) then Thrown(IllegalArgument(NEGATIVE_PRICE)) else Ok(rounded)
  }

  /**
   * The quantity of that item: 1 when absent, otherwise an int parsed from
   * the value's text, refused below 1 or when it does not parse.
   */
  function BackCompatQuantity(quantity: Value): (r: Result<int>)
    ensures r.Ok? ==> 1 <= r.value <= INT_MAX
    ensures quantity.VNull? ==> r == Ok(1)
    ensures !quantity.VNull? ==>
      && (IntegerText(quantity).None? ==> r == Thrown(IllegalArgument(INVALID_QUANTITY)))
      && (IntegerText(quantity).Some? && IntegerText(quantity).value < 1 ==> r == Thrown(IllegalArgument(QUANTITY_TOO_SMALL)))
      && (IntegerText(quantity).Some? && IntegerText(quantity).value >= 1 ==> r == Ok(IntegerText(quantity).value))
  {
    if quantity.VNull? then Ok(1)
    else match IntegerText(quantity)
      case None => Thrown(IllegalArgument(INVALID_QUANTITY))
      case Some(q) => if q < 1 then Thrown(IllegalArgument(QUANTITY_TOO_SMALL)) else Ok(q)
  }

  /** A price that rounds to zero cents is accepted as 0.00. */
  lemma TinyNegativePriceIsZero()
    ensures BackCompatPrice(VString("-0.004")) == Ok(Decimal(0, 2))
  {
    ParseExamples();
    RoundingExamples();
  }

  /** A price that rounds to -0.01 is refused. */
  lemma HalfCentNegativePriceRefused()
    ensures BackCompatPrice(VString("-0.005")) == Thrown(IllegalArgument(NEGATIVE_PRICE))
  {
    assert ParseDecimal("-0.005") == Some(Decimal(-5, 3)) by {
      assert "-0.005"[1..] == "0.005";
      assert DotIndex("0.005") == 1;
      assert "0.005"[..1] + "0.005"[2..] == "0005";
      assert DigitsValue("0005") == 5 by {
        assert "0005"[..3] == "000";
        assert "000"[..2] == "00";
        assert "00"[..1] == "0";
        assert "0"[..0] == "";
      }
    }
    assert Pow10(3) == 1000;
  }

  lemma PriceInCents()
    ensures BackCompatPrice(VString("19.99")) == Ok(Decimal(1999, 2))
  {
    ParseExamples();
    assert Pow10(0) == 1;
    assert SetScale2HalfUp(Decimal(1999, 2)) == Decimal(1999, 2);
  }

  lemma PriceNotANumber()
    ensures BackCompatPrice(VString("abc")) == Thrown(IllegalArgument(INVALID_PRICE))
  {
    ParseExamples();
  }

  lemma IntegerPrice()
    ensures BackCompatPrice(VInt(5)) == Ok(Decimal(500, 2))
  {
    RoundingExamples();
  }

  /** The item a purchase gets from the flat form fields. */
  function SynthesizedItem(request: Json): (r: Result<Json>)
    ensures r.Ok? ==> r.value.Keys == {"itemId", "itemType", "price", "quantity"}
    ensures r.Ok? ==> r.value["itemId"] == Get(request, "itemId")
    ensures r.Ok? ==> r.value["itemType"] == if Get(request, "itemType").VNull? then VString("UNKNOWN") else Get(request, "itemType")
    ensures r.Ok? <==> BackCompatPrice(Get(request, "price")).Ok? && BackCompatQuantity(Get(request, "quantity")).Ok?
    ensures r.Ok? ==> r.value["price"] == VDouble(BackCompatPrice(Get(request, "price")).value)
    ensures r.Ok? ==> r.value["quantity"] == VInt(BackCompatQuantity(Get(request, "quantity")).value)
    ensures r.Thrown? ==> r.exception.IllegalArgument?
  {
    var itemType := if Get(request, "itemType").VNull? then VString("UNKNOWN") else Get(request, "itemType");
    var price :- BackCompatPrice(Get(request, "price"));
    var quantity :- BackCompatQuantity(Get(request, "quantity"));
    Ok(map["itemId" := Get(request, "itemId"), "itemType" := itemType,
           "price" := VDouble(price), "quantity" := VInt(quantity)])
  }

  /**
   * The purchase items: the request's list when it has one; otherwise the
   * synthesized item when an itemId is given; otherwise none.
   */
  function PurchaseItems(request: Json): (r: Result<seq<Value>>)
    ensures Get(request, "items").VList? ==> r == Ok(Get(request, "items").elements)
    ensures !Get(request, "items").VList? && Get(request, "itemId").VNull? ==> r == Ok([])
    ensures !Get(request, "items").VList? && !Get(request, "itemId").VNull? ==>
      (r.Ok? <==> SynthesizedItem(request).Ok?)
      && (r.Ok? ==> r.value == [VObject(SynthesizedItem(request).value)])
  {
    var items := Get(request, "items");
    if items.VList? then Ok(items.elements)
    else if !Get(request, "itemId").VNull? then
      var item :- SynthesizedItem(request);
      Ok([VObject(item)])
    else Ok([])
  }

  /** The item map of an add-to-cart request; its price is not checked here. */
  function CartItem(request: Json): Json {
    map["itemId" := Get(request, "itemId"), "itemType" := Get(request, "itemType"),
        "price" := Get(request, "price"),
        "quantity" := if Get(request, "quantity").VNull? then VInt(1) else Get(request, "quantity")]
  }

  /** The base of the event data: the three session fields as strings. */
  function SessionData(request: Json): Result<Json> {
    var sessionId :- AsString(Get(request, "sessionId"));
    var userAgent :- AsString(Get(request, "userAgent"));
    var ipAddress :- AsString(Get(request, "ipAddress"));
    Ok(map["sessionId" := OfString(sessionId), "userAgent" := OfString(userAgent),
           "ipAddress" := OfString(ipAddress)])
  }

  /** What the kind adds to the base of the event data. */
  function KindData(request: Json, base: Json, kind: EventType): Result<Json> {
    if kind == PAGE_VIEW then
      Ok(base["pageUrl" := Get(request, "pageUrl")]["pageTitle" := Get(request, "pageTitle")])
    else if kind == ADD_TO_CART then
      Ok(base["item" := VObject(CartItem(request))])
    else if kind == PURCHASE then
      var items :- PurchaseItems(request);
      Ok(base["orderId" := Get(request, "orderId")]["paymentMethod" := Get(request, "paymentMethod")]
             ["currency" := Get(request, "currency")]["items" := VList(items)])
    else Ok(base)
  }

  /**
   * The event data built for the upper-cased kind `eventType`, or the
   * exception the building raises.
   */
  function EventData(request: Json, eventType: string): Result<Json> {
    var base :- SessionData(request);
    var kind := ValueOf(eventType);
    if kind.None? then Thrown(IllegalArgument(NoEnumConstant(eventType)))
    else KindData(request, base, kind.value)
  }

  /** The `items` list of a purchase, filled as `trackEvent` fills it. */
  method BuildPurchaseItems(request: Json) returns (r: Result<seq<Value>>)
    ensures r == PurchaseItems(request)
  {
    var items: seq<Value> := [];
    if Get(request, "items").VList? {
      items := Get(request, "items").elements;
    } else if !Get(request, "itemId").VNull? {
      var purchaseItem: Json := map[];
      purchaseItem := purchaseItem["itemId" := Get(request, "itemId")];
      purchaseItem := purchaseItem["itemType" :=
        if !Get(request, "itemType").VNull? then Get(request, "itemType") else VString("UNKNOWN")];
      var price :- BackCompatPrice(Get(request, "price"));
      purchaseItem := purchaseItem["price" := VDouble(price)];
      var quantity :- BackCompatQuantity(Get(request, "quantity"));
      purchaseItem := purchaseItem["quantity" := VInt(quantity)];
      assert SynthesizedItem(request) == Ok(purchaseItem);
      assert PurchaseItems(request) == Ok([VObject(purchaseItem)]);
      items := [VObject(purchaseItem)];
    } else {
      assert PurchaseItems(request) == Ok([]);
    }
    return Ok(items);
  }

  /** The part of `trackEvent` that fills the `eventData` map, put by put. */
  method BuildEventData(request: Json, eventType: string) returns (r: Result<Json>)
    ensures r == EventData(request, eventType)
  {
    var sessionId :- AsString(Get(request, "sessionId"));
    var userAgent :- AsString(Get(request, "userAgent"));
    var ipAddress :- AsString(Get(request, "ipAddress"));
    var eventData: Json := map[];
    eventData := eventData["sessionId" := OfString(sessionId)];
    eventData := eventData["userAgent" := OfString(userAgent)];
    eventData := eventData["ipAddress" := OfString(ipAddress)];
    var kind := ValueOf(eventType);
    if kind.None? {
      return Thrown(IllegalArgument(NoEnumConstant(eventType)));
    }
    if kind.value == PAGE_VIEW {
      eventData := eventData["pageUrl" := Get(request, "pageUrl")];
      eventData := eventData["pageTitle" := Get(request, "pageTitle")];
    } else if kind.value == ADD_TO_CART {
      var item: Json := map[];
      item := item["itemId" := Get(request, "itemId")];
      item := item["itemType" := Get(request, "itemType")];
      item := item["price" := Get(request, "price")];
      item := item["quantity" := if !Get(request, "quantity").VNull? then Get(request, "quantity") else VInt(1)];
      eventData := eventData["item" := VObject(item)];
    } else if kind.value == PURCHASE {
      eventData := eventData["orderId" := Get(request, "orderId")];
      eventData := eventData["paymentMethod" := Get(request, "paymentMethod")];
      eventData := eventData["currency" := Get(request, "currency")];
      var items :- BuildPurchaseItems(request);
      eventData := eventData["items" := VList(items)];
    }
    return Ok(eventData);
  }

  /** How far a request gets before anything is sent. */
  datatype Admission =
    | Answered(response: Response)
    | Raised(exception: Exception)
    | Admitted(event: Event)

  /**
   * The reshaping and `createEvent` for a request that passed the checks:
   * the kind is upper-cased once, and both steps read the upper-cased text.
   */
  function Build(request: Json, userId: NString, eventType: string, uuid: string, now: int): Result<Event> {
    var upper := ToUpperCase(eventType);
    var data :- EventData(request, upper);
    EventFor(userId, upper, data, uuid, now)
  }

  /** The checks of `trackEvent`, then `Build`. */
  function Admit(request: Option<Json>, uuid: string, now: int): Admission {
    if request.None? then Answered(Response(BAD_REQUEST, Fields(map["error" := Some("Request body cannot be null")])))
    else
      var body := request.value;
      match AsString(Get(body, "userId"))
      case Thrown(e) => Raised(e)
      case Ok(userId) =>
        match AsString(Get(body, "eventType"))
        case Thrown(e) => Raised(e)
        case Ok(eventType) =>
          if userId.None? || eventType.None? then Answered(Response(BAD_REQUEST, Text(MISSING_FIELDS)))
          else
            match Build(body, userId, eventType.value, uuid, now)
            case Thrown(e) => Raised(e)
            case Ok(event) => Admitted(event)
  }

  /**
   * The two `catch` clauses: an IllegalArgumentException is a 400 labelled
   * "Invalid event type", anything else a 500; both carry the message and
   * the time of day.
   */
  function ErrorResponse(e: Exception, date: string): (r: Response)
    ensures r.status == BAD_REQUEST <==> e.IllegalArgument?
    ensures r.status == INTERNAL_SERVER_ERROR <==> !e.IllegalArgument?
    ensures r.body.Fields? && r.body.fields.Keys == {"error", "message", "timestamp"}
    ensures r.body.fields["message"] == Message(e) && r.body.fields["timestamp"] == Some(date)
  {
    var error := if e.IllegalArgument? then "Invalid event type" else "Failed to process event";
    Response(if e.IllegalArgument? then BAD_REQUEST else INTERNAL_SERVER_ERROR,
             Fields(map["error" := Some(error), "message" := Message(e), "timestamp" := Some(date)]))
  }

  /** The RuntimeException that wraps any failure of sending or processing. */
  function ProcessingFailure(e: Exception): Exception {
    Runtime("Failed to process or send event: " + Str(Message(e)), Some(e))
  }

  const TRACKED: Response := Response(OK, Fields(map["message" := Some("Event tracked successfully")]))

  class EventController {
    const kafkaTemplate: KafkaTemplate
    const eventProcessorManager: EventProcessorManager

    constructor (kafkaTemplate: KafkaTemplate, eventProcessorManager: EventProcessorManager)
      ensures this.kafkaTemplate == kafkaTemplate && this.eventProcessorManager == eventProcessorManager
    {
      this.kafkaTemplate := kafkaTemplate;
      this.eventProcessorManager := eventProcessorManager;
    }

    /**
     * `trackEvent(request)`; `date` is `new Date().toString()` and
     * `dispatch` what processing did, when it ran.
     */
    method TrackEvent(request: Option<Json>, uuid: string, now: int, date: string, sendFails: bool)
      returns (response: Response, dispatch: Option<Dispatch>)
      modifies kafkaTemplate
      ensures var a := Admit(request, uuid, now);
        && (a.Answered? ==>
              response == a.response && dispatch.None? && kafkaTemplate.sent == old(kafkaTemplate.sent))
        && (a.Raised? ==>
              response == ErrorResponse(a.exception, date) && dispatch.None?
              && kafkaTemplate.sent == old(kafkaTemplate.sent))
        && (a.Admitted? && sendFails ==>
              response == ErrorResponse(ProcessingFailure(SendFailure), date) && dispatch.None?
              && kafkaTemplate.sent == old(kafkaTemplate.sent))
        && (a.Admitted? && !sendFails ==>
              && kafkaTemplate.sent == old(kafkaTemplate.sent) + [Record(USER_EVENTS, a.event.eventId, a.event)]
              && dispatch == Some(Run(eventProcessorManager.processors, a.event))
              && response == if dispatch.value.thrown.None? then TRACKED
                             else ErrorResponse(ProcessingFailure(dispatch.value.thrown.value), date))
    {
      dispatch := None;
      if request.None? {
        return Response(BAD_REQUEST, Fields(map["error" := Some("Request body cannot be null")])), None;
      }
      var body := request.value;
      var userId := AsString(Get(body, "userId"));
      if userId.Thrown? {
        return ErrorResponse(userId.exception, date), None;
      }
      var eventTypeStr := AsString(Get(body, "eventType"));
      if eventTypeStr.Thrown? {
        return ErrorResponse(eventTypeStr.exception, date), None;
      }
      if userId.value.None? || eventTypeStr.value.None? {
        return Response(BAD_REQUEST, Text(MISSING_FIELDS)), None;
      }
      var eventType := ToUpperCase(eventTypeStr.value.value);
      var eventData := BuildEventData(body, eventType);
      if eventData.Thrown? {
        return ErrorResponse(eventData.exception, date), None;
      }
      var created := CreateEvent(userId.value, eventType, eventData.value, uuid, now);
      if created.Thrown? {
        return ErrorResponse(created.exception, date), None;
      }
      var event := created.value;
      var sent := kafkaTemplate.Send(USER_EVENTS, event.eventId, event, sendFails);
      if sent.Thrown? {
        return ErrorResponse(ProcessingFailure(sent.exception), date), None;
      }
      var d := eventProcessorManager.ProcessEvent(event);
      dispatch := Some(d);
      if d.thrown.Some? {
        return ErrorResponse(ProcessingFailure(d.thrown.value), date), dispatch;
      }
      return TRACKED, dispatch;
    }
  }

  /** A missing body or a missing userId or eventType is a 400, and no event is built. */
  lemma MissingFieldsAre400(request: Option<Json>, uuid: string, now: int)
    requires request.Some? ==>
      AsString(Get(request.value, "userId")).Ok? && AsString(Get(request.value, "eventType")).Ok?
      && (Get(request.value, "userId").VNull? || Get(request.value, "eventType").VNull?)
    ensures Admit(request, uuid, now).Answered? && Admit(request, uuid, now).response.status == BAD_REQUEST
  {
  }

  /**
   * A request whose userId and eventType are strings is built, and what
   * building throws is what `trackEvent` answers for.
   */
  lemma AdmitBuilds(request: Json, uuid: string, now: int)
    requires Get(request, "userId").VString? && Get(request, "eventType").VString?
    ensures var b := Build(request, Some(Get(request, "userId").s), Get(request, "eventType").s, uuid, now);
      && (b.Ok? <==> Admit(Some(request), uuid, now).Admitted?)
      && (b.Ok? ==> Admit(Some(request), uuid, now).event == b.value)
      && (b.Thrown? ==> Admit(Some(request), uuid, now) == Raised(b.exception))
  {
  }

  /**
   * An unknown kind, in any case, or a kind without a factory answers 400
   * "Invalid event type", once the session fields are strings.
   */
  lemma BadKindIs400(request: Json, userId: NString, eventType: string, uuid: string, now: int, date: string)
    requires SessionData(request).Ok?
    requires Lookup(eventType).None? || !Supported(Lookup(eventType).value)
    ensures var b := Build(request, userId, eventType, uuid, now);
      && b.Thrown? && b.exception.IllegalArgument?
      && ErrorResponse(b.exception, date).status == BAD_REQUEST
      && ErrorResponse(b.exception, date).body.fields["error"] == Some("Invalid event type")
  {
    var upper := ToUpperCase(eventType);
    ToUpperCaseIdempotent(eventType);
    assert Lookup(upper) == ValueOf(upper) == Lookup(eventType);
    var b := Build(request, userId, eventType, uuid, now);
    if Lookup(eventType).None? {
      UnknownKindData(request, upper);
      assert b == Thrown(IllegalArgument(NoEnumConstant(upper)));
    } else {
      var base := SessionData(request).value;
      UnsupportedKindData(request, base, Lookup(eventType).value);
      assert EventData(request, upper) == Ok(base);
      assert b == EventFor(userId, upper, base, uuid, now);
      IllegalArgumentOnlyFromKind(userId, upper, base, uuid, now);
      KindOfEvent(userId, upper, base, uuid, now);
    }
    IllegalArgumentIs400(b.exception, date);
  }

  lemma UnknownKindData(request: Json, eventType: string)
    requires SessionData(request).Ok? && ValueOf(eventType).None?
    ensures EventData(request, eventType) == Thrown(IllegalArgument(NoEnumConstant(eventType)))
  {
  }

  lemma UnsupportedKindData(request: Json, base: Json, kind: EventType)
    requires !Supported(kind)
    ensures KindData(request, base, kind) == Ok(base)
  {
  }

  lemma IllegalArgumentIs400(e: Exception, date: string)
    requires e.IllegalArgument?
    ensures ErrorResponse(e, date).status == BAD_REQUEST
    ensures ErrorResponse(e, date).body.fields["error"] == Some("Invalid event type")
  {
  }

  /**
   * Once an event is built, a failure to send or to process is a 500, even
   * when what was thrown is an IllegalArgumentException.
   */
  lemma SendOrProcessFailureIs500(e: Exception, date: string)
    ensures ErrorResponse(ProcessingFailure(e), date).status == INTERNAL_SERVER_ERROR
    ensures ErrorResponse(ProcessingFailure(e), date).body.fields["message"]
              == Some("Failed to process or send event: " + Str(Message(e)))
  {
  }

  /**
   * An add-to-cart request's quantity goes only into the nested item map, so
   * the event always holds quantity 1 and is worth one unit price.
   */
  lemma AddToCartQuantityIsOne(request: Json, userId: NString, eventType: string, uuid: string, now: int)
    requires Build(request, userId, eventType, uuid, now).Ok?
    requires Build(request, userId, eventType, uuid, now).value.eventType == Some(ADD_TO_CART)
    ensures var e := Build(request, userId, eventType, uuid, now).value;
      e.payload.AddToCartPayload? && e.payload.item.quantity == 1
      && Real(e.payload.value) == Real(e.payload.item.price)
  {
    var upper := ToUpperCase(eventType);
    ToUpperCaseIdempotent(eventType);
    var data := EventData(request, upper).value;
    KindOfEvent(userId, upper, data, uuid, now);
    assert ValueOf(upper) == Some(ADD_TO_CART);
    assert "quantity" !in data;
    AddToCartQuantity(userId, upper, data, uuid, now);
  }

  /**
   * A purchase request with an items list uses that list whatever the form
   * fields say; without one, an itemId yields the one synthesized item.
   */
  lemma PurchaseItemsPrecedence(request: Json)
    requires SessionData(request).Ok?
    ensures Get(request, "items").VList? ==>
      EventData(request, "PURCHASE").Ok?
      && EventData(request, "PURCHASE").value["items"] == Get(request, "items")
    ensures !Get(request, "items").VList? && !Get(request, "itemId").VNull? && SynthesizedItem(request).Ok? ==>
      EventData(request, "PURCHASE").Ok?
      && EventData(request, "PURCHASE").value["items"] == VList([VObject(SynthesizedItem(request).value)])
  {
    assert ValueOf("PURCHASE") == Some(PURCHASE);
  }

  lemma SynthesizedPurchaseData(request: Json, upper: string)
    requires ValueOf(upper) == Some(PURCHASE)
    requires !Get(request, "items").VList? && !Get(request, "itemId").VNull?
    requires EventData(request, upper).Ok?
    ensures SynthesizedItem(request).Ok?
    ensures Get(EventData(request, upper).value, "items") == VList([VObject(SynthesizedItem(request).value)])
  {
  }

  lemma SingleItemPurchase(userId: NString, upper: string, data: Json, item: Json, uuid: string, now: int)
    requires Lookup(upper) == Some(PURCHASE)
    requires Get(data, "items") == VList([VObject(item)])
    requires EventFor(userId, upper, data, uuid, now).Ok?
    ensures var e := EventFor(userId, upper, data, uuid, now).value;
      && e.payload.PurchasePayload? && |e.payload.items| == 1
      && CreateItemContext(Some(item)) == Ok(e.payload.items[0])
      && e.payload.currency == e.payload.items[0].currency
  {
    PurchaseFromItems(userId, upper, data, uuid, now);
    var e := EventFor(userId, upper, data, uuid, now).value;
    assert ItemOf(VObject(item)) == Ok(e.payload.items[0]);
  }

  /** The synthesized item converts to an item without a currency. */
  lemma SynthesizedItemContext(request: Json)
    requires SynthesizedItem(request).Ok?
    requires CreateItemContext(Some(SynthesizedItem(request).value)).Ok?
    ensures var c := CreateItemContext(Some(SynthesizedItem(request).value));
      && c.value.currency.None?
      && c.value.quantity == BackCompatQuantity(Get(request, "quantity")).value
      && c.value.price == BackCompatPrice(Get(request, "price")).value
  {
    var item := SynthesizedItem(request).value;
    assert Get(item, "currency") == VNull;
  }

  /** `Build` of a purchase goes through the PURCHASE branch of both steps. */
  lemma BuildPurchase(request: Json, userId: NString, eventType: string, uuid: string, now: int)
    requires Build(request, userId, eventType, uuid, now).Ok?
    requires Build(request, userId, eventType, uuid, now).value.eventType == Some(PURCHASE)
    ensures var upper := ToUpperCase(eventType);
      && ValueOf(upper) == Some(PURCHASE) && Lookup(upper) == Some(PURCHASE)
      && EventData(request, upper).Ok?
      && Build(request, userId, eventType, uuid, now) == EventFor(userId, upper, EventData(request, upper).value, uuid, now)
  {
    var upper := ToUpperCase(eventType);
    ToUpperCaseIdempotent(eventType);
    KindOfEvent(userId, upper, EventData(request, upper).value, uuid, now);
  }

  /**
   * The synthesized item sets no currency, and a purchase takes its currency
   * from its first item, so such a purchase has a null currency whatever the
   * request's "currency" field says; its price and quantity are the checked
   * form fields.
   */
  lemma SynthesizedPurchaseHasNoCurrency(request: Json, userId: NString, eventType: string, uuid: string, now: int)
    requires !Get(request, "items").VList? && !Get(request, "itemId").VNull?
    requires Build(request, userId, eventType, uuid, now).Ok?
    requires Build(request, userId, eventType, uuid, now).value.eventType == Some(PURCHASE)
    ensures var e := Build(request, userId, eventType, uuid, now).value;
      && e.payload.PurchasePayload? && |e.payload.items| == 1 && e.payload.currency.None?
      && BackCompatQuantity(Get(request, "quantity")) == Ok(e.payload.items[0].quantity)
      && BackCompatPrice(Get(request, "price")) == Ok(e.payload.items[0].price)
  {
    var upper := ToUpperCase(eventType);
    BuildPurchase(request, userId, eventType, uuid, now);
    var data := EventData(request, upper).value;
    SynthesizedPurchaseData(request, upper);
    var item := SynthesizedItem(request).value;
    SingleItemPurchase(userId, upper, data, item, uuid, now);
    var e := EventFor(userId, upper, data, uuid, now).value;
    assert Build(request, userId, eventType, uuid, now).value == e;
    var c := CreateItemContext(Some(item)).value;
    assert e.payload.items[0] == c;
    SynthesizedItemContext(request);
    assert c.currency.None?;
    assert e.payload.currency.None?;
  }
}
