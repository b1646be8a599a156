/**
 * `createEvent`, `createUserContext` and `createItemContext`, which both
 * controllers define alike: the untyped event data becomes a typed event
 * through the factory. The one difference, the backend's `BigDecimal.valueOf`
 * around the item price, does not change the exact decimal modelled here.
 */
module Translation {
  import opened JavaLang
  import opened Decimals
  import opened EventTypes
  import opened Contexts
  import opened Events
  import opened Requests
  import SrcEvents
  import BackendEvents
  import Factory

  /** A failure of a cast or of a null dereference, never an IllegalArgumentException. */
  predicate CastFailure(e: Exception) {
    e == ClassCast || e == NullPointer
  }

  /** `createUserContext`: only the session, agent and address, never a userId. */
  function CreateUserContext(data: Json): (r: Result<UserContext>)
    ensures r.Ok? <==> AsString(Get(data, "sessionId")).Ok? && AsString(Get(data, "userAgent")).Ok?
                       && AsString(Get(data, "ipAddress")).Ok?
    ensures r.Ok? ==> r.value == UserContext(None, AsString(Get(data, "sessionId")).value,
                                             AsString(Get(data, "userAgent")).value,
                                             AsString(Get(data, "ipAddress")).value,
                                             None, None, None, None, None)
    ensures r.Thrown? ==> CastFailure(r.exception)
  {
    var sessionId :- AsString(Get(data, "sessionId"));
    var userAgent :- AsString(Get(data, "userAgent"));
    var ipAddress :- AsString(Get(data, "ipAddress"));
    Ok(UserContext(None, sessionId, userAgent, ipAddress, None, None, None, None, None))
  }

  /**
   * `createItemContext`: a null map fails; the price must be a number and
   * the quantity an `Integer`, 1 when the key is absent.
   */
  function CreateItemContext(data: Option<Json>): (r: Result<ItemContext>)
    ensures data.None? ==> r == Thrown(NullPointer)
    ensures r.Thrown? ==> CastFailure(r.exception)
    ensures r.Ok? ==> var d, item := data.value, r.value;
      && Ok(item.itemId) == AsString(Get(d, "itemId"))
      && Ok(item.itemType) == AsString(Get(d, "itemType"))
      && Ok(item.price) == AsNumber(Get(d, "price"))
      && Ok(item.currency) == AsString(Get(d, "currency"))
      && item.category.None? && item.sku.None? && item.name.None?
      && IsInt(item.quantity)
      && ("quantity" !in d ==> item.quantity == 1)
      && ("quantity" in d ==> d["quantity"] == VInt(item.quantity))
  {
    if data.None? then Thrown(NullPointer)
    else
      var d := data.value;
      var itemId :- AsString(Get(d, "itemId"));
      var itemType :- AsString(Get(d, "itemType"));
      var price :- AsNumber(Get(d, "price"));
      var currency :- AsString(Get(d, "currency"));
      var quantity :- AsInt(GetOrDefault(d, "quantity", VInt(1)));
      Ok(ItemContext(itemId, itemType, None, None, None, price, currency, quantity))
  }

  /** One element of the items list: cast to a map, then converted. */
  function ItemOf(v: Value): (r: Result<ItemContext>)
    ensures r.Thrown? ==> CastFailure(r.exception)
  {
    var m :- AsMap(v);
    CreateItemContext(m)
  }

  /**
   * `.stream().map(this::createItemContext).collect(toList())`: one item per
   * element, in order, or the exception of the first element that fails.
   */
  function ItemsOf(xs: seq<Value>): (r: Result<seq<ItemContext>>)
    ensures r.Ok? ==> |r.value| == |xs| && forall i :: 0 <= i < |xs| ==> ItemOf(xs[i]) == Ok(r.value[i])
    ensures r.Ok? <==> forall i :: 0 <= i < |xs| ==> ItemOf(xs[i]).Ok?
    ensures r.Thrown? ==> exists i :: 0 <= i < |xs| && ItemOf(xs[i]) == Thrown(r.exception)
                                      && forall j :: 0 <= j < i ==> ItemOf(xs[j]).Ok?
  {
    if |xs| == 0 then Ok([])
    else
      var head :- ItemOf(xs[0]);
      var tail := ItemsOf(xs[1..]);
      if tail.Thrown? then
        ghost var i :| 0 < i + 1 <= |xs[1..]| && ItemOf(xs[1..][i]) == Thrown(tail.exception)
                       && forall j :: 0 <= j < i ==> ItemOf(xs[1..][j]).Ok?;
        assert ItemOf(xs[i + 1]) == Thrown(tail.exception);
        Thrown(tail.exception)
      else
        assert forall i :: 0 < i < |xs| ==> xs[i] == xs[1..][i - 1];
        Ok([head] + tail.value)
  }

  /** `(List<Map<String, Object>>) data.get("items")` streamed: null is a NullPointerException. */
  function ItemContexts(v: Value): (r: Result<seq<ItemContext>>)
    ensures v.VNull? ==> r == Thrown(NullPointer)
    ensures v.VList? ==> r == ItemsOf(v.elements)
    ensures !v.VNull? && !v.VList? ==> r == Thrown(ClassCast)
    ensures r.Thrown? ==> CastFailure(r.exception)
  {
    var list :- AsList(v);
    if list.None? then Thrown(NullPointer) else ItemsOf(list.value)
  }

  /** The event `createEvent(userId, eventType, data)` returns, or what it throws. */
  function EventFor(userId: NString, eventType: string, data: Json, uuid: string, now: int): Result<Event>
  {
    var kind := Lookup(eventType);
    if kind.None? then Thrown(IllegalArgument(NoEnumConstant(ToUpperCase(eventType))))
    else if kind.value == PAGE_VIEW then
      var user :- CreateUserContext(data);
      var pageUrl :- AsString(Get(data, "pageUrl"));
      var pageTitle :- AsString(Get(data, "pageTitle"));
      Ok(SrcEvents.PageViewOf(user.userId, pageUrl, pageTitle, None, uuid, now))
    else if kind.value == ADD_TO_CART then
      var itemMap :- AsMap(Get(data, "item"));
      var item :- CreateItemContext(itemMap);
      var quantity :- AsInt(GetOrDefault(data, "quantity", VInt(1)));
      Ok(BackendEvents.AddToCartOf(userId, item, quantity, uuid, now))
    else if kind.value == PURCHASE then
      var items :- ItemContexts(Get(data, "items"));
      var orderId :- AsString(Get(data, "orderId"));
      var paymentMethod :- AsString(Get(data, "paymentMethod"));
      Factory.CreatePurchase(userId, orderId, items, paymentMethod, uuid, now)
    else Thrown(IllegalArgument("Unsupported event type: " + eventType))
  }

  /** `createEvent`. */
  method CreateEvent(userId: NString, eventType: string, data: Json, uuid: string, now: int)
    returns (r: Result<Event>)
    ensures r == EventFor(userId, eventType, data, uuid, now)
  {
    var kind := Lookup(eventType);
    if kind.None? {
      return Thrown(IllegalArgument(NoEnumConstant(ToUpperCase(eventType))));
    }
    if kind.value == PAGE_VIEW {
      var user :- CreateUserContext(data);
      var pageUrl :- AsString(Get(data, "pageUrl"));
      var pageTitle :- AsString(Get(data, "pageTitle"));
      var e := Factory.CreatePageView(user, pageUrl, pageTitle, uuid, now);
      return Ok(e);
    } else if kind.value == ADD_TO_CART {
      var itemMap :- AsMap(Get(data, "item"));
      var item :- CreateItemContext(itemMap);
      var quantity :- AsInt(GetOrDefault(data, "quantity", VInt(1)));
      var e := Factory.CreateAddToCart(userId, item, quantity, uuid, now);
      return Ok(e);
    } else if kind.value == PURCHASE {
      var items :- ItemContexts(Get(data, "items"));
      var orderId :- AsString(Get(data, "orderId"));
      var paymentMethod :- AsString(Get(data, "paymentMethod"));
      return Factory.CreatePurchase(userId, orderId, items, paymentMethod, uuid, now);
    } else {
      return Thrown(IllegalArgument("Unsupported event type: " + eventType));
    }
  }

  /** The kinds `createEvent` builds. */
  predicate Supported(t: EventType) {
    t == PAGE_VIEW || t == ADD_TO_CART || t == PURCHASE
  }

  /**
   * An IllegalArgumentException comes only from the kind: an unknown name
   * or a kind without a factory. Every other failure is a cast, a null or
   * the empty purchase.
   */
  lemma IllegalArgumentOnlyFromKind(userId: NString, eventType: string, data: Json, uuid: string, now: int)
    ensures var r := EventFor(userId, eventType, data, uuid, now);
      r.Thrown? ==> (r.exception.IllegalArgument? <==> (Lookup(eventType).None? || !Supported(Lookup(eventType).value)))
  {
  }

  /** An event is built only for a supported kind, and it is of that kind. */
  lemma KindOfEvent(userId: NString, eventType: string, data: Json, uuid: string, now: int)
    ensures EventFor(userId, eventType, data, uuid, now).Ok? ==>
      var e := EventFor(userId, eventType, data, uuid, now).value;
      Lookup(eventType).Some? && Supported(Lookup(eventType).value)
      && e.eventType == Lookup(eventType)
  {
  }

  /**
   * Case does not matter for a kind that resolves to a supported one or to
   * none; only the "Unsupported event type" message repeats the text as given.
   */
  lemma CaseInsensitive(userId: NString, s: string, s': string, data: Json, uuid: string, now: int)
    requires ToUpperCase(s) == ToUpperCase(s')
    requires Lookup(s).None? || Supported(Lookup(s).value)
    ensures EventFor(userId, s, data, uuid, now) == EventFor(userId, s', data, uuid, now)
  {
  }

  /** A page view has no owner, since the user context it is built from has none, and no referrer. */
  lemma PageViewHasNoOwner(userId: NString, eventType: string, data: Json, uuid: string, now: int)
    requires Lookup(eventType) == Some(PAGE_VIEW)
    ensures EventFor(userId, eventType, data, uuid, now).Ok? ==>
      var e := EventFor(userId, eventType, data, uuid, now).value;
      e.userId.None? && e.properties.Some? && "referrer" !in e.properties.value
      && e.properties.value["url"] == AsString(Get(data, "pageUrl")).value
  {
  }

  /**
   * An add-to-cart quantity is read from the top level of the data, 1 when
   * absent, and replaces the nested item's own quantity.
   */
  lemma AddToCartQuantity(userId: NString, eventType: string, data: Json, uuid: string, now: int)
    requires Lookup(eventType) == Some(ADD_TO_CART)
    ensures EventFor(userId, eventType, data, uuid, now).Ok? ==>
      var e := EventFor(userId, eventType, data, uuid, now).value;
      && e.userId == userId && e.payload.AddToCartPayload?
      && ("quantity" !in data ==> e.payload.item.quantity == 1)
      && ("quantity" in data ==> data["quantity"] == VInt(e.payload.item.quantity))
      && Real(e.payload.value) == Real(e.payload.item.price) * e.payload.item.quantity as real
  {
  }

  /**
   * Purchase items are converted one to one and in order, the currency is
   * the first item's and the value their total; no items is an
   * IndexOutOfBoundsException.
   */
  lemma PurchaseFromItems(userId: NString, eventType: string, data: Json, uuid: string, now: int)
    requires Lookup(eventType) == Some(PURCHASE)
    ensures Get(data, "items") == VList([]) && AsString(Get(data, "orderId")).Ok?
            && AsString(Get(data, "paymentMethod")).Ok? ==>
      EventFor(userId, eventType, data, uuid, now) == Thrown(IndexOutOfBounds(0, 0))
    ensures EventFor(userId, eventType, data, uuid, now).Ok? ==>
      var e := EventFor(userId, eventType, data, uuid, now).value;
      && Get(data, "items").VList?
      && var xs := Get(data, "items").elements;
      && e.payload.PurchasePayload? && |e.payload.items| == |xs| > 0
      && (forall i :: 0 <= i < |xs| ==> ItemOf(xs[i]) == Ok(e.payload.items[i]))
      && e.payload.currency == e.payload.items[0].currency
      && Real(e.payload.value) == Amount(e.payload.items)
  {
  }
}
