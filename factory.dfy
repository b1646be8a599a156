/**
 * `EventFactory`: builds a typed event and hands out its `Event` view. The
 * add-to-cart event is the backend's `AddToCartEvent`; the purchase event
 * is the root application's `PurchaseEvent`, whose builder takes no value.
 */
module Factory {
  import opened JavaLang
  import opened Decimals
  import opened EventTypes
  import opened Contexts
  import opened Events
  import SrcEvents
  import BackendEvents

  /** `createPageView`: the owner comes from the user context, and no referrer is set. */
  method CreatePageView(userContext: UserContext, pageUrl: NString, pageTitle: NString,
                        uuid: string, now: int) returns (e: Event)
    ensures e == SrcEvents.PageViewOf(userContext.userId, pageUrl, pageTitle, None, uuid, now)
    ensures e.userId == userContext.userId && e.eventType == Some(PAGE_VIEW)
    ensures e.properties.Some? && "referrer" !in e.properties.value
  {
    var event := new SrcEvents.PageViewEvent(userContext.userId, pageUrl, pageTitle, None, uuid, now);
    e := event.AsEvent();
  }

  /** `createAddToCart`: userId, item and quantity passed on unchanged. */
  method CreateAddToCart(userId: NString, item: ItemContext, quantity: int, uuid: string, now: int)
    returns (e: Event)
    ensures e == BackendEvents.AddToCartOf(userId, item, quantity, uuid, now)
    ensures e.userId == userId && e.eventType == Some(ADD_TO_CART)
    ensures e.payload.AddToCartPayload? && e.payload.item.quantity == quantity
    ensures Real(e.payload.value) == Real(item.price) * quantity as real
  {
    var event := new BackendEvents.AddToCartEvent(userId, item, quantity, uuid, now);
    e := event.AsEvent();
  }

  /**
   * `createPurchase`: the currency is the first item's, so an empty list
   * fails in `items.get(0)`.
   */
  function CreatePurchase(userId: NString, orderId: NString, items: seq<ItemContext>,
                          paymentMethod: NString, uuid: string, now: int): (r: Result<Event>)
    ensures r.Ok? <==> |items| > 0
    ensures r.Thrown? ==> r.exception == IndexOutOfBounds(0, 0)
    ensures r.Ok? ==> var e := r.value;
      && e.userId == userId && e.eventType == Some(PURCHASE) && e.payload.PurchasePayload?
      && e.payload.orderId == orderId && e.payload.items == items
      && e.payload.paymentMethod == paymentMethod
      && e.payload.currency == items[0].currency
      && Real(e.payload.value) == Amount(items)
  {
    if |items| == 0 then Thrown(IndexOutOfBounds(0, |items|))
    else Ok(SrcEvents.Purchase(userId, orderId, items, paymentMethod, items[0].currency, uuid, now))
  }
}
