/**
 * The `Event` interface as a value: what its getters return at one moment.
 * The kind-specific fields of the concrete classes sit in the payload, whose
 * constructor also answers `instanceof`.
 */
module Events {
  import opened JavaLang
  import opened Decimals
  import opened EventTypes
  import opened Contexts

  datatype Payload =
    | PageViewPayload(pageUrl: NString, pageTitle: NString, referrer: NString)
      /** `EcommerceEvent` AddToCartEvent. */
    | AddToCartPayload(item: ItemContext, orderId: NString, value: Decimal, currency: NString)
      /** `EcommerceEvent` PurchaseEvent, of either application. */
    | PurchasePayload(orderId: NString, value: Decimal, paymentMethod: NString, currency: NString,
                      items: seq<ItemContext>)
      /** The anonymous `Event` that storage builds from a document. */
    | DocumentPayload

  datatype Event = Event(
    eventId: NString,
    userId: NString,
    timestamp: int,
    /** `None` stands for a `getProperties()` that returns or dereferences null. */
    properties: Option<map<string, NString>>,
    eventType: Option<EventType>,
    payload: Payload)
  {
    /** `instanceof EcommerceEvent`. */
    predicate IsEcommerce() {
      payload.AddToCartPayload? || payload.PurchasePayload?
    }
  }
}
