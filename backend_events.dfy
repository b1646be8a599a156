/** The event classes of the backend application, whose money is `BigDecimal`. */
module BackendEvents {
  import opened JavaLang
  import opened Decimals
  import opened EventTypes
  import opened Contexts
  import opened Events

  /**
   * `BaseEvent`. Every field may be null; an instance initializer fills
   * the unset ones whatever constructor runs.
   */
  class BaseEvent {
    var eventId: NString
    var userId: NString
    var timestamp: int
    var properties: Option<map<string, NString>>

    /** The instance initializer: each default fills its field only while it is unset. */
    method Initialize(uuid: string, now: int)
      modifies this
      ensures eventId == if old(eventId).None? then Some(uuid) else old(eventId)
      ensures timestamp == if old(timestamp) == 0 then now else old(timestamp)
      ensures properties == if old(properties).None? then Some(map[]) else old(properties)
      ensures userId == old(userId)
    {
      if eventId.None? {
        eventId := Some(uuid);
      }
      if timestamp == 0 {
        timestamp := now;
      }
      if properties.None? {
        properties := Some(map[]);
      }
    }

    /** `BaseEvent()`: Java's default field values, then the initializer. */
    constructor Default(uuid: string, now: int)
      ensures eventId == Some(uuid) && userId == None && timestamp == now
      ensures properties == Some(map[])
      ensures forall key :: GetProperty(key).None?
    {
      eventId := None;
      userId := None;
      timestamp := 0;
      properties := None;
      new;
      Initialize(uuid, now);
    }

    /** `BaseEvent(userId)`: `this()`, then the owner. */
    constructor (userId: NString, uuid: string, now: int)
      ensures eventId == Some(uuid) && this.userId == userId && timestamp == now
      ensures properties == Some(map[])
      ensures forall key :: GetProperty(key).None?
    {
      eventId := None;
      this.userId := None;
      timestamp := 0;
      properties := None;
      new;
      Initialize(uuid, now);
      this.userId := userId;
    }

    /** `addProperty`; the map must be there, as every constructor leaves it. */
    method AddProperty(key: string, value: NString)
      requires properties.Some?
      modifies this
      ensures properties == Some(old(properties).value[key := value])
      ensures eventId == old(eventId) && userId == old(userId) && timestamp == old(timestamp)
      ensures GetProperty(key) == value
      ensures forall k :: k != key ==> GetProperty(k) == old(GetProperty(k))
    {
      properties := Some(properties.value[key := value]);
    }

    function GetProperty(key: string): NString
      reads this
      requires properties.Some?
    {
      if key in properties.value then properties.value[key] else None
    }

    /** Lombok's `setUserId`. */
    method SetUserId(userId: NString)
      modifies this
      ensures this.userId == userId
      ensures eventId == old(eventId) && timestamp == old(timestamp) && properties == old(properties)
    {
      this.userId := userId;
    }
  }

  /** The event a new `AddToCartEvent` presents: the item with its quantity replaced. */
  function AddToCartOf(userId: NString, item: ItemContext, quantity: int, uuid: string, now: int): Event {
    var updated := item.(quantity := quantity);
    Event(Some(uuid), userId, now, Some(map[]), Some(ADD_TO_CART),
          AddToCartPayload(updated, None, LineTotal(updated), item.currency))
  }

  class AddToCartEvent {
    const base: BaseEvent
    /** The caller's item, whose quantity the constructor overwrites. */
    const item: ItemContext
    var orderId: NString
    var value: Decimal
    var currency: NString

    constructor (userId: NString, item: ItemContext, quantity: int, uuid: string, now: int)
      ensures fresh(base)
      ensures base.eventId == Some(uuid) && base.userId == userId && base.timestamp == now
      ensures base.properties == Some(map[])
      ensures this.item == item.(quantity := quantity)
      ensures Real(value) == Real(item.price) * quantity as real
      ensures currency == item.currency
      ensures orderId.None?
      ensures AsEvent() == AddToCartOf(userId, item, quantity, uuid, now)
    {
      base := new BaseEvent(userId, uuid, now);
      this.item := item.(quantity := quantity);
      value := Multiply(item.price, OfInt(quantity));
      currency := item.currency;
      orderId := None;
    }

    function GetEventType(): EventType {
      ADD_TO_CART
    }

    function AsEvent(): Event
      reads this, base
    {
      Event(base.eventId, base.userId, base.timestamp, base.properties, Some(GetEventType()),
            AddToCartPayload(item, orderId, value, currency))
    }
  }

  /**
   * `new PurchaseEvent(userId, orderId, items, paymentMethod, currency, value)`:
   * the arguments verbatim, null items read as the empty list.
   */
  function PurchaseEvent(userId: NString, orderId: NString, items: Option<seq<ItemContext>>,
                         paymentMethod: NString, currency: NString, value: Decimal,
                         uuid: string, now: int): (e: Event)
    ensures e.eventId == Some(uuid) && e.userId == userId && e.timestamp == now
    ensures e.properties == Some(map[])
    ensures e.eventType == Some(PURCHASE)
    ensures e.payload.PurchasePayload?
    ensures e.payload.items == if items.Some? then items.value else []
    ensures e.payload.orderId == orderId && e.payload.paymentMethod == paymentMethod
    ensures e.payload.currency == currency && e.payload.value == value
  {
    Event(Some(uuid), userId, now, Some(map[]), Some(PURCHASE),
          PurchasePayload(orderId, value, paymentMethod, currency, items.GetOr([])))
  }

  /**
   * `PurchaseEvent.create`: a zero value with items present is replaced by
   * the items' total; any other value is kept as given.
   */
  function Create(userId: NString, orderId: NString, items: Option<seq<ItemContext>>,
                  paymentMethod: NString, currency: NString, value: Decimal,
                  uuid: string, now: int): (e: Event)
    ensures e.eventType == Some(PURCHASE) && e.payload.PurchasePayload?
    ensures e.userId == userId && e.eventId == Some(uuid) && e.timestamp == now
    ensures e.payload.orderId == orderId && e.payload.paymentMethod == paymentMethod
    ensures e.payload.currency == currency
    ensures e.payload.items == if items.Some? then items.value else []
    ensures !IsZero(value) ==> e.payload.value == value
    ensures IsZero(value) && items.Some? && items.value != [] ==> Real(e.payload.value) == Amount(items.value)
    ensures IsZero(value) && (items.None? || items.value == []) ==> Real(e.payload.value) == 0.0
  {
    var value := if IsZero(value) && items.Some? && items.value != [] then Total(items.value) else value;
    var event := PurchaseEvent(userId, orderId, items, paymentMethod, currency, value, uuid, now);
    event.(userId := userId)
  }
}
