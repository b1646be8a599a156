/**
 * The event classes of the root application, whose money is `double`
 * (carried here as exact decimals).
 */
module SrcEvents {
  import opened JavaLang
  import opened Decimals
  import opened EventTypes
  import opened Contexts
  import opened Events

  /** `BaseEvent`: identity, owner, clock reading and a property map. */
  class BaseEvent {
    var eventId: string
    var userId: NString
    var timestamp: int
    var properties: map<string, NString>

    /** `BaseEvent(userId)`, with the generated UUID and the clock as inputs. */
    constructor (userId: NString, uuid: string, now: int)
      ensures eventId == uuid && this.userId == userId && timestamp == now
      ensures properties == map[]
      ensures forall key :: GetProperty(key).None?
    {
      eventId := uuid;
      this.userId := userId;
      timestamp := now;
      properties := map[];
    }

    /** `addProperty`: a put into the map; a second put of a key replaces the first. */
    method AddProperty(key: string, value: NString)
      modifies this
      ensures properties == old(properties)[key := value]
      ensures eventId == old(eventId) && userId == old(userId) && timestamp == old(timestamp)
      ensures GetProperty(key) == value
      ensures forall k :: k != key ==> GetProperty(k) == old(GetProperty(k))
      ensures properties.Keys == old(properties).Keys + {key}
    {
      properties := properties[key := value];
    }

    /** `getProperty`: null for a key never put. */
    function GetProperty(key: string): NString
      reads this
    {
      if key in properties then properties[key] else None
    }
  }

  /** The properties a page view records: the url always, title and referrer when present. */
  function PageViewProperties(pageUrl: NString, pageTitle: NString, referrer: NString): (m: map<string, NString>)
    ensures "url" in m && m["url"] == pageUrl
    ensures "pageTitle" in m <==> pageTitle.Some?
    ensures "pageTitle" in m ==> m["pageTitle"] == pageTitle
    ensures "referrer" in m <==> referrer.Some?
    ensures "referrer" in m ==> m["referrer"] == referrer
    ensures m.Keys <= {"url", "pageTitle", "referrer"}
  {
    var m := map["url" := pageUrl];
    var m := if pageTitle.Some? then m["pageTitle" := pageTitle] else m;
    if referrer.Some? then m["referrer" := referrer] else m
  }

  /** The event a new `PageViewEvent` presents. */
  function PageViewOf(userId: NString, pageUrl: NString, pageTitle: NString, referrer: NString,
                      uuid: string, now: int): Event
  {
    Event(Some(uuid), userId, now, Some(PageViewProperties(pageUrl, pageTitle, referrer)),
          Some(PAGE_VIEW), PageViewPayload(pageUrl, pageTitle, referrer))
  }

  class PageViewEvent {
    const base: BaseEvent
    var pageUrl: NString
    var pageTitle: NString
    var referrer: NString

    constructor (userId: NString, pageUrl: NString, pageTitle: NString, referrer: NString,
                 uuid: string, now: int)
      ensures fresh(base)
      ensures base.eventId == uuid && base.userId == userId && base.timestamp == now
      ensures this.pageUrl == pageUrl && this.pageTitle == pageTitle && this.referrer == referrer
      ensures base.properties == PageViewProperties(pageUrl, pageTitle, referrer)
      ensures AsEvent() == PageViewOf(userId, pageUrl, pageTitle, referrer, uuid, now)
    {
      base := new BaseEvent(userId, uuid, now);
      this.pageUrl := pageUrl;
      this.pageTitle := pageTitle;
      this.referrer := referrer;
      new;
      base.AddProperty("url", pageUrl);
      if pageTitle.Some? {
        base.AddProperty("pageTitle", pageTitle);
      }
      if referrer.Some? {
        base.AddProperty("referrer", referrer);
      }
    }

    function GetEventType(): EventType {
      PAGE_VIEW
    }

    function AsEvent(): Event
      reads this, base
    {
      Event(Some(base.eventId), base.userId, base.timestamp, Some(base.properties),
            Some(GetEventType()), PageViewPayload(pageUrl, pageTitle, referrer))
    }
  }

  /**
   * `new PurchaseEvent(userId, orderId, items, paymentMethod, currency)`: a
   * fresh base event whose value is always the total of the items.
   */
  function Purchase(userId: NString, orderId: NString, items: seq<ItemContext>,
                    paymentMethod: NString, currency: NString, uuid: string, now: int): (e: Event)
    ensures e.eventId == Some(uuid) && e.userId == userId && e.timestamp == now
    ensures e.properties == Some(map[])
    ensures e.eventType == Some(PURCHASE)
    ensures e.payload.PurchasePayload?
    ensures e.payload.orderId == orderId && e.payload.items == items
    ensures e.payload.paymentMethod == paymentMethod && e.payload.currency == currency
    ensures Real(e.payload.value) == Amount(items)
    ensures items == [] ==> IsZero(e.payload.value)
  {
    Event(Some(uuid), userId, now, Some(map[]), Some(PURCHASE),
          PurchasePayload(orderId, Total(items), paymentMethod, currency, items))
  }
}
