/**
 * The document store: `EventDocument`, the `EventRepository` over an
 * in-memory sequence of stored documents, and `EventStorageService`, which
 * turns events into documents and documents back into a generic `Event`.
 */
module Storage {
  import opened JavaLang
  import opened EventTypes
  import opened Events

  /** What the store holds for one document; it keeps a copy, not the object. */
  datatype DocumentRecord = DocumentRecord(
    id: NString,
    eventId: NString,
    userId: NString,
    eventType: Option<EventType>,
    timestamp: int,
    properties: Option<map<string, NString>>,
    createdAt: int)

  /** `EventDocument`; `now` stands for `Instant.now()`. */
  class EventDocument {
    var id: NString
    var eventId: NString
    var userId: NString
    var eventType: Option<EventType>
    var timestamp: int
    var properties: Option<map<string, NString>>
    var createdAt: int

    /** The constructor for the store: only the creation time is set. */
    constructor Default(now: int)
      ensures id.None? && eventId.None? && userId.None? && eventType.None?
      ensures timestamp == 0 && properties.None? && createdAt == now
    {
      id := None;
      eventId := None;
      userId := None;
      eventType := None;
      timestamp := 0;
      properties := None;
      createdAt := now;
    }

    /** The five fields as given, the creation time as `Default` sets it, and no id. */
    constructor (eventId: NString, userId: NString, eventType: Option<EventType>, timestamp: int,
                 properties: Option<map<string, NString>>, now: int)
      ensures this.eventId == eventId && this.userId == userId && this.eventType == eventType
      ensures this.timestamp == timestamp && this.properties == properties
      ensures createdAt == now && id.None?
    {
      id := None;
      createdAt := now;
      this.eventId := eventId;
      this.userId := userId;
      this.eventType := eventType;
      this.timestamp := timestamp;
      this.properties := properties;
    }

    function Record(): DocumentRecord
      reads this
    {
      DocumentRecord(id, eventId, userId, eventType, timestamp, properties, createdAt)
    }
  }

  /** The documents of `docs` owned by `userId`, in order. */
  function WithUser(docs: seq<DocumentRecord>, userId: NString): (r: seq<DocumentRecord>)
    ensures |r| <= |docs|
    ensures forall d :: d in r <==> d in docs && d.userId == userId
  {
    if |docs| == 0 then []
    else
      var last := docs[|docs| - 1];
      WithUser(docs[..|docs| - 1], userId) + if last.userId == userId then [last] else []
  }

  /** The documents of `docs` of kind `eventType`, in order. */
  function WithType(docs: seq<DocumentRecord>, eventType: EventType): (r: seq<DocumentRecord>)
    ensures |r| <= |docs|
    ensures forall d :: d in r <==> d in docs && d.eventType == Some(eventType)
  {
    if |docs| == 0 then []
    else
      var last := docs[|docs| - 1];
      WithType(docs[..|docs| - 1], eventType) + if last.eventType == Some(eventType) then [last] else []
  }

  /** The documents owned by `userId` and of kind `eventType`, in order. */
  function WithUserAndType(docs: seq<DocumentRecord>, userId: NString, eventType: EventType): (r: seq<DocumentRecord>)
    ensures forall d :: d in r <==> d in docs && d.userId == userId && d.eventType == Some(eventType)
  {
    if |docs| == 0 then []
    else
      var last := docs[|docs| - 1];
      WithUserAndType(docs[..|docs| - 1], userId, eventType)
        + if last.userId == userId && last.eventType == Some(eventType) then [last] else []
  }

  /**
   * The documents whose timestamp lies between the bounds, in order; whether
   * the bounds themselves count is left open by `inclusive`.
   */
  function WithTimestampBetween(docs: seq<DocumentRecord>, start: int, end: int, inclusive: bool): (r: seq<DocumentRecord>)
    ensures forall d :: d in r <==>
      (d in docs && if inclusive then start <= d.timestamp <= end else start < d.timestamp < end)
  {
    if |docs| == 0 then []
    else
      var last := docs[|docs| - 1];
      var within := if inclusive then start <= last.timestamp <= end else start < last.timestamp < end;
      WithTimestampBetween(docs[..|docs| - 1], start, end, inclusive) + if within then [last] else []
  }

  /**
   * Querying by user and kind at once is querying by kind among the user's
   * documents, so its result is part of the user's.
   */
  lemma {:induction false} UserAndTypeIsKindAmongUser(docs: seq<DocumentRecord>, userId: NString, eventType: EventType)
    ensures WithUserAndType(docs, userId, eventType) == WithType(WithUser(docs, userId), eventType)
  {
    if |docs| > 0 {
      var init, last := docs[..|docs| - 1], docs[|docs| - 1];
      UserAndTypeIsKindAmongUser(init, userId, eventType);
      var mine := WithUser(init, userId);
      var tail := if last.userId == userId && last.eventType == Some(eventType) then [last] else [];
      assert WithUserAndType(docs, userId, eventType) == WithType(mine, eventType) + tail;
      if last.userId == userId {
        var mine' := mine + [last];
        assert WithUser(docs, userId) == mine';
        assert mine'[..|mine'| - 1] == mine;
        assert WithType(mine', eventType) == WithType(mine, eventType) + tail;
      } else {
        assert WithUser(docs, userId) == mine;
      }
    }
  }

  /** A document appended to the store comes last among its owner's documents. */
  lemma AppendedComesLast(docs: seq<DocumentRecord>, d: DocumentRecord)
    ensures WithUser(docs + [d], d.userId) == WithUser(docs, d.userId) + [d]
    ensures forall u :: u != d.userId ==> WithUser(docs + [d], u) == WithUser(docs, u)
  {
    assert (docs + [d])[..|docs|] == docs;
  }

  /** Every element of `docs` with id `id` replaced by `d`. */
  function Replace(docs: seq<DocumentRecord>, id: NString, d: DocumentRecord): (r: seq<DocumentRecord>)
    ensures |r| == |docs|
    ensures forall i :: 0 <= i < |docs| ==> r[i] == if docs[i].id == id then d else docs[i]
  {
    if |docs| == 0 then [] else Replace(docs[..|docs| - 1], id, d) + [if docs[|docs| - 1].id == id then d else docs[|docs| - 1]]
  }

  /** `MongoRepository<EventDocument, String>` over the stored documents. */
  class EventRepository {
    var documents: seq<DocumentRecord>

    constructor ()
      ensures documents == []
    {
      documents := [];
    }

    /**
     * `save(doc)`: a document without an id is inserted at the end under
     * `generatedId`, the id the store generates (taken as an input); one with an
     * id replaces the stored document of that id, or is inserted when there
     * is none.
     */
    method Save(doc: DocumentRecord, generatedId: string) returns (saved: DocumentRecord)
      modifies this
      ensures saved == if doc.id.None? then doc.(id := Some(generatedId)) else doc
      ensures doc.id.None? ==> documents == old(documents) + [saved]
      ensures doc.id.Some? && (exists i :: 0 <= i < |old(documents)| && old(documents)[i].id == doc.id) ==>
                documents == Replace(old(documents), doc.id, doc)
      ensures doc.id.Some? && (forall i :: 0 <= i < |old(documents)| ==> old(documents)[i].id != doc.id) ==>
                documents == old(documents) + [doc]
    {
      if doc.id.None? {
        saved := doc.(id := Some(generatedId));
        documents := documents + [saved];
      } else if exists i :: 0 <= i < |documents| && documents[i].id == doc.id {
        saved := doc;
        documents := Replace(documents, doc.id, doc);
      } else {
        saved := doc;
        documents := documents + [doc];
      }
    }

    /** `deleteAll()`. */
    method DeleteAll()
      modifies this
      ensures documents == []
    {
      documents := [];
    }

    /** `findByUserId`: exactly the stored documents of that owner, in store order. */
    function FindByUserId(userId: NString): (r: seq<DocumentRecord>)
      reads this
      ensures forall d :: d in r <==> d in documents && d.userId == userId
    {
      WithUser(documents, userId)
    }

    /** `findByUserIdAndEventType`: those of the owner's documents that have the kind. */
    function FindByUserIdAndEventType(userId: NString, eventType: EventType): (r: seq<DocumentRecord>)
      reads this
      ensures r == WithType(FindByUserId(userId), eventType)
      ensures forall d :: d in r ==> d in FindByUserId(userId)
    {
      UserAndTypeIsKindAmongUser(documents, userId, eventType);
      WithUserAndType(documents, userId, eventType)
    }

    /** `findByEventType`: exactly the stored documents of that kind. */
    function FindByEventType(eventType: EventType): (r: seq<DocumentRecord>)
      reads this
      ensures forall d :: d in r <==> d in documents && d.eventType == Some(eventType)
    {
      WithType(documents, eventType)
    }

    /** `findByTimestampBetween`: only documents whose timestamp lies between the bounds. */
    function FindByTimestampBetween(start: int, end: int, inclusive: bool): (r: seq<DocumentRecord>)
      reads this
      ensures forall d :: d in r ==> d in documents && start <= d.timestamp <= end
      ensures forall d :: d in documents && start < d.timestamp < end ==> d in r
    {
      WithTimestampBetween(documents, start, end, inclusive)
    }
  }

  /** Every finder over an empty store finds nothing. */
  lemma EmptyStoreFindsNothing(userId: NString, eventType: EventType, start: int, end: int, inclusive: bool)
    ensures WithUser([], userId) == [] && WithType([], eventType) == []
    ensures WithUserAndType([], userId, eventType) == [] && WithTimestampBetween([], start, end, inclusive) == []
  {
  }

  /** The properties of the generic view: same keys, null values read as "". */
  function ViewProperties(m: map<string, NString>): (r: map<string, NString>)
    ensures r.Keys == m.Keys
    ensures forall k :: k in m ==> r[k].Some? && (m[k].Some? ==> r[k] == m[k]) && (m[k].None? ==> r[k] == Some(""))
  {
    map k | k in m :: Some(m[k].GetOr(""))
  }

  /**
   * `mapToEvent`: the generic `Event` over a document. Its properties are
   * read from the document when asked for; a document without a map makes
   * that read fail, here `None`.
   */
  function MapToEvent(doc: DocumentRecord): (e: Event)
    ensures e.eventId == doc.eventId && e.userId == doc.userId
    ensures e.eventType == doc.eventType && e.timestamp == doc.timestamp
    ensures e.properties.Some? <==> doc.properties.Some?
    ensures doc.properties.Some? ==> e.properties.value.Keys == doc.properties.value.Keys
    ensures e.payload.DocumentPayload? && !e.IsEcommerce()
  {
    var properties := if doc.properties.Some? then Some(ViewProperties(doc.properties.value)) else None;
    Event(doc.eventId, doc.userId, doc.timestamp, properties, doc.eventType, DocumentPayload)
  }

  /** `.stream().map(this::mapToEvent).collect(toList())`. */
  function MapAll(docs: seq<DocumentRecord>): (r: seq<Event>)
    ensures |r| == |docs|
    ensures forall i :: 0 <= i < |docs| ==> r[i] == MapToEvent(docs[i])
  {
    if |docs| == 0 then [] else MapAll(docs[..|docs| - 1]) + [MapToEvent(docs[|docs| - 1])]
  }

  /** The document `saveEvent` builds for an event whose properties are not null. */
  function DocumentOf(event: Event, now: int): (d: DocumentRecord)
    requires event.properties.Some?
    ensures d.id.None? && d.createdAt == now && d.properties == event.properties
    ensures d.eventId == event.eventId && d.userId == event.userId
    ensures d.eventType == event.eventType && d.timestamp == event.timestamp
  {
    DocumentRecord(None, event.eventId, event.userId, event.eventType, event.timestamp, event.properties, now)
  }

  predicate NoNullValues(m: map<string, NString>) {
    forall k :: k in m ==> m[k].Some?
  }

  /**
   * Saving an event and reading it back gives the same identity, kind, time
   * and, when no property value is null, the same properties.
   */
  lemma RoundTrip(event: Event, now: int, id: string)
    requires event.properties.Some? && NoNullValues(event.properties.value)
    ensures var e := MapToEvent(DocumentOf(event, now).(id := Some(id)));
      && e.eventId == event.eventId && e.userId == event.userId
      && e.eventType == event.eventType && e.timestamp == event.timestamp
      && e.properties == event.properties
  {
    var m := event.properties.value;
    assert ViewProperties(m) == m;
  }

  /** A null property value comes back as "", so that round trip is lost. */
  lemma NullValueReadsEmpty(event: Event, now: int, key: string)
    requires event.properties.Some? && key in event.properties.value && event.properties.value[key].None?
    ensures MapToEvent(DocumentOf(event, now)).properties.value[key] == Some("")
    ensures MapToEvent(DocumentOf(event, now)).properties != event.properties
  {
  }

  /** `EventStorageService`. */
  class EventStorageService {
    const eventRepository: EventRepository

    constructor (eventRepository: EventRepository)
      ensures this.eventRepository == eventRepository
    {
      this.eventRepository := eventRepository;
    }

    /**
     * `saveEvent(event)`: the copy of a null property map fails, and so may
     * the store (`saveFails`); either failure is logged and swallowed.
     */
    method SaveEvent(event: Event, now: int, generatedId: string, saveFails: bool)
      modifies eventRepository
      ensures event.properties.None? || saveFails ==> eventRepository.documents == old(eventRepository.documents)
      ensures event.properties.Some? && !saveFails ==>
        eventRepository.documents == old(eventRepository.documents) + [DocumentOf(event, now).(id := Some(generatedId))]
    {
      if event.properties.None? {
        return;
      }
      var properties := event.properties.value;
      var doc := new EventDocument(event.eventId, event.userId, event.eventType, event.timestamp,
                                   Some(properties), now);
      if saveFails {
        return;
      }
      var record := doc.Record();
      assert record == DocumentOf(event, now);
      var _ := eventRepository.Save(record, generatedId);
    }

    /** `getEventsByUserId`; `readFails` says whether the store throws. */
    function GetEventsByUserId(userId: NString, readFails: bool): (r: Result<seq<Event>>)
      reads eventRepository
      ensures r.Thrown? <==> readFails
      ensures r.Thrown? ==> r.exception == DataAccess
      ensures r.Ok? ==> var found := eventRepository.FindByUserId(userId);
        |r.value| == |found| && forall i :: 0 <= i < |found| ==> r.value[i] == MapToEvent(found[i])
    {
      if readFails then Thrown(DataAccess) else Ok(MapAll(eventRepository.FindByUserId(userId)))
    }

    /** `getEventsByUserIdAndType`. */
    function GetEventsByUserIdAndType(userId: NString, eventType: EventType, readFails: bool): (r: Result<seq<Event>>)
      reads eventRepository
      ensures r.Thrown? <==> readFails
      ensures r.Thrown? ==> r.exception == DataAccess
      ensures r.Ok? ==> var found := eventRepository.FindByUserIdAndEventType(userId, eventType);
        |r.value| == |found| && forall i :: 0 <= i < |found| ==> r.value[i] == MapToEvent(found[i])
    {
      if readFails then Thrown(DataAccess) else Ok(MapAll(eventRepository.FindByUserIdAndEventType(userId, eventType)))
    }

    /** `clearEvents()`: a failing `deleteAll` is rethrown wrapped. */
    method ClearEvents(fails: bool) returns (r: Result<()>)
      modifies eventRepository
      ensures fails ==> r == Thrown(Runtime("Failed to clear events from the database", Some(DataAccess)))
                        && eventRepository.documents == old(eventRepository.documents)
      ensures !fails ==> r == Ok(()) && eventRepository.documents == []
    {
      if fails {
        return Thrown(Runtime("Failed to clear events from the database", Some(DataAccess)));
      }
      eventRepository.DeleteAll();
      return Ok(());
    }
  }

  /**
   * After a save, the owner's events read back end with the view of the
   * saved document; no other owner's events change.
   */
  lemma SavedEventReadsLast(docs: seq<DocumentRecord>, event: Event, now: int, id: string)
    requires event.properties.Some?
    ensures var d := DocumentOf(event, now).(id := Some(id));
      var before, after := MapAll(WithUser(docs, event.userId)), MapAll(WithUser(docs + [d], event.userId));
      |after| == |before| + 1 && after[..|before|] == before && after[|before|] == MapToEvent(d)
  {
    var d := DocumentOf(event, now).(id := Some(id));
    AppendedComesLast(docs, d);
    var mine := WithUser(docs, event.userId);
    assert (mine + [d])[..|mine|] == mine;
  }
}
