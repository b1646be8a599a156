/**
 * `EventLogService`: storage behind an error-containment policy. Saving
 * never fails to the caller; reading and clearing rethrow what storage
 * throws, wrapped in a RuntimeException.
 */
module LogService {
  import opened JavaLang
  import opened EventTypes
  import opened Events
  import opened Storage

  const RETRIEVE_FAILED: string := "Failed to retrieve events"
  const CLEAR_FAILED: string := "Failed to clear events"

  /** What a read through the service returns for what storage returned. */
  function Retrieved(stored: Result<seq<Event>>): (r: Result<seq<Event>>)
    ensures r.Ok? <==> stored.Ok?
    ensures r.Ok? ==> r.value == stored.value
    ensures r.Thrown? ==> r.exception == Runtime(RETRIEVE_FAILED, Some(stored.exception))
  {
    match stored
    case Ok(events) => Ok(events)
    case Thrown(e) => Thrown(Runtime(RETRIEVE_FAILED, Some(e)))
  }

  class EventLogService {
    const eventStorageService: EventStorageService

    constructor (eventStorageService: EventStorageService)
      ensures this.eventStorageService == eventStorageService
    {
      this.eventStorageService := eventStorageService;
    }

    /** `logEvent(event)`: saves, and nothing it does reaches the caller. */
    method LogEvent(event: Event, now: int, generatedId: string, saveFails: bool)
      modifies eventStorageService.eventRepository
      ensures event.properties.None? || saveFails ==>
        eventStorageService.eventRepository.documents == old(eventStorageService.eventRepository.documents)
      ensures event.properties.Some? && !saveFails ==>
        eventStorageService.eventRepository.documents
          == old(eventStorageService.eventRepository.documents) + [DocumentOf(event, now).(id := Some(generatedId))]
    {
      eventStorageService.SaveEvent(event, now, generatedId, saveFails);
    }

    /** `getEventsByUserId`. */
    function GetEventsByUserId(userId: NString, readFails: bool): (r: Result<seq<Event>>)
      reads eventStorageService.eventRepository
      ensures r.Ok? <==> !readFails
      ensures r.Ok? ==> r == eventStorageService.GetEventsByUserId(userId, readFails)
      ensures r.Thrown? ==> r.exception == Runtime(RETRIEVE_FAILED, Some(DataAccess))
    {
      Retrieved(eventStorageService.GetEventsByUserId(userId, readFails))
    }

    /** `getEventsByUserIdAndType`. */
    function GetEventsByUserIdAndType(userId: NString, eventType: EventType, readFails: bool): (r: Result<seq<Event>>)
      reads eventStorageService.eventRepository
      ensures r.Ok? <==> !readFails
      ensures r.Ok? ==> r == eventStorageService.GetEventsByUserIdAndType(userId, eventType, readFails)
      ensures r.Thrown? ==> r.exception == Runtime(RETRIEVE_FAILED, Some(DataAccess))
    {
      Retrieved(eventStorageService.GetEventsByUserIdAndType(userId, eventType, readFails))
    }

    /** `clearEvents()`: the storage's RuntimeException is wrapped once more. */
    method ClearEvents(fails: bool) returns (r: Result<()>)
      modifies eventStorageService.eventRepository
      ensures fails ==>
        r == Thrown(Runtime(CLEAR_FAILED, Some(Runtime("Failed to clear events from the database", Some(DataAccess)))))
        && eventStorageService.eventRepository.documents == old(eventStorageService.eventRepository.documents)
      ensures !fails ==> r == Ok(()) && eventStorageService.eventRepository.documents == []
    {
      var cleared := eventStorageService.ClearEvents(fails);
      if cleared.Thrown? {
        return Thrown(Runtime(CLEAR_FAILED, Some(cleared.exception)));
      }
      return Ok(());
    }
  }
}
