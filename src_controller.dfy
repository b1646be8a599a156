/**
 * The root application's `EventController.trackEvent`: build the event,
 * send it, process it, and answer; only an IllegalArgumentException is
 * turned into a response.
 */
module SrcController {
  import opened JavaLang
  import opened EventTypes
  import opened Events
  import opened Requests
  import opened Web
  import opened Kafka
  import opened Processors
  import opened Translation

  const TRACKED: Response := Response(OK, Text("Event tracked successfully"))

  /**
   * The handler's `catch (IllegalArgumentException e)`: a 400 naming the
   * message; any other exception leaves the handler.
   */
  function Rejected(e: Exception): (r: Result<Response>)
    ensures r.Ok? <==> e.IllegalArgument?
    ensures r.Ok? ==> r.value == Response(BAD_REQUEST, Text("Invalid event type: " + e.message))
    ensures r.Thrown? ==> r.exception == e
  {
    if e.IllegalArgument? then Ok(Response(BAD_REQUEST, Text("Invalid event type: " + Str(Message(e)))))
    else Thrown(e)
  }

  class EventController {
    const kafkaTemplate: KafkaTemplate
    const eventProcessorManager: EventProcessorManager

    constructor (kafkaTemplate: KafkaTemplate, eventProcessorManager: EventProcessorManager)
      ensures this.kafkaTemplate == kafkaTemplate && this.eventProcessorManager == eventProcessorManager
    {
      this.kafkaTemplate := kafkaTemplate;
      this.eventProcessorManager := eventProcessorManager;
    }

    /**
     * `trackEvent(userId, eventType, eventData)`: the event is sent to
     * "user-events" under its id, then processed, then 200 is returned.
     * `dispatch` is what processing did, when it ran.
     */
    method TrackEvent(userId: string, eventType: string, eventData: Json, uuid: string, now: int,
                      sendFails: bool)
      returns (r: Result<Response>, dispatch: Option<Dispatch>)
      modifies kafkaTemplate
      ensures var created := EventFor(Some(userId), eventType, eventData, uuid, now);
        && (created.Thrown? ==>
              r == Rejected(created.exception) && dispatch.None?
              && kafkaTemplate.sent == old(kafkaTemplate.sent))
        && (created.Ok? && sendFails ==>
              r == Rejected(SendFailure) && dispatch.None?
              && kafkaTemplate.sent == old(kafkaTemplate.sent))
        && (created.Ok? && !sendFails ==>
              && kafkaTemplate.sent == old(kafkaTemplate.sent) + [Record(USER_EVENTS, created.value.eventId, created.value)]
              && dispatch == Some(Run(eventProcessorManager.processors, created.value))
              && r == if dispatch.value.thrown.None? then Ok(TRACKED) else Rejected(dispatch.value.thrown.value))
    {
      dispatch := None;
      var created := CreateEvent(Some(userId), eventType, eventData, uuid, now);
      if created.Thrown? {
        return Rejected(created.exception), None;
      }
      var event := created.value;
      var sent := kafkaTemplate.Send(USER_EVENTS, event.eventId, event, sendFails);
      if sent.Thrown? {
        return Rejected(sent.exception), None;
      }
      var d := eventProcessorManager.ProcessEvent(event);
      dispatch := Some(d);
      if d.thrown.Some? {
        return Rejected(d.thrown.value), dispatch;
      }
      return Ok(TRACKED), dispatch;
    }
  }

  /**
   * An unknown kind, in any case, or a kind without a factory is answered
   * with 400 and the exception's message.
   */
  lemma BadKindIs400(userId: string, eventType: string, eventData: Json, uuid: string, now: int)
    requires Lookup(eventType).None? || !Supported(Lookup(eventType).value)
    ensures var created := EventFor(Some(userId), eventType, eventData, uuid, now);
      && created.Thrown?
      && Rejected(created.exception) == Ok(Response(BAD_REQUEST, Text("Invalid event type: " +
           if Lookup(eventType).None? then NoEnumConstant(ToUpperCase(eventType))
           else "Unsupported event type: " + eventType)))
  {
  }

  /** A supported kind never yields 400 because of its data: bad data escapes the handler. */
  lemma BadDataEscapes(userId: string, eventType: string, eventData: Json, uuid: string, now: int)
    requires Lookup(eventType).Some? && Supported(Lookup(eventType).value)
    ensures var created := EventFor(Some(userId), eventType, eventData, uuid, now);
      created.Thrown? ==> Rejected(created.exception) == Thrown(created.exception)
  {
    IllegalArgumentOnlyFromKind(Some(userId), eventType, eventData, uuid, now);
  }
}
