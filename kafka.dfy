/**
 * The Kafka producer as an outbox: a send that does not fail at once
 * appends the record. Delivery, partitions and the asynchronous result
 * are outside.
 */
module Kafka {
  import opened JavaLang
  import opened Events

  const USER_EVENTS: string := "user-events"

  datatype Record = Record(topic: string, key: NString, event: Event)

  /** `KafkaTemplate<String, Event>`. */
  class KafkaTemplate {
    var sent: seq<Record>

    constructor ()
      ensures sent == []
    {
      sent := [];
    }

    /**
     * `send(topic, key, event)`; `fails` says whether the call throws
     * before the record is handed over.
     */
    method Send(topic: string, key: NString, event: Event, fails: bool) returns (r: Result<()>)
      modifies this
      ensures fails ==> r == Thrown(SendFailure) && sent == old(sent)
      ensures !fails ==> r == Ok(()) && sent == old(sent) + [Record(topic, key, event)]
    {
      if fails {
        return Thrown(SendFailure);
      }
      sent := sent + [Record(topic, key, event)];
      return Ok(());
    }
  }
}
