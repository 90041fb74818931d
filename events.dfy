/**
 * UI events and the emitter that broadcasts them, seen as an append-only
 * log: every emitted event is appended, in emission order.
 */
module Events {
  import opened Wrappers
  import opened Payload

  /** `FormEvent(type, data, session_id)`; the session id may be `None`. */
  datatype FormEvent = FormEvent(eventType: string, data: map<string, Json>, sessionId: Option<string>)

  class EventLog {
    var entries: seq<FormEvent>

    constructor ()
      ensures entries == []
    {
      entries := [];
    }

    /** `emit_sync` / `emit`: the event is delivered after every earlier one. */
    method Emit(event: FormEvent)
      modifies this
      ensures entries == old(entries) + [event]
    {
      entries := entries + [event];
    }
  }
}
