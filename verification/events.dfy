/**
 * The record of one validation attempt, broadcast to every listener and kept
 * in the context's history.
 */
module Events {
  import opened Outcomes

  /** The `event_type` tag every schema validation event carries. */
  const SchemaValidationType: string := "schema_validation"

  /** Caller-supplied metadata attached to an event; never inspected by the core. */
  type Metadata = map<string, string>

  /**
   * `SchemaValidationEvent`. The creation timestamp is not modelled. Listeners
   * accept any event, so the tag is a field rather than a constant.
   */
  datatype Event = Event(
    eventType: string,
    schemaName: string,
    success: bool,
    errors: seq<string>,
    context: Metadata)

  /**
   * The event constructor: a missing error list becomes the empty list, a
   * missing context the empty mapping, and the tag is always the schema
   * validation tag.
   */
  function NewEvent(schemaName: string, success: bool, errors: Option<seq<string>>, context: Option<Metadata>): (e: Event)
    ensures e.eventType == SchemaValidationType
    ensures e.schemaName == schemaName && e.success == success
    ensures errors.None? ==> e.errors == []
    ensures errors.Some? ==> e.errors == errors.value
    ensures context.None? ==> e.context == map[]
    ensures context.Some? ==> e.context == context.value
  {
    Event(SchemaValidationType, schemaName, success, errors.GetOr([]), context.GetOr(map[]))
  }
}
