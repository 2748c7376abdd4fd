/** The fixed translation from domain event types to downstream command
    types. It holds no mutable state: every member is a function of its
    argument, so repeated calls give identical results. */
module OutboxEventMapper {
  import opened Wrappers

  const EventMap: map<string, string> := map[
    "OccurrenceCreateRequested" := "create_occurrence",
    "OccurrenceStartRequested" := "start_occurrence",
    "OccurrenceResolvedRequested" := "resolve_occurrence",
    "OccurrenceCancelledRequested" := "cancel_occurrence",
    "DispatchCreateRequested" := "create_dispatch",
    "DispatchCloseRequested" := "close_dispatch",
    "DispatchStatusUpdateRequested" := "update_dispatch_status"
  ]

  const UnsupportedEventTypePrefix: string := "Unsupported event type: "

  function UnsupportedEventType(eventType: string): string {
    UnsupportedEventTypePrefix + eventType
  }

  /** The non-failing probe. */
  predicate IsSupported(eventType: string) {
    eventType in EventMap
  }

  /** `resolve`: the table's value for a supported type; any other type
      raises an invalid-argument error naming it. */
  function Resolve(eventType: string): (r: Result<string>)
    ensures r.Ok? <==> IsSupported(eventType)
    ensures r.Ok? ==> r.value == EventMap[eventType]
    ensures r.Err? ==> r.error == UnsupportedEventType(eventType)
  {
    if eventType in EventMap then Ok(EventMap[eventType]) else Err(UnsupportedEventType(eventType))
  }

  /** The allow-list is exactly these seven event types. */
  lemma SupportedEventTypes(eventType: string)
    ensures IsSupported(eventType) <==>
      eventType in {"OccurrenceCreateRequested", "OccurrenceStartRequested",
                    "OccurrenceResolvedRequested", "OccurrenceCancelledRequested",
                    "DispatchCreateRequested", "DispatchCloseRequested",
                    "DispatchStatusUpdateRequested"}
  {
  }

  /** Distinct event types resolve to distinct command types: the seven
      entries name seven command types. */
  lemma ResolveInjective(a: string, b: string)
    requires IsSupported(a) && IsSupported(b) && a != b
    ensures Resolve(a).value != Resolve(b).value
  {
  }
}
