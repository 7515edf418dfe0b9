/**
 * The closed set of event types accepted by `Events.subscribe` and
 * `Events.unsubscribe`, and the check every call performs first.
 */
module EventTypes {
  import opened CaseFolding

  /** `Events.__VALID_EVENT_TYPES` */
  const ValidEventTypes: set<string> := {"ALL", "TRACK_CHANGED"}

  /** The default `event_type` argument of `subscribe` and `unsubscribe`. */
  const DefaultEventType: string := "all"

  /**
   * `event_type.upper() in __VALID_EVENT_TYPES`. In the code as written the
   * bare name `__VALID_EVENT_TYPES` inside a method is name-mangled to an
   * undefined global, so the check raises `NameError` before it compares
   * anything; this predicate is the membership test the code evidently means.
   */
  predicate IsValidEventType(eventType: string): (b: bool)
    ensures b <==> EqualsIgnoringCase(eventType, "ALL") || EqualsIgnoringCase(eventType, "TRACK_CHANGED")
  {
    assert Upper("ALL") == "ALL";
    assert Upper("TRACK_CHANGED") == "TRACK_CHANGED";
    UpperEqualIffEqualsIgnoringCase(eventType, "ALL");
    UpperEqualIffEqualsIgnoringCase(eventType, "TRACK_CHANGED");
    Upper(eventType) in ValidEventTypes
  }

  /** The default event type passes the check, in any capitalisation. */
  lemma DefaultEventTypeIsValid()
    ensures IsValidEventType(DefaultEventType)
    ensures forall t :: EqualsIgnoringCase(t, DefaultEventType) ==> IsValidEventType(t)
  {
  }
}
