/**
 * The process-wide subscriber that receives every announced event, and the
 * helper that forwards one event to it.
 */
module Dispatch {
  import opened Wrappers
  import opened Events

  /** The externally registered callback, if any. */
  datatype Subscriber =
    | Unset
    | Registered(callback: (string, EventData) -> Result<(), string>)

  const HandlerNotSet: string := "BUG: Event handler not set"

  /**
   * Forwards an event to the subscriber and returns the subscriber's own
   * answer; without a subscriber the send fails with a fixed message.
   */
  function SendEvent(sub: Subscriber, d: Delivery): (r: Result<(), string>)
  {
    match sub
    case Unset => Err(HandlerNotSet)
    case Registered(callback) => callback(d.name, d.data)
  }

  /** A send succeeds only through a registered subscriber, and then the subscriber decides. */
  lemma SendEventOutcome(sub: Subscriber, d: Delivery)
    ensures sub.Unset? ==> SendEvent(sub, d) == Err(HandlerNotSet)
    ensures sub.Registered? ==> SendEvent(sub, d) == sub.callback(d.name, d.data)
    ensures SendEvent(sub, d).Ok? ==> sub.Registered?
  {
  }

  /** A subscriber that accepts everything makes every send succeed. */
  lemma AcceptingSubscriber(d: Delivery)
    ensures SendEvent(Registered((name: string, data: EventData) => Ok(())), d) == Ok(())
  {
  }
}
