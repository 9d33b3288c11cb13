/**
 * The handlers that announce lifecycle events: each forwards its event, by
 * name with a payload record, to the subscriber when one is registered,
 * ignores the subscriber's answer, and asks for no follow-up command.
 */
module EventHandlers {
  import opened Wrappers
  import opened Events
  import opened Dispatch

  /** The name and payload record an event is announced with. */
  function Announcement(e: CoreEvent): (d: Delivery)
    ensures d.name == e.Name()
    ensures d.data.impedanceData.Some? <==> e.HeadsetCalibrating?
    ensures d.data.headsetData.Some? <==> e.CapturedHeadsetData?
    ensures d.data.colorThinking.Some? <==> e.CapturedHeadsetData?
  {
    match e
    case CapturedHeadsetData(headset, color) => Delivery(e.Name(), EventData(Some(headset), Some(color), None))
    case HeadsetCalibrating(impedance) => Delivery(e.Name(), EventData(None, None, Some(impedance)))
    case _ => Delivery(e.Name(), NoData)
  }

  /** What handling one event amounts to: what reached the subscriber, and the handler's result. */
  datatype Handled = Handled(delivered: seq<Delivery>, result: Result<seq<string>, string>)

  /** One event handler. */
  function HandleEvent(sub: Subscriber, e: CoreEvent): (h: Handled)
    ensures h.result == Ok([])
    ensures sub.Unset? ==> h.delivered == []
    ensures sub.Registered? ==> h.delivered == [Announcement(e)]
  {
    var delivered := if sub.Registered? then [Announcement(e)] else [];
    Handled(delivered, Ok([]))
  }

  /** The payload record carries exactly the event's own data. */
  lemma AnnouncementCarriesEventData(e: CoreEvent)
    ensures e.CapturedHeadsetData? ==>
      Announcement(e).data == EventData(Some(e.headsetData), Some(e.colorThinking), None)
    ensures e.HeadsetCalibrating? ==>
      Announcement(e).data == EventData(None, None, Some(e.impedanceData))
    ensures !e.CapturedHeadsetData? && !e.HeadsetCalibrating? ==> Announcement(e).data == NoData
  {
  }

  /** The handler's result does not depend on what the subscriber answers. */
  lemma HandlerIgnoresSubscriberAnswer(
    f: (string, EventData) -> Result<(), string>,
    g: (string, EventData) -> Result<(), string>,
    e: CoreEvent)
    ensures HandleEvent(Registered(f), e).result == HandleEvent(Registered(g), e).result
    ensures HandleEvent(Registered(f), e).delivered == HandleEvent(Registered(g), e).delivered
  {
  }
}
