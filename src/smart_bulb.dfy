/** The smart-bulb output port: switch the light on or off. */
module SmartBulbPort {
  import opened Wrappers

  datatype BulbState = BulbOn | BulbOff

  /**
   * A bulb adapter. `failure` is how the adapter answers a request (its
   * error message, or nothing when the request goes through); `shown` is the
   * last state the bulb accepted; every request is logged.
   */
  class SmartBulb {
    var failure: Option<string>
    var shown: Option<BulbState>
    ghost var requests: seq<BulbState>

    constructor (failure: Option<string>)
      ensures this.failure == failure && shown == None && requests == []
    {
      this.failure := failure;
      shown := None;
      requests := [];
    }

    /** Asks the bulb to take a state; on success the bulb shows it. */
    method ChangeState(state: BulbState) returns (r: Result<(), string>)
      modifies this`shown, this`requests
      ensures requests == old(requests) + [state]
      ensures failure.None? ==> r == Ok(()) && shown == Some(state)
      ensures failure.Some? ==> r == Err(failure.value) && shown == old(shown)
    {
      requests := requests + [state];
      if failure.Some? {
        r := Err(failure.value);
      } else {
        r := Ok(());
        shown := Some(state);
      }
    }
  }
}
