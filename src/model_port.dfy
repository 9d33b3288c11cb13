/**
 * The inference port the prediction use case calls: given the channel map,
 * answer a colour label or an error. `predictor` is the service's answer for
 * each input; every query is logged.
 */
module ModelPort {
  import opened Wrappers
  import opened Events

  class ModelService {
    const predictor: HeadsetMap -> Result<string, string>
    ghost var queries: seq<HeadsetMap>

    constructor (predictor: HeadsetMap -> Result<string, string>)
      ensures this.predictor == predictor && queries == []
    {
      this.predictor := predictor;
      queries := [];
    }

    method PredictColor(data: HeadsetMap) returns (r: Result<string, string>)
      modifies this`queries
      ensures r == predictor(data)
      ensures queries == old(queries) + [data]
    {
      r := predictor(data);
      queries := queries + [data];
    }
  }
}
