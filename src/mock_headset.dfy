/**
 * The simulated EEG source behind the mock headset: a per-channel sample
 * buffer that drifts by a bounded random step on every refresh, and
 * per-channel impedances that occasionally drift. The random generator is a
 * tape of draws, so that every run of the model is determined by its tape.
 */
module MockHeadset {
  import opened Events

  /** A random generator: the draws it will hand out, in order. */
  class Rng {
    var tape: seq<real>

    constructor (tape: seq<real>)
      ensures this.tape == tape
    {
      this.tape := tape;
    }

    /** Consumes one draw (an exhausted tape keeps answering with nothing). */
    method Draw() returns (x: real, drawn: bool)
      modifies this
      ensures drawn == (old(tape) != [])
      ensures drawn ==> x == old(tape)[0] && tape == old(tape)[1..]
      ensures !drawn ==> tape == old(tape)
    {
      drawn := tape != [];
      x := 0.0;
      if drawn {
        x := tape[0];
        tape := tape[1..];
      }
    }

    /** `gen_range(lo..hi)` on reals: a draw outside the range is replaced by `lo`. */
    method GenRange(lo: real, hi: real) returns (x: real)
      requires lo < hi
      modifies this
      ensures lo <= x < hi
      ensures tape == if old(tape) == [] then [] else old(tape)[1..]
    {
      var d, drawn := Draw();
      x := if drawn && lo <= d < hi then d else lo;
    }

    /** `gen_range(lo..hi)` on integers: the floor of a draw, replaced by `lo` when outside. */
    method GenRangeInt(lo: int, hi: int) returns (n: int)
      requires lo < hi
      modifies this
      ensures lo <= n < hi
      ensures tape == if old(tape) == [] then [] else old(tape)[1..]
    {
      var d, drawn := Draw();
      n := if drawn && lo <= d.Floor < hi then d.Floor else lo;
    }

    /** `gen_bool(p)`: true when the draw is below `p`. */
    method GenBool(p: real) returns (b: bool)
      modifies this
      ensures tape == if old(tape) == [] then [] else old(tape)[1..]
    {
      var d, drawn := Draw();
      b := drawn && d < p;
    }
  }

  /** Most samples a channel buffer keeps. */
  const BufferCapacity: nat := 500

  /** The sample range the simulation keeps every value in. */
  const SampleFloor: real := -100.0
  const SampleCeiling: real := 100.0

  /** The impedance range the simulation keeps every value in. */
  const ImpedanceFloor: int := 1
  const ImpedanceCeiling: int := 20

  /** `max(-100).min(100)` */
  function Bound(x: real): (y: real)
    ensures SampleFloor <= y <= SampleCeiling
    ensures SampleFloor <= x <= SampleCeiling ==> y == x
  {
    if x < SampleFloor then SampleFloor else if x > SampleCeiling then SampleCeiling else x
  }

  /** `max(1).min(20)` */
  function BoundImpedance(x: int): (y: u16)
    ensures ImpedanceFloor as int <= y as int <= ImpedanceCeiling
    ensures ImpedanceFloor <= x <= ImpedanceCeiling ==> y as int == x
  {
    if x < ImpedanceFloor then ImpedanceFloor as u16
    else if x > ImpedanceCeiling then ImpedanceCeiling as u16
    else x as u16
  }

  /** The buffer after one new sample: the oldest is dropped first when the buffer is full. */
  function Slide(buffer: seq<real>, sample: real): (r: seq<real>)
    ensures |buffer| < BufferCapacity ==> r == buffer + [sample]
    ensures |buffer| >= BufferCapacity ==> r == buffer[1..] + [sample]
    ensures |r| <= BufferCapacity || |r| == |buffer|
    ensures |r| > 0 && r[|r| - 1] == sample
  {
    if |buffer| >= BufferCapacity then buffer[1..] + [sample] else buffer + [sample]
  }

  /** One refresh of a buffer with a given random step: the last sample moved by the step, kept in range, slid in. */
  predicate SlidWith(before: seq<real>, step: real, after: seq<real>)
  {
    after == Slide(before, Bound(LastOrZero(before) + step))
  }

  /** A buffer after one refresh, for some step in [-5, 5). */
  ghost predicate Refreshed(before: seq<real>, after: seq<real>)
  {
    exists step :: -5.0 <= step < 5.0 && SlidWith(before, step, after)
  }

  /** An impedance after an occasional change: moved by at most two and kept in range. */
  predicate ImpedanceDriftsTo(before: u16, change: int, after: u16)
  {
    -2 <= change <= 2 && after == BoundImpedance(before as int + change)
  }

  predicate SamplesInRange(s: seq<real>)
  {
    forall i :: 0 <= i < |s| ==> SampleFloor <= s[i] <= SampleCeiling
  }

  /** The channel names as a set. */
  ghost const ChannelSet: set<string> := set c | c in Channels

  /** A non-empty buffer of at most 500 in-range samples. */
  predicate BufferOk(s: seq<real>)
  {
    0 < |s| <= BufferCapacity && SamplesInRange(s)
  }

  /** Every channel, and nothing else, has a valid buffer. */
  ghost predicate BuffersValid(m: HeadsetMap)
  {
    m.Keys == ChannelSet &&
    (forall c :: c in m ==> BufferOk(m[c]))
  }

  /** Every channel, and nothing else, has an impedance within 1..20. */
  ghost predicate ImpedancesValid(m: ImpedanceMap)
  {
    m.Keys == ChannelSet &&
    (forall c :: c in m ==> ImpedanceFloor <= m[c] as int <= ImpedanceCeiling)
  }

  /** Sliding an in-range sample into a valid buffer gives a valid buffer. */
  lemma SlideKeepsBufferShape(before: seq<real>, x: real)
    requires BufferOk(before)
    requires SampleFloor <= x <= SampleCeiling
    ensures BufferOk(Slide(before, x))
  {
  }

  class SimulatedEegData {
    var rawDataBuffer: HeadsetMap
    var impedanceValues: ImpedanceMap

    ghost predicate Valid()
      reads this
    {
      BuffersValid(rawDataBuffer) && ImpedancesValid(impedanceValues)
    }

    /** Fills every channel with 500 random samples and a random impedance in 1..15. */
    constructor (rng: Rng)
      modifies rng
      ensures Valid()
      ensures forall c :: c in rawDataBuffer ==> |rawDataBuffer[c]| == BufferCapacity
      ensures forall c :: c in impedanceValues ==> 1 <= impedanceValues[c] as int < 15
    {
      var raw: HeadsetMap := map[];
      var imp: ImpedanceMap := map[];
      var k := 0;
      while k < |Channels|
        invariant 0 <= k <= |Channels|
        invariant raw.Keys == set c | c in Channels[..k]
        invariant imp.Keys == set c | c in Channels[..k]
        invariant forall c :: c in raw ==> |raw[c]| == BufferCapacity && BufferOk(raw[c])
        invariant forall c :: c in imp ==> 1 <= imp[c] as int < 15
      {
        var samples: seq<real> := [];
        assert BufferCapacity > 0;
        while |samples| < BufferCapacity
          invariant |samples| <= BufferCapacity
          invariant SamplesInRange(samples)
        {
          var x := rng.GenRange(-100.0, 100.0);
          samples := samples + [x];
        }
        var z := rng.GenRangeInt(1, 15);
        raw := raw[Channels[k] := samples];
        imp := imp[Channels[k] := z as u16];
        assert Channels[..k + 1] == Channels[..k] + [Channels[k]];
        k := k + 1;
      }
      assert Channels[..k] == Channels;
      rawDataBuffer := raw;
      impedanceValues := imp;
    }

    /**
     * Appends one drifted sample to every channel (dropping the oldest when
     * 500 are held) and, with probability one in ten, moves every impedance
     * by at most two within 1..20.
     */
    method RefreshData(rng: Rng)
      requires Valid()
      modifies this, rng
      ensures Valid()
      ensures forall c :: c in old(rawDataBuffer) ==> c in rawDataBuffer && Refreshed(old(rawDataBuffer)[c], rawDataBuffer[c])
      ensures (forall c :: c in old(impedanceValues) ==> c in impedanceValues && impedanceValues[c] == old(impedanceValues)[c]) ||
        (forall c :: c in old(impedanceValues) ==>
          (c in impedanceValues && exists change :: ImpedanceDriftsTo(old(impedanceValues)[c], change, impedanceValues[c])))
    {
      rawDataBuffer := RefreshedBuffers(rawDataBuffer, rng);
      var change := rng.GenBool(0.1);
      if change {
        impedanceValues := DriftedImpedances(impedanceValues, rng);
      }
    }
  }

  /** One channel's refresh with a given step, keeping the buffer valid. */
  function RefreshBuffer(before: seq<real>, step: real): (after: seq<real>)
    requires BufferOk(before)
    ensures BufferOk(after) && SlidWith(before, step, after)
  {
    SlideKeepsBufferShape(before, Bound(LastOrZero(before) + step));
    Slide(before, Bound(LastOrZero(before) + step))
  }

  /** The sample half of a refresh: one drifted sample slid into every channel's buffer, in map order. */
  method RefreshedBuffers(buffers: HeadsetMap, rng: Rng) returns (r: HeadsetMap)
    requires BuffersValid(buffers)
    modifies rng
    ensures BuffersValid(r)
    ensures forall c :: c in buffers ==> c in r && Refreshed(buffers[c], r[c])
  {
    r := buffers;
    var todo := buffers.Keys;
    ghost var steps: map<string, real> := map[];
    while todo != {}
      invariant todo <= buffers.Keys && r.Keys == buffers.Keys
      invariant forall c :: c in r ==> BufferOk(r[c])
      invariant forall c :: c in todo ==> r[c] == buffers[c]
      invariant forall c :: c in buffers && c !in todo ==>
        c in steps && -5.0 <= steps[c] < 5.0 && SlidWith(buffers[c], steps[c], r[c])
      decreases |todo|
    {
      var c :| c in todo;
      var step := rng.GenRange(-5.0, 5.0);
      r := r[c := RefreshBuffer(r[c], step)];
      steps := steps[c := step];
      todo := todo - {c};
    }
    forall c | c in buffers
      ensures Refreshed(buffers[c], r[c])
    {
      assert SlidWith(buffers[c], steps[c], r[c]);
    }
  }

  /** The impedance half of a refresh: every channel moved by a random change in -2..2, kept in 1..20. */
  method DriftedImpedances(values: ImpedanceMap, rng: Rng) returns (r: ImpedanceMap)
    requires ImpedancesValid(values)
    modifies rng
    ensures ImpedancesValid(r)
    ensures forall c :: c in values ==> c in r && exists change :: ImpedanceDriftsTo(values[c], change, r[c])
  {
    r := values;
    var todo := values.Keys;
    while todo != {}
      invariant todo <= values.Keys && r.Keys == values.Keys
      invariant ImpedancesValid(r)
      invariant forall c :: c in todo ==> r[c] == values[c]
      invariant forall c :: c in values && c !in todo ==> exists d :: ImpedanceDriftsTo(values[c], d, r[c])
      decreases |todo|
    {
      var c :| c in todo;
      var d := rng.GenRangeInt(-2, 3);
      var moved := BoundImpedance(r[c] as int + d);
      assert ImpedanceDriftsTo(values[c], d, moved);
      r := r[c := moved];
      todo := todo - {c};
    }
  }
}
