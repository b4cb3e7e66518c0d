/** The throttled scroll tick of both sketches' animation loops: a frame callback
    advances the scroll offset only when more than the update interval has passed
    since the last accepted frame. */
module Animation {

  /** Minimum time, in milliseconds, between two accepted frames. */
  const DistortionUpdateInterval: real := 100.0

  /** The integer part of the animation state: scroll offset, time of the last
      accepted frame, and the dirty flag that requests a repaint. */
  datatype Ticker = Ticker(scrollOffset: nat, lastUpdate: real, needsRedraw: bool)

  /** Whether a frame at `timestamp` passes the throttle. */
  predicate Due(lastUpdate: real, timestamp: real)
  {
    timestamp - lastUpdate > DistortionUpdateInterval
  }

  /** One animation-frame callback; `advance` is the sketch's scroll speed. */
  function Tick(s: Ticker, timestamp: real, advance: nat): (r: Ticker)
    ensures Due(s.lastUpdate, timestamp) ==>
              r.scrollOffset == s.scrollOffset + advance && r.lastUpdate == timestamp && r.needsRedraw
    ensures !Due(s.lastUpdate, timestamp) ==> r == s
  {
    if Due(s.lastUpdate, timestamp) then
      Ticker(s.scrollOffset + advance, timestamp, true)
    else
      s
  }

  /** A sequence of frame callbacks, in order. */
  function Run(s: Ticker, timestamps: seq<real>, advance: nat): (r: Ticker)
    ensures r.scrollOffset >= s.scrollOffset && r.lastUpdate >= s.lastUpdate
    ensures s.needsRedraw ==> r.needsRedraw
    decreases |timestamps|
  {
    if timestamps == [] then s
    else Run(Tick(s, timestamps[0], advance), timestamps[1..], advance)
  }

  /** The frames of a run that pass the throttle. */
  function Accepted(lastUpdate: real, timestamps: seq<real>): (acc: seq<real>)
    ensures |acc| <= |timestamps|
    ensures acc != [] ==> Due(lastUpdate, acc[0])
    decreases |timestamps|
  {
    if timestamps == [] then []
    else if Due(lastUpdate, timestamps[0]) then
      [timestamps[0]] + Accepted(timestamps[0], timestamps[1..])
    else
      Accepted(lastUpdate, timestamps[1..])
  }

  /** Over a run, the scroll offset grows by the speed once per accepted frame, the last
      accepted frame becomes the reference time, and any accepted frame requests a repaint. */
  lemma {:induction false} RunAdvancesPerAcceptedFrame(s: Ticker, timestamps: seq<real>, advance: nat)
    ensures var acc := Accepted(s.lastUpdate, timestamps);
            var r := Run(s, timestamps, advance);
            && r.scrollOffset == s.scrollOffset + advance * |acc|
            && r.lastUpdate == (if acc == [] then s.lastUpdate else acc[|acc| - 1])
            && r.needsRedraw == (s.needsRedraw || acc != [])
    decreases |timestamps|
  {
    if timestamps != [] {
      var t := timestamps[0];
      var s' := Tick(s, t, advance);
      RunAdvancesPerAcceptedFrame(s', timestamps[1..], advance);
      if Due(s.lastUpdate, t) {
        var rest := Accepted(t, timestamps[1..]);
        assert Accepted(s.lastUpdate, timestamps) == [t] + rest;
        assert advance * (|rest| + 1) == advance * |rest| + advance;
      }
    }
  }

  /** The throttle: the first accepted frame is more than the interval after the
      reference time, and consecutive accepted frames are more than the interval apart. */
  lemma {:induction false} AcceptedFramesAreSpaced(lastUpdate: real, timestamps: seq<real>)
    ensures var acc := Accepted(lastUpdate, timestamps);
            && (acc != [] ==> Due(lastUpdate, acc[0]))
            && forall i :: 0 <= i < |acc| - 1 ==> Due(acc[i], acc[i + 1])
    decreases |timestamps|
  {
    if timestamps != [] {
      var t := timestamps[0];
      if Due(lastUpdate, t) {
        AcceptedFramesAreSpaced(t, timestamps[1..]);
        var rest := Accepted(t, timestamps[1..]);
        var acc := [t] + rest;
        assert Accepted(lastUpdate, timestamps) == acc;
        forall i | 0 <= i < |acc| - 1 ensures Due(acc[i], acc[i + 1]) {
          if i > 0 {
            assert acc[i] == rest[i - 1] && acc[i + 1] == rest[i];
          }
        }
      } else {
        AcceptedFramesAreSpaced(lastUpdate, timestamps[1..]);
      }
    }
  }

  /** Every accepted frame is one of the callbacks of the run. */
  lemma {:induction false} AcceptedAreFrames(lastUpdate: real, timestamps: seq<real>)
    ensures forall t :: t in Accepted(lastUpdate, timestamps) ==> t in timestamps
    decreases |timestamps|
  {
    if timestamps != [] {
      var t0 := timestamps[0];
      if Due(lastUpdate, t0) {
        AcceptedAreFrames(t0, timestamps[1..]);
      } else {
        AcceptedAreFrames(lastUpdate, timestamps[1..]);
      }
    }
  }
}
