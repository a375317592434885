/** The sensor listener of the ProximitySensor composable in PlayerScreen.kt: a reading
    of 0 means near, and going from near to far fires the screen's gesture (skip to the
    next song) unless the last gesture fired 1000 ms or less before. The last gesture
    time starts at 0 and moves only when a gesture fires. */
module ScreenGesture {
  /** The minimum spacing, exclusive, between two gestures. */
  const DebounceMs: int := 1000

  /** The two variables the listener captures. */
  datatype Detector = Detector(isNear: bool, lastGestureTime: int)

  const Initial: Detector := Detector(false, 0)

  /** A reading is near exactly when the sensor reports 0. */
  predicate IsNear(value: real)
  {
    value == 0.0
  }

  datatype Reaction = Reaction(next: Detector, fired: bool)

  /** One sensor reading at time `now`. */
  function React(d: Detector, value: real, now: int): (r: Reaction)
    ensures r.next.isNear <==> value == 0.0
    ensures r.fired <==> d.isNear && value != 0.0 && now - d.lastGestureTime > DebounceMs
    ensures r.next.lastGestureTime == (if r.fired then now else d.lastGestureTime)
  {
    var wasNear := d.isNear;
    var isNear := IsNear(value);
    if !wasNear && isNear then Reaction(Detector(isNear, d.lastGestureTime), false)
    else if wasNear && !isNear && now - d.lastGestureTime > DebounceMs then Reaction(Detector(isNear, now), true)
    else Reaction(Detector(isNear, d.lastGestureTime), false)
  }

  /** A reading that repeats the current near/far value, or one that turns the state near,
      fires nothing and changes nothing. */
  lemma NoGestureWithoutRelease(d: Detector, value: real, now: int)
    requires IsNear(value) || !d.isNear
    ensures React(d, value, now) == Reaction(d.(isNear := IsNear(value)), false)
  {
  }

  datatype Sample = Sample(value: real, now: int)

  /** The detector after a run of readings. */
  function Run(d: Detector, samples: seq<Sample>): Detector
    decreases |samples|
  {
    if samples == [] then d
    else Run(React(d, samples[0].value, samples[0].now).next, samples[1..])
  }

  /** The times at which a run of readings fired the gesture. */
  function Fired(d: Detector, samples: seq<Sample>): seq<int>
    decreases |samples|
  {
    if samples == [] then []
    else
      var r := React(d, samples[0].value, samples[0].now);
      (if r.fired then [samples[0].now] else []) + Fired(r.next, samples[1..])
  }

  /** Each time lies more than DebounceMs after the one before it, the first more than
      DebounceMs after `last`. */
  predicate Spaced(times: seq<int>, last: int)
    decreases |times|
  {
    times == [] || (times[0] - last > DebounceMs && Spaced(times[1..], times[0]))
  }

  /** The gestures of any run, whatever the order of the timestamps, are spaced from the
      last gesture before the run and from each other; the detector's last gesture time
      is the last of them. */
  lemma {:induction false} RunIsSpaced(d: Detector, samples: seq<Sample>)
    ensures Spaced(Fired(d, samples), d.lastGestureTime)
    ensures Run(d, samples).lastGestureTime ==
      (if Fired(d, samples) == [] then d.lastGestureTime else Fired(d, samples)[|Fired(d, samples)| - 1])
    decreases |samples|
  {
    if samples != [] {
      var r := React(d, samples[0].value, samples[0].now);
      RunIsSpaced(r.next, samples[1..]);
      var rest := Fired(r.next, samples[1..]);
      if r.fired {
        assert Fired(d, samples) == [samples[0].now] + rest;
        assert Fired(d, samples)[1..] == rest;
      } else {
        assert Fired(d, samples) == rest;
      }
    }
  }

  /** Spacing between neighbours gives spacing between any two gestures. */
  lemma {:induction false} SpacedApart(times: seq<int>, last: int, i: int, j: int)
    requires Spaced(times, last) && 0 <= i < j < |times|
    ensures times[j] - times[i] > DebounceMs
    decreases j
  {
    assert times[1] - times[0] > DebounceMs;
    if i > 0 {
      SpacedApart(times[1..], times[0], i - 1, j - 1);
    } else if j > 1 {
      SpacedAbove(times[1..], times[0], j - 1);
    }
  }

  /** Every time in a spaced sequence lies more than DebounceMs after `last`. */
  lemma {:induction false} SpacedAbove(times: seq<int>, last: int, k: int)
    requires Spaced(times, last) && 0 <= k < |times|
    ensures times[k] - last > DebounceMs
    decreases k
  {
    if k > 0 {
      SpacedAbove(times[1..], times[0], k - 1);
    }
  }

  /** So from the start, any two gestures fired by one listener are more than 1000 ms
      apart, and the first comes more than 1000 ms after time 0. */
  lemma GesturesApart(samples: seq<Sample>, i: int, j: int)
    requires 0 <= i < j < |Fired(Initial, samples)|
    ensures Fired(Initial, samples)[j] - Fired(Initial, samples)[i] > DebounceMs
  {
    RunIsSpaced(Initial, samples);
    SpacedApart(Fired(Initial, samples), 0, i, j);
  }

  /** The listener object: the captured variables, and the times onGesture was called. */
  class Listener {
    var isNear: bool
    var lastGestureTime: int
    var gestureTimes: seq<int>

    function Current(): Detector
      reads this
    {
      Detector(isNear, lastGestureTime)
    }

    /** The calls so far are spaced from time 0 and the last one is the recorded time. */
    ghost predicate Valid()
      reads this
    {
      && Spaced(gestureTimes, 0)
      && lastGestureTime == (if gestureTimes == [] then 0 else gestureTimes[|gestureTimes| - 1])
    }

    constructor ()
      ensures Valid() && Current() == Initial && gestureTimes == []
    {
      isNear := false;
      lastGestureTime := 0;
      gestureTimes := [];
    }

    /** onSensorChanged; `gesture` is whether onGesture was called. */
    method OnSensorChanged(value: real, now: int) returns (gesture: bool)
      requires Valid()
      modifies this
      ensures Valid()
      ensures React(old(Current()), value, now) == Reaction(Current(), gesture)
      ensures gestureTimes == old(gestureTimes) + (if gesture then [now] else [])
    {
      var wasNear := isNear;
      isNear := value == 0.0;
      gesture := false;
      if !wasNear && isNear {
      } else if wasNear && !isNear {
        var currentTime := now;
        if currentTime - lastGestureTime > DebounceMs {
          gesture := true;
          SpacedExtend(gestureTimes, 0, currentTime);
          gestureTimes := gestureTimes + [currentTime];
          lastGestureTime := currentTime;
        }
      }
    }
  }

  /** A time more than DebounceMs after the last of a spaced sequence extends it. */
  lemma {:induction false} SpacedExtend(times: seq<int>, last: int, t: int)
    requires Spaced(times, last)
    requires t - (if times == [] then last else times[|times| - 1]) > DebounceMs
    ensures Spaced(times + [t], last)
    decreases |times|
  {
    if times != [] {
      SpacedExtend(times[1..], times[0], t);
      assert (times + [t])[1..] == times[1..] + [t];
    }
  }
}
