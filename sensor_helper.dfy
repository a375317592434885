/** util/ProximitySensorHelper.kt: the gesture machine of module Gestures behind a
    listener that is registered with the sensor service by startListening and
    unregistered by stopListening. The sensor service delivers samples only to a
    registered listener; the two kinds of timer run in the view model's scope and fire
    whether or not the listener is registered (stopListening cancels only the wave job). */
module SensorHelper {
  import opened Gestures

  /** The helper's state: whether the device has a proximity sensor, whether the listener
      is registered, and the gesture machine's fields. */
  datatype Helper = Helper(available: bool, registered: bool, g: Gesture)

  ghost predicate HelperInv(h: Helper)
  {
    && Gestures.Inv(h.g)
    && (!h.available ==> !h.registered && h.g == Gestures.Initial)
  }

  /** startListening: a no-op without a sensor; otherwise registers the listener and
      leaves the gesture state as it was. */
  function Started(h: Helper): (r: Helper)
    ensures !h.available ==> r == h
    ensures h.available ==> r.registered && r.g == h.g && r.available
    ensures HelperInv(h) ==> HelperInv(r)
  {
    if !h.available then h else h.(registered := true)
  }

  /** stopListening: a no-op without a sensor; otherwise unregisters, cancels the wave job
      and resets to Far with no waves counted. */
  function Stopped(h: Helper): (r: Helper)
    ensures !h.available ==> r == h
    ensures h.available ==> !r.registered && r.g == Gestures.Reset(h.g) && r.available
    ensures HelperInv(h) ==> HelperInv(r)
  {
    if !h.available then h else h.(registered := false, g := Gestures.Reset(h.g))
  }

  datatype Command = Start | Stop | Deliver(e: Event)

  datatype Outcome = Outcome(next: Helper, out: seq<Callback>)

  /** One command. A sample reaching an unregistered listener is not delivered. */
  function Exec(h: Helper, c: Command): (r: Outcome)
    ensures c.Deliver? && c.e.Sample? && !h.registered ==> r == Outcome(h, [])
    ensures r.next.available == h.available
  {
    match c
    case Start => Outcome(Started(h), [])
    case Stop => Outcome(Stopped(h), [])
    case Deliver(e) =>
      if e.Sample? && !h.registered then Outcome(h, [])
      else var t := Step(h.g, e); Outcome(h.(g := t.next), t.out)
  }

  function ExecAll(h: Helper, cs: seq<Command>): Outcome
    decreases |cs|
  {
    if cs == [] then Outcome(h, [])
    else
      var o := Exec(h, cs[0]);
      var rest := ExecAll(o.next, cs[1..]);
      Outcome(rest.next, o.out + rest.out)
  }

  /** Not listening, no episode going on, no wave job pending. */
  ghost predicate Quiet(h: Helper)
  {
    !h.registered && h.g.sensorState.Far? && !h.g.waveArmed
  }

  /** Whatever state the helper was in, stopListening leaves it quiet. */
  lemma StopQuiets(h: Helper)
    requires HelperInv(h)
    ensures Quiet(Stopped(h))
  {
  }

  /** A quiet helper stays quiet and invokes no callback, whatever samples and timers
      arrive and however often it is stopped, until it is started again: samples are not
      delivered, a long-press timer finds no episode, and no wave job is pending. */
  lemma {:induction false} QuietUntilStart(h: Helper, cs: seq<Command>)
    requires Quiet(h)
    requires forall i :: 0 <= i < |cs| ==> !cs[i].Start?
    ensures ExecAll(h, cs).out == [] && Quiet(ExecAll(h, cs).next)
    decreases |cs|
  {
    if cs != [] {
      var o := Exec(h, cs[0]);
      assert o.out == [] && Quiet(o.next);
      QuietUntilStart(o.next, cs[1..]);
    }
  }

  /** After stopListening no TogglePlayPause, SkipNext or SkipPrevious is invoked until the
      next startListening, even for a long-press timer armed before the stop or a wave that
      had just been counted. */
  lemma NothingAfterStop(h: Helper, cs: seq<Command>)
    requires HelperInv(h)
    requires forall i :: 0 <= i < |cs| ==> !cs[i].Start?
    ensures ExecAll(h, [Stop] + cs).out == []
  {
    assert ([Stop] + cs)[1..] == cs;
    QuietUntilStart(Stopped(h), cs);
  }

  /** The helper as the class keeps it: mutable fields, and the callbacks it has invoked so far. */
  class ProximitySensorHelper {
    const isSensorAvailable: bool
    var registered: bool
    var sensorState: ProximityState
    var waveCount: nat
    var waveGen: nat
    var waveArmed: bool
    /** Every callback invoked so far, oldest first. */
    var emitted: seq<Callback>

    function Current(): Helper
      reads this
    {
      Helper(isSensorAvailable, registered, Gesture(sensorState, waveCount, waveGen, waveArmed))
    }

    ghost predicate Valid()
      reads this
    {
      HelperInv(Current())
    }

    /** `available` is whether the sensor service has a default proximity sensor. */
    constructor (available: bool)
      ensures Valid()
      ensures Current() == Helper(available, false, Gestures.Initial) && emitted == []
    {
      isSensorAvailable := available;
      registered := false;
      sensorState := Far;
      waveCount := 0;
      waveGen := 0;
      waveArmed := false;
      emitted := [];
    }

    method StartListening()
      requires Valid()
      modifies this
      ensures Valid()
      ensures Current() == Started(old(Current())) && emitted == old(emitted)
    {
      if !isSensorAvailable {
        return;
      }
      registered := true;
    }

    method StopListening()
      requires Valid()
      modifies this
      ensures Valid()
      ensures Current() == Stopped(old(Current())) && emitted == old(emitted)
    {
      if !isSensorAvailable {
        return;
      }
      registered := false;
      waveArmed := false;
      sensorState := Far;
      waveCount := 0;
    }

    /** onSensorChanged, with the near/far comparison done by the caller. The sensor
        service calls it only while the listener is registered. */
    method OnSensorChanged(isNear: bool, now: int, isPlaying: bool)
      requires Valid() && registered
      modifies this
      ensures Valid()
      ensures var t := Gestures.OnSensorChanged(old(Current()).g, isNear, now, isPlaying);
        Current() == old(Current()).(g := t.next) && emitted == old(emitted) + t.out
    {
      var previousState := sensorState;
      if isNear && previousState.Far? {
        sensorState := Near(now, false, isPlaying);
      } else if !isNear && previousState.Near? {
        sensorState := Far;
        if previousState.longPressTriggered {
          if previousState.wasPlaying {
            emitted := emitted + [TogglePlayPause];
          }
        } else {
          waveCount := waveCount + 1;
          waveGen := waveGen + 1;
          waveArmed := true;
        }
      }
    }

    /** The long-press coroutine launched at `startTime`, after its delay. */
    method OnLongPressElapsed(startTime: int)
      requires Valid()
      modifies this
      ensures Valid()
      ensures var t := Gestures.OnLongPressElapsed(old(Current()).g, startTime);
        Current() == old(Current()).(g := t.next) && emitted == old(emitted) + t.out
    {
      var stateAfterDelay := sensorState;
      if stateAfterDelay.Near? && stateAfterDelay.startTime == startTime {
        if stateAfterDelay.wasPlaying {
          emitted := emitted + [TogglePlayPause];
        }
        sensorState := stateAfterDelay.(longPressTriggered := true);
      }
    }

    /** The wave job of generation `gen`, after its delay; a cancelled job does not run. */
    method OnWaveElapsed(gen: nat)
      requires Valid()
      modifies this
      ensures Valid()
      ensures var t := Gestures.OnWaveElapsed(old(Current()).g, gen);
        Current() == old(Current()).(g := t.next) && emitted == old(emitted) + t.out
    {
      if !waveArmed || gen != waveGen {
        return;
      }
      if waveCount == 1 {
        emitted := emitted + [SkipNext];
      } else if waveCount >= 2 {
        emitted := emitted + [SkipPrevious];
      }
      waveCount := 0;
      waveArmed := false;
    }
  }
}
