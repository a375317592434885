/** The proximity-gesture state machine of util/ProximitySensorHelper.kt, which is the
    same machine the older ui/player/PlayerViewModel.kt runs inline. A sample is a
    boolean near/far reading; the two coroutines the machine launches are modelled as
    events: the long-press timer, launched on every Far -> Near edge and identified by
    the episode's start time, and the wave timer, whose job handle is modelled by a
    generation number (`waveGen`) and a flag saying whether that job is still pending
    (`waveArmed`). Cancelling the pending wave job and launching a new one bumps the
    generation, so a superseded job is one whose generation is no longer current. */
module Gestures {

  const LongPressThresholdMs: int := 500
  const WaveResetTimeoutMs: int := 700

  datatype ProximityState =
    | Far
    | Near(startTime: int, longPressTriggered: bool, wasPlaying: bool)

  /** The callbacks the machine invokes: onTogglePlayPause, onSkipNext, onSkipPrevious. */
  datatype Callback = TogglePlayPause | SkipNext | SkipPrevious

  datatype Gesture = Gesture(sensorState: ProximityState, waveCount: nat, waveGen: nat, waveArmed: bool)

  /** The state and the callbacks one event produces. */
  datatype Transition = Transition(next: Gesture, out: seq<Callback>)

  const Initial: Gesture := Gesture(Far, 0, 0, false)

  /** A wave job is pending exactly while waves are being counted. */
  ghost predicate Inv(g: Gesture)
  {
    g.waveArmed <==> g.waveCount > 0
  }

  /** onSensorChanged with the reading already compared against the sensor's range.
      `isPlaying` is what isPlayingProvider() answers at this instant. */
  function OnSensorChanged(g: Gesture, isNear: bool, now: int, isPlaying: bool): (t: Transition)
    // after any sample the state reflects the reading
    ensures t.next.sensorState.Near? <==> isNear
    // a sample that does not change the reading changes nothing
    ensures isNear == g.sensorState.Near? ==> t == Transition(g, [])
    // Far -> Near opens an episode keyed by `now`, remembering whether music was playing
    ensures isNear && g.sensorState.Far? ==>
      t.next == g.(sensorState := Near(now, false, isPlaying)) && t.out == []
    // release after a hold: toggles back iff the hold had paused, and is not a wave
    ensures !isNear && g.sensorState.Near? && g.sensorState.longPressTriggered ==>
      && t.next == g.(sensorState := Far)
      && t.out == (if g.sensorState.wasPlaying then [TogglePlayPause] else [])
    // release of a short episode: one more wave, and the previous wave job is superseded
    ensures !isNear && g.sensorState.Near? && !g.sensorState.longPressTriggered ==>
      && t.next.waveCount == g.waveCount + 1
      && t.next.waveGen == g.waveGen + 1 && t.next.waveArmed
      && t.out == []
    // only a release after a hold can invoke a callback, and only the toggle
    ensures |t.out| <= 1 && forall c :: c in t.out ==> c == TogglePlayPause
    ensures Inv(g) ==> Inv(t.next)
  {
    match g.sensorState
    case Far =>
      if isNear then Transition(g.(sensorState := Near(now, false, isPlaying)), [])
      else Transition(g, [])
    case Near(_, longPressTriggered, wasPlaying) =>
      if isNear then Transition(g, [])
      else if longPressTriggered then
        Transition(g.(sensorState := Far), if wasPlaying then [TogglePlayPause] else [])
      else
        Transition(Gesture(Far, g.waveCount + 1, g.waveGen + 1, true), [])
  }

  /** The body of the long-press coroutine launched by the Far -> Near edge at `startTime`,
      run once its 500 ms delay has elapsed. */
  function OnLongPressElapsed(g: Gesture, startTime: int): (t: Transition)
    // it acts only if the very episode that launched it is still going on
    ensures !(g.sensorState.Near? && g.sensorState.startTime == startTime) ==> t == Transition(g, [])
    ensures g.sensorState.Near? && g.sensorState.startTime == startTime ==>
      && t.next == g.(sensorState := g.sensorState.(longPressTriggered := true))
      && t.out == (if g.sensorState.wasPlaying then [TogglePlayPause] else [])
    ensures t.next.waveCount == g.waveCount && t.next.waveGen == g.waveGen && t.next.waveArmed == g.waveArmed
    ensures Inv(g) ==> Inv(t.next)
  {
    match g.sensorState
    case Near(st, _, wasPlaying) =>
      if st == startTime then
        Transition(g.(sensorState := Near(st, true, wasPlaying)), if wasPlaying then [TogglePlayPause] else [])
      else Transition(g, [])
    case Far => Transition(g, [])
  }

  /** The body of the wave job of generation `gen`, run once its 700 ms delay has elapsed.
      A job that was cancelled (superseded by a later wave, or by stopListening) never runs. */
  function OnWaveElapsed(g: Gesture, gen: nat): (t: Transition)
    ensures !(g.waveArmed && gen == g.waveGen) ==> t == Transition(g, [])
    ensures g.waveArmed && gen == g.waveGen ==>
      && t.next == g.(waveCount := 0, waveArmed := false)
      && t.out == (if g.waveCount == 1 then [SkipNext]
                   else if g.waveCount >= 2 then [SkipPrevious]
                   else [])
    ensures t.next.sensorState == g.sensorState
    ensures Inv(g) ==> Inv(t.next)
  {
    if g.waveArmed && gen == g.waveGen then
      Transition(g.(waveCount := 0, waveArmed := false),
                 if g.waveCount == 1 then [SkipNext] else if g.waveCount >= 2 then [SkipPrevious] else [])
    else Transition(g, [])
  }

  /** stopListening's reset: the wave job is cancelled, the state is Far, no waves counted. */
  function Reset(g: Gesture): (r: Gesture)
    ensures r.sensorState == Far && r.waveCount == 0 && !r.waveArmed
    ensures Inv(r)
  {
    Gesture(Far, 0, g.waveGen, false)
  }

  // ---------------------------------------------------------------------------
  // Traces of events

  datatype Event =
    | Sample(isNear: bool, now: int, isPlaying: bool)
    | LongPressElapsed(startTime: int)
    | WaveElapsed(gen: nat)

  function Step(g: Gesture, e: Event): Transition
  {
    match e
    case Sample(isNear, now, isPlaying) => OnSensorChanged(g, isNear, now, isPlaying)
    case LongPressElapsed(st) => OnLongPressElapsed(g, st)
    case WaveElapsed(gen) => OnWaveElapsed(g, gen)
  }

  /** The final state and all callbacks, in order, of a sequence of events. */
  function Run(g: Gesture, es: seq<Event>): Transition
    decreases |es|
  {
    if es == [] then Transition(g, [])
    else
      var t := Step(g, es[0]);
      var rest := Run(t.next, es[1..]);
      Transition(rest.next, t.out + rest.out)
  }

  lemma RunCons(g: Gesture, e: Event, es: seq<Event>)
    ensures var t := Step(g, e);
      Run(g, [e] + es) == Transition(Run(t.next, es).next, t.out + Run(t.next, es).out)
  {
    assert ([e] + es)[1..] == es;
  }

  lemma {:induction false} RunAppend(g: Gesture, a: seq<Event>, b: seq<Event>)
    ensures Run(g, a + b) == Transition(Run(Run(g, a).next, b).next, Run(g, a).out + Run(Run(g, a).next, b).out)
    decreases |a|
  {
    if a == [] {
      assert a + b == b;
    } else {
      assert (a + b)[1..] == a[1..] + b;
      RunAppend(Step(g, a[0]).next, a[1..], b);
    }
  }

  /** Every run keeps the invariant. */
  lemma {:induction false} RunKeepsInv(g: Gesture, es: seq<Event>)
    requires Inv(g)
    ensures Inv(Run(g, es).next)
    decreases |es|
  {
    if es != [] {
      RunKeepsInv(Step(g, es[0]).next, es[1..]);
    }
  }

  /** In every reachable state a wave job that runs finds at least one wave counted, so it
      always invokes exactly one skip: the "no waves" branch of the job is never taken. */
  lemma LiveWaveJobAlwaysSkips(es: seq<Event>, gen: nat)
    requires var g := Run(Initial, es).next; g.waveArmed && gen == g.waveGen
    ensures |OnWaveElapsed(Run(Initial, es).next, gen).out| == 1
  {
    RunKeepsInv(Initial, es);
  }

  // ---------------------------------------------------------------------------
  // Gestures

  /** One hold: the hand comes near at t0, the long-press timer of that episode elapses,
      the hand leaves at t1. */
  function Hold(t0: int, t1: int, isPlaying: bool): seq<Event>
  {
    [Sample(true, t0, isPlaying), LongPressElapsed(t0), Sample(false, t1, isPlaying)]
  }

  /** A hold that began while music was playing invokes the toggle exactly twice (pause at
      the threshold, resume on release); one that began while nothing played invokes
      nothing. Either way it is not counted as a wave and the state ends Far. */
  lemma HoldTogglesTwiceIffPlaying(g: Gesture, t0: int, t1: int, isPlaying: bool)
    requires g.sensorState.Far?
    ensures Run(g, Hold(t0, t1, isPlaying)).out ==
      (if isPlaying then [TogglePlayPause, TogglePlayPause] else [])
    ensures Run(g, Hold(t0, t1, isPlaying)).next == g
  {
    var s1 := OnSensorChanged(g, true, t0, isPlaying);
    var s2 := OnLongPressElapsed(s1.next, t0);
    var s3 := OnSensorChanged(s2.next, false, t1, isPlaying);
    RunCons(s2.next, Sample(false, t1, isPlaying), []);
    RunCons(s1.next, LongPressElapsed(t0), [Sample(false, t1, isPlaying)]);
    RunCons(g, Sample(true, t0, isPlaying), [LongPressElapsed(t0), Sample(false, t1, isPlaying)]);
    assert [Sample(true, t0, isPlaying)] + [LongPressElapsed(t0), Sample(false, t1, isPlaying)] == Hold(t0, t1, isPlaying);
  }

  /** The events of a hand held near from t0 to t1: the long-press timer elapses before the
      release when the hand stayed at least the threshold, after it otherwise. */
  function TimedHold(t0: int, t1: int, isPlaying: bool): seq<Event>
    requires t0 <= t1
  {
    if t1 - t0 >= LongPressThresholdMs then Hold(t0, t1, isPlaying)
    else [Sample(true, t0, isPlaying), Sample(false, t1, isPlaying), LongPressElapsed(t0)]
  }

  /** An episode shorter than the threshold makes no long-press callback: it is a wave. An
      episode at least as long as the threshold is a hold (see HoldTogglesTwiceIffPlaying). */
  lemma ShortEpisodeIsWave(g: Gesture, t0: int, t1: int, isPlaying: bool)
    requires g.sensorState.Far? && t0 <= t1 < t0 + LongPressThresholdMs
    ensures Run(g, TimedHold(t0, t1, isPlaying)).out == []
    ensures Run(g, TimedHold(t0, t1, isPlaying)).next == Gesture(Far, g.waveCount + 1, g.waveGen + 1, true)
  {
    var s1 := OnSensorChanged(g, true, t0, isPlaying);
    var s2 := OnSensorChanged(s1.next, false, t1, isPlaying);
    RunCons(s2.next, LongPressElapsed(t0), []);
    RunCons(s1.next, Sample(false, t1, isPlaying), [LongPressElapsed(t0)]);
    RunCons(g, Sample(true, t0, isPlaying), [Sample(false, t1, isPlaying), LongPressElapsed(t0)]);
    assert [Sample(true, t0, isPlaying)] + [Sample(false, t1, isPlaying), LongPressElapsed(t0)] == TimedHold(t0, t1, isPlaying);
  }

  /** A long-press timer of an earlier episode does nothing in a later one, even when the
      later episode is still within the threshold. */
  lemma StaleLongPressIgnored(g: Gesture, t0: int, t1: int, t2: int, p0: bool, p2: bool)
    requires g.sensorState.Far? && t0 != t2
    ensures var e := [Sample(true, t0, p0), Sample(false, t1, p0), Sample(true, t2, p2), LongPressElapsed(t0)];
      && Run(g, e).out == []
      && Run(g, e).next.sensorState == Near(t2, false, p2)
  {
    var s1 := OnSensorChanged(g, true, t0, p0);
    var s2 := OnSensorChanged(s1.next, false, t1, p0);
    var s3 := OnSensorChanged(s2.next, true, t2, p2);
    RunCons(s3.next, LongPressElapsed(t0), []);
    RunCons(s2.next, Sample(true, t2, p2), [LongPressElapsed(t0)]);
    RunCons(s1.next, Sample(false, t1, p0), [Sample(true, t2, p2), LongPressElapsed(t0)]);
    RunCons(g, Sample(true, t0, p0), [Sample(false, t1, p0), Sample(true, t2, p2), LongPressElapsed(t0)]);
    assert [Sample(true, t0, p0)] + [Sample(false, t1, p0), Sample(true, t2, p2), LongPressElapsed(t0)]
        == [Sample(true, t0, p0), Sample(false, t1, p0), Sample(true, t2, p2), LongPressElapsed(t0)];
  }

  /** Short waves: for every start time the hand comes near and leaves again before any
      timer elapses. */
  function Waves(starts: seq<int>, isPlaying: bool): seq<Event>
    decreases |starts|
  {
    if starts == [] then []
    else [Sample(true, starts[0], isPlaying), Sample(false, starts[0], isPlaying)] + Waves(starts[1..], isPlaying)
  }

  /** k waves from Far count k, supersede k wave jobs and invoke nothing. */
  lemma {:induction false} WavesAccumulate(g: Gesture, starts: seq<int>, isPlaying: bool)
    requires g.sensorState.Far?
    ensures Run(g, Waves(starts, isPlaying)).out == []
    ensures Run(g, Waves(starts, isPlaying)).next ==
      Gesture(Far, g.waveCount + |starts|, g.waveGen + |starts|, g.waveArmed || |starts| > 0)
    decreases |starts|
  {
    if starts != [] {
      var pair := [Sample(true, starts[0], isPlaying), Sample(false, starts[0], isPlaying)];
      var g2 := Gesture(Far, g.waveCount + 1, g.waveGen + 1, true);
      var s1 := OnSensorChanged(g, true, starts[0], isPlaying);
      RunCons(s1.next, Sample(false, starts[0], isPlaying), []);
      RunCons(g, Sample(true, starts[0], isPlaying), [Sample(false, starts[0], isPlaying)]);
      assert [Sample(true, starts[0], isPlaying)] + [Sample(false, starts[0], isPlaying)] == pair;
      RunAppend(g, pair, Waves(starts[1..], isPlaying));
      WavesAccumulate(g2, starts[1..], isPlaying);
    }
  }

  /** A burst of waves from rest, followed by the one wave job still pending: a single wave
      skips to the next song, two or more skip to the previous one (a third wave is not
      distinguished from a second), and the counter is back to 0. The wave jobs of the
      earlier waves of the burst have been superseded and do nothing. */
  lemma {:induction false} WaveBurst(g: Gesture, starts: seq<int>, isPlaying: bool)
    requires g.sensorState.Far? && g.waveCount == 0 && |starts| >= 1
    ensures var es := Waves(starts, isPlaying) + [WaveElapsed(g.waveGen + |starts|)];
      && Run(g, es).out == (if |starts| == 1 then [SkipNext] else [SkipPrevious])
      && Run(g, es).next == Gesture(Far, 0, g.waveGen + |starts|, false)
    ensures forall gen :: g.waveGen <= gen < g.waveGen + |starts| ==>
      OnWaveElapsed(Run(g, Waves(starts, isPlaying)).next, gen).out == []
  {
    var w := Waves(starts, isPlaying);
    WavesAccumulate(g, starts, isPlaying);
    RunAppend(g, w, [WaveElapsed(g.waveGen + |starts|)]);
  }
}
