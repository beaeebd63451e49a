/** What the operations of the shutter entity guarantee, stated over `CoverSpec`. */
module CoverProperties {
  import opened Wrappers
  import opened Yaml
  import opened Position
  import opened StopSequence
  import opened Motion
  import opened CoverSpec

  /** Filtering the service calls out of a trace distributes over concatenation. */
  lemma {:induction false} ServiceCallsAppend(a: seq<Effect>, b: seq<Effect>)
    ensures ServiceCalls(a + b) == ServiceCalls(a) + ServiceCalls(b)
    decreases |b|
  {
    if b == [] {
      assert a + b == a;
    } else {
      assert (a + b)[..|a + b| - 1] == a + b[..|b| - 1];
      ServiceCallsAppend(a, b[..|b| - 1]);
    }
  }

  /** A one-element trace keeps its element exactly when it is a service call. */
  lemma ServiceCallsSingle(e: Effect)
    ensures ServiceCalls([e]) == if e.Service? then [e] else []
  {
    assert [e][..0] == [];
  }

  /** The calls of a list of steps end with the call of its last step. */
  lemma StepCallsSnoc(steps: seq<StopStep>)
    requires steps != []
    ensures StepCalls(steps) == StepCalls(steps[..|steps| - 1]) + [StepCall(steps[|steps| - 1])]
  {
  }

  /** Running stop steps makes exactly one call per step, in the order of the steps. */
  lemma {:induction false} StepEffectsCalls(steps: seq<StopStep>)
    ensures ServiceCalls(StepEffects(steps)) == StepCalls(steps)
    decreases |steps|
  {
    if steps != [] {
      var init, last := steps[..|steps| - 1], steps[|steps| - 1];
      var pause := if last.delay > 0.0 then [Sleep(last.delay)] else [];
      var before := StepEffects(init);
      assert StepEffects(steps) == before + ([StepCall(last)] + pause);
      StepEffectsCalls(init);
      ServiceCallsAppend(before, [StepCall(last)] + pause);
      ServiceCallsAppend([StepCall(last)], pause);
      ServiceCallsSingle(StepCall(last));
      if pause != [] {
        ServiceCallsSingle(Sleep(last.delay));
      }
      assert ServiceCalls(StepEffects(steps)) == StepCalls(init) + [StepCall(last)];
      StepCallsSnoc(steps);
    }
  }

  /** Every pause that running stop steps makes is positive: zero and negative delays are skipped. */
  lemma {:induction false} StepEffectsPausesPositive(steps: seq<StopStep>)
    ensures forall k :: 0 <= k < |StepEffects(steps)| && StepEffects(steps)[k].Sleep? ==>
              StepEffects(steps)[k].seconds > 0.0
    decreases |steps|
  {
    if steps != [] {
      StepEffectsPausesPositive(steps[..|steps| - 1]);
    }
  }

  /** Filtering the pauses out of a trace distributes over concatenation. */
  lemma {:induction false} PausesAppend(a: seq<Effect>, b: seq<Effect>)
    ensures Pauses(a + b) == Pauses(a) + Pauses(b)
    decreases |b|
  {
    if b == [] {
      assert a + b == a;
    } else {
      assert (a + b)[..|a + b| - 1] == a + b[..|b| - 1];
      PausesAppend(a, b[..|b| - 1]);
    }
  }

  /** A one-element trace keeps its element exactly when it is a pause. */
  lemma PausesSingle(e: Effect)
    ensures Pauses([e]) == if e.Sleep? then [e] else []
  {
    assert [e][..0] == [];
  }

  /**
   * The pauses of running stop steps are exactly one pause per step with a
   * positive delay, lasting that delay, in step order: zero and negative
   * delays cause none.
   */
  lemma {:induction false} StepEffectsPauses(steps: seq<StopStep>)
    ensures Pauses(StepEffects(steps)) == DelayPauses(steps)
    decreases |steps|
  {
    if steps != [] {
      var init, last := steps[..|steps| - 1], steps[|steps| - 1];
      var pause := if last.delay > 0.0 then [Sleep(last.delay)] else [];
      var before := StepEffects(init);
      assert StepEffects(steps) == before + ([StepCall(last)] + pause);
      StepEffectsPauses(init);
      PausesAppend(before, [StepCall(last)] + pause);
      PausesAppend([StepCall(last)], pause);
      PausesSingle(StepCall(last));
      if pause != [] {
        PausesSingle(Sleep(last.delay));
      }
    }
  }

  /**
   * With a known direction whose sequence is non-empty, stopping makes the
   * configured steps' calls, in order, and pauses exactly for the steps with a
   * positive delay; every pause is positive.
   */
  lemma StopPlanRunsSteps(s: Settings, opening: Option<bool>)
    requires SequenceFor(s, opening) != []
    ensures opening.Some?
    ensures ServiceCalls(StopPlan(s, opening)) == StepCalls(SequenceFor(s, opening))
    ensures Pauses(StopPlan(s, opening)) == DelayPauses(SequenceFor(s, opening))
    ensures forall k :: 0 <= k < |StopPlan(s, opening)| && StopPlan(s, opening)[k].Sleep? ==>
              StopPlan(s, opening)[k].seconds > 0.0
  {
    StepEffectsCalls(SequenceFor(s, opening));
    StepEffectsPausesPositive(SequenceFor(s, opening));
    StepEffectsPauses(SequenceFor(s, opening));
  }

  /**
   * Stop resolves the direction on the state it was called in, before
   * cancelling; then it freezes the position and leaves the shutter idle.
   */
  lemma StopOutcome(s: Settings, c: CoverState, now: real)
    requires ValidState(c)
    ensures var r := StopNext(s, c, now);
      r.effects == c.effects + StopPlan(s, Direction(c)) &&
      !r.isOpening && !r.isClosing && !r.taskActive && r.movementStart.None? &&
      r.position == (if c.movementStart.Some? then Clamp(Interpolated(c, now)) else c.position) &&
      r.sensorUpActive == c.sensorUpActive && r.sensorDownActive == c.sensorDownActive &&
      r.lastDirectionOpening == c.lastDirectionOpening
  {
  }

  /** Without a direction, or without configured sequences, stop makes exactly one call: both switches off. */
  lemma StopFallsBackToSwitchesOff(s: Settings, c: CoverState, now: real)
    requires ValidState(c)
    requires Direction(c).None? || (s.stopSequenceUp == [] && s.stopSequenceDown == [])
    ensures StopNext(s, c, now).effects == c.effects + [TurnOffBoth(s)]
  {
  }

  /** A command without a position is ignored. */
  lemma SetPositionWithoutTarget(s: Settings, c: CoverState, now: real)
    requires ValidSettings(s) && ValidState(c)
    ensures SetPositionNext(s, c, None, now) == c
  {
  }

  /** Asking for the committed position is exactly a stop. */
  lemma SetPositionAtCurrentIsStop(s: Settings, c: CoverState, target: real, now: real)
    requires ValidSettings(s) && ValidState(c)
    requires Clamp(target) == c.position
    ensures SetPositionNext(s, c, Some(target), now) == StopNext(s, c, now)
  {
  }

  /**
   * Asking for another position cancels with a position update, turns on
   * the switch of the direction taken from the frozen position, and starts a
   * movement from that position toward the clamped target using the duration
   * of that direction.
   */
  lemma SetPositionStartsMovement(s: Settings, c: CoverState, target: real, now: real)
    requires ValidSettings(s) && ValidState(c)
    requires Clamp(target) != c.position
    ensures var frozen := if c.movementStart.Some? then Clamp(Interpolated(c, now)) else c.position;
      var opening := Clamp(target) > frozen;
      var r := SetPositionNext(s, c, Some(target), now);
      r.effects == c.effects + [TurnOn(if opening then s.openSwitch else s.closeSwitch)] &&
      r.taskActive && r.movementStart == Some(now) &&
      r.movementStartPosition == frozen as real &&
      r.movementTarget == Some(Clamp(target) as real) &&
      r.movementExpectedDuration == Some(if opening then s.openTime else s.closeTime) &&
      r.isOpening == opening && r.isClosing == !opening &&
      r.lastDirectionOpening == Some(opening) &&
      r.position == frozen &&
      r.sensorUpActive == c.sensorUpActive && r.sensorDownActive == c.sensorDownActive
  {
  }

  /**
   * A superseded movement hands over where it was cut: the new movement
   * starts at the clamped estimate of the old one, and only one movement remains.
   */
  lemma SupersedingStartsAtEstimate(s: Settings, c: CoverState, target: real, now: real)
    requires ValidSettings(s) && ValidState(c) && c.taskActive
    requires Clamp(target) != c.position
    ensures SetPositionNext(s, c, Some(target), now).movementStartPosition == Clamp(Interpolated(c, now)) as real
  {
    SetPositionStartsMovement(s, c, target, now);
  }

  /**
   * When cancelling already brings the position to the requested target,
   * the direction test finds no opening: the close switch is turned on and
   * a closing movement starts that covers no distance but lasts the full
   * closing time.
   */
  lemma SetPositionReachedWhileCancelling(s: Settings, c: CoverState, target: real, now: real)
    requires ValidSettings(s) && ValidState(c) && c.movementStart.Some?
    requires Clamp(target) != c.position && Clamp(Interpolated(c, now)) == Clamp(target)
    ensures var r := SetPositionNext(s, c, Some(target), now);
      r.effects == c.effects + [TurnOn(s.closeSwitch)] && r.isClosing && !r.isOpening &&
      r.movementTarget == Some(r.movementStartPosition) &&
      r.movementExpectedDuration == Some(s.closeTime)
  {
    SetPositionStartsMovement(s, c, target, now);
  }

  /** Before the expected duration has elapsed a tick publishes the clamped estimate and keeps going. */
  lemma TickPublishesEstimate(c: CoverState, now: real)
    requires ValidState(c) && c.taskActive
    requires now - c.movementStart.value < c.movementExpectedDuration.value
    ensures TickNext(c, now) == c.(position := Clamp(Interpolated(c, now)))
  {
  }

  /**
   * Once the expected duration has elapsed, the tick completes: the exact
   * target is committed, the flags follow the sensors, the task is released
   * and the movement is kept.
   */
  lemma TickCompletes(c: CoverState, now: real)
    requires ValidState(c) && c.taskActive
    requires now - c.movementStart.value >= c.movementExpectedDuration.value
    ensures var r := TickNext(c, now);
      r.position as real == c.movementTarget.value && !r.taskActive &&
      r.isOpening == c.sensorUpActive && r.isClosing == c.sensorDownActive &&
      r.movementStart == c.movementStart && r.movementTarget == c.movementTarget &&
      r.effects == c.effects
  {
    ClampKeepsPositions(c.movementTarget.value.Floor);
  }

  /** While a movement runs, every published position lies between its clamped start and its target. */
  lemma TickBetweenEndpoints(c: CoverState, now: real)
    requires ValidState(c) && c.taskActive && now >= c.movementStart.value
    ensures var lo := Clamp(c.movementStartPosition);
      var hi := c.movementTarget.value.Floor;
      var p := TickNext(c, now).position;
      (lo <= p <= hi) || (hi <= p <= lo)
  {
    var e := Interpolated(c, now);
    var target := c.movementTarget.value;
    ClampKeepsPositions(target.Floor);
    if c.movementStartPosition <= target {
      ClampMonotone(c.movementStartPosition, e);
      ClampMonotone(e, target);
    } else {
      ClampMonotone(e, c.movementStartPosition);
      ClampMonotone(target, e);
    }
  }

  /** Events from an entity that is neither configured sensor change nothing. */
  lemma SensorIgnoresOtherEntities(s: Settings, c: CoverState, event: SensorEvent, now: real)
    requires ValidSettings(s) && ValidState(c)
    requires event.entityId != s.movingUpSensor && event.entityId != s.movingDownSensor
    ensures SensorNext(s, c, event, now) == c
  {
  }

  /**
   * A sensor turning on records itself, cancels with a position update and
   * tracks a movement toward 100 (up) or 0 (down), firing no switch.
   */
  lemma SensorOnTracksMovement(s: Settings, c: CoverState, event: SensorEvent, now: real)
    requires ValidSettings(s) && ValidState(c)
    requires event.entityId == s.movingUpSensor || event.entityId == s.movingDownSensor
    requires event.newState == Some("on")
    ensures var opening := event.entityId == s.movingUpSensor;
      var frozen := if c.movementStart.Some? then Clamp(Interpolated(c, now)) else c.position;
      var r := SensorNext(s, c, event, now);
      r.effects == c.effects &&
      (if opening then r.sensorUpActive && r.sensorDownActive == c.sensorDownActive
       else r.sensorDownActive && r.sensorUpActive == c.sensorUpActive) &&
      r.taskActive && r.movementStart == Some(now) &&
      r.movementStartPosition == frozen as real && r.position == frozen &&
      r.movementTarget == Some(if opening then 100.0 else 0.0) &&
      r.movementExpectedDuration == Some(if opening then s.openTime else s.closeTime) &&
      r.isOpening == opening && r.isClosing == !opening &&
      r.lastDirectionOpening == Some(opening)
  {
  }

  /**
   * A sensor turning off (or losing its state) records itself; the movement
   * is cancelled with a position update only when neither sensor is active
   * any more, and is otherwise left alone.
   */
  lemma SensorOffReleases(s: Settings, c: CoverState, event: SensorEvent, now: real)
    requires ValidSettings(s) && ValidState(c)
    requires event.entityId == s.movingUpSensor || event.entityId == s.movingDownSensor
    requires event.newState != Some("on")
    ensures var opening := event.entityId == s.movingUpSensor;
      var recorded := if opening then c.(sensorUpActive := false) else c.(sensorDownActive := false);
      var r := SensorNext(s, c, event, now);
      r.effects == c.effects &&
      (if !recorded.sensorUpActive && !recorded.sensorDownActive then
         r == CancelNext(recorded, true, now) && !r.isOpening && !r.isClosing && !r.taskActive
       else r == recorded)
  {
  }

  /**
   * Opening halfway over 20 s from closed, first step: the open switch is
   * turned on and a movement from 0 toward 50 lasting 20 s starts.
   */
  lemma HalfOpenStarts(s: Settings)
    requires ValidSettings(s) && s.openTime == 20.0 && s.initialPosition == 0
    ensures var r := SetPositionNext(s, InitialState(s), Some(50.0), 0.0);
      r.taskActive && r.isOpening && !r.isClosing && r.effects == [TurnOn(s.openSwitch)] &&
      r.movementStart == Some(0.0) && r.movementExpectedDuration == Some(20.0) &&
      r.movementStartPosition == 0.0 && r.movementTarget == Some(50.0) &&
      !r.sensorUpActive && !r.sensorDownActive
  {
    var c := InitialState(s);
    assert Clamp(50.0) == 50 by {
      ClampKeepsPositions(50);
    }
    assert c.movementStart.None? && c.position == 0 && c.effects == [];
    SetPositionStartsMovement(s, c, 50.0, 0.0);
  }

  /**
   * Second step: 10 s into that movement the published position is 25,
   * since the whole travel time is spent on any distance.
   */
  lemma HalfOpenMidway(r: CoverState)
    requires ValidState(r) && r.taskActive
    requires r.movementStart == Some(0.0) && r.movementExpectedDuration == Some(20.0)
    requires r.movementStartPosition == 0.0 && r.movementTarget == Some(50.0)
    ensures TickNext(r, 10.0) == r.(position := 25)
  {
    assert Clamp(Interpolated(r, 10.0)) == 25 by {
      assert Interpolate(0.0, 50.0, 10.0, 20.0) == 25.0 by {
        assert Progress(10.0, 20.0) == 0.5;
      }
      ClampKeepsPositions(25);
    }
    TickPublishesEstimate(r, 10.0);
  }

  /** Last step: 20 s in, the movement completes at exactly 50 and, with no sensor active, the shutter is idle. */
  lemma HalfOpenCompletes(r: CoverState)
    requires ValidState(r) && r.taskActive && !r.sensorUpActive && !r.sensorDownActive
    requires r.movementStart == Some(0.0) && r.movementExpectedDuration == Some(20.0)
    requires r.movementTarget == Some(50.0)
    ensures var done := TickNext(r, 20.0);
      done.position == 50 && !done.isOpening && !done.isClosing && !done.taskActive
  {
    TickCompletes(r, 20.0);
  }

  /**
   * The up sensor fires at position 30 with 20 s opening time: a movement
   * from 30 toward 100 is tracked; the sensor releasing 5 s later freezes the
   * position at round(47.5) = 48 and leaves the shutter idle.
   */
  lemma SensorUpScenario(s: Settings, c: CoverState, id: string)
    requires ValidSettings(s) && ValidState(c)
    requires s.movingUpSensor == Some(id) && s.openTime == 20.0
    requires c.position == 30 && !c.sensorUpActive && !c.sensorDownActive && c.movementStart.None?
    ensures var on := SensorNext(s, c, SensorEvent(Some(id), Some("on")), 0.0);
      on.movementStartPosition == 30.0 && on.movementTarget == Some(100.0) &&
      on.isOpening && !on.isClosing && on.effects == c.effects
    ensures var on := SensorNext(s, c, SensorEvent(Some(id), Some("on")), 0.0);
      var off := SensorNext(s, on, SensorEvent(Some(id), Some("off")), 5.0);
      off.position == 48 && !off.isOpening && !off.isClosing && !off.taskActive &&
      off.movementStart.None?
  {
    var on := SensorNext(s, c, SensorEvent(Some(id), Some("on")), 0.0);
    assert Interpolated(on, 5.0) == 47.5;
    assert RoundHalfEven(47.5) == 48;
  }
}
