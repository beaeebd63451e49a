/**
 * The shutter entity as the source has it: an object whose commands, ticks
 * and sensor handlers update its fields in place. Each method is proved to
 * leave the state that the matching function of `CoverSpec` describes.
 * Time is a `now` argument; the movement task is the `taskActive` slot, whose
 * loop passes are calls of `Tick`; every service call and pause is appended
 * to `effects`.
 */
module LogoCovers {
  import opened Wrappers
  import opened Yaml
  import opened Position
  import opened StopSequence
  import opened CoverSpec

  class LogoCover {
    const settings: Settings

    var position: int
    var isOpening: bool
    var isClosing: bool
    var sensorUpActive: bool
    var sensorDownActive: bool
    var taskActive: bool
    var movementStart: Option<real>
    var movementStartPosition: real
    var movementTarget: Option<real>
    var movementExpectedDuration: Option<real>
    var lastDirectionOpening: Option<bool>
    var effects: seq<Effect>

    /** The fields as one value. */
    function State(): CoverState
      reads this
    {
      CoverState(position, isOpening, isClosing, sensorUpActive, sensorDownActive, taskActive,
                 movementStart, movementStartPosition, movementTarget, movementExpectedDuration,
                 lastDirectionOpening, effects)
    }

    ghost predicate Valid()
      reads this
    {
      ValidSettings(settings) && ValidState(State())
    }

    /**
     * `__init__`: parses the three stop sequences, letting an empty
     * per-direction one fall back to the shared one, and starts idle at the
     * initial position. The source raises where a parse raises, hence the
     * second precondition.
     */
    constructor (cfg: Config, load: string -> Option<YValue>, strToFloat: string -> Option<real>)
      requires cfg.openTime > 0.0 && cfg.closeTime > 0.0
      requires SettingsOf(cfg, load, strToFloat).Some?
      ensures Valid()
      ensures settings == SettingsOf(cfg, load, strToFloat).value
      ensures State() == InitialState(settings)
    {
      var common := ParseStopSequence(cfg.stopSequence.GetOr(""), load, strToFloat);
      var up := ParseStopSequence(cfg.stopSequenceUp.GetOr(""), load, strToFloat);
      var down := ParseStopSequence(cfg.stopSequenceDown.GetOr(""), load, strToFloat);
      var upSensor := SensorId(cfg.movingUpSensor);
      var downSensor := SensorId(cfg.movingDownSensor);
      var initial := Clamp(cfg.initialPosition.GetOr(0.0));
      settings := Settings(
        cfg.name, cfg.openSwitch, cfg.closeSwitch, upSensor, downSensor,
        cfg.openTime, cfg.closeTime, initial, Clamp(cfg.shadePosition.GetOr(40.0)),
        if up.steps != [] then up.steps else common.steps,
        if down.steps != [] then down.steps else common.steps,
        upSensor.None? && downSensor.None?);
      position := initial;
      isOpening, isClosing := false, false;
      sensorUpActive, sensorDownActive := false, false;
      taskActive := false;
      movementStart := None;
      movementStartPosition := initial as real;
      movementTarget := None;
      movementExpectedDuration := None;
      lastDirectionOpening := None;
      effects := [];
    }

    /** `async_added_to_hass`: a restored position, when there is one, replaces the current one. */
    method AddedToHass(lastPosition: Option<real>)
      requires Valid()
      modifies this
      ensures Valid()
      ensures State() == RestoreNext(old(State()), lastPosition)
    {
      if lastPosition.Some? {
        position := Clamp(lastPosition.value);
      }
    }

    /** `async_will_remove_from_hass`: cancels without a position update (the clock is not read). */
    method WillRemoveFromHass()
      requires Valid()
      modifies this
      ensures Valid()
      ensures State() == CancelNext(old(State()), false, 0.0)
    {
      CancelMovement(false, 0.0);
    }

    /** `async_open_cover`. */
    method OpenCover(now: real)
      requires Valid()
      modifies this
      ensures Valid()
      ensures State() == SetPositionNext(settings, old(State()), Some(100.0), now)
    {
      SetCoverPosition(Some(100.0), now);
    }

    /** `async_close_cover`. */
    method CloseCover(now: real)
      requires Valid()
      modifies this
      ensures Valid()
      ensures State() == SetPositionNext(settings, old(State()), Some(0.0), now)
    {
      SetCoverPosition(Some(0.0), now);
    }

    /** `async_set_shade`. */
    method SetShade(now: real)
      requires Valid()
      modifies this
      ensures Valid()
      ensures State() == SetPositionNext(settings, old(State()), Some(settings.shadePosition as real), now)
    {
      SetCoverPosition(Some(settings.shadePosition as real), now);
    }

    /** `async_set_cover_position`. */
    method SetCoverPosition(target: Option<real>, now: real)
      requires Valid()
      modifies this
      ensures Valid()
      ensures State() == SetPositionNext(settings, old(State()), target, now)
    {
      if target.None? {
        return;
      }
      var clamped := Clamp(target.value);
      if clamped == position {
        StopCover(now);
        return;
      }
      CancelMovement(true, now);
      var opening := clamped > position;
      var duration := if opening then settings.openTime else settings.closeTime;
      FireDirectionSwitch(opening);
      StartMovement(clamped, duration, opening, now);
    }

    /** `async_stop_cover`: the direction is resolved before the movement is cancelled. */
    method StopCover(now: real)
      requires Valid()
      modifies this
      ensures Valid()
      ensures State() == StopNext(settings, old(State()), now)
    {
      var direction := Direction(State());
      CancelMovement(true, now);
      ExecuteStopSequence(direction);
      SetMotion(false, false);
    }

    /** `_fire_direction_switch`. */
    method FireDirectionSwitch(opening: bool)
      modifies this`effects
      ensures State() == FireNext(settings, old(State()), opening)
    {
      var entityId := if opening then settings.openSwitch else settings.closeSwitch;
      effects := effects + [TurnOn(entityId)];
    }

    /** `_start_movement`: records the movement from the committed position and replaces the task. */
    method StartMovement(target: int, duration: real, opening: bool, now: real)
      requires Valid()
      requires 0 <= target <= 100 && duration > 0.0
      modifies this
      ensures Valid()
      ensures State() == StartNext(old(State()), target, duration, opening, now)
    {
      movementStart := Some(now);
      movementStartPosition := position as real;
      movementTarget := Some(target as real);
      movementExpectedDuration := Some(duration);
      lastDirectionOpening := Some(opening);
      SetMotion(opening, !opening);
      // A task still held here would be cancelled; either way a new one takes the slot.
      taskActive := true;
    }

    /**
     * One pass of the loop of `_run_movement_task`, run when its sleep ends:
     * publish the clamped estimate and, once the expected duration has
     * elapsed, leave the loop and complete.
     */
    method Tick(now: real) returns (finished: bool)
      requires Valid() && taskActive
      modifies this
      ensures Valid()
      ensures State() == TickNext(old(State()), now)
      ensures finished <==> now - old(movementStart).value >= old(movementExpectedDuration).value
    {
      var estimate := Interpolated(State(), now);
      position := Clamp(estimate);
      var elapsed := now - movementStart.value;
      finished := elapsed >= movementExpectedDuration.value;
      if finished {
        Complete();
      }
    }

    /** The natural completion of `_run_movement_task`, after its loop. */
    method Complete()
      requires Valid() && movementTarget.Some?
      modifies this
      ensures Valid()
      ensures State() == CompleteNext(old(State()))
    {
      position := Clamp(movementTarget.value);
      if sensorUpActive || sensorDownActive {
        SetMotion(sensorUpActive, sensorDownActive);
      } else {
        SetMotion(false, false);
      }
      taskActive := false;
    }

    /** `_cancel_movement`. */
    method CancelMovement(updatePosition: bool, now: real)
      requires Valid()
      modifies this
      ensures Valid()
      ensures State() == CancelNext(old(State()), updatePosition, now)
    {
      if taskActive {
        taskActive := false;
      }
      if updatePosition && movementStart.Some? {
        position := Clamp(Interpolated(State(), now));
      }
      movementStart := None;
      movementTarget := None;
      movementExpectedDuration := None;
      SetMotion(false, false);
    }

    /** `_execute_stop_sequence`: the configured steps in order, or both switches off. */
    method ExecuteStopSequence(opening: Option<bool>)
      modifies this`effects
      ensures effects == old(effects) + StopPlan(settings, opening)
    {
      var sequence: seq<StopStep> := [];
      if opening == Some(true) {
        sequence := settings.stopSequenceUp;
      } else if opening == Some(false) {
        sequence := settings.stopSequenceDown;
      }
      assert sequence == SequenceFor(settings, opening);
      if sequence == [] {
        effects := effects + [TurnOffBoth(settings)];
        return;
      }
      var i := 0;
      while i < |sequence|
        invariant 0 <= i <= |sequence|
        invariant effects == old(effects) + StepEffects(sequence[..i])
      {
        StepEffectsSnoc(old(effects), sequence, i);
        RunStep(sequence[i]);
        i := i + 1;
      }
      assert sequence[..|sequence|] == sequence;
      assert StopPlan(settings, opening) == StepEffects(sequence);
    }

    /**
     * One pass of the loop of `_execute_stop_sequence`: the step's call, with
     * its entity id merged into the data, then its pause when the delay is positive.
     */
    method RunStep(step: StopStep)
      modifies this`effects
      ensures effects == old(effects) + StepRun(step)
    {
      var data := step.serviceData;
      if Truthy(step.entityId) && "entity_id" !in data {
        data := data["entity_id" := step.entityId];
      }
      effects := effects + [Service(step.domain, step.service, data)];
      if step.delay > 0.0 {
        effects := effects + [Sleep(step.delay)];
      }
    }

    /** `_set_motion`. */
    method SetMotion(opening: bool, closing: bool)
      modifies this`isOpening, this`isClosing
      ensures isOpening == opening && isClosing == closing
    {
      isOpening := opening;
      isClosing := closing;
    }

    /** `_handle_motion_sensor`. */
    method HandleMotionSensor(event: SensorEvent, now: real)
      requires Valid()
      modifies this
      ensures Valid()
      ensures State() == SensorNext(settings, old(State()), event, now)
    {
      if event.entityId != settings.movingUpSensor && event.entityId != settings.movingDownSensor {
        return;
      }
      var isOn := event.newState == Some("on");
      var opening := event.entityId == settings.movingUpSensor;
      if opening {
        sensorUpActive := isOn;
      } else {
        sensorDownActive := isOn;
      }
      if isOn {
        CancelMovement(true, now);
        var target := if opening then 100 else 0;
        var duration := if opening then settings.openTime else settings.closeTime;
        StartMovement(target, duration, opening, now);
      } else if !sensorUpActive && !sensorDownActive {
        CancelMovement(true, now);
      }
    }
  }
}
