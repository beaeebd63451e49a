/**
 * The state of one shutter entity as a value, and one function per operation
 * of the entity giving the state it leaves behind. The class `LogoCover`
 * performs these operations in place and is proved against these functions.
 */
module CoverSpec {
  import opened Wrappers
  import opened Yaml
  import opened Position
  import opened StopSequence
  import opened Motion

  /** An external effect: a blocking service call, or a pause between stop steps. */
  datatype Effect =
    | Service(domain: string, service: string, data: map<string, YValue>)
    | Sleep(seconds: real)

  /** The merged entry data and options. Optional keys fall back to their defaults. */
  datatype Config = Config(
    name: string,
    openSwitch: string,
    closeSwitch: string,
    movingUpSensor: Option<string>,
    movingDownSensor: Option<string>,
    openTime: real,
    closeTime: real,
    initialPosition: Option<real>,
    shadePosition: Option<real>,
    stopSequence: Option<string>,
    stopSequenceUp: Option<string>,
    stopSequenceDown: Option<string>)

  /** What the entity keeps of its configuration. */
  datatype Settings = Settings(
    name: string,
    openSwitch: string,
    closeSwitch: string,
    movingUpSensor: Option<string>,
    movingDownSensor: Option<string>,
    openTime: real,
    closeTime: real,
    initialPosition: int,
    shadePosition: int,
    stopSequenceUp: seq<StopStep>,
    stopSequenceDown: seq<StopStep>,
    assumedState: bool)

  /** A state-change event of a motion sensor; `newState` is the new state's text, if any. */
  datatype SensorEvent = SensorEvent(entityId: Option<string>, newState: Option<string>)

  /** The mutable state of the entity; `effects` is the trace of external effects so far. */
  datatype CoverState = CoverState(
    position: int,
    isOpening: bool,
    isClosing: bool,
    sensorUpActive: bool,
    sensorDownActive: bool,
    taskActive: bool,
    movementStart: Option<real>,
    movementStartPosition: real,
    movementTarget: Option<real>,
    movementExpectedDuration: Option<real>,
    lastDirectionOpening: Option<bool>,
    effects: seq<Effect>)

  /** An integral position in 0..100, as a number. */
  predicate IsPosition(x: real) {
    x == x.Floor as real && 0.0 <= x <= 100.0
  }

  /** Durations are positive (the options form demands at least 0.1 s); positions are clamped. */
  predicate ValidSettings(s: Settings) {
    s.openTime > 0.0 && s.closeTime > 0.0 &&
    0 <= s.initialPosition <= 100 && 0 <= s.shadePosition <= 100
  }

  /**
   * The entity's invariant: the committed position is in range, the movement
   * fields are set and cleared together, a running task always has a movement.
   */
  predicate ValidState(c: CoverState) {
    0 <= c.position <= 100 &&
    c.movementStart.Some? == c.movementTarget.Some? &&
    c.movementTarget.Some? == c.movementExpectedDuration.Some? &&
    (c.movementExpectedDuration.Some? ==> c.movementExpectedDuration.value > 0.0) &&
    (c.movementTarget.Some? ==> IsPosition(c.movementTarget.value)) &&
    0.0 <= c.movementStartPosition <= 100.0 &&
    (c.taskActive ==> c.movementStart.Some?)
  }

  /** `data.get(key) or None`: an empty sensor id means no sensor. */
  function SensorId(id: Option<string>): (r: Option<string>)
    ensures r.Some? <==> id.Some? && id.value != ""
    ensures r.Some? ==> r == id
  {
    if id.Some? && id.value != "" then id else None
  }

  /** `parsed or common`: a per-direction sequence that parses as empty falls back to the shared one. */
  function OrCommon(own: seq<StopStep>, common: seq<StopStep>): seq<StopStep> {
    if own != [] then own else common
  }

  /**
   * The configuration part of the constructor. `None` when one of the three
   * stop sequences makes the parser raise, which aborts construction.
   */
  function SettingsOf(cfg: Config, load: string -> Option<YValue>,
                      strToFloat: string -> Option<real>): (r: Option<Settings>)
    ensures r.Some? <==> StopSequenceOf(cfg.stopSequence.GetOr(""), load, strToFloat).Parsed? &&
                         StopSequenceOf(cfg.stopSequenceUp.GetOr(""), load, strToFloat).Parsed? &&
                         StopSequenceOf(cfg.stopSequenceDown.GetOr(""), load, strToFloat).Parsed?
    ensures r.Some? && cfg.openTime > 0.0 && cfg.closeTime > 0.0 ==> ValidSettings(r.value)
    ensures r.Some? ==>
              var common := StopSequenceOf(cfg.stopSequence.GetOr(""), load, strToFloat).steps;
              var up := StopSequenceOf(cfg.stopSequenceUp.GetOr(""), load, strToFloat).steps;
              var down := StopSequenceOf(cfg.stopSequenceDown.GetOr(""), load, strToFloat).steps;
              (up != [] ==> r.value.stopSequenceUp == up) && (up == [] ==> r.value.stopSequenceUp == common) &&
              (down != [] ==> r.value.stopSequenceDown == down) && (down == [] ==> r.value.stopSequenceDown == common)
    ensures r.Some? ==> r.value.initialPosition == Clamp(cfg.initialPosition.GetOr(0.0)) &&
                        r.value.shadePosition == Clamp(cfg.shadePosition.GetOr(40.0))
    ensures r.Some? && cfg.initialPosition.None? ==> r.value.initialPosition == 0
    ensures r.Some? && cfg.shadePosition.None? ==> r.value.shadePosition == 40
    ensures r.Some? ==> r.value.movingUpSensor == SensorId(cfg.movingUpSensor) &&
                        r.value.movingDownSensor == SensorId(cfg.movingDownSensor)
    ensures r.Some? ==> (r.value.assumedState <==> r.value.movingUpSensor.None? && r.value.movingDownSensor.None?)
    ensures r.Some? ==> r.value.name == cfg.name && r.value.openSwitch == cfg.openSwitch &&
                        r.value.closeSwitch == cfg.closeSwitch &&
                        r.value.openTime == cfg.openTime && r.value.closeTime == cfg.closeTime
  {
    var common := StopSequenceOf(cfg.stopSequence.GetOr(""), load, strToFloat);
    var up := StopSequenceOf(cfg.stopSequenceUp.GetOr(""), load, strToFloat);
    var down := StopSequenceOf(cfg.stopSequenceDown.GetOr(""), load, strToFloat);
    if common.Raised? || up.Raised? || down.Raised? then None
    else
      var upSensor, downSensor := SensorId(cfg.movingUpSensor), SensorId(cfg.movingDownSensor);
      ClampKeepsPositions(40);
      Some(Settings(
        cfg.name, cfg.openSwitch, cfg.closeSwitch, upSensor, downSensor,
        cfg.openTime, cfg.closeTime,
        Clamp(cfg.initialPosition.GetOr(0.0)), Clamp(cfg.shadePosition.GetOr(40.0)),
        OrCommon(up.steps, common.steps), OrCommon(down.steps, common.steps),
        upSensor.None? && downSensor.None?))
  }

  /** The state right after construction: at the initial position, idle, with no history. */
  function InitialState(s: Settings): (r: CoverState)
    ensures ValidSettings(s) ==> ValidState(r)
    ensures r.position == s.initialPosition && r.effects == []
    ensures !r.isOpening && !r.isClosing && !r.taskActive && r.movementStart.None?
    ensures !r.sensorUpActive && !r.sensorDownActive && r.lastDirectionOpening.None?
  {
    CoverState(s.initialPosition, false, false, false, false, false,
               None, s.initialPosition as real, None, None, None, [])
  }

  /** Restoring the last known position when the entity is added: it overrides the initial one. */
  function RestoreNext(c: CoverState, lastPosition: Option<real>): (r: CoverState)
    requires ValidState(c)
    ensures ValidState(r)
    ensures lastPosition.Some? ==> r.position == Clamp(lastPosition.value)
    ensures lastPosition.None? ==> r == c
    ensures r.(position := c.position) == c
  {
    match lastPosition
    case Some(p) => c.(position := Clamp(p))
    case None => c
  }

  /** `_interpolated_position`: the estimate at time `now`, or the committed position without a movement. */
  function Interpolated(c: CoverState, now: real): (r: real)
    requires ValidState(c)
    ensures c.movementStart.None? ==> r == c.position as real
    ensures c.movementStart.Some? && now == c.movementStart.value ==> r == c.movementStartPosition
    ensures c.movementStart.Some? && now - c.movementStart.value >= c.movementExpectedDuration.value ==>
              r == c.movementTarget.value
    ensures c.movementStart.Some? && now >= c.movementStart.value ==> 0.0 <= r <= 100.0
  {
    if c.movementStart.None? || c.movementTarget.None? || c.movementExpectedDuration.None? then
      c.position as real
    else
      Interpolate(c.movementStartPosition, c.movementTarget.value,
                  now - c.movementStart.value, c.movementExpectedDuration.value)
  }

  /**
   * `_active_or_last_direction`: `Some(true)` for opening, `Some(false)` for
   * closing, `None` when unknown. The up side wins a tie.
   */
  function Direction(c: CoverState): (r: Option<bool>)
    ensures c.sensorUpActive || c.isOpening ==> r == Some(true)
    ensures !(c.sensorUpActive || c.isOpening) && (c.sensorDownActive || c.isClosing) ==> r == Some(false)
    ensures !(c.sensorUpActive || c.isOpening || c.sensorDownActive || c.isClosing) ==>
              r == c.lastDirectionOpening
  {
    if c.sensorUpActive || c.isOpening then Some(true)
    else if c.sensorDownActive || c.isClosing then Some(false)
    else c.lastDirectionOpening
  }

  /** `switch.turn_on` for one switch. */
  function TurnOn(entityId: string): Effect {
    Service("switch", "turn_on", map["entity_id" := YStr(entityId)])
  }

  /** The default stop: one `switch.turn_off` call addressing both switches. */
  function TurnOffBoth(s: Settings): Effect {
    Service("switch", "turn_off", map["entity_id" := YList([YStr(s.openSwitch), YStr(s.closeSwitch)])])
  }

  /** A step's service data, with the step's entity id added only when the data names none. */
  function StepData(step: StopStep): map<string, YValue> {
    var data := step.serviceData;
    if Truthy(step.entityId) && "entity_id" !in data then data["entity_id" := step.entityId] else data
  }

  /**
   * The merge never overrides the step's own data, adds nothing but the
   * entity id, and adds that exactly when the step has a truthy one and the
   * data names none.
   */
  lemma StepDataMerges(step: StopStep)
    ensures forall k :: k in step.serviceData ==> k in StepData(step) && StepData(step)[k] == step.serviceData[k]
    ensures forall k :: k in StepData(step) ==> k in step.serviceData || k == "entity_id"
    ensures "entity_id" !in step.serviceData ==> ("entity_id" in StepData(step) <==> Truthy(step.entityId))
    ensures "entity_id" in StepData(step) && "entity_id" !in step.serviceData ==>
              StepData(step)["entity_id"] == step.entityId
  {
  }

  /** The service call a stop step makes. */
  function StepCall(step: StopStep): Effect {
    Service(step.domain, step.service, StepData(step))
  }

  /** The calls of a list of steps, one per step, in order. */
  function StepCalls(steps: seq<StopStep>): (r: seq<Effect>)
    ensures |r| == |steps|
    ensures forall k :: 0 <= k < |steps| ==> r[k] == StepCall(steps[k])
  {
    seq(|steps|, k requires 0 <= k < |steps| => StepCall(steps[k]))
  }

  /** The effects of running one step: its call, then a pause when its delay is positive. */
  function StepRun(step: StopStep): (r: seq<Effect>)
    ensures 1 <= |r| <= 2 && r[0] == StepCall(step)
    ensures |r| == 2 <==> step.delay > 0.0
    ensures |r| == 2 ==> r[1] == Sleep(step.delay)
  {
    [StepCall(step)] + (if step.delay > 0.0 then [Sleep(step.delay)] else [])
  }

  /** The effects of running steps in order. */
  function StepEffects(steps: seq<StopStep>): (r: seq<Effect>)
    ensures |steps| <= |r| <= 2 * |steps|
    decreases |steps|
  {
    if steps == [] then [] else StepEffects(steps[..|steps| - 1]) + StepRun(steps[|steps| - 1])
  }

  /** Running one more step appends its run to a trace. */
  lemma StepEffectsSnoc(before: seq<Effect>, steps: seq<StopStep>, i: nat)
    requires i < |steps|
    ensures before + StepEffects(steps[..i + 1]) == before + StepEffects(steps[..i]) + StepRun(steps[i])
  {
    assert steps[..i + 1][..i] == steps[..i];
  }

  /** The service calls of a trace, pauses left out. */
  function ServiceCalls(effects: seq<Effect>): (r: seq<Effect>)
    ensures |r| <= |effects|
    ensures forall k :: 0 <= k < |r| ==> r[k].Service?
    decreases |effects|
  {
    if effects == [] then []
    else
      var last := effects[|effects| - 1];
      ServiceCalls(effects[..|effects| - 1]) + (if last.Service? then [last] else [])
  }

  /** The pauses of a trace, service calls left out. */
  function Pauses(effects: seq<Effect>): (r: seq<Effect>)
    ensures |r| <= |effects|
    ensures forall k :: 0 <= k < |r| ==> r[k].Sleep?
    decreases |effects|
  {
    if effects == [] then []
    else
      var last := effects[|effects| - 1];
      Pauses(effects[..|effects| - 1]) + (if last.Sleep? then [last] else [])
  }

  /** One pause per step whose delay is positive, lasting that delay, in step order. */
  function DelayPauses(steps: seq<StopStep>): (r: seq<Effect>)
    ensures |r| <= |steps|
    decreases |steps|
  {
    if steps == [] then []
    else
      var last := steps[|steps| - 1];
      DelayPauses(steps[..|steps| - 1]) + (if last.delay > 0.0 then [Sleep(last.delay)] else [])
  }

  /** The stop sequence configured for a resolved direction; none for an unknown one. */
  function SequenceFor(s: Settings, opening: Option<bool>): seq<StopStep> {
    match opening
    case Some(true) => s.stopSequenceUp
    case Some(false) => s.stopSequenceDown
    case None => []
  }

  /** `_execute_stop_sequence`: the effects of stopping in a resolved direction. */
  function StopPlan(s: Settings, opening: Option<bool>): (r: seq<Effect>)
    ensures (opening.None? || SequenceFor(s, opening) == []) ==> r == [TurnOffBoth(s)]
    ensures SequenceFor(s, opening) != [] ==> r == StepEffects(SequenceFor(s, opening))
  {
    var sequence := SequenceFor(s, opening);
    if sequence == [] then [TurnOffBoth(s)] else StepEffects(sequence)
  }

  /** `_cancel_movement`: drops the task and the movement and clears both flags. */
  function CancelNext(c: CoverState, updatePosition: bool, now: real): (r: CoverState)
    requires ValidState(c)
    ensures ValidState(r)
    ensures !r.taskActive && !r.isOpening && !r.isClosing
    ensures r.movementStart.None? && r.movementTarget.None? && r.movementExpectedDuration.None?
    ensures updatePosition && c.movementStart.Some? ==> r.position == Clamp(Interpolated(c, now))
    ensures !(updatePosition && c.movementStart.Some?) ==> r.position == c.position
    ensures r.effects == c.effects && r.lastDirectionOpening == c.lastDirectionOpening
    ensures r.sensorUpActive == c.sensorUpActive && r.sensorDownActive == c.sensorDownActive
  {
    var position := if updatePosition && c.movementStart.Some? then Clamp(Interpolated(c, now)) else c.position;
    c.(taskActive := false, position := position,
       movementStart := None, movementTarget := None, movementExpectedDuration := None,
       isOpening := false, isClosing := false)
  }

  /** `_fire_direction_switch`: turns on the open or the close switch. */
  function FireNext(s: Settings, c: CoverState, opening: bool): (r: CoverState)
    ensures r.effects == c.effects + [TurnOn(if opening then s.openSwitch else s.closeSwitch)]
    ensures r.(effects := c.effects) == c
  {
    c.(effects := c.effects + [TurnOn(if opening then s.openSwitch else s.closeSwitch)])
  }

  /** `_start_movement`: a movement from the committed position, with a fresh task. */
  function StartNext(c: CoverState, target: int, duration: real, opening: bool, now: real): (r: CoverState)
    requires ValidState(c)
    requires 0 <= target <= 100 && duration > 0.0
    ensures ValidState(r) && r.taskActive
    ensures r.movementStartPosition == c.position as real
    ensures Interpolated(r, now) == c.position as real
    ensures r.isOpening == opening && r.isClosing == !opening
  {
    c.(movementStart := Some(now), movementStartPosition := c.position as real,
       movementTarget := Some(target as real), movementExpectedDuration := Some(duration),
       lastDirectionOpening := Some(opening), isOpening := opening, isClosing := !opening,
       taskActive := true)
  }

  /** `async_stop_cover`: resolve the direction, cancel, run the stop plan, clear the flags. */
  function StopNext(s: Settings, c: CoverState, now: real): (r: CoverState)
    requires ValidState(c)
    ensures ValidState(r)
  {
    var direction := Direction(c);
    var cancelled := CancelNext(c, true, now);
    cancelled.(effects := cancelled.effects + StopPlan(s, direction), isOpening := false, isClosing := false)
  }

  /** `async_set_cover_position`. */
  function SetPositionNext(s: Settings, c: CoverState, target: Option<real>, now: real): (r: CoverState)
    requires ValidSettings(s) && ValidState(c)
    ensures ValidState(r)
  {
    if target.None? then c
    else
      var t := Clamp(target.value);
      if t == c.position then StopNext(s, c, now)
      else
        var cancelled := CancelNext(c, true, now);
        var opening := t > cancelled.position;
        var duration := if opening then s.openTime else s.closeTime;
        StartNext(FireNext(s, cancelled, opening), t, duration, opening, now)
  }

  /**
   * The end of `_run_movement_task` after its loop: commit the exact target,
   * take the flags from the sensors, release the task.
   */
  function CompleteNext(c: CoverState): (r: CoverState)
    requires ValidState(c) && c.movementTarget.Some?
    ensures ValidState(r)
  {
    var motion := if c.sensorUpActive || c.sensorDownActive then (c.sensorUpActive, c.sensorDownActive)
                  else (false, false);
    c.(position := Clamp(c.movementTarget.value), isOpening := motion.0, isClosing := motion.1,
       taskActive := false)
  }

  /**
   * One pass of the loop of `_run_movement_task`: publish the estimate, and
   * complete once the expected duration has elapsed. (The loop's exit on a
   * missing movement start cannot be taken: a running task always has one.)
   */
  function TickNext(c: CoverState, now: real): (r: CoverState)
    requires ValidState(c) && c.taskActive
    ensures ValidState(r)
  {
    var ticked := c.(position := Clamp(Interpolated(c, now)));
    if now - c.movementStart.value >= c.movementExpectedDuration.value then CompleteNext(ticked)
    else ticked
  }

  /** `_handle_motion_sensor`. */
  function SensorNext(s: Settings, c: CoverState, event: SensorEvent, now: real): (r: CoverState)
    requires ValidSettings(s) && ValidState(c)
    ensures ValidState(r)
  {
    if event.entityId != s.movingUpSensor && event.entityId != s.movingDownSensor then c
    else
      var isOn := event.newState == Some("on");
      var opening := event.entityId == s.movingUpSensor;
      var recorded := if opening then c.(sensorUpActive := isOn) else c.(sensorDownActive := isOn);
      if isOn then
        StartNext(CancelNext(recorded, true, now), if opening then 100 else 0,
                  if opening then s.openTime else s.closeTime, opening, now)
      else if !recorded.sensorUpActive && !recorded.sensorDownActive then
        CancelNext(recorded, true, now)
      else recorded
  }
}
