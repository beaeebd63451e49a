/**
 * The stop-sequence parser: turns the loaded YAML of a configured stop
 * sequence into an ordered list of steps, skipping malformed elements one by
 * one.
 */
module StopSequence {
  import opened Wrappers
  import opened Yaml

  /** One action run when halting the shutter. `entityId` is `YNull` when absent. */
  datatype StopStep = StopStep(
    domain: string,
    service: string,
    entityId: YValue,
    serviceData: map<string, YValue>,
    delay: real)

  /** What the parser does with one element of the loaded list. */
  datatype StepOutcome = Skip | Keep(step: StopStep) | Raise

  /**
   * The parser's result. `Raised` is an exception escaping the parser, which
   * happens when a truthy `service` value is not a string (see `DotIn`).
   */
  datatype Parse = Parsed(steps: seq<StopStep>) | Raised

  /** `s.split(".", 1)` for a string that contains a dot; `None` when it has none. */
  function SplitAtFirstDot(s: string): (r: Option<(string, string)>)
    ensures r.Some? <==> '.' in s
    ensures r.Some? ==> r.value.0 + "." + r.value.1 == s && '.' !in r.value.0
  {
    if s == [] then None
    else if s[0] == '.' then Some(([], s[1..]))
    else
      match SplitAtFirstDot(s[1..])
      case None => None
      case Some(parts) =>
        assert s == [s[0]] + s[1..];
        Some(([s[0]] + parts.0, parts.1))
  }

  /**
   * Python's `"." in service` for a truthy value: substring test on a string,
   * element test on a list, key test on a mapping; `None` where it raises
   * `TypeError` (booleans and numbers).
   */
  function DotIn(service: YValue): (r: Option<bool>)
    ensures r.None? <==> !(service.YStr? || service.YList? || service.YMap?)
    ensures service.YStr? ==> r == Some('.' in service.s)
    ensures service.YList? ==> r == Some(YStr(".") in service.items)
    ensures service.YMap? ==> r == Some("." in service.fields)
  {
    match service
    case YStr(s) => Some('.' in s)
    case YList(items) => Some(YStr(".") in items)
    case YMap(fields) => Some("." in fields)
    case _ => None
  }

  /** `step.get("service_data") or {}`, replaced by `{}` when it is not a mapping. */
  function ServiceDataOf(fields: map<string, YValue>): (r: map<string, YValue>)
    ensures Lookup(fields, "service_data").YMap? ==> r == Lookup(fields, "service_data").fields
    ensures !Lookup(fields, "service_data").YMap? ==> r == map[]
  {
    var data := Lookup(fields, "service_data");
    var orEmpty := if Truthy(data) then data else YMap(map[]);
    if orEmpty.YMap? then orEmpty.fields else map[]
  }

  /** `float(step.get("delay", 0))`, or 0 when the conversion raises. Negative delays are kept. */
  function DelayOf(fields: map<string, YValue>, strToFloat: string -> Option<real>): (r: real)
    ensures "delay" !in fields ==> r == 0.0
    ensures "delay" in fields && ToFloat(fields["delay"], strToFloat).None? ==> r == 0.0
    ensures "delay" in fields && ToFloat(fields["delay"], strToFloat).Some? ==>
              r == ToFloat(fields["delay"], strToFloat).value
  {
    var delayValue := if "delay" in fields then fields["delay"] else YInt(0);
    ToFloat(delayValue, strToFloat).GetOr(0.0)
  }

  /** The treatment of one loaded element. */
  function StepOutcomeOf(element: YValue, strToFloat: string -> Option<real>): (r: StepOutcome)
    ensures r.Keep? <==> element.YMap? && Lookup(element.fields, "service").YStr? &&
                          '.' in Lookup(element.fields, "service").s
    ensures r.Keep? ==> Lookup(element.fields, "service").s == r.step.domain + "." + r.step.service &&
                        '.' !in r.step.domain
    ensures r.Keep? ==> r.step.entityId == Lookup(element.fields, "entity_id") &&
                        r.step.serviceData == ServiceDataOf(element.fields) &&
                        r.step.delay == DelayOf(element.fields, strToFloat)
    ensures r.Raise? ==> element.YMap? && !Lookup(element.fields, "service").YStr?
    ensures element.YMap? ==>
              var service := Lookup(element.fields, "service");
              (r == Skip <==> !Truthy(service) || DotIn(service) == Some(false))
    ensures element.YMap? ==>
              var service := Lookup(element.fields, "service");
              (r == Raise <==> Truthy(service) &&
                               (DotIn(service).None? || (DotIn(service) == Some(true) && !service.YStr?)))
    ensures !element.YMap? ==> r == Skip
  {
    if !element.YMap? then Skip
    else
      var service := Lookup(element.fields, "service");
      if !Truthy(service) then Skip
      else match DotIn(service)
        case None => Raise
        case Some(hasDot) =>
          if !hasDot then Skip
          else if !service.YStr? then Raise
          else
            var parts := SplitAtFirstDot(service.s).value;
            Keep(StopStep(parts.0, parts.1, Lookup(element.fields, "entity_id"),
                          ServiceDataOf(element.fields), DelayOf(element.fields, strToFloat)))
  }

  /** The loop over a loaded list, element by element in order. */
  function StepsOf(items: seq<YValue>, strToFloat: string -> Option<real>): (r: Parse)
    ensures r.Parsed? ==> |r.steps| <= |items|
    decreases |items|
  {
    if items == [] then Parsed([])
    else
      match StepsOf(items[..|items| - 1], strToFloat)
      case Raised => Raised
      case Parsed(steps) =>
        match StepOutcomeOf(items[|items| - 1], strToFloat)
        case Skip => Parsed(steps)
        case Keep(step) => Parsed(steps + [step])
        case Raise => Raised
  }

  /**
   * `_parse_stop_sequence`. The YAML loader is a foreign routine and comes in
   * as `load`, whose `None` stands for a loader exception.
   */
  function StopSequenceOf(raw: string, load: string -> Option<YValue>,
                          strToFloat: string -> Option<real>): (r: Parse)
    ensures IsBlank(raw) ==> r == Parsed([])
    ensures load(raw).None? ==> r == Parsed([])
    ensures load(raw).Some? && !load(raw).value.YList? ==> r == Parsed([])
    ensures !IsBlank(raw) && load(raw).Some? && load(raw).value.YList? ==>
              r == StepsOf(load(raw).value.items, strToFloat)
  {
    if IsBlank(raw) then Parsed([])
    else
      match load(raw)
      case None => Parsed([])
      case Some(loaded) =>
        if !loaded.YList? then Parsed([]) else StepsOf(loaded.items, strToFloat)
  }

  /** Sequencing two runs of the loop: the first exception wins, otherwise steps concatenate. */
  function Then(first: Parse, second: Parse): Parse {
    if first.Raised? || second.Raised? then Raised else Parsed(first.steps + second.steps)
  }

  /** Parsing a concatenation parses each part in turn: the parser preserves source order. */
  lemma {:induction false} StepsOfAppend(a: seq<YValue>, b: seq<YValue>, strToFloat: string -> Option<real>)
    ensures StepsOf(a + b, strToFloat) == Then(StepsOf(a, strToFloat), StepsOf(b, strToFloat))
    decreases |b|
  {
    if b == [] {
      assert a + b == a;
    } else {
      var init := b[..|b| - 1];
      assert (a + b)[..|a + b| - 1] == a + init;
      assert (a + b)[|a + b| - 1] == b[|b| - 1];
      StepsOfAppend(a, init, strToFloat);
    }
  }

  /** Once an element raises, the whole parse raises. */
  lemma RaisedPrefixRaises(items: seq<YValue>, k: nat, strToFloat: string -> Option<real>)
    requires k <= |items|
    requires StepsOf(items[..k], strToFloat).Raised?
    ensures StepsOf(items, strToFloat).Raised?
  {
    assert items == items[..k] + items[k..];
    StepsOfAppend(items[..k], items[k..], strToFloat);
  }

  /** A malformed element is dropped without disturbing the elements around it. */
  lemma SkippedElementDropped(a: seq<YValue>, x: YValue, b: seq<YValue>, strToFloat: string -> Option<real>)
    requires StepOutcomeOf(x, strToFloat) == Skip
    ensures StepsOf(a + [x] + b, strToFloat) == StepsOf(a + b, strToFloat)
  {
    assert StepsOf([x], strToFloat) == Parsed([]) by {
      assert [x][..0] == [];
    }
    StepsOfAppend(a, [x], strToFloat);
    StepsOfAppend(a + [x], b, strToFloat);
    StepsOfAppend(a, b, strToFloat);
  }

  /** A list of well-formed elements yields one step per element, in the same order. */
  lemma {:induction false} AllWellFormedKept(items: seq<YValue>, strToFloat: string -> Option<real>)
    requires forall k :: 0 <= k < |items| ==> StepOutcomeOf(items[k], strToFloat).Keep?
    ensures StepsOf(items, strToFloat).Parsed?
    ensures |StepsOf(items, strToFloat).steps| == |items|
    ensures forall k :: 0 <= k < |items| ==>
              StepsOf(items, strToFloat).steps[k] == StepOutcomeOf(items[k], strToFloat).step
    decreases |items|
  {
    if items != [] {
      var init := items[..|items| - 1];
      forall k | 0 <= k < |init|
        ensures StepOutcomeOf(init[k], strToFloat).Keep?
      {
        assert init[k] == items[k];
      }
      AllWellFormedKept(init, strToFloat);
      var before := StepsOf(init, strToFloat).steps;
      var outcome := StepOutcomeOf(items[|items| - 1], strToFloat);
      assert outcome.Keep?;
      assert StepsOf(items, strToFloat) == Parsed(before + [outcome.step]);
      forall k | 0 <= k < |items|
        ensures StepsOf(items, strToFloat).steps[k] == StepOutcomeOf(items[k], strToFloat).step
      {
        if k < |init| {
          assert items[k] == init[k];
        }
      }
    }
  }

  /** Every parsed step comes from some well-formed element of the input. */
  lemma {:induction false} StepsComeFromElements(items: seq<YValue>, k: nat, strToFloat: string -> Option<real>)
    requires StepsOf(items, strToFloat).Parsed?
    requires k < |StepsOf(items, strToFloat).steps|
    ensures exists i :: 0 <= i < |items| && StepOutcomeOf(items[i], strToFloat) == Keep(StepsOf(items, strToFloat).steps[k])
    decreases |items|
  {
    var init := items[..|items| - 1];
    var steps := StepsOf(init, strToFloat).steps;
    if k < |steps| {
      StepsComeFromElements(init, k, strToFloat);
      var i :| 0 <= i < |init| && StepOutcomeOf(init[i], strToFloat) == Keep(steps[k]);
      assert items[i] == init[i];
    } else {
      assert StepOutcomeOf(items[|items| - 1], strToFloat) == Keep(StepsOf(items, strToFloat).steps[k]);
    }
  }

  /**
   * One pass of the parser's loop body: decides whether an element is
   * skipped, kept as a step, or makes the parser raise.
   */
  method ParseElement(element: YValue, strToFloat: string -> Option<real>) returns (o: StepOutcome)
    ensures o == StepOutcomeOf(element, strToFloat)
  {
    if !element.YMap? {
      return Skip;
    }
    var service := Lookup(element.fields, "service");
    if !Truthy(service) {
      return Skip;
    }
    var hasDot := DotIn(service);
    if hasDot.None? || (hasDot.value && !service.YStr?) {
      // `"." in service` raised, or `service.split` does not exist.
      return Raise;
    }
    if !hasDot.value {
      return Skip;
    }
    var parts := SplitAtFirstDot(service.s);
    var entityId := Lookup(element.fields, "entity_id");
    var delayValue := if "delay" in element.fields then element.fields["delay"] else YInt(0);
    var delay: real;
    match ToFloat(delayValue, strToFloat) {
      case Some(d) => delay := d;
      case None => delay := 0.0;
    }
    var serviceData := Lookup(element.fields, "service_data");
    if !Truthy(serviceData) {
      serviceData := YMap(map[]);
    }
    var data := if serviceData.YMap? then serviceData.fields else map[];
    return Keep(StopStep(parts.value.0, parts.value.1, entityId, data, delay));
  }

  /**
   * `_parse_stop_sequence` as the source runs it: guard clauses, then a loop
   * over the loaded list that skips malformed elements and appends the rest.
   */
  method ParseStopSequence(raw: string, load: string -> Option<YValue>,
                           strToFloat: string -> Option<real>) returns (r: Parse)
    ensures r == StopSequenceOf(raw, load, strToFloat)
  {
    if IsBlank(raw) {
      return Parsed([]);
    }
    var loaded := load(raw);
    if loaded.None? || !loaded.value.YList? {
      return Parsed([]);
    }
    var items := loaded.value.items;
    var steps: seq<StopStep> := [];
    var idx := 0;
    while idx < |items|
      invariant 0 <= idx <= |items|
      invariant StepsOf(items[..idx], strToFloat) == Parsed(steps)
    {
      assert items[..idx + 1][..idx] == items[..idx];
      var outcome := ParseElement(items[idx], strToFloat);
      match outcome {
        case Skip =>
        case Keep(step) => steps := steps + [step];
        case Raise =>
          RaisedPrefixRaises(items, idx + 1, strToFloat);
          return Raised;
      }
      idx := idx + 1;
    }
    assert items[..|items|] == items;
    return Parsed(steps);
  }
}
