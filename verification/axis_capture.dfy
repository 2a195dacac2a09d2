/** The critical section of emitAxis (manager.go:352-387) that serves a pending CaptureAxis,
    as a function, and what a whole stream of samples does to one request. */
module AxisCapture {
  import opened ControllerTypes
  import opened Traces

  function DirectionOf(baseline: real, value: real): AxisDirection {
    if value - baseline < 0.0 then Decreasing else Increasing
  }

  predicate Qualifies(baseline: real, value: real, threshold: real) {
    && (value - baseline >= MINIMUM_AXIS_CAPTURE_MOVEMENT || baseline - value >= MINIMUM_AXIS_CAPTURE_MOVEMENT)
    && NormalizedAxisTravel(baseline, value, DirectionOf(baseline, value)) >= threshold
  }

  function BindingFor(event: AxisEvent, baseline: real): AxisBinding {
    AxisBinding(event.device.instanceGuid, event.axis, event.axisName, DirectionOf(baseline, event.value), baseline)
  }

  datatype Sampled = Sampled(baselines: map<AxisKey, real>, binding: Option<AxisBinding>)

  /** What one accepted sample does to the request in the slot. */
  function Sample(baselines: map<AxisKey, real>, threshold: real, event: AxisEvent): Sampled {
    var key := KeyOf(event);
    if key !in baselines then
      Sampled(baselines[key := event.value], None)
    else if Qualifies(baselines[key], event.value, threshold) then
      Sampled(baselines, Some(BindingFor(event, baselines[key])))
    else
      Sampled(baselines, None)
  }

  /** A request either still waits, with its baselines, or was completed by event `at`. */
  datatype Progress =
    | Waiting(baselines: map<AxisKey, real>)
    | Captured(binding: AxisBinding, at: nat)

  /** The request after a stream of samples, `origin` being its baselines at registration. */
  function Track(origin: map<AxisKey, real>, threshold: real, events: seq<AxisEvent>): Progress {
    if events == [] then Waiting(origin) else
    var last := |events| - 1;
    match Track(origin, threshold, events[..last])
    case Captured(binding, at) => Captured(binding, at)
    case Waiting(baselines) =>
      if !Accepted(events[last]) then Waiting(baselines) else
      var step := Sample(baselines, threshold, events[last]);
      if step.binding.Some? then Captured(step.binding.value, last) else Waiting(step.baselines)
  }

  // ---- The same, without following the request's state ----

  /** The first accepted value of a key in a stream. */
  function FirstValue(events: seq<AxisEvent>, key: AxisKey): Option<real> {
    if events == [] then None
    else if Accepted(events[0]) && KeyOf(events[0]) == key then Some(events[0].value)
    else FirstValue(events[1..], key)
  }

  /** The baseline of a key: where the axis was at registration, or else the first sample. */
  function BaselineOf(origin: map<AxisKey, real>, before: seq<AxisEvent>, key: AxisKey): Option<real> {
    if key in origin then Some(origin[key]) else FirstValue(before, key)
  }

  predicate Completes(origin: map<AxisKey, real>, threshold: real, events: seq<AxisEvent>, k: nat)
    requires k < |events|
  {
    var baseline := BaselineOf(origin, events[..k], KeyOf(events[k]));
    Accepted(events[k]) && baseline.Some? && Qualifies(baseline.value, events[k].value, threshold)
  }

  lemma {:induction false} FirstValueAppend(events: seq<AxisEvent>, event: AxisEvent, key: AxisKey)
    ensures FirstValue(events + [event], key)
         == if FirstValue(events, key).Some? then FirstValue(events, key)
            else if Accepted(event) && KeyOf(event) == key then Some(event.value) else None
  {
    if events == [] {
      assert [event][1..] == [];
    } else {
      FirstValueAppend(events[1..], event, key);
      assert (events + [event])[1..] == events[1..] + [event];
    }
  }

  function Find(baselines: map<AxisKey, real>, key: AxisKey): Option<real> {
    if key in baselines then Some(baselines[key]) else None
  }

  /** A sample makes an entry for its own key where there is none. */
  lemma SampleEntries(baselines: map<AxisKey, real>, threshold: real, event: AxisEvent, key: AxisKey)
    ensures Find(Sample(baselines, threshold, event).baselines, key)
         == if key in baselines then Some(baselines[key])
            else if KeyOf(event) == key then Some(event.value) else None
  {
  }

  /** One more event while the request goes on waiting. */
  lemma WaitingStep(origin: map<AxisKey, real>, threshold: real, events: seq<AxisEvent>, key: AxisKey)
    requires events != [] && Track(origin, threshold, events).Waiting?
    ensures var front, event := events[..|events| - 1], events[|events| - 1];
            && Track(origin, threshold, front).Waiting?
            && Find(Track(origin, threshold, events).baselines, key)
               == if key in Track(origin, threshold, front).baselines || !Accepted(event) then
                    Find(Track(origin, threshold, front).baselines, key)
                  else if KeyOf(event) == key then Some(event.value) else None
  {
    var front, event := events[..|events| - 1], events[|events| - 1];
    if Accepted(event) {
      SampleEntries(Track(origin, threshold, front).baselines, threshold, event, key);
    }
  }

  /** While a request waits, the map it carries is exactly BaselineOf: an entry, once made,
      never changes. */
  lemma {:induction false} WaitingBaselines(origin: map<AxisKey, real>, threshold: real, events: seq<AxisEvent>,
          key: AxisKey)
    requires Track(origin, threshold, events).Waiting?
    ensures BaselineOf(origin, events, key) == Find(Track(origin, threshold, events).baselines, key)
  {
    if events == [] {
    } else {
      var front, event := events[..|events| - 1], events[|events| - 1];
      WaitingStep(origin, threshold, events, key);
      WaitingBaselines(origin, threshold, front, key);
      FirstValueAppend(front, event, key);
      assert events == front + [event];
    }
  }

  /** CaptureAxis is completed by the first qualifying sample, and by nothing else. */
  lemma {:induction false} FirstQualifyingSample(origin: map<AxisKey, real>, threshold: real, events: seq<AxisEvent>)
    ensures match Track(origin, threshold, events)
            case Waiting(_) => forall k | 0 <= k < |events| :: !Completes(origin, threshold, events, k)
            case Captured(binding, at) =>
              && at < |events|
              && Completes(origin, threshold, events, at)
              && (forall k | 0 <= k < at :: !Completes(origin, threshold, events, k))
              && binding == BindingFor(events[at], BaselineOf(origin, events[..at], KeyOf(events[at])).value)
  {
    if events == [] {
    } else {
      var last := |events| - 1;
      var before := events[..last];
      FirstQualifyingSample(origin, threshold, before);
      forall k | 0 <= k < last
        ensures Completes(origin, threshold, before, k) == Completes(origin, threshold, events, k)
        ensures before[..k] == events[..k]
      {
        assert before[..k] == events[..k];
      }
      if Track(origin, threshold, before).Waiting? {
        WaitingBaselines(origin, threshold, before, KeyOf(events[last]));
      }
    }
  }

  /** A qualifying sample, with the division and the absolute value taken away. */
  lemma QualifyingMovement(baseline: real, value: real, threshold: real)
    requires 0.0 < threshold <= 1.0
    requires Qualifies(baseline, value, threshold)
    ensures var direction := DirectionOf(baseline, value);
            && Advance(baseline, value, direction) >= MINIMUM_AXIS_CAPTURE_MOVEMENT
            && Advance(baseline, value, direction) >= threshold * Span(baseline, direction)
            && NormalizedAxisTravel(baseline, value, direction) >= threshold
  {
    TravelReaches(baseline, value, DirectionOf(baseline, value), threshold);
  }

  /** The movement that completes a capture, in plain numbers: a fifth of the range at least,
      and the threshold's part of the way to the end it goes to. */
  predicate Enough(baseline: real, value: real, threshold: real) {
    || (value - baseline >= 0.20 && baseline < 1.0 && value - baseline >= threshold * (1.0 - baseline))
    || (baseline - value >= 0.20 && baseline > 0.0 && baseline - value >= threshold * baseline)
  }

  /** Qualifying is exactly that, in both directions. */
  lemma QualifiesIff(baseline: real, value: real, threshold: real)
    requires 0.0 < threshold <= 1.0
    ensures Qualifies(baseline, value, threshold) <==> Enough(baseline, value, threshold)
  {
    TravelReaches(baseline, value, DirectionOf(baseline, value), threshold);
  }

  /** One more event for a request that waits.  An event of a device without a GUID or outside
      0..1 is nothing to it; a sample that has moved enough from its known baseline completes
      it, with a binding for that very axis; any other leaves it waiting. */
  lemma EnoughMovementCompletes(origin: map<AxisKey, real>, threshold: real, events: seq<AxisEvent>, event: AxisEvent)
    requires 0.0 < threshold <= 1.0 && Track(origin, threshold, events).Waiting?
    ensures var baseline := BaselineOf(origin, events, KeyOf(event));
            var next := Track(origin, threshold, events + [event]);
            if event.device.instanceGuid != "" && 0.0 <= event.value <= 1.0
               && baseline.Some? && Enough(baseline.value, event.value, threshold)
            then
              next == Captured(AxisBinding(event.device.instanceGuid, event.axis, event.axisName,
                                           if event.value < baseline.value then Decreasing else Increasing,
                                           baseline.value), |events|)
            else next.Waiting?
  {
    var baseline := BaselineOf(origin, events, KeyOf(event));
    assert (events + [event])[..|events|] == events;
    WaitingBaselines(origin, threshold, events, KeyOf(event));
    if baseline.Some? {
      QualifiesIff(baseline.value, event.value, threshold);
    }
  }

  /** What a binding delivered for a sample promises its holder. */
  ghost predicate Promises(binding: AxisBinding, event: AxisEvent, threshold: real) {
    && binding.Matches(event)
    && binding.Travel(event) >= threshold
    && binding.direction != UnknownDirection
    && (binding.direction == Increasing <==> event.value > binding.baseline)
    && Advance(binding.baseline, event.value, binding.direction) >= MINIMUM_AXIS_CAPTURE_MOVEMENT
    && Advance(binding.baseline, event.value, binding.direction)
         >= threshold * Span(binding.baseline, binding.direction)
    && (binding.direction == Increasing ==> binding.baseline <= 0.80)
    && (binding.direction == Decreasing ==> binding.baseline >= 0.20)
  }

  lemma BindingForPromises(event: AxisEvent, baseline: real, threshold: real)
    requires 0.0 < threshold <= 1.0 && Accepted(event) && Qualifies(baseline, event.value, threshold)
    ensures Promises(BindingFor(event, baseline), event, threshold)
  {
    QualifyingMovement(baseline, event.value, threshold);
  }

  /** What the caller of CaptureAxis holds in its hands: the binding matches the sample that
      completed it, travels at least the threshold on it, names the direction of the movement,
      and starts from a baseline that left room for the movement. */
  lemma DeliveredBindingRoundTrip(origin: map<AxisKey, real>, threshold: real, events: seq<AxisEvent>)
    requires 0.0 < threshold <= 1.0
    requires Track(origin, threshold, events).Captured?
    ensures var Captured(binding, at) := Track(origin, threshold, events);
            at < |events| && Promises(binding, events[at], threshold)
  {
    FirstQualifyingSample(origin, threshold, events);
    var Captured(binding, at) := Track(origin, threshold, events);
    var baseline := BaselineOf(origin, events[..at], KeyOf(events[at]));
    BindingForPromises(events[at], baseline.value, threshold);
  }

  /** With the threshold at one only the very endpoint completes a capture. */
  lemma FullTravelCapturesAtEndpoint(origin: map<AxisKey, real>, events: seq<AxisEvent>)
    requires Track(origin, 1.0, events).Captured?
    ensures var Captured(binding, at) := Track(origin, 1.0, events);
            at < |events| && events[at].value == Endpoint(binding.direction)
  {
    FirstQualifyingSample(origin, 1.0, events);
    var Captured(binding, at) := Track(origin, 1.0, events);
    QualifyingMovement(binding.baseline, events[at].value, 1.0);
  }
}
