/** The public vocabulary of pkg/controller (types.go): devices, button and axis events,
    bindings, and the travel arithmetic that turns a sample into a fraction of the way
    from a baseline to an endpoint.  Timestamps are not part of the model. */
module ControllerTypes {

  type uint8 = x: int | 0 <= x < 0x100
  type uint16 = x: int | 0 <= x < 0x1_0000
  type uint32 = x: int | 0 <= x < 0x1_0000_0000

  const MAX_BUTTONS := 128
  const MAX_AXES := 32
  const AXIS_RAW_MAXIMUM := 65535
  const MINIMUM_AXIS_CAPTURE_MOVEMENT := 0.20
  const DEFAULT_AXIS_CAPTURE_THRESHOLD := 0.95

  datatype Option<+T> = None | Some(value: T)

  datatype DeviceInfo = DeviceInfo(
    instanceGuid: string, productGuid: string, instanceName: string, productName: string,
    buttonCount: nat, axisCount: nat)

  datatype ButtonState = Released | Pressed

  datatype ButtonEvent = ButtonEvent(device: DeviceInfo, button: uint8, state: ButtonState)

  datatype Binding = Binding(deviceInstanceGuid: string, button: uint8) {
    predicate Matches(event: ButtonEvent) {
      && deviceInstanceGuid != ""
      && deviceInstanceGuid == event.device.instanceGuid
      && button == event.button
    }
  }

  datatype AxisEvent = AxisEvent(
    device: DeviceInfo, axis: uint16, axisName: string, value: real, rawValue: uint32)

  /** `UnknownDirection` stands for every int8 other than -1 and 1. */
  datatype AxisDirection = Decreasing | Increasing | UnknownDirection

  datatype AxisBinding = AxisBinding(
    deviceInstanceGuid: string, axis: uint16, axisName: string, direction: AxisDirection, baseline: real)
  {
    predicate Matches(event: AxisEvent) {
      && deviceInstanceGuid != ""
      && deviceInstanceGuid == event.device.instanceGuid
      && axis == event.axis
    }

    function Travel(event: AxisEvent): real {
      if !Matches(event) then 0.0 else NormalizedAxisTravel(baseline, event.value, direction)
    }
  }

  datatype AxisKey = AxisKey(device: string, axis: uint16)

  function KeyOf(event: AxisEvent): AxisKey {
    AxisKey(event.device.instanceGuid, event.axis)
  }

  /** The calls a backend makes on its sink, as a trace. */
  datatype SinkCall =
    | SetDevices(devices: seq<DeviceInfo>)
    | SyncAxis(sample: AxisEvent)
    | EmitButton(edge: ButtonEvent)
    | EmitAxis(sample: AxisEvent)
    | Report(error: string)

  function NormalizedAxisTravel(baseline: real, value: real, direction: AxisDirection): (travel: real)
    ensures 0.0 <= travel <= 1.0
  {
    match direction
    case Increasing =>
      if 1.0 - baseline <= 0.0 then 0.0 else Clamp01((value - baseline) / (1.0 - baseline))
    case Decreasing =>
      if baseline <= 0.0 then 0.0 else Clamp01((baseline - value) / baseline)
    case UnknownDirection => 0.0
  }

  function Clamp01(x: real): real {
    if x < 0.0 then 0.0 else if x > 1.0 then 1.0 else x
  }

  /** Distance from the baseline to the endpoint a direction points at. */
  function Span(baseline: real, direction: AxisDirection): real {
    match direction
    case Increasing => 1.0 - baseline
    case Decreasing => baseline
    case UnknownDirection => 0.0
  }

  /** Signed distance of a value from the baseline, counted in a direction. */
  function Advance(baseline: real, value: real, direction: AxisDirection): real {
    match direction
    case Increasing => value - baseline
    case Decreasing => baseline - value
    case UnknownDirection => 0.0
  }

  function Endpoint(direction: AxisDirection): real {
    if direction == Increasing then 1.0 else 0.0
  }

  // ---- Travel arithmetic ----

  lemma QuotientAtLeast(x: real, span: real, t: real)
    requires span > 0.0
    ensures x / span >= t <==> x >= t * span
  {
    assert (x / span) * span == x;
    if x / span >= t {
      assert (x / span - t) * span >= 0.0;
    }
    if x / span < t {
      assert (t - x / span) * span > 0.0;
    }
  }

  /** What a travel of at least t means, with no division: the value has covered t of the
      span.  Both directions, for every threshold a Manager can hold. */
  lemma TravelReaches(baseline: real, value: real, direction: AxisDirection, t: real)
    requires 0.0 < t <= 1.0
    ensures NormalizedAxisTravel(baseline, value, direction) >= t
       <==> Span(baseline, direction) > 0.0
            && Advance(baseline, value, direction) >= t * Span(baseline, direction)
  {
    if Span(baseline, direction) > 0.0 {
      QuotientAtLeast(Advance(baseline, value, direction), Span(baseline, direction), t);
    }
  }

  /** Travel grows with the distance moved in the bound direction. */
  lemma TravelMonotone(baseline: real, near: real, far: real, direction: AxisDirection)
    requires Advance(baseline, near, direction) <= Advance(baseline, far, direction)
    ensures NormalizedAxisTravel(baseline, near, direction) <= NormalizedAxisTravel(baseline, far, direction)
  {
    var t := NormalizedAxisTravel(baseline, near, direction);
    if t > 0.0 {
      TravelReaches(baseline, near, direction, t);
      TravelReaches(baseline, far, direction, t);
    }
  }

  /** Zero at the baseline and one at the endpoint, and only there inside 0..1. */
  lemma TravelEndpoints(baseline: real, value: real, direction: AxisDirection)
    requires 0.0 <= baseline <= 1.0 && 0.0 <= value <= 1.0
    requires Span(baseline, direction) > 0.0
    ensures NormalizedAxisTravel(baseline, baseline, direction) == 0.0
    ensures NormalizedAxisTravel(baseline, value, direction) == 1.0 <==> value == Endpoint(direction)
  {
    TravelReaches(baseline, value, direction, 1.0);
  }

  lemma PositiveProduct(x: real, y: real)
    requires x > 0.0 && y > 0.0
    ensures x * y > 0.0
  {
  }

  /** A sample never travels in both directions at once. */
  lemma TravelOneDirection(baseline: real, value: real)
    ensures NormalizedAxisTravel(baseline, value, Increasing) == 0.0
         || NormalizedAxisTravel(baseline, value, Decreasing) == 0.0
  {
    var up := NormalizedAxisTravel(baseline, value, Increasing);
    var down := NormalizedAxisTravel(baseline, value, Decreasing);
    if up > 0.0 && down > 0.0 {
      TravelReaches(baseline, value, Increasing, up);
      TravelReaches(baseline, value, Decreasing, down);
      PositiveProduct(up, 1.0 - baseline);
      PositiveProduct(down, baseline);
      assert false;
    }
  }

  /** Turning the axis round turns the direction round. */
  lemma TravelMirror(baseline: real, value: real)
    ensures NormalizedAxisTravel(baseline, value, Increasing)
         == NormalizedAxisTravel(1.0 - baseline, 1.0 - value, Decreasing)
  {
    assert 1.0 - baseline - (1.0 - value) == value - baseline;
  }

  // ---- Options ----

  /** What a Manager can hold as its capture threshold. */
  type Threshold = t: real | 0.0 < t <= 1.0 witness 1.0

  /** WithAxisCaptureThreshold: the option sets the threshold or is refused. */
  function WithAxisCaptureThreshold(requested: real): (r: Option<real>)
    ensures 0.0 < requested <= 1.0 <==> r.Some?
    ensures r.Some? ==> r.value == requested
  {
    if requested <= 0.0 || requested > 1.0 then None else Some(requested)
  }
}
