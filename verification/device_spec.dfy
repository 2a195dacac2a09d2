/** What runtimeDevice does, as functions on values: the tracked state of one device, the
    calls each step makes on the sink, and the polling loop over the scripted machine. */
module DeviceSpec {
  import opened ControllerTypes
  import opened PackedLayout
  import opened Hardware

  /** What opening a device fixes: its name and its input tables. */
  datatype Tables = Tables(info: DeviceInfo, buttons: seq<uint8>, axes: seq<AxisInfo>)

  /** What polling tracks: a state for each of the 128 button numbers, and for each axis in
      the table its raw value once there is one (hasState). */
  datatype Tracked = Tracked(down: seq<bool>, axes: seq<Option<uint32>>)

  datatype Step = Step(state: Tracked, calls: seq<SinkCall>)

  predicate WellFormed(tb: Tables) {
    && |tb.axes| <= MAX_AXES
    && |tb.buttons| <= MAX_BUTTONS
    && (forall i | 0 <= i < |tb.buttons| :: tb.buttons[i] < MAX_BUTTONS)
    && (forall i, j | 0 <= i < j < |tb.buttons| :: tb.buttons[i] < tb.buttons[j])
    && (forall i, j | 0 <= i < j < |tb.axes| :: tb.axes[i].instance < tb.axes[j].instance)
  }

  predicate Shaped(tb: Tables, s: Tracked) {
    |s.down| == MAX_BUTTONS && |s.axes| == |tb.axes|
  }

  /** The machine has the format that was built from the device's tables. */
  predicate Fits(tb: Tables, m: Machine) {
    |m.axes| == |tb.axes| && |m.buttons| == |tb.buttons|
  }

  function Saturate(raw: uint32): uint32 {
    if raw > AXIS_RAW_MAXIMUM then AXIS_RAW_MAXIMUM else raw
  }

  function Normalized(raw: uint32): (value: real)
    ensures 0.0 <= value <= 1.0
  {
    Saturate(raw) as real / AXIS_RAW_MAXIMUM as real
  }

  /** The whole range 0..65535 maps linearly onto 0..1; larger raw values stay at one. */
  lemma NormalizedIsLinear(raw: uint32)
    ensures Normalized(raw) * 65535.0 == (if raw <= 65535 then raw as real else 65535.0)
    ensures Normalized(0) == 0.0 && (Normalized(raw) == 1.0 <==> raw >= 65535)
  {
  }

  /** axisEvent */
  function AxisSample(tb: Tables, index: nat, raw: uint32): AxisEvent
    requires index < |tb.axes|
  {
    AxisEvent(tb.info, tb.axes[index].instance, tb.axes[index].name, Normalized(raw), Saturate(raw))
  }

  /** A sample names the device and the axis it was read from. */
  lemma AxisSampleIs(tb: Tables, index: nat, raw: uint32)
    requires index < |tb.axes|
    ensures var sample, axis := AxisSample(tb, index, raw), tb.axes[index];
            && sample.device == tb.info && sample.axis == axis.instance && sample.axisName == axis.name
            && sample.rawValue == (if raw <= 65535 then raw else 65535)
            && sample.value * 65535.0 == sample.rawValue as real
  {
    NormalizedIsLinear(raw);
  }

  function Edge(tb: Tables, button: uint8, down: bool): SinkCall {
    EmitButton(ButtonEvent(tb.info, button, if down then Pressed else Released))
  }

  /** emitButtonIfChanged */
  function SeeButton(tb: Tables, s: Tracked, button: uint8, down: bool): (r: Step)
    requires button < |s.down|
    ensures |r.state.down| == |s.down| && r.state.axes == s.axes
  {
    if s.down[button] == down then Step(s, [])
    else Step(s.(down := s.down[button := down]), [Edge(tb, button, down)])
  }

  /** emitAxisIfChanged */
  function SeeAxis(tb: Tables, s: Tracked, index: nat, raw: uint32): (r: Step)
    requires |s.axes| == |tb.axes|
    ensures r.state.down == s.down && |r.state.axes| == |s.axes|
  {
    if index >= |tb.axes| || s.axes[index] == Some(raw) then Step(s, [])
    else Step(s.(axes := s.axes[index := Some(raw)]), [EmitAxis(AxisSample(tb, index, raw))])
  }

  function Decode(tb: Tables, record: Record): Item {
    DecodeOffset(record.offset, |tb.axes|, |tb.buttons|)
  }

  /** One pass of the inner loop of poll. */
  function SeeRecord(tb: Tables, s: Tracked, record: Record): (r: Step)
    requires WellFormed(tb) && Shaped(tb, s)
    ensures Shaped(tb, r.state)
  {
    match Decode(tb, record)
    case AxisItem(i) => SeeAxis(tb, s, i, record.data)
    case ButtonItem(j) => SeeButton(tb, s, tb.buttons[j], HighBit(record.data))
    case NoItem => Step(s, [])
  }

  function SeeRecords(tb: Tables, s: Tracked, records: seq<Record>): (r: Step)
    requires WellFormed(tb) && Shaped(tb, s)
    ensures Shaped(tb, r.state)
  {
    if records == [] then Step(s, [])
    else
      var front := SeeRecords(tb, s, records[..|records| - 1]);
      var last := SeeRecord(tb, front.state, records[|records| - 1]);
      Step(last.state, front.calls + last.calls)
  }

  // ---- reconcile ----

  /** A snapshot read as records, one for each object, in data-format order. */
  function Snapshot(m: Machine): seq<Record>
    requires |m.axes| <= MAX_AXES && |m.buttons| <= MAX_BUTTONS
  {
    seq(|m.axes| + |m.buttons|, k requires 0 <= k < |m.axes| + |m.buttons| =>
      if k < |m.axes| then Record(k * 4, m.axes[k])
      else Record(|m.axes| * 4 + (k - |m.axes|), m.buttons[k - |m.axes|]))
  }

  function AxisSyncs(tb: Tables, m: Machine, n: nat): seq<SinkCall>
    requires Fits(tb, m) && n <= |tb.axes|
  {
    if n == 0 then [] else AxisSyncs(tb, m, n - 1) + [SyncAxis(AxisSample(tb, n - 1, m.axes[n - 1]))]
  }

  /** Every value of a snapshot is taken over.  When reconcile emits, the sink hears what it
      would hear of the snapshot as records; when it does not, it is told every axis value and
      no button. */
  function Reconciled(tb: Tables, s: Tracked, m: Machine, emit: bool): (r: Step)
    requires WellFormed(tb) && Shaped(tb, s) && Fits(tb, m)
    ensures Shaped(tb, r.state)
  {
    var fold := SeeRecords(tb, s, Snapshot(m));
    if emit then fold else Step(fold.state, AxisSyncs(tb, m, |tb.axes|))
  }

  // ---- Calls into the machine ----

  datatype Run = Run(ok: bool, state: Tracked, machine: Machine, calls: seq<SinkCall>)

  /** reconcile: a failed GetDeviceState changes nothing. */
  function Reconcile(tb: Tables, s: Tracked, m: Machine, emit: bool): (r: Run)
    requires WellFormed(tb) && Shaped(tb, s) && Fits(tb, m)
    ensures Shaped(tb, r.state) && Fits(tb, r.machine)
  {
    TurnKeepsShape(m);
    if !Ok(m) then Run(false, s, Turn(m), [])
    else
      var step := Reconciled(tb, s, Turn(m), emit);
      Run(true, step.state, Turn(m), step.calls)
  }

  /** drainDeviceData: pop and forget until a short batch or a failure. */
  function Discard(m: Machine): (r: Machine)
    ensures |r.axes| == |m.axes| && |r.buttons| == |m.buttons|
    decreases |m.plan|, |m.queue|
  {
    TurnKeepsShape(m);
    var n := Turn(m);
    if !Ok(m) then n
    else if |Batch(n)| < BATCH then Popped(n)
    else Discard(Popped(n))
  }

  function AcquireAndReconcile(tb: Tables, s: Tracked, m: Machine, emit: bool): (r: Run)
    requires WellFormed(tb) && Shaped(tb, s) && Fits(tb, m)
    ensures Shaped(tb, r.state) && Fits(tb, r.machine)
  {
    TurnKeepsShape(m);
    var acquired := Turn(m);
    TurnKeepsShape(acquired);
    if !Ok(m) then Run(false, s, acquired, [])
    else if !Ok(acquired) then Run(false, s, Turn(acquired), [])
    else
      var r := Reconcile(tb, s, Turn(acquired), emit);
      if !r.ok then r else r.(machine := Discard(r.machine))
  }

  /** The `for` loop of poll. */
  function PollLoop(tb: Tables, s: Tracked, m: Machine): (r: Run)
    requires WellFormed(tb) && Shaped(tb, s) && Fits(tb, m)
    ensures Shaped(tb, r.state) && Fits(tb, r.machine)
    decreases |m.plan|, |m.queue|
  {
    TurnKeepsShape(m);
    var n := Turn(m);
    if !Ok(m) then AcquireAndReconcile(tb, s, n, true)
    else
      var step := SeeRecords(tb, s, Batch(n));
      if n.overflowed then
        var r := Reconcile(tb, step.state, Popped(n), true);
        r.(calls := step.calls + r.calls)
      else if |Batch(n)| < BATCH then Run(true, step.state, Popped(n), step.calls)
      else
        var r := PollLoop(tb, step.state, Popped(n));
        r.(calls := step.calls + r.calls)
  }

  /** poll of an opened device with a non-empty format. */
  function Poll(tb: Tables, s: Tracked, m: Machine): (r: Run)
    requires WellFormed(tb) && Shaped(tb, s) && Fits(tb, m)
    ensures Shaped(tb, r.state) && Fits(tb, r.machine)
  {
    TurnKeepsShape(m);
    if !Ok(m) then AcquireAndReconcile(tb, s, Turn(m), true) else PollLoop(tb, s, Turn(m))
  }

  // ---- Opening ----

  /** One stabilising round of initializeDevice: poll, reconcile silently, discard. */
  function Stabilize(tb: Tables, s: Tracked, m: Machine): (r: Run)
    requires WellFormed(tb) && Shaped(tb, s) && Fits(tb, m)
    ensures Shaped(tb, r.state) && Fits(tb, r.machine)
  {
    TurnKeepsShape(m);
    if !Ok(m) then Run(false, s, Turn(m), [])
    else
      var r := Reconcile(tb, s, Turn(m), false);
      if !r.ok then r else r.(machine := Discard(r.machine))
  }

  function After(first: Run, second: Run): Run {
    second.(calls := first.calls + second.calls)
  }

  /** What initializeDevice does once the device is configured: it looks at the inputs without
      emitting anything, up to three times. */
  function BringUp(tb: Tables, s: Tracked, m: Machine): (r: Run)
    requires WellFormed(tb) && Shaped(tb, s) && Fits(tb, m)
    ensures Shaped(tb, r.state) && Fits(tb, r.machine)
  {
    var first := AcquireAndReconcile(tb, s, m, false);
    if !first.ok then first
    else
      var second := After(first, Stabilize(tb, first.state, first.machine));
      if !second.ok then second
      else After(second, Stabilize(tb, second.state, second.machine))
  }

  // ---- Synthetic releases ----

  function Releases(tb: Tables, s: Tracked, n: nat): seq<SinkCall>
    requires n <= |s.down| <= MAX_BUTTONS
  {
    if n == 0 then []
    else if s.down[n - 1] then Releases(tb, s, n - 1) + [Edge(tb, n - 1, false)]
    else Releases(tb, s, n - 1)
  }

  /** release(sink, true): the buttons below n that are down are let go, in order. */
  function LetGo(tb: Tables, s: Tracked, n: nat): Step
    requires n <= |s.down| <= MAX_BUTTONS
  {
    Step(s.(down := seq(|s.down|, b requires 0 <= b < |s.down| => b >= n && s.down[b])), Releases(tb, s, n))
  }
}
