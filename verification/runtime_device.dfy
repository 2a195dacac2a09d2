/** runtimeDevice (directinput_windows.go:148-166, 212-305, 323-494): one device's tracked state,
    updated in place, with its COM object and the sink it reports to.  Each method is proved
    against a function of the device as a value. */
module RuntimeDevices {
  import opened ControllerTypes
  import opened PackedLayout
  import opened Hardware
  import opened Traces
  import opened DeviceSpec
  import opened DeviceTheorems
  import opened Recovery
  import opened InputTables
  import opened RuntimeSpec

  /** A backendSink that keeps the calls made on it; the manager behind it takes them in order. */
  class Sink {
    var calls: seq<SinkCall>

    constructor ()
      ensures calls == []
    {
      calls := [];
    }

    method Call(call: SinkCall)
      modifies this
      ensures calls == old(calls) + [call]
    {
      calls := calls + [call];
    }
  }

  datatype RuntimeAxis = RuntimeAxis(instance: uint16, name: string, guid: string, raw: uint32, hasState: bool)

  function AxisInfos(axes: seq<RuntimeAxis>): seq<AxisInfo> {
    seq(|axes|, i requires 0 <= i < |axes| => AxisInfo(axes[i].instance, axes[i].name, axes[i].guid))
  }

  function KnownValues(axes: seq<RuntimeAxis>): seq<Option<uint32>> {
    seq(|axes|, i requires 0 <= i < |axes| => if axes[i].hasState then Some(axes[i].raw) else None)
  }

  class RuntimeDevice {
    var descriptor: Descriptor
    var info: DeviceInfo
    var device: InputDevice?
    var initialized: bool
    var buttons: seq<uint8>
    const buttonState: array<bool>
    var axes: seq<RuntimeAxis>
    var dataSize: nat

    ghost function TablesOf(): Tables
      reads this
    {
      Tables(info, buttons, AxisInfos(axes))
    }

    ghost function StateOf(): Tracked
      reads this, buttonState
    {
      Tracked(buttonState[..], KnownValues(axes))
    }

    /** The device as a value. */
    ghost function View(): Device
      reads this, buttonState, device
    {
      Device(descriptor, TablesOf(), initialized,
             if device == null then None else Some(device.machine), StateOf(), dataSize)
    }

    ghost predicate Valid()
      reads this, buttonState, device
    {
      buttonState.Length == MAX_BUTTONS && (!initialized ==> device == null)
    }

    constructor (descriptor: Descriptor)
      ensures View() == Fresh(descriptor) && Valid() && fresh(buttonState) && device == null
    {
      this.descriptor := descriptor;
      info := NoInfo();
      device := null;
      initialized := false;
      buttons := [];
      buttonState := new bool[MAX_BUTTONS](_ => false);
      axes := [];
      dataSize := 0;
      new;
      assert buttonState[..] == AllUp();
    }

    method RefreshInfo()
      modifies this`info
      ensures View() == Refreshed(old(View()))
    {
      info := InfoOf(descriptor, |buttons|, |axes|);
    }

    method EmitButtonIfChanged(sink: Sink, button: uint8, down: bool)
      requires button < buttonState.Length
      modifies buttonState, sink
      ensures var r := SeeButton(TablesOf(), old(StateOf()), button, down);
              StateOf() == r.state && sink.calls == old(sink.calls) + r.calls
    {
      if buttonState[button] == down {
        return;
      }
      buttonState[button] := down;
      var state := if down then Pressed else Released;
      sink.Call(EmitButton(ButtonEvent(info, button, state)));
    }

    method EmitAxisIfChanged(sink: Sink, index: nat, raw: uint32)
      modifies this`axes, sink
      ensures var r := SeeAxis(old(TablesOf()), old(StateOf()), index, raw);
              StateOf() == r.state && sink.calls == old(sink.calls) + r.calls
      ensures TablesOf() == old(TablesOf())
    {
      if index >= |axes| {
        return;
      }
      if axes[index].hasState && axes[index].raw == raw {
        return;
      }
      axes := axes[index := axes[index].(raw := raw, hasState := true)];
      assert AxisInfos(axes) == AxisInfos(old(axes));
      assert KnownValues(axes) == KnownValues(old(axes))[index := Some(raw)];
      sink.Call(EmitAxis(AxisEventOf(index, raw)));
    }

    function AxisEventOf(index: nat, raw: uint32): AxisEvent
      requires index < |axes|
      reads this
    {
      AxisEvent(info, axes[index].instance, axes[index].name, Normalized(raw), Saturate(raw))
    }

    /** The body of the inner loop of poll. */
    method ReadRecord(sink: Sink, record: Record)
      requires buttonState.Length == MAX_BUTTONS && WellFormed(TablesOf())
      modifies this`axes, buttonState, sink
      ensures var r := SeeRecord(old(TablesOf()), old(StateOf()), record);
              StateOf() == r.state && sink.calls == old(sink.calls) + r.calls
      ensures TablesOf() == old(TablesOf())
    {
      var axisBytes: nat := (|axes| * 4) % 0x1_0000_0000;
      if record.offset < axisBytes && record.offset % 4 == 0 {
        EmitAxisIfChanged(sink, record.offset / 4, record.data);
        return;
      }
      var buttonOffset := (record.offset - axisBytes) % 0x1_0000_0000;
      if buttonOffset >= |buttons| {
        return;
      }
      EmitButtonIfChanged(sink, buttons[buttonOffset], HighBit(record.data));
    }

    /** One pass of the first loop of reconcile. */
    method TakeAxis(sink: Sink, emit: bool, index: nat, raw: uint32)
      requires index < |axes|
      modifies this`axes, sink
      ensures TablesOf() == old(TablesOf())
      ensures var step := SeeAxis(old(TablesOf()), old(StateOf()), index, raw);
              && StateOf() == step.state
              && sink.calls
                   == old(sink.calls) + (if emit then step.calls else [SyncAxis(AxisSample(TablesOf(), index, raw))])
    {
      if emit {
        EmitAxisIfChanged(sink, index, raw);
      } else {
        axes := axes[index := axes[index].(raw := raw, hasState := true)];
        assert AxisInfos(axes) == AxisInfos(old(axes));
        assert KnownValues(axes) == KnownValues(old(axes))[index := Some(raw)];
        assert KnownValues(axes) == SeeAxis(old(TablesOf()), old(StateOf()), index, raw).state.axes;
        sink.Call(SyncAxis(AxisEventOf(index, raw)));
      }
    }

    /** One pass of its second loop. */
    method TakeButton(sink: Sink, emit: bool, button: uint8, down: bool)
      requires button < buttonState.Length
      modifies buttonState, sink
      ensures var step := SeeButton(TablesOf(), old(StateOf()), button, down);
              && StateOf() == step.state
              && sink.calls == old(sink.calls) + (if emit then step.calls else [])
    {
      if emit {
        EmitButtonIfChanged(sink, button, down);
      } else {
        buttonState[button] := down;
        assert buttonState[..] == old(buttonState[..])[button := down];
        assert buttonState[..] == SeeButton(TablesOf(), old(StateOf()), button, down).state.down;
      }
    }

    method ReconcileAxes(sink: Sink, emit: bool, state: seq<uint8>, ghost n: Machine)
      requires Fits(TablesOf(), n)
      requires |state| >= |n.axes| * 4 && forall i | 0 <= i < |n.axes| :: RawAt(state, i) == n.axes[i]
      modifies this`axes, sink
      ensures TablesOf() == old(TablesOf())
      ensures var fold := SeeAxes(old(TablesOf()), old(StateOf()), n, |n.axes|);
              StateOf() == fold.state
              && sink.calls == old(sink.calls) + (if emit then fold.calls else AxisSyncs(TablesOf(), n, |n.axes|))
    {
      ghost var tb, s, base := TablesOf(), StateOf(), sink.calls;
      ghost var heard: seq<SinkCall> := [];
      assert base + heard == base;
      ghost var fold := SeeAxes(tb, s, n, 0);
      for index := 0 to |axes|
        invariant TablesOf() == tb
        invariant fold == SeeAxes(tb, s, n, index) && StateOf() == fold.state
        invariant heard == if emit then fold.calls else AxisSyncs(tb, n, index)
        invariant sink.calls == base + heard
      {
        var raw := RawAt(state, index);
        ghost var step := SeeAxis(tb, fold.state, index, n.axes[index]);
        ghost var more := if emit then step.calls else [SyncAxis(AxisSample(tb, index, raw))];
        SeeAxesStep(tb, s, n, index);
        Associative(base, heard, more);
        TakeAxis(sink, emit, index, raw);
        fold, heard := Step(step.state, fold.calls + step.calls), heard + more;
      }
    }

    method ReconcileButtons(sink: Sink, emit: bool, values: seq<uint8>, ghost n: Machine)
      requires InRange(buttons, buttonState.Length) && |buttons| == |n.buttons|
      requires values == n.buttons
      modifies buttonState, sink
      ensures var fold := SeeButtons(TablesOf(), old(StateOf()), n, |n.buttons|);
              StateOf() == fold.state && sink.calls == old(sink.calls) + (if emit then fold.calls else [])
    {
      ghost var tb, s, base := TablesOf(), StateOf(), sink.calls;
      ghost var heard: seq<SinkCall> := [];
      assert base + heard == base;
      ghost var fold := SeeButtons(tb, s, n, 0);
      for offset := 0 to |values|
        invariant fold == SeeButtons(tb, s, n, offset) && StateOf() == fold.state
        invariant heard == if emit then fold.calls else []
        invariant sink.calls == base + heard
      {
        var button, value := buttons[offset], values[offset];
        ghost var step := SeeButton(tb, fold.state, button, HighBit(value));
        SeeButtonsStep(tb, s, n, offset);
        Associative(base, heard, if emit then step.calls else []);
        TakeButton(sink, emit, button, HighBit(value));
        fold := Step(step.state, fold.calls + step.calls);
        heard := if emit then heard + step.calls else heard;
      }
    }

    /** Its two loops, over the bytes that were read. */
    method TakeOver(sink: Sink, emit: bool, state: seq<uint8>, ghost n: Machine)
      requires Valid() && WellFormed(TablesOf()) && Shaped(TablesOf(), StateOf()) && Fits(TablesOf(), n)
      requires state == StateBytes(n.axes, n.buttons)
      modifies this`axes, buttonState, sink
      ensures var r := Reconciled(old(TablesOf()), old(StateOf()), n, emit);
              StateOf() == r.state && sink.calls == old(sink.calls) + r.calls
      ensures TablesOf() == old(TablesOf())
    {
      ghost var tb, s, base := TablesOf(), StateOf(), sink.calls;
      ReadBack(n.axes, n.buttons);
      ReconcileAxes(sink, emit, state, n);
      ReconcileButtons(sink, emit, state[|axes| * 4..], n);
      ReconciledInTwoParts(tb, s, n, emit);
      ghost var first := SeeAxes(tb, s, n, |n.axes|);
      Associative(base, first.calls, SeeButtons(tb, first.state, n, |n.buttons|).calls);
    }

    method Reconcile(sink: Sink, emit: bool) returns (ok: bool)
      requires Valid() && Sound(View()) && device != null
      modifies this`axes, buttonState, device, sink
      ensures var r := DeviceSpec.Reconcile(old(TablesOf()), old(StateOf()), old(device.machine), emit);
              ok == r.ok && StateOf() == r.state && device.machine == r.machine
              && sink.calls == old(sink.calls) + r.calls
      ensures TablesOf() == old(TablesOf()) && Valid()
    {
      ghost var tb, s, m := TablesOf(), StateOf(), device.machine;
      TurnKeepsShape(m);
      var state := new uint8[dataSize];
      ok := device.GetDeviceState(state);
      if !ok {
        return;
      }
      ghost var n := device.machine;
      TakeOver(sink, emit, state[..], n);
    }

    method DrainDeviceData()
      requires device != null
      modifies device
      ensures device == old(device) && device.machine == Discard(old(device.machine))
    {
      var records := new Record[BATCH];
      while true
        invariant device == old(device) && Discard(device.machine) == Discard(old(device.machine))
        decreases |device.machine.plan|, |device.machine.queue|
      {
        TurnKeepsShape(device.machine);
        var result, count := device.GetDeviceData(records);
        if result.DataFailed? || count < BATCH {
          return;
        }
      }
    }

    method AcquireAndReconcile(sink: Sink, emit: bool) returns (ok: bool)
      requires Valid() && Sound(View()) && device != null
      modifies this`axes, buttonState, device, sink
      ensures var r := DeviceSpec.AcquireAndReconcile(old(TablesOf()), old(StateOf()), old(device.machine), emit);
              ok == r.ok && StateOf() == r.state && device.machine == r.machine
              && sink.calls == old(sink.calls) + r.calls
      ensures TablesOf() == old(TablesOf()) && Valid()
    {
      TurnKeepsShape(device.machine);
      assert sink.calls + [] == sink.calls;
      ok := device.Acquire();
      if !ok {
        return;
      }
      TurnKeepsShape(device.machine);
      ok := device.Poll();
      if !ok {
        return;
      }
      ok := Reconcile(sink, emit);
      if !ok {
        return;
      }
      DrainDeviceData();
    }

    /** The inner loop of poll. */
    method ReadRecords(sink: Sink, records: array<Record>, count: nat)
      requires buttonState.Length == MAX_BUTTONS && WellFormed(TablesOf()) && count <= records.Length
      modifies this`axes, buttonState, sink
      ensures var r := SeeRecords(old(TablesOf()), old(StateOf()), records[..count]);
              StateOf() == r.state && sink.calls == old(sink.calls) + r.calls
      ensures TablesOf() == old(TablesOf())
    {
      ghost var tb, s, base := TablesOf(), StateOf(), sink.calls;
      ghost var heard: seq<SinkCall> := [];
      assert base + heard == base;
      for i := 0 to count
        invariant TablesOf() == tb
        invariant StateOf() == SeeRecords(tb, s, records[..i]).state && heard == SeeRecords(tb, s, records[..i]).calls
        invariant sink.calls == base + heard
      {
        assert records[..i + 1] == records[..i] + [records[i]];
        SeeLast(tb, s, records[..i], records[i]);
        ghost var step := SeeRecord(tb, StateOf(), records[i]);
        Associative(base, heard, step.calls);
        ReadRecord(sink, records[i]);
        heard := heard + step.calls;
      }
    }

    method Poll(sink: Sink)
      requires Valid() && Sound(View())
      modifies this`axes, buttonState, device, sink
      ensures var r := PollDevice(old(View()));
              View() == r.device && sink.calls == old(sink.calls) + r.calls
      ensures Valid() && device == old(device)
    {
      assert sink.calls + [] == sink.calls;
      if device == null || dataSize == 0 {
        return;
      }
      TurnKeepsShape(device.machine);
      var ok := device.Poll();
      if !ok {
        ok := AcquireAndReconcile(sink, true);
        return;
      }
      PollRecords(sink);
    }

    /** One pass of the outer loop of poll. */
    method PollBatch(sink: Sink, records: array<Record>) returns (result: DataResult, count: nat)
      requires Valid() && Sound(View()) && device != null && records.Length == BATCH && records != buttonState as object
      modifies this`axes, buttonState, device, records, sink
      ensures TablesOf() == old(TablesOf()) && Valid() && device == old(device)
      ensures result.DataFailed? <==> !Ok(old(device.machine))
      ensures result.DataFailed? ==>
        StateOf() == old(StateOf()) && device.machine == Turn(old(device.machine)) && sink.calls == old(sink.calls)
      ensures !result.DataFailed? ==>
        var n := Turn(old(device.machine));
        var step := SeeRecords(TablesOf(), old(StateOf()), Batch(n));
        && (result.DataOverflow? <==> n.overflowed) && count == |Batch(n)|
        && StateOf() == step.state && device.machine == Popped(n) && sink.calls == old(sink.calls) + step.calls
    {
      TurnKeepsShape(device.machine);
      result, count := device.GetDeviceData(records);
      if !result.DataFailed? {
        ReadRecords(sink, records, count);
      }
    }

    /** The outer loop of poll: full batches until a short one, a failure or an overflow. */
    method PollRecords(sink: Sink)
      requires Valid() && Sound(View()) && device != null
      modifies this`axes, buttonState, device, sink
      ensures var r := PollLoop(old(TablesOf()), old(StateOf()), old(device.machine));
              StateOf() == r.state && device.machine == r.machine && sink.calls == old(sink.calls) + r.calls
      ensures TablesOf() == old(TablesOf()) && Valid() && device == old(device)
    {
      ghost var tb, base := TablesOf(), sink.calls;
      ghost var rest := PollLoop(tb, StateOf(), device.machine);
      ghost var whole, heard := rest, [];
      assert base + heard == base && heard + whole.calls == whole.calls;
      var records := new Record[BATCH];
      while true
        invariant TablesOf() == tb && Valid() && Sound(View()) && device == old(device)
        invariant sink.calls == base + heard
        invariant rest == PollLoop(tb, StateOf(), device.machine)
        invariant whole.state == rest.state && whole.machine == rest.machine && whole.calls == heard + rest.calls
        decreases |device.machine.plan|, |device.machine.queue|
      {
        ghost var s, m := StateOf(), device.machine;
        TurnKeepsShape(m);
        var result, count := PollBatch(sink, records);
        if result.DataFailed? {
          Associative(base, heard, rest.calls);
          var ok := AcquireAndReconcile(sink, true);
          return;
        }
        ghost var step := SeeRecords(tb, s, Batch(Turn(m)));
        if result.DataOverflow? {
          Associative(base, heard, rest.calls);
          Associative(base + heard, step.calls, DeviceSpec.Reconcile(tb, step.state, device.machine, true).calls);
          var ok := Reconcile(sink, true);
          return;
        }
        Associative(base, heard, step.calls);
        if count < BATCH {
          return;
        }
        ghost var next := PollLoop(tb, step.state, device.machine);
        Associative(heard, step.calls, next.calls);
        rest, heard := next, heard + step.calls;
      }
    }

    /** release, with the synthetic releases. */
    method Release(sink: Sink)
      requires Valid() && Sound(View())
      modifies this`device, this`initialized, buttonState, sink
      ensures sink.calls == old(sink.calls) + ReleaseCalls(old(View()))
      ensures TablesOf() == old(TablesOf())
      ensures StateOf() == LetGo(old(TablesOf()), old(StateOf()), MAX_BUTTONS).state
      ensures device == null && !initialized
    {
      ghost var tb, s, base := TablesOf(), StateOf(), sink.calls;
      assert base + [] == base;
      for button := 0 to MAX_BUTTONS
        invariant StateOf().axes == s.axes
        invariant forall b | 0 <= b < MAX_BUTTONS :: buttonState[b] == (b >= button && s.down[b])
        invariant sink.calls == base + Releases(tb, s, button)
      {
        if buttonState[button] {
          Associative(base, Releases(tb, s, button), [Edge(tb, button, false)]);
          EmitButtonIfChanged(sink, button, false);
        }
      }
      device := null;
      initialized := false;
    }

    /** The enumerations at the head of initializeDevice. */
    method ReadTables(opening: Opening) returns (complete: bool)
      requires Valid() && Sound(View()) && !initialized
      modifies this`buttons, this`axes
      ensures complete <==> opening.created && opening.buttons.Some? && opening.axes.Some?
      ensures View() == WithTables(old(View()), opening) && Valid()
    {
      if !opening.created || opening.buttons.None? {
        return false;
      }
      buttons := BuildButtonTable(opening.buttons.value);
      if opening.axes.None? {
        return false;
      }
      var found := BuildAxisTable(opening.axes.value);
      axes := seq(|found|, i requires 0 <= i < |found| =>
        RuntimeAxis(found[i].instance, found[i].name, found[i].guid, 0, false));
      assert AxisInfos(axes) == found && KnownValues(axes) == Unknown(|axes|);
      return true;
    }

    method Configure(opening: Opening, sink: Sink) returns (ok: bool)
      requires Valid() && Sound(View()) && !initialized
      modifies this, buttonState, sink
      ensures var r := RuntimeSpec.Configure(old(View()), opening);
              ok == r.ok && View() == r.device && sink.calls == old(sink.calls) + r.calls
      ensures Valid() && (device != null ==> fresh(device))
    {
      assert sink.calls + [] == sink.calls;
      if buttons == [] && axes == [] {
        device := null;
        initialized := true;
        RefreshInfo();
        return true;
      }
      if !opening.formatted {
        dataSize := 0;
        return false;
      }
      var formats, size := SetInputDataFormat(AxisInfos(axes), buttons);
      dataSize := size;
      if !opening.configured {
        return false;
      }
      StartTracking(StartingMachine(opening, |axes|, |buttons|), sink);
      return true;
    }

    /** The end of initializeDevice. */
    method StartTracking(machine: Machine, sink: Sink)
      requires Valid() && Sound(View()) && !initialized && Fits(TablesOf(), machine)
      requires dataSize == |axes| * 4 + |buttons|
      modifies this, buttonState, sink
      ensures var ready := Refreshed(old(View()).(initialized := true));
              var run := DeviceSpec.BringUp(ready.tables, ready.state, machine);
              && View() == ready.(state := run.state, machine := Some(run.machine))
              && sink.calls == old(sink.calls) + run.calls
      ensures Valid() && device != null && fresh(device)
    {
      Adopt(machine);
      BringUp(sink);
    }

    /** The configured COM object becomes the device's. */
    method Adopt(machine: Machine)
      modifies this`device, this`initialized, this`info
      ensures device != null && fresh(device)
      ensures View() == Refreshed(old(View()).(initialized := true, machine := Some(machine)))
    {
      device := new InputDevice(machine);
      initialized := true;
      RefreshInfo();
    }

    method Initialize(opening: Opening, sink: Sink) returns (ok: bool)
      requires Valid() && Sound(View()) && !initialized
      modifies this, buttonState, sink
      ensures var r := RuntimeSpec.Initialize(old(View()), opening);
              ok == r.ok && View() == r.device && sink.calls == old(sink.calls) + r.calls
      ensures Valid() && (device != null ==> fresh(device))
    {
      assert sink.calls + [] == sink.calls;
      ok := ReadTables(opening);
      if ok {
        ok := Configure(opening, sink);
      }
    }

    /** The end of initializeDevice: errors leave the device configured. */
    method BringUp(sink: Sink)
      requires Valid() && Sound(View()) && device != null
      modifies this`axes, buttonState, device, sink
      ensures var r := DeviceSpec.BringUp(old(TablesOf()), old(StateOf()), old(device.machine));
              StateOf() == r.state && device.machine == r.machine && sink.calls == old(sink.calls) + r.calls
      ensures TablesOf() == old(TablesOf()) && Valid()
    {
      ghost var tb, base := TablesOf(), sink.calls;
      ghost var first := DeviceSpec.AcquireAndReconcile(tb, StateOf(), device.machine, false);
      var ok := AcquireAndReconcile(sink, false);
      if !ok {
        return;
      }
      ghost var run := first;
      for round := 0 to 2
        invariant TablesOf() == tb && Valid() && Sound(View()) && run.ok
        invariant StateOf() == run.state && device.machine == run.machine && sink.calls == base + run.calls
        invariant run == (if round == 0 then first
                          else if round == 1 then After(first, DeviceSpec.Stabilize(tb, first.state, first.machine))
                          else DeviceSpec.BringUp(tb, old(StateOf()), old(device.machine)))
      {
        ghost var more := DeviceSpec.Stabilize(tb, run.state, run.machine);
        Associative(base, run.calls, more.calls);
        ok := Stabilize(sink);
        run := After(run, more);
        if !ok {
          return;
        }
      }
    }

    /** One pass of its loop. */
    method Stabilize(sink: Sink) returns (ok: bool)
      requires Valid() && Sound(View()) && device != null
      modifies this`axes, buttonState, device, sink
      ensures var r := DeviceSpec.Stabilize(old(TablesOf()), old(StateOf()), old(device.machine));
              ok == r.ok && StateOf() == r.state && device.machine == r.machine
              && sink.calls == old(sink.calls) + r.calls
      ensures TablesOf() == old(TablesOf()) && Valid()
    {
      TurnKeepsShape(device.machine);
      assert sink.calls + [] == sink.calls;
      ok := device.Poll();
      if !ok {
        return;
      }
      ok := Reconcile(sink, false);
      if !ok {
        return;
      }
      DrainDeviceData();
    }
  }

  predicate InRange(buttons: seq<uint8>, n: nat) {
    forall j | 0 <= j < |buttons| :: buttons[j] < n
  }

  /** The first loop of reconcile over the first n axes. */
  ghost function SeeAxes(tb: Tables, s: Tracked, m: Machine, n: nat): (r: Step)
    requires |s.axes| == |tb.axes| == |m.axes| && n <= |m.axes|
    ensures |r.state.axes| == |s.axes| && r.state.down == s.down
  {
    if n == 0 then Step(s, [])
    else
      var front := SeeAxes(tb, s, m, n - 1);
      var last := SeeAxis(tb, front.state, n - 1, m.axes[n - 1]);
      Step(last.state, front.calls + last.calls)
  }

  /** The second loop over the first n buttons. */
  ghost function SeeButtons(tb: Tables, s: Tracked, m: Machine, n: nat): (r: Step)
    requires InRange(tb.buttons, |s.down|) && |tb.buttons| == |m.buttons| && n <= |m.buttons|
    ensures |r.state.down| == |s.down| && r.state.axes == s.axes
  {
    if n == 0 then Step(s, [])
    else
      var front := SeeButtons(tb, s, m, n - 1);
      var last := SeeButton(tb, front.state, tb.buttons[n - 1], HighBit(m.buttons[n - 1]));
      Step(last.state, front.calls + last.calls)
  }

  lemma SeeAxesStep(tb: Tables, s: Tracked, m: Machine, i: nat)
    requires |s.axes| == |tb.axes| == |m.axes| && i < |m.axes|
    ensures var front := SeeAxes(tb, s, m, i);
            var step := SeeAxis(tb, front.state, i, m.axes[i]);
            SeeAxes(tb, s, m, i + 1) == Step(step.state, front.calls + step.calls)
  {
  }

  lemma SeeButtonsStep(tb: Tables, s: Tracked, m: Machine, j: nat)
    requires InRange(tb.buttons, |s.down|) && |tb.buttons| == |m.buttons| && j < |m.buttons|
    ensures var front := SeeButtons(tb, s, m, j);
            var step := SeeButton(tb, front.state, tb.buttons[j], HighBit(m.buttons[j]));
            SeeButtons(tb, s, m, j + 1) == Step(step.state, front.calls + step.calls)
  {
  }

  /** The record is one of axis i, or of button j, as the snapshot has it. */
  predicate OfAxisIn(tb: Tables, m: Machine, record: Record, i: nat) {
    i < |m.axes| && Decode(tb, record) == AxisItem(i) && record.data == m.axes[i]
  }

  predicate OfButtonIn(tb: Tables, m: Machine, record: Record, j: nat) {
    j < |m.buttons| && Decode(tb, record) == ButtonItem(j) && record.data == m.buttons[j]
  }

  lemma SeeOneAxis(tb: Tables, s: Tracked, m: Machine, record: Record, i: nat)
    requires WellFormed(tb) && Shaped(tb, s) && Fits(tb, m) && OfAxisIn(tb, m, record, i)
    ensures SeeRecord(tb, s, record) == SeeAxis(tb, s, i, m.axes[i])
  {
  }

  lemma SeeOneButton(tb: Tables, s: Tracked, m: Machine, record: Record, j: nat)
    requires WellFormed(tb) && Shaped(tb, s) && Fits(tb, m) && OfButtonIn(tb, m, record, j)
    ensures SeeRecord(tb, s, record) == SeeButton(tb, s, tb.buttons[j], HighBit(m.buttons[j]))
  {
  }

  lemma {:induction false} SeeSnapshotAxes(tb: Tables, s: Tracked, m: Machine, records: seq<Record>)
    requires WellFormed(tb) && Shaped(tb, s) && Fits(tb, m) && |records| <= |m.axes|
    requires forall i | 0 <= i < |records| :: OfAxisIn(tb, m, records[i], i)
    ensures SeeRecords(tb, s, records) == SeeAxes(tb, s, m, |records|)
  {
    if records == [] {
    } else {
      var i := |records| - 1;
      SeeSnapshotAxes(tb, s, m, records[..i]);
      SeeOneAxis(tb, SeeRecords(tb, s, records[..i]).state, m, records[i], i);
    }
  }

  lemma {:induction false} SeeSnapshotButtons(tb: Tables, s: Tracked, m: Machine, records: seq<Record>)
    requires WellFormed(tb) && Shaped(tb, s) && Fits(tb, m) && |records| <= |m.buttons|
    requires forall j | 0 <= j < |records| :: OfButtonIn(tb, m, records[j], j)
    ensures SeeRecords(tb, s, records) == SeeButtons(tb, s, m, |records|)
  {
    if records == [] {
    } else {
      var j := |records| - 1;
      SeeSnapshotButtons(tb, s, m, records[..j]);
      SeeOneButton(tb, SeeRecords(tb, s, records[..j]).state, m, records[j], j);
    }
  }

  lemma AxesPart(tb: Tables, s: Tracked, m: Machine)
    requires WellFormed(tb) && Shaped(tb, s) && Fits(tb, m)
    ensures SeeRecords(tb, s, Snapshot(m)[..|m.axes|]) == SeeAxes(tb, s, m, |m.axes|)
  {
    var records := Snapshot(m)[..|m.axes|];
    forall i | 0 <= i < |records| ensures OfAxisIn(tb, m, records[i], i) {
      SnapshotDecodes(tb, m, i);
    }
    SeeSnapshotAxes(tb, s, m, records);
  }

  lemma SnapshotButton(tb: Tables, m: Machine, j: nat)
    requires WellFormed(tb) && Fits(tb, m) && j < |Snapshot(m)[|m.axes|..]|
    ensures OfButtonIn(tb, m, Snapshot(m)[|m.axes|..][j], j)
  {
    var k := |m.axes| + j;
    assert Snapshot(m)[|m.axes|..][j] == Snapshot(m)[k];
    SnapshotDecodes(tb, m, k);
  }

  lemma ButtonsPart(tb: Tables, s: Tracked, m: Machine)
    requires WellFormed(tb) && Shaped(tb, s) && Fits(tb, m)
    ensures SeeRecords(tb, s, Snapshot(m)[|m.axes|..]) == SeeButtons(tb, s, m, |m.buttons|)
  {
    var records := Snapshot(m)[|m.axes|..];
    forall j | 0 <= j < |records| ensures OfButtonIn(tb, m, records[j], j) {
      SnapshotButton(tb, m, j);
    }
    SeeSnapshotButtons(tb, s, m, records);
  }

  lemma SeeSplit(tb: Tables, s: Tracked, records: seq<Record>, a: seq<Record>, b: seq<Record>)
    requires WellFormed(tb) && Shaped(tb, s) && records == a + b
    ensures var first := SeeRecords(tb, s, a);
            var second := SeeRecords(tb, first.state, b);
            SeeRecords(tb, s, records) == Step(second.state, first.calls + second.calls)
  {
    SeeConcat(tb, s, a, b);
  }

  lemma TakeDrop<T>(s: seq<T>, n: nat)
    requires n <= |s|
    ensures s == s[..n] + s[n..]
  {
  }

  lemma SnapshotSplits(tb: Tables, s: Tracked, m: Machine)
    requires WellFormed(tb) && Shaped(tb, s) && Fits(tb, m)
    ensures var first := SeeRecords(tb, s, Snapshot(m)[..|m.axes|]);
            var second := SeeRecords(tb, first.state, Snapshot(m)[|m.axes|..]);
            SeeRecords(tb, s, Snapshot(m)) == Step(second.state, first.calls + second.calls)
  {
    TakeDrop(Snapshot(m), |m.axes|);
    SeeSplit(tb, s, Snapshot(m), Snapshot(m)[..|m.axes|], Snapshot(m)[|m.axes|..]);
  }

  /** The two loops together read the whole snapshot. */
  lemma SnapshotInTwoParts(tb: Tables, s: Tracked, m: Machine)
    requires WellFormed(tb) && Shaped(tb, s) && Fits(tb, m)
    ensures var first := SeeAxes(tb, s, m, |m.axes|);
            var second := SeeButtons(tb, first.state, m, |m.buttons|);
            SeeRecords(tb, s, Snapshot(m)) == Step(second.state, first.calls + second.calls)
  {
    SnapshotSplits(tb, s, m);
    AxesPart(tb, s, m);
    ButtonsPart(tb, SeeAxes(tb, s, m, |m.axes|).state, m);
  }

  lemma ReconciledInTwoParts(tb: Tables, s: Tracked, m: Machine, emit: bool)
    requires WellFormed(tb) && Shaped(tb, s) && Fits(tb, m)
    ensures var first := SeeAxes(tb, s, m, |m.axes|);
            var second := SeeButtons(tb, first.state, m, |m.buttons|);
            Reconciled(tb, s, m, emit)
              == Step(second.state, if emit then first.calls + second.calls else AxisSyncs(tb, m, |m.axes|))
  {
    SnapshotInTwoParts(tb, s, m);
  }
}
