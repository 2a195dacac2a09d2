/** The device table of directInputRuntime as a value, and what opening, polling, scanning and
    releasing do to it. */
module RuntimeSpec {
  import opened ControllerTypes
  import opened Hardware
  import opened DeviceSpec
  import opened InputTables
  import opened Sorting

  /** A GUID in registry format: never empty. */
  type Guid = s: string | s != "" witness "{}"

  datatype Descriptor = Descriptor(guid: Guid, productGuid: string, instanceName: string, productName: string)

  /** What DirectInput answers while one device is being opened.  `formatted` is the answer to
      SetDataFormat, `configured` to the range, buffer and cooperative-level calls together;
      the device then starts with the values in `raws` and `bytes` and behaves by `plan`. */
  datatype Opening = Opening(
    created: bool, buttons: Option<seq<uint32>>, axes: Option<seq<AxisObject>>,
    formatted: bool, configured: bool, raws: seq<uint32>, bytes: seq<uint8>, plan: seq<Outcome>)

  /** A descriptor as enumerated, with the answers its opening would get. */
  datatype Found = Found(descriptor: Descriptor, opening: Opening)

  /** runtimeDevice */
  datatype Device = Device(
    descriptor: Descriptor, tables: Tables, initialized: bool, machine: Option<Machine>,
    state: Tracked, dataSize: nat)

  type Devices = map<string, Device>

  function NoInfo(): DeviceInfo {
    DeviceInfo("", "", "", "", 0, 0)
  }

  function AllUp(): seq<bool> {
    seq(MAX_BUTTONS, _ => false)
  }

  function Unknown(axes: nat): seq<Option<uint32>> {
    seq(axes, _ => None)
  }

  function Fresh(descriptor: Descriptor): Device {
    Device(descriptor, Tables(NoInfo(), [], []), false, None, Tracked(AllUp(), []), 0)
  }

  /** refreshInfo */
  function InfoOf(descriptor: Descriptor, buttons: nat, axes: nat): DeviceInfo {
    DeviceInfo(descriptor.guid, descriptor.productGuid, descriptor.instanceName, descriptor.productName, buttons, axes)
  }

  function Refreshed(d: Device): Device {
    d.(tables := d.tables.(info := InfoOf(d.descriptor, |d.tables.buttons|, |d.tables.axes|)))
  }

  /** Whether a device of the table is opened or not, its parts fit together. */
  predicate Sound(d: Device) {
    && WellFormed(d.tables) && Shaped(d.tables, d.state)
    && (d.machine.Some? ==>
          && d.initialized && Fits(d.tables, d.machine.value)
          && d.tables.info.instanceGuid == d.descriptor.guid
          && d.dataSize == |d.tables.axes| * 4 + |d.tables.buttons|)
    && (d.machine.None? ==> d.state == Tracked(AllUp(), Unknown(|d.tables.axes|)))
  }

  function StartingMachine(opening: Opening, axes: nat, buttons: nat): Machine {
    Machine(
      seq(axes, i requires 0 <= i < axes => if i < |opening.raws| then opening.raws[i] else 0),
      seq(buttons, j requires 0 <= j < buttons => if j < |opening.bytes| then opening.bytes[j] else 0),
      [], false, opening.plan)
  }

  datatype Opened = Opened(ok: bool, device: Device, calls: seq<SinkCall>)

  /** The input tables, as far as the enumerations at the head of initializeDevice succeed. */
  function WithTables(d: Device, opening: Opening): (r: Device)
    requires Sound(d) && d.machine.None?
    ensures Sound(r) && r.machine.None? && r.descriptor == d.descriptor
  {
    if !opening.created || opening.buttons.None? then d
    else
      var withButtons := d.(tables := d.tables.(buttons := ButtonTable(opening.buttons.value)));
      if opening.axes.None? then withButtons
      else
        var axes := AxisTable(opening.axes.value);
        withButtons.(tables := withButtons.tables.(axes := axes), state := Tracked(d.state.down, Unknown(|axes|)))
  }

  /** The rest of initializeDevice, once there are tables. */
  function Configure(listed: Device, opening: Opening): (r: Opened)
    requires Sound(listed) && listed.machine.None?
    ensures Sound(r.device) && r.device.descriptor == listed.descriptor
  {
    var buttons, axes := |listed.tables.buttons|, |listed.tables.axes|;
    if buttons == 0 && axes == 0 then Opened(true, Refreshed(listed.(initialized := true)), [])
    else if !opening.formatted then Opened(false, listed.(dataSize := 0), [])
    else
      var sized := listed.(dataSize := axes * 4 + buttons);
      if !opening.configured then Opened(false, sized, [])
      else
        var ready := Refreshed(sized.(initialized := true));
        var run := BringUp(ready.tables, ready.state, StartingMachine(opening, axes, buttons));
        Opened(true, ready.(state := run.state, machine := Some(run.machine)), run.calls)
  }

  /** initializeDevice */
  function Initialize(d: Device, opening: Opening): (r: Opened)
    requires Sound(d) && d.machine.None?
    ensures Sound(r.device) && r.device.descriptor == d.descriptor
  {
    var listed := WithTables(d, opening);
    if !opening.created || opening.buttons.None? || opening.axes.None? then Opened(false, listed, [])
    else Configure(listed, opening)
  }

  datatype Acted = Acted(device: Device, calls: seq<SinkCall>)

  /** runtimeDevice.poll */
  function PollDevice(d: Device): (r: Acted)
    requires Sound(d)
    ensures Sound(r.device) && r.device.descriptor == d.descriptor && r.device.tables == d.tables
  {
    if d.machine.None? || d.dataSize == 0 then Acted(d, [])
    else
      var run := Poll(d.tables, d.state, d.machine.value);
      Acted(d.(state := run.state, machine := Some(run.machine)), run.calls)
  }

  /** runtimeDevice.release(sink, true); the device is dropped right afterwards. */
  function ReleaseCalls(d: Device): seq<SinkCall>
    requires Sound(d)
  {
    Releases(d.tables, d.state, MAX_BUTTONS)
  }

  // ---- The whole table ----

  datatype Change = Change(devices: Devices, calls: seq<SinkCall>)

  predicate AllSound(devices: Devices) {
    forall id | id in devices :: Sound(devices[id]) && devices[id].descriptor.guid == id
  }

  function OpenFailure(descriptor: Descriptor): SinkCall {
    Report("controller: open " + (if descriptor.productName != "" then descriptor.productName else descriptor.guid))
  }

  /** The table's device for a descriptor, or a new one. */
  function Known(devices: Devices, descriptor: Descriptor): (d: Device)
    requires AllSound(devices)
    ensures Sound(d) && d.descriptor == descriptor && (!d.initialized ==> d.machine.None?)
  {
    if descriptor.guid in devices then devices[descriptor.guid].(descriptor := descriptor) else Fresh(descriptor)
  }

  /** One pass of the first loop of syncDevices. */
  function Admit(devices: Devices, found: Found): (r: Change)
    requires AllSound(devices)
    ensures AllSound(r.devices) && r.devices.Keys == devices.Keys + {found.descriptor.guid}
  {
    var id := found.descriptor.guid;
    var known := Known(devices, found.descriptor);
    if known.initialized then Change(devices[id := known], [])
    else
      var attempt := Initialize(known, found.opening);
      Change(devices[id := attempt.device],
             if attempt.ok then attempt.calls else attempt.calls + [OpenFailure(found.descriptor)])
  }

  function AdmitAll(devices: Devices, found: seq<Found>): (r: Change)
    requires AllSound(devices)
    ensures AllSound(r.devices) && r.devices.Keys == devices.Keys + Seen(found)
  {
    if found == [] then Change(devices, [])
    else
      var front := AdmitAll(devices, found[..|found| - 1]);
      var last := Admit(front.devices, found[|found| - 1]);
      Change(last.devices, front.calls + last.calls)
  }

  predicate Distinct(order: seq<string>) {
    forall i, j | 0 <= i < j < |order| :: order[i] != order[j]
  }

  /** A way Go may walk the map: every key once. */
  ghost predicate Walks(order: seq<string>, keys: set<string>) {
    Distinct(order) && forall id :: id in order <==> id in keys
  }

  function DropCalls(devices: Devices, order: seq<string>): seq<SinkCall>
    requires AllSound(devices) && forall k | 0 <= k < |order| :: order[k] in devices
  {
    if order == [] then []
    else DropCalls(devices, order[..|order| - 1]) + ReleaseCalls(devices[order[|order| - 1]])
  }

  /** The devices in `order` are released and deleted. */
  function Drop(devices: Devices, order: seq<string>): (r: Change)
    requires AllSound(devices) && forall k | 0 <= k < |order| :: order[k] in devices
    ensures AllSound(r.devices)
  {
    Change(devices - (set id | id in order), DropCalls(devices, order))
  }

  function RefreshAll(devices: Devices): (r: Devices)
    ensures r.Keys == devices.Keys
  {
    map id | id in devices :: Refreshed(devices[id])
  }

  lemma RefreshKeepsSound(devices: Devices)
    requires AllSound(devices)
    ensures AllSound(RefreshAll(devices))
  {
  }

  function Infos(devices: Devices, order: seq<string>): (infos: seq<DeviceInfo>)
    requires forall k | 0 <= k < |order| :: order[k] in devices
    ensures |infos| == |order|
  {
    seq(|order|, k requires 0 <= k < |order| => devices[order[k]].tables.info)
  }

  /** The order of sortDeviceInfos. */
  function InfoLess(): (DeviceInfo, DeviceInfo) -> bool {
    (a: DeviceInfo, b: DeviceInfo) =>
      if a.productName == b.productName then StringLess(a.instanceGuid, b.instanceGuid)
      else StringLess(a.productName, b.productName)
  }

  /** The `seen` set of syncDevices. */
  function Seen(found: seq<Found>): set<string> {
    if found == [] then {} else Seen(found[..|found| - 1]) + {found[|found| - 1].descriptor.guid}
  }

  function Unseen(devices: Devices, found: seq<Found>): set<string> {
    devices.Keys - Seen(found)
  }

  /** The table a successful scan leaves: what was enumerated, opened where possible. */
  function Attached(devices: Devices, found: seq<Found>): (r: Devices)
    requires AllSound(devices)
    ensures AllSound(r) && r.Keys == Seen(found)
  {
    var admitted := AdmitAll(devices, found).devices;
    RefreshKeepsSound(admitted - Unseen(admitted, found));
    RefreshAll(admitted - Unseen(admitted, found))
  }

  ghost predicate ScanOrders(devices: Devices, found: seq<Found>, dropped: seq<string>, listed: seq<string>)
    requires AllSound(devices)
  {
    Walks(dropped, Unseen(AdmitAll(devices, found).devices, found)) && Walks(listed, Seen(found))
  }

  lemma WalksIndex(order: seq<string>, keys: set<string>)
    requires Walks(order, keys)
    ensures forall k | 0 <= k < |order| :: order[k] in keys
  {
    forall k | 0 <= k < |order| ensures order[k] in keys {
      assert order[k] in order;
    }
  }

  /** syncDevices after a successful enumeration; `dropped` and `listed` are the orders in
      which Go happens to walk the map. */
  function Sync(devices: Devices, found: seq<Found>, dropped: seq<string>, listed: seq<string>): (r: Change)
    requires AllSound(devices) && ScanOrders(devices, found, dropped, listed)
    ensures AllSound(r.devices)
  {
    var admitted := AdmitAll(devices, found);
    var attached := Attached(devices, found);
    WalksIndex(dropped, Unseen(admitted.devices, found));
    WalksIndex(listed, attached.Keys);
    var infos := InsertionSort(InfoLess(), Infos(attached, listed));
    Change(attached, admitted.calls + DropCalls(admitted.devices, dropped) + [SetDevices(infos)])
  }

  function PollOne(devices: Devices, id: string): (r: Change)
    requires AllSound(devices) && id in devices
    ensures AllSound(r.devices) && r.devices.Keys == devices.Keys
  {
    var polled := PollDevice(devices[id]);
    Change(devices[id := polled.device], polled.calls)
  }

  /** poll over the devices in `order`. */
  function PollAll(devices: Devices, order: seq<string>): (r: Change)
    requires AllSound(devices) && forall k | 0 <= k < |order| :: order[k] in devices.Keys
    ensures AllSound(r.devices) && r.devices.Keys == devices.Keys
  {
    if order == [] then Change(devices, [])
    else
      var front := PollAll(devices, order[..|order| - 1]);
      var last := PollOne(front.devices, order[|order| - 1]);
      Change(last.devices, front.calls + last.calls)
  }

  /** releaseAll */
  function ReleaseAll(devices: Devices, order: seq<string>): (r: Change)
    requires AllSound(devices) && Walks(order, devices.Keys)
    ensures r.devices == map[]
  {
    assert forall k | 0 <= k < |order| :: order[k] in order;
    var kept := Drop(devices, order);
    Change(kept.devices, kept.calls + [SetDevices([])])
  }
}
