/** Whole runs of the DirectInput backend: any sequence of scans, polls and failures, with
    plugging, unplugging and the final release, over any hardware. */
module RuntimeTheorems {
  import opened ControllerTypes
  import opened Hardware
  import opened DeviceSpec
  import opened Traces
  import opened DeviceLife
  import opened Sorting
  import opened RuntimeSpec

  // ---- Runs ----

  /** One turn of the loop in run.  Map orders are those Go happens to choose; a scan without
      `found` is a failed enumeration. */
  datatype Op =
    | Scan(found: Option<seq<Found>>, dropped: seq<string>, listed: seq<string>)
    | Tick(order: seq<string>)

  ghost predicate Possible(devices: Devices, op: Op)
    requires AllSound(devices)
  {
    match op
    case Tick(order) => Walks(order, devices.Keys)
    case Scan(None, _, _) => true
    case Scan(Some(found), dropped, listed) => ScanOrders(devices, found, dropped, listed)
  }

  ghost function Perform(devices: Devices, op: Op): (r: Change)
    requires AllSound(devices) && Possible(devices, op)
    ensures AllSound(r.devices)
  {
    match op
    case Tick(order) =>
      assert forall k | 0 <= k < |order| :: order[k] in order;
      PollAll(devices, order)
    case Scan(None, _, _) => Change(devices, [Report("controller: enumeration failed")])
    case Scan(Some(found), dropped, listed) => Sync(devices, found, dropped, listed)
  }

  /** A run of the backend: the table and the trace each operation leaves. */
  ghost predicate Runs(ops: seq<Op>, states: seq<Change>) {
    && |states| == |ops| + 1
    && states[0] == Change(map[], [])
    && (forall k | 0 <= k < |states| :: AllSound(states[k].devices))
    && (forall k | 0 <= k < |ops| ::
          && Possible(states[k].devices, ops[k])
          && var step := Perform(states[k].devices, ops[k]);
             states[k + 1] == Change(step.devices, states[k].calls + step.calls))
  }

  // ---- Runs, step by step ----

  /** The state after one more operation. */
  ghost function Next(state: Change, op: Op): Change
    requires AllSound(state.devices) && Possible(state.devices, op)
  {
    var step := Perform(state.devices, op);
    Change(step.devices, state.calls + step.calls)
  }

  ghost predicate Steps(state: Change, op: Op, next: Change) {
    AllSound(state.devices) && Possible(state.devices, op) && next == Next(state, op)
  }

  lemma RunSteps(ops: seq<Op>, states: seq<Change>, k: nat)
    requires Runs(ops, states) && k < |ops|
    ensures Steps(states[k], ops[k], states[k + 1])
  {
  }

  lemma StepsRun(ops: seq<Op>, states: seq<Change>)
    requires |states| == |ops| + 1 && states[0] == Change(map[], []) && AllSound(states[|ops|].devices)
    requires forall k | 0 <= k < |ops| :: Steps(states[k], ops[k], states[k + 1])
    ensures Runs(ops, states)
  {
    forall k | 0 <= k < |states| ensures AllSound(states[k].devices) {
      if k < |ops| { assert Steps(states[k], ops[k], states[k + 1]); }
    }
    forall k | 0 <= k < |ops|
      ensures Possible(states[k].devices, ops[k])
      ensures states[k + 1]
           == Change(Perform(states[k].devices, ops[k]).devices,
                     states[k].calls + Perform(states[k].devices, ops[k]).calls)
    {
      assert Steps(states[k], ops[k], states[k + 1]);
    }
  }

  lemma RunsOn(ops: seq<Op>, states: seq<Change>, op: Op)
    requires Runs(ops, states) && Possible(states[|ops|].devices, op)
    ensures var next := Next(states[|ops|], op);
            AllSound(next.devices) && Runs(ops + [op], states + [next])
  {
    var more, reached := ops + [op], states + [Next(states[|ops|], op)];
    forall k | 0 <= k < |more| ensures Steps(reached[k], more[k], reached[k + 1]) {
      if k < |ops| { RunSteps(ops, states, k); }
    }
    StepsRun(more, reached);
  }

  // ---- Edges over the whole run ----

  ghost predicate NoDoublePress(edges: seq<bool>) {
    forall i | 0 < i < |edges| :: !(edges[i - 1] && edges[i])
  }

  /** A button whose last edge is Pressed belongs to an attached device that tracks it down. */
  ghost predicate EdgeSafe(devices: Devices, calls: seq<SinkCall>)
    requires AllSound(devices)
  {
    forall guid, b: nat | b < MAX_BUTTONS ::
      var edges := Edges(calls, guid, b);
      NoDoublePress(edges) && (LastOf(false, edges) ==> guid in devices && devices[guid].state.down[b])
  }

  lemma AlternationHasNoDoublePress(x: bool, f: seq<bool>)
    requires AlternatesFrom(x, f)
    ensures NoDoublePress(f) && (f != [] ==> f[0] != x)
  {
    AlternatesNeighbours(x, f);
  }

  lemma JoinEdges(e: seq<bool>, x: bool, f: seq<bool>)
    requires NoDoublePress(e) && (LastOf(false, e) ==> x) && AlternatesFrom(x, f)
    ensures NoDoublePress(e + f)
    ensures LastOf(false, e + f) ==> LastOf(x, f)
  {
    AlternationHasNoDoublePress(x, f);
    forall i | 0 < i < |e + f| ensures !((e + f)[i - 1] && (e + f)[i]) {
      if i > |e| { assert (e + f)[i - 1] == f[i - 1 - |e|] && (e + f)[i] == f[i - |e|]; }
    }
    assert f == [] ==> e + f == e;
  }

  /** A device's own run extends a safe trace. */
  lemma EdgeSafeStep(devices: Devices, calls: seq<SinkCall>, id: string, before: Tracked, own: seq<SinkCall>,
          after: Devices)
    requires AllSound(devices) && AllSound(after) && EdgeSafe(devices, calls) && Own(id, own)
    requires |before.down| == MAX_BUTTONS
    requires forall b: nat | b < MAX_BUTTONS :: LastOf(false, Edges(calls, id, b)) ==> before.down[b]
    requires forall b: nat | b < MAX_BUTTONS ::
               var edges := Edges(own, id, b);
               AlternatesFrom(before.down[b], edges)
               && (LastOf(before.down[b], edges) ==> id in after && after[id].state.down[b])
    requires forall guid | guid in devices && guid != id :: guid in after && after[guid].state == devices[guid].state
    ensures EdgeSafe(after, calls + own)
  {
    forall guid, b: nat | b < MAX_BUTTONS
      ensures var edges := Edges(calls + own, guid, b);
              NoDoublePress(edges) && (LastOf(false, edges) ==> guid in after && after[guid].state.down[b])
    {
      EdgesConcat(calls, own, guid, b);
      var e, f := Edges(calls, guid, b), Edges(own, guid, b);
      if guid == id {
        JoinEdges(e, before.down[b], f);
      } else {
        OtherEdges(id, own, guid, b);
        assert e + f == e;
      }
    }
  }

  /** Calls that are no edges, with the tracked states kept or grown, change nothing. */
  lemma EdgeSafeQuiet(devices: Devices, calls: seq<SinkCall>, more: seq<SinkCall>, after: Devices)
    requires AllSound(devices) && AllSound(after) && EdgeSafe(devices, calls)
    requires forall k | 0 <= k < |more| :: !more[k].EmitButton?
    requires forall guid, b: nat | guid in devices && b < MAX_BUTTONS && devices[guid].state.down[b] ::
               guid in after && after[guid].state.down[b]
    ensures EdgeSafe(after, calls + more)
  {
    forall guid, b: nat | b < MAX_BUTTONS
      ensures var edges := Edges(calls + more, guid, b);
              NoDoublePress(edges) && (LastOf(false, edges) ==> guid in after && after[guid].state.down[b])
    {
      EdgesConcat(calls, more, guid, b);
      NoEdgesUpTo(more, |more|, guid, b);
      assert Edges(calls, guid, b) + [] == Edges(calls, guid, b);
    }
  }

  // ---- The manager's table over the whole run ----

  /** What the table holds about one device. */
  ghost predicate Remembered(d: Device, table: map<AxisKey, real>)
    requires Sound(d)
  {
    if d.machine.Some? then Recalls(d.tables, d.state, table)
    else forall key | key in table :: key.device != d.descriptor.guid
  }

  /** Every device is remembered, and nothing else except leftovers of the named devices. */
  ghost predicate TableAgrees(devices: Devices, table: map<AxisKey, real>, leftovers: set<string>)
    requires AllSound(devices)
  {
    && (forall id | id in devices :: Remembered(devices[id], table))
    && (forall key | key in table :: key.device in devices || key.device in leftovers)
  }

  lemma RememberedFrame(d: Device, guid: string, before: map<AxisKey, real>, after: map<AxisKey, real>)
    requires Sound(d) && d.descriptor.guid != guid && OthersKept(guid, before, after) && Remembered(d, before)
    ensures Remembered(d, after)
  {
    if d.machine.Some? {
      forall key | key in after && key.device == d.tables.info.instanceGuid
        ensures exists i :: 0 <= i < |d.tables.axes| && key == Entry(d.tables, i)
      {
        assert key in before;
      }
    }
  }

  lemma TableStep(devices: Devices, table: map<AxisKey, real>, id: string, d: Device, after: map<AxisKey, real>,
          leftovers: set<string>)
    requires AllSound(devices) && Sound(d) && d.descriptor.guid == id && id !in leftovers
    requires TableAgrees(devices, table, leftovers) && OthersKept(id, table, after) && Remembered(d, after)
    ensures AllSound(devices[id := d]) && TableAgrees(devices[id := d], after, leftovers)
  {
    forall guid | guid in devices && guid != id ensures Remembered(devices[guid], after) {
      RememberedFrame(devices[guid], id, table, after);
    }
    forall key | key in after ensures key.device in devices[id := d] || key.device in leftovers {
      if key.device != id { assert key in table; }
    }
  }

  lemma {:induction false} NoSamplesNoChange(table: map<AxisKey, real>, calls: seq<SinkCall>)
    requires forall k | 0 <= k < |calls| :: calls[k].EmitButton? || calls[k].Report?
    ensures Cache(table, calls) == table
  {
    if calls == [] {
    } else {
      NoSamplesNoChange(table, calls[..|calls| - 1]);
    }
  }

  // ---- The operations keep both ----

  ghost predicate Inv(devices: Devices, calls: seq<SinkCall>, leftovers: set<string>)
    requires AllSound(devices)
  {
    EdgeSafe(devices, calls) && TableAgrees(devices, Cache(map[], calls), leftovers)
  }

  /** A report says nothing about buttons or axes. */
  lemma InvReport(devices: Devices, calls: seq<SinkCall>, leftovers: set<string>, error: string)
    requires AllSound(devices) && Inv(devices, calls, leftovers)
    ensures Inv(devices, calls + [Report(error)], leftovers)
  {
    EdgeSafeQuiet(devices, calls, [Report(error)], devices);
    CacheConcat(map[], calls, [Report(error)]);
    NoSamplesNoChange(Cache(map[], calls), [Report(error)]);
  }

  lemma InvPollOne(devices: Devices, calls: seq<SinkCall>, id: string)
    requires AllSound(devices) && Inv(devices, calls, {}) && id in devices
    ensures var r := PollOne(devices, id); Inv(r.devices, calls + r.calls, {})
  {
    var d := devices[id];
    var r := PollDevice(d);
    if d.machine.Some? && d.dataSize != 0 {
      var table := Cache(map[], calls);
      HeardPoll(d.tables, d.state, d.machine.value, table);
      EdgeSafeStep(devices, calls, id, d.state, r.calls, devices[id := r.device]);
      CacheConcat(map[], calls, r.calls);
      TableStep(devices, table, id, r.device, Cache(table, r.calls), {});
    } else {
      assert devices[id := d] == devices;
      assert calls + [] == calls;
    }
  }

  lemma {:induction false} InvPollAll(devices: Devices, calls: seq<SinkCall>, order: seq<string>)
    requires AllSound(devices) && Inv(devices, calls, {})
    requires forall k | 0 <= k < |order| :: order[k] in devices
    ensures var r := PollAll(devices, order); Inv(r.devices, calls + r.calls, {})
  {
    if order == [] {
      assert calls + [] == calls;
    } else {
      var front := PollAll(devices, order[..|order| - 1]);
      var id := order[|order| - 1];
      InvPollAll(devices, calls, order[..|order| - 1]);
      InvPollOne(front.devices, calls + front.calls, id);
      Associative(calls, front.calls, PollOne(front.devices, id).calls);
    }
  }

  // ---- Scanning ----

  /** An unopened device tracks nothing down, so no edge of its name is Pressed last. */
  lemma UnopenedIsUp(devices: Devices, calls: seq<SinkCall>, id: string)
    requires AllSound(devices) && Inv(devices, calls, {})
    requires id in devices ==> devices[id].machine.None?
    ensures forall b: nat | b < MAX_BUTTONS :: !LastOf(false, Edges(calls, id, b))
    ensures forall key | key in Cache(map[], calls) :: key.device != id
  {
  }

  /** A device not opened by Initialize is still remembered as nothing; one that is opened is
      remembered from the axis values it reported. */
  lemma InitializeRemembered(d: Device, opening: Opening, table: map<AxisKey, real>)
    requires Sound(d) && d.machine.None? && forall key | key in table :: key.device != d.descriptor.guid
    ensures var r := Initialize(d, opening);
            var after := Cache(table, r.calls);
            && Own(d.descriptor.guid, r.calls)
            && (forall k | 0 <= k < |r.calls| :: r.calls[k].SyncAxis?)
            && OthersKept(d.descriptor.guid, table, after) && Remembered(r.device, after)
  {
    var r := Initialize(d, opening);
    if r.device.machine.Some? {
      var tables := r.device.tables;
      var start := Tracked(AllUp(), Unknown(|tables.axes|));
      var machine := StartingMachine(opening, |tables.axes|, |tables.buttons|);
      SilentBringUp(tables, start, machine, table);
      assert r.calls == BringUp(tables, start, machine).calls;
      assert Recalls(tables, start, table);
    }
  }

  lemma InvOpen(devices: Devices, calls: seq<SinkCall>, known: Device, opening: Opening)
    requires AllSound(devices) && Inv(devices, calls, {}) && Sound(known) && known.machine.None?
    requires known.descriptor.guid in devices ==> devices[known.descriptor.guid].machine.None?
    ensures var r := Initialize(known, opening);
            var after := devices[known.descriptor.guid := r.device];
            AllSound(after) && Inv(after, calls + r.calls, {})
  {
    var id, table := known.descriptor.guid, Cache(map[], calls);
    var r := Initialize(known, opening);
    UnopenedIsUp(devices, calls, id);
    InitializeRemembered(known, opening, table);
    TableStep(devices, table, id, r.device, Cache(table, r.calls), {});
    CacheConcat(map[], calls, r.calls);
    EdgeSafeQuiet(devices, calls, r.calls, devices[id := r.device]);
  }

  lemma InvAdmit(devices: Devices, calls: seq<SinkCall>, found: Found)
    requires AllSound(devices) && Inv(devices, calls, {})
    ensures var r := Admit(devices, found); Inv(r.devices, calls + r.calls, {})
  {
    var id := found.descriptor.guid;
    var known := Known(devices, found.descriptor);
    if known.initialized {
      assert calls + [] == calls;
      TableStep(devices, Cache(map[], calls), id, known, Cache(map[], calls), {});
    } else {
      var r := Initialize(known, found.opening);
      InvOpen(devices, calls, known, found.opening);
      if !r.ok {
        InvReport(devices[id := r.device], calls + r.calls, {}, OpenFailure(found.descriptor).error);
        Associative(calls, r.calls, [OpenFailure(found.descriptor)]);
      }
    }
  }

  lemma {:induction false} InvAdmitAll(devices: Devices, calls: seq<SinkCall>, found: seq<Found>)
    requires AllSound(devices) && Inv(devices, calls, {})
    ensures var r := AdmitAll(devices, found); Inv(r.devices, calls + r.calls, {})
  {
    if found == [] {
      assert calls + [] == calls;
    } else {
      var front := AdmitAll(devices, found[..|found| - 1]);
      InvAdmitAll(devices, calls, found[..|found| - 1]);
      InvAdmit(front.devices, calls + front.calls, found[|found| - 1]);
      Associative(calls, front.calls, Admit(front.devices, found[|found| - 1]).calls);
    }
  }

  lemma {:induction false} ReleaseCallsAre(tb: Tables, s: Tracked, n: nat)
    requires n <= |s.down| == MAX_BUTTONS
    ensures Own(tb.info.instanceGuid, Releases(tb, s, n))
    ensures forall k | 0 <= k < |Releases(tb, s, n)| :: Releases(tb, s, n)[k].EmitButton?
  {
    if n == 0 {
    } else {
      ReleaseCallsAre(tb, s, n - 1);
    }
  }

  lemma {:induction false} NoReleases(tb: Tables, s: Tracked, n: nat)
    requires n <= |s.down| == MAX_BUTTONS && s.down == AllUp()
    ensures Releases(tb, s, n) == []
  {
    if n == 0 {
    } else {
      NoReleases(tb, s, n - 1);
    }
  }

  lemma ReleaseIsQuiet(d: Device)
    requires Sound(d)
    ensures Own(d.descriptor.guid, ReleaseCalls(d))
    ensures forall k | 0 <= k < |ReleaseCalls(d)| :: ReleaseCalls(d)[k].EmitButton?
  {
    ReleaseCallsAre(d.tables, d.state, MAX_BUTTONS);
    if d.machine.None? { NoReleases(d.tables, d.state, MAX_BUTTONS); }
  }

  /** After its release no button of a device has Pressed as its last edge. */
  lemma EdgeSafeRelease(devices: Devices, calls: seq<SinkCall>, id: string)
    requires AllSound(devices) && EdgeSafe(devices, calls) && id in devices
    ensures EdgeSafe(devices - {id}, calls + ReleaseCalls(devices[id]))
  {
    var d := devices[id];
    ReleaseIsQuiet(d);
    if d.machine.Some? {
      TracksLetGo(d.tables, d.state);
      EdgeSafeStep(devices, calls, id, d.state, ReleaseCalls(d), devices - {id});
    } else {
      NoReleases(d.tables, d.state, MAX_BUTTONS);
      EdgeSafeQuiet(devices, calls, [], devices - {id});
    }
  }

  lemma {:induction false} EdgeSafeDrop(devices: Devices, calls: seq<SinkCall>, order: seq<string>)
    requires AllSound(devices) && EdgeSafe(devices, calls) && Distinct(order)
    requires forall k | 0 <= k < |order| :: order[k] in devices
    ensures var r := Drop(devices, order); EdgeSafe(r.devices, calls + r.calls)
  {
    if order == [] {
      assert Drop(devices, order).devices == devices;
      assert calls + [] == calls;
    } else {
      var front, id := order[..|order| - 1], order[|order| - 1];
      EdgeSafeDrop(devices, calls, front);
      var kept := Drop(devices, front);
      assert order == front + [id];
      assert id !in front;
      EdgeSafeRelease(kept.devices, calls + kept.calls, id);
      assert kept.devices - {id} == Drop(devices, order).devices;
      Associative(calls, kept.calls, ReleaseCalls(devices[id]));
    }
  }

  lemma {:induction false} DropCallsAreEdges(devices: Devices, order: seq<string>)
    requires AllSound(devices) && forall k | 0 <= k < |order| :: order[k] in devices
    ensures forall k | 0 <= k < |DropCalls(devices, order)| :: DropCalls(devices, order)[k].EmitButton?
  {
    if order == [] {
    } else {
      DropCallsAreEdges(devices, order[..|order| - 1]);
      ReleaseIsQuiet(devices[order[|order| - 1]]);
    }
  }

  lemma InvDrop(devices: Devices, calls: seq<SinkCall>, order: seq<string>)
    requires AllSound(devices) && Inv(devices, calls, {}) && Distinct(order)
    requires forall k | 0 <= k < |order| :: order[k] in devices
    ensures var r := Drop(devices, order); Inv(r.devices, calls + r.calls, set id | id in order)
  {
    var r := Drop(devices, order);
    EdgeSafeDrop(devices, calls, order);
    DropCallsAreEdges(devices, order);
    CacheConcat(map[], calls, r.calls);
    NoSamplesNoChange(Cache(map[], calls), r.calls);
  }

  lemma RefreshRemembers(d: Device, table: map<AxisKey, real>)
    requires Sound(d) && Sound(Refreshed(d)) && Remembered(d, table)
    ensures Remembered(Refreshed(d), table)
  {
    if d.machine.Some? {
      forall i | 0 <= i < |d.tables.axes| ensures Entry(d.tables, i) == Entry(Refreshed(d).tables, i) {}
    }
  }

  lemma RefreshKeepsEdges(devices: Devices, calls: seq<SinkCall>)
    requires AllSound(devices) && AllSound(RefreshAll(devices)) && EdgeSafe(devices, calls)
    ensures EdgeSafe(RefreshAll(devices), calls)
  {
  }

  lemma InvRefresh(devices: Devices, calls: seq<SinkCall>, leftovers: set<string>)
    requires AllSound(devices) && Inv(devices, calls, leftovers)
    ensures AllSound(RefreshAll(devices)) && Inv(RefreshAll(devices), calls, leftovers)
  {
    RefreshKeepsSound(devices);
    RefreshKeepsEdges(devices, calls);
    forall id | id in devices ensures Remembered(RefreshAll(devices)[id], Cache(map[], calls)) {
      RefreshRemembers(devices[id], Cache(map[], calls));
    }
  }

  /** Publishing the list prunes what the dropped devices left behind. */
  lemma InvPublish(devices: Devices, calls: seq<SinkCall>, leftovers: set<string>, infos: seq<DeviceInfo>)
    requires AllSound(devices) && Inv(devices, calls, leftovers)
    requires forall id :: Present(infos, id) <==> id in devices
    ensures Inv(devices, calls + [SetDevices(infos)], {})
  {
    EdgeSafeQuiet(devices, calls, [SetDevices(infos)], devices);
    CacheConcat(map[], calls, [SetDevices(infos)]);
    CacheOne(Cache(map[], calls), SetDevices(infos));
    var before, after := Cache(map[], calls), Cache(map[], calls + [SetDevices(infos)]);
    forall id | id in devices ensures Remembered(devices[id], after) {
      forall key: AxisKey | key.device == id
        ensures (key in before <==> key in after) && (key in before ==> before[key] == after[key]) {}
    }
  }

  // ---- The published list ----

  lemma NotLessTransitive(a: string, b: string, c: string)
    ensures !StringLess(a, b) && !StringLess(b, c) ==> !StringLess(a, c)
    ensures !StringLess(a, b) && !StringLess(b, c) && a == c ==> a == b
  {
    StringLessTotal(a, b);
    StringLessTotal(b, c);
    StringLessTotal(a, c);
    if !StringLess(a, b) && !StringLess(b, c) && a != b && b != c { StringLessTransitive(c, b, a); }
  }

  lemma InfoLessIsStrict()
    ensures StrictWeakOrder(InfoLess())
  {
    forall x, y | InfoLess()(x, y) ensures !InfoLess()(y, x) {
      StringLessTotal(x.productName, y.productName);
      StringLessTotal(x.instanceGuid, y.instanceGuid);
    }
    forall x, y, z | !InfoLess()(x, y) && !InfoLess()(y, z) ensures !InfoLess()(x, z) {
      StringLessTotal(x.productName, y.productName);
      StringLessTotal(y.productName, z.productName);
      StringLessTotal(x.productName, z.productName);
      NotLessTransitive(x.productName, y.productName, z.productName);
      NotLessTransitive(x.instanceGuid, y.instanceGuid, z.instanceGuid);
    }
  }

  predicate Named(devices: Devices) {
    forall id | id in devices :: devices[id].tables.info.instanceGuid == id
  }

  lemma InfosMembers(devices: Devices, order: seq<string>, guid: string)
    requires Named(devices) && forall k | 0 <= k < |order| :: order[k] in devices
    ensures Present(Infos(devices, order), guid) <==> guid in order
  {
    var infos := Infos(devices, order);
    if guid in order {
      var k :| 0 <= k < |order| && order[k] == guid;
      assert infos[k].instanceGuid == guid;
    }
    if k :| 0 <= k < |infos| && infos[k].instanceGuid == guid {
      assert order[k] == guid;
    }
  }

  lemma PresentInSorted(infos: seq<DeviceInfo>, guid: string)
    ensures Present(InsertionSort(InfoLess(), infos), guid) <==> Present(infos, guid)
  {
    InfoLessIsStrict();
    SortIsSortedPermutation(InfoLess(), infos);
    var sorted := InsertionSort(InfoLess(), infos);
    if k :| 0 <= k < |infos| && infos[k].instanceGuid == guid {
      MembersOf(infos, sorted, infos[k]);
      var j :| 0 <= j < |sorted| && sorted[j] == infos[k];
    }
    if k :| 0 <= k < |sorted| && sorted[k].instanceGuid == guid {
      MembersOf(infos, sorted, sorted[k]);
      var j :| 0 <= j < |infos| && infos[j] == sorted[k];
    }
  }

  lemma WalkedSet(order: seq<string>, keys: set<string>)
    requires Walks(order, keys)
    ensures (set id | id in order) == keys
  {
  }

  /** Everything but the publication. */
  lemma InvDropUnseen(devices: Devices, calls: seq<SinkCall>, found: seq<Found>, dropped: seq<string>)
    requires AllSound(devices) && Inv(devices, calls, {})
    requires Walks(dropped, Unseen(devices, found))
    requires forall k | 0 <= k < |dropped| :: dropped[k] in devices
    ensures var kept := devices - Unseen(devices, found);
            AllSound(RefreshAll(kept))
            && Inv(RefreshAll(kept), calls + DropCalls(devices, dropped), Unseen(devices, found))
  {
    WalkedSet(dropped, Unseen(devices, found));
    InvDrop(devices, calls, dropped);
    InvRefresh(Drop(devices, dropped).devices, calls + DropCalls(devices, dropped), Unseen(devices, found));
  }

  lemma PublishedAll(devices: Devices, listed: seq<string>)
    requires Named(devices) && Walks(listed, devices.Keys) && forall k | 0 <= k < |listed| :: listed[k] in devices
    ensures forall id :: Present(InsertionSort(InfoLess(), Infos(devices, listed)), id) <==> id in devices
  {
    forall id ensures Present(InsertionSort(InfoLess(), Infos(devices, listed)), id) <==> id in devices {
      PresentInSorted(Infos(devices, listed), id);
      InfosMembers(devices, listed, id);
    }
  }

  lemma InvSync(devices: Devices, calls: seq<SinkCall>, found: seq<Found>, dropped: seq<string>, listed: seq<string>)
    requires AllSound(devices) && Inv(devices, calls, {}) && ScanOrders(devices, found, dropped, listed)
    ensures var r := Sync(devices, found, dropped, listed); Inv(r.devices, calls + r.calls, {})
  {
    var admitted, attached := AdmitAll(devices, found), Attached(devices, found);
    InvAdmitAll(devices, calls, found);
    WalksIndex(dropped, Unseen(admitted.devices, found));
    InvDropUnseen(admitted.devices, calls + admitted.calls, found, dropped);
    WalksIndex(listed, attached.Keys);
    PublishedAll(attached, listed);
    var sorted := InsertionSort(InfoLess(), Infos(attached, listed));
    var releases := DropCalls(admitted.devices, dropped);
    InvPublish(attached, calls + admitted.calls + releases, Unseen(admitted.devices, found), sorted);
    Associative(calls, admitted.calls, releases);
    Associative(calls, admitted.calls + releases, [SetDevices(sorted)]);
  }

  lemma InvPerform(devices: Devices, calls: seq<SinkCall>, op: Op)
    requires AllSound(devices) && Possible(devices, op) && Inv(devices, calls, {})
    ensures var r := Perform(devices, op); Inv(r.devices, calls + r.calls, {})
  {
    match op
    case Tick(order) =>
      assert forall k | 0 <= k < |order| :: order[k] in order;
      InvPollAll(devices, calls, order);
    case Scan(None, _, _) => InvReport(devices, calls, {}, "controller: enumeration failed");
    case Scan(Some(found), dropped, listed) => InvSync(devices, calls, found, dropped, listed);
  }

  lemma InvInit()
    ensures AllSound(map[]) && Inv(map[], [], {})
  {
  }

  lemma InvSteps(state: Change, op: Op, next: Change)
    requires Steps(state, op, next) && AllSound(next.devices) && Inv(state.devices, state.calls, {})
    ensures Inv(next.devices, next.calls, {})
  {
    InvPerform(state.devices, state.calls, op);
  }

  ghost predicate InvAt(states: seq<Change>, k: nat) {
    k < |states| && AllSound(states[k].devices) && Inv(states[k].devices, states[k].calls, {})
  }

  lemma InvNext(ops: seq<Op>, states: seq<Change>, k: nat)
    requires Runs(ops, states) && k < |ops|
    ensures InvAt(states, k) ==> InvAt(states, k + 1)
  {
    RunSteps(ops, states, k);
    if InvAt(states, k) { InvSteps(states[k], ops[k], states[k + 1]); }
  }

  lemma {:induction false} InvUpTo(states: seq<Change>, k: nat)
    requires InvAt(states, 0) && forall i: nat | i < k :: InvAt(states, i) ==> InvAt(states, i + 1)
    ensures InvAt(states, k)
  {
    if k == 0 {
    } else {
      InvUpTo(states, k - 1);
    }
  }

  lemma InvRuns(ops: seq<Op>, states: seq<Change>, k: nat)
    requires Runs(ops, states) && k < |states|
    ensures Inv(states[k].devices, states[k].calls, {})
  {
    InvInit();
    forall i: nat | i < k && InvAt(states, i) ensures InvAt(states, i + 1) {
      InvNext(ops, states, i);
    }
    InvUpTo(states, k);
  }

  // ---- Main results ----

  /** Over any run, with the release that ends it: no button of any device is ever Pressed
      twice without a Released between, and at the end none is left Pressed. */
  lemma WholeRunEdgeSafety(ops: seq<Op>, states: seq<Change>, order: seq<string>, guid: string, b: nat)
    requires Runs(ops, states) && Walks(order, states[|ops|].devices.Keys) && b < MAX_BUTTONS
    ensures var released := ReleaseAll(states[|ops|].devices, order);
            var edges := Edges(states[|ops|].calls + released.calls, guid, b);
            && NoDoublePress(edges)
            && (edges != [] ==> edges[|edges| - 1] == false)
  {
    var last := states[|ops|];
    InvRuns(ops, states, |ops|);
    assert forall k | 0 <= k < |order| :: order[k] in order;
    EdgeSafeDrop(last.devices, last.calls, order);
    var kept := Drop(last.devices, order);
    EdgeSafeQuiet(map[], last.calls + kept.calls, [SetDevices([])], map[]);
    Associative(last.calls, kept.calls, [SetDevices([])]);
  }

  /** The axis has a state, and this is its value. */
  ghost predicate AxisIs(d: Device, axis: uint16, value: real)
    requires Sound(d)
  {
    exists i :: 0 <= i < |d.tables.axes| && d.tables.axes[i].instance == axis
                && d.state.axes[i].Some? && value == Normalized(d.state.axes[i].value)
  }

  /** An axis of an attached, opened device that has a state. */
  ghost predicate HasState(devices: Devices, key: AxisKey, value: real)
    requires AllSound(devices)
  {
    && key.device in devices && devices[key.device].machine.Some?
    && AxisIs(devices[key.device], key.axis, value)
  }

  /** What is remembered of one opened device. */
  lemma RememberedExactly(d: Device, table: map<AxisKey, real>, key: AxisKey, value: real)
    requires Sound(d) && d.machine.Some? && Remembered(d, table) && key.device == d.descriptor.guid
    ensures key in table && table[key] == value <==> AxisIs(d, key.axis, value)
  {
    if key in table {
      var i :| 0 <= i < |d.tables.axes| && key == Entry(d.tables, i);
      assert d.state.axes[i].Some? && table[key] == Normalized(d.state.axes[i].value);
      forall j | 0 <= j < |d.tables.axes| && d.tables.axes[j].instance == key.axis ensures j == i {}
    }
    if AxisIs(d, key.axis, value) {
      var i :| 0 <= i < |d.tables.axes| && d.tables.axes[i].instance == key.axis
               && d.state.axes[i].Some? && value == Normalized(d.state.axes[i].value);
      assert key == Entry(d.tables, i);
    }
  }

  lemma TableExactly(devices: Devices, table: map<AxisKey, real>, key: AxisKey, value: real)
    requires AllSound(devices) && TableAgrees(devices, table, {})
    ensures key in table && table[key] == value <==> HasState(devices, key, value)
  {
    if key.device in devices {
      var d := devices[key.device];
      assert Remembered(d, table);
      if d.machine.Some? {
        RememberedExactly(d, table, key, value);
      }
    }
  }

  /** Between any two operations of the backend the manager's axis table is exactly the axes
      of the attached devices that have a state, each with its normalized value. */
  lemma CacheAgreement(ops: seq<Op>, states: seq<Change>, k: nat, key: AxisKey, value: real)
    requires Runs(ops, states) && k < |states|
    ensures var table := Cache(map[], states[k].calls);
            key in table && table[key] == value <==> HasState(states[k].devices, key, value)
  {
    InvRuns(ops, states, k);
    TableExactly(states[k].devices, Cache(map[], states[k].calls), key, value);
  }

  /** The release that ends a run leaves no device, says so, and empties the axis table. */
  lemma ReleaseEmptiesTable(devices: Devices, calls: seq<SinkCall>, order: seq<string>)
    requires AllSound(devices) && Walks(order, devices.Keys)
    ensures var r := ReleaseAll(devices, order);
            && r.devices == map[] && r.calls != [] && r.calls[|r.calls| - 1] == SetDevices([])
            && Cache(map[], calls + r.calls) == map[]
  {
    assert forall k | 0 <= k < |order| :: order[k] in order;
    var releases := DropCalls(devices, order);
    CacheConcat(map[], calls, releases + [SetDevices([])]);
    CacheConcat(Cache(map[], calls), releases, [SetDevices([])]);
    CacheOne(Cache(Cache(map[], calls), releases), SetDevices([]));
  }

  // ---- The list does not depend on the walk ----

  ghost predicate NoRepeats<T>(s: seq<T>) {
    forall i, j | 0 <= i < j < |s| :: s[i] != s[j]
  }

  lemma {:induction false} OnceEach<T>(s: seq<T>, x: T)
    requires NoRepeats(s)
    ensures multiset(s)[x] == if x in s then 1 else 0
  {
    if s == [] {
    } else {
      var front, last := s[..|s| - 1], s[|s| - 1];
      OnceEach(front, x);
      assert s == front + [last];
      assert multiset(s) == multiset(front) + multiset{last};
      assert last !in front;
    }
  }

  lemma SameMembersSameMultiset<T(!new)>(a: seq<T>, b: seq<T>)
    requires NoRepeats(a) && NoRepeats(b) && forall x :: x in a <==> x in b
    ensures multiset(a) == multiset(b)
  {
    forall x ensures multiset(a)[x] == multiset(b)[x] {
      OnceEach(a, x);
      OnceEach(b, x);
    }
  }

  lemma InfosOfWalk(devices: Devices, order: seq<string>)
    requires Named(devices) && Walks(order, devices.Keys)
    requires forall k | 0 <= k < |order| :: order[k] in devices
    ensures NoRepeats(Infos(devices, order))
    ensures forall info ::
              info in Infos(devices, order) <==> exists id :: id in devices && devices[id].tables.info == info
  {
    var infos := Infos(devices, order);
    forall i, j | 0 <= i < j < |infos| ensures infos[i] != infos[j] {
      assert infos[i].instanceGuid == order[i] && infos[j].instanceGuid == order[j];
    }
    forall info ensures info in infos <==> exists id :: id in devices && devices[id].tables.info == info {
      if info in infos {
        var k :| 0 <= k < |infos| && infos[k] == info;
        assert order[k] in devices && devices[order[k]].tables.info == info;
      }
      if id :| id in devices && devices[id].tables.info == info {
        assert id in order;
        var k :| 0 <= k < |order| && order[k] == id;
        assert infos[k] == info;
      }
    }
  }

  lemma SortedWalksAgree(devices: Devices, a: seq<string>, b: seq<string>)
    requires Named(devices) && Walks(a, devices.Keys) && Walks(b, devices.Keys)
    requires forall k | 0 <= k < |a| :: a[k] in devices
    requires forall k | 0 <= k < |b| :: b[k] in devices
    ensures InsertionSort(InfoLess(), Infos(devices, a)) == InsertionSort(InfoLess(), Infos(devices, b))
  {
    var x, y := Infos(devices, a), Infos(devices, b);
    InfosOfWalk(devices, a);
    InfosOfWalk(devices, b);
    SameMembersSameMultiset(x, y);
    InfoLessIsStrict();
    SortIsSortedPermutation(InfoLess(), x);
    SortIsSortedPermutation(InfoLess(), y);
    var sorted := InsertionSort(InfoLess(), x);
    forall p, q | p in sorted && q in sorted && p != q ensures InfoLess()(p, q) || InfoLess()(q, p) {
      MembersOf(x, sorted, p);
      MembersOf(x, sorted, q);
      StringLessTotal(p.instanceGuid, q.instanceGuid);
      StringLessTotal(p.productName, q.productName);
    }
    SortedIsCanonical(InfoLess(), sorted, InsertionSort(InfoLess(), y));
  }

  lemma {:induction false} SeenIs(found: seq<Found>, id: string)
    ensures id in Seen(found) <==> exists k :: 0 <= k < |found| && found[k].descriptor.guid == id
  {
    if found == [] {
    } else {
      var front := found[..|found| - 1];
      SeenIs(front, id);
      if k :| 0 <= k < |found| && found[k].descriptor.guid == id {
        assert k < |front| ==> front[k].descriptor.guid == id;
      }
      if k :| 0 <= k < |front| && front[k].descriptor.guid == id {
        assert found[k].descriptor.guid == id;
      }
    }
  }

  /** After a successful scan the table holds exactly the enumerated devices, and neither the
      table nor the list that is published depends on how Go walked the map. */
  lemma CanonicalScan(devices: Devices, found: seq<Found>, dropped: seq<string>, listed: seq<string>,
                      dropped': seq<string>, listed': seq<string>)
    requires AllSound(devices)
    requires Possible(devices, Scan(Some(found), dropped, listed))
    requires Possible(devices, Scan(Some(found), dropped', listed'))
    ensures var one, other := Sync(devices, found, dropped, listed), Sync(devices, found, dropped', listed');
            && one.devices == other.devices
            && (forall id :: id in one.devices <==> exists k :: 0 <= k < |found| && found[k].descriptor.guid == id)
            && one.calls != [] && other.calls != []
            && one.calls[|one.calls| - 1] == other.calls[|other.calls| - 1]
            && one.calls[|one.calls| - 1].SetDevices?
            && Sorted(InfoLess(), one.calls[|one.calls| - 1].devices)
  {
    var attached := Attached(devices, found);
    forall id ensures id in attached <==> exists k :: 0 <= k < |found| && found[k].descriptor.guid == id {
      SeenIs(found, id);
    }
    WalksIndex(listed, attached.Keys);
    WalksIndex(listed', attached.Keys);
    SortedWalksAgree(attached, listed, listed');
    InfoLessIsStrict();
    SortIsSortedPermutation(InfoLess(), Infos(attached, listed));
  }
}
