/** One incarnation of a device - from the scan that opens it to its release - inside a whole
    run of the backend, with every scan, poll and other device in between. */
module Incarnations {
  import opened ControllerTypes
  import opened Hardware
  import opened DeviceSpec
  import opened Traces
  import opened DeviceLife
  import opened RuntimeSpec
  import opened RuntimeTheorems
  import Sorting

  predicate Opened(devices: Devices, guid: string) {
    guid in devices && devices[guid].machine.Some?
  }

  /** The edges alternate strictly from one state of a button to another. */
  predicate Leads(start: bool, edges: seq<bool>, end: bool) {
    AlternatesFrom(start, edges) && LastOf(start, edges) == end
  }

  lemma LeadsConcat(x: bool, a: seq<SinkCall>, y: bool, b: seq<SinkCall>, z: bool, guid: string, button: nat)
    requires Leads(x, Edges(a, guid, button), y) && Leads(y, Edges(b, guid, button), z)
    ensures Leads(x, Edges(a + b, guid, button), z)
  {
    EdgesConcat(a, b, guid, button);
    AlternatesConcat(x, Edges(a, guid, button), Edges(b, guid, button));
  }

  /** What one operation does to a device that is opened, and that it says nothing of any other. */
  ghost predicate Continues(before: Devices, calls: seq<SinkCall>, after: Devices, guid: string, b: nat)
    requires AllSound(before) && AllSound(after) && b < MAX_BUTTONS
  {
    var edges := Edges(calls, guid, b);
    if !Opened(before, guid) then edges == []
    else if guid in after then
      Opened(after, guid) && Leads(before[guid].state.down[b], edges, after[guid].state.down[b])
    else Leads(before[guid].state.down[b], edges, false)
  }

  // ---- Polling ----

  /** One device polled, heard from its own buttons and from those of another. */
  lemma PollDeviceLeads(d: Device, guid: string, b: nat)
    requires Sound(d) && b < MAX_BUTTONS
    ensures var r := PollDevice(d);
            && r.device.machine.Some? == d.machine.Some?
            && (if guid == d.descriptor.guid && d.machine.Some? then
                  Leads(d.state.down[b], Edges(r.calls, guid, b), r.device.state.down[b])
                else Edges(r.calls, guid, b) == [])
  {
    var r := PollDevice(d);
    if d.machine.Some? {
      HeardPoll(d.tables, d.state, d.machine.value, map[]);
      if guid != d.descriptor.guid {
        OtherEdges(d.descriptor.guid, r.calls, guid, b);
      }
    }
  }

  /** An entry that has changed while nothing was said of the others. */
  lemma EntryContinues(devices: Devices, entry: Device, calls: seq<SinkCall>, guid: string, b: nat)
    requires var id := entry.descriptor.guid;
             id in devices && Sound(entry) && AllSound(devices) && AllSound(devices[id := entry]) && b < MAX_BUTTONS
             && entry.machine.Some? == devices[id].machine.Some?
             && if guid == id && entry.machine.Some? then
                  Leads(devices[id].state.down[b], Edges(calls, guid, b), entry.state.down[b])
                else Edges(calls, guid, b) == []
    ensures var after := devices[entry.descriptor.guid := entry];
            Continues(devices, calls, after, guid, b) && Opened(after, guid) == Opened(devices, guid)
  {
    assert AlternatesFrom(true, []) && AlternatesFrom(false, []);
  }

  lemma PollOneContinues(devices: Devices, id: string, guid: string, b: nat)
    requires AllSound(devices) && id in devices && b < MAX_BUTTONS
    ensures var r := PollOne(devices, id); Continues(devices, r.calls, r.devices, guid, b)
    ensures Opened(PollOne(devices, id).devices, guid) == Opened(devices, guid)
  {
    var polled := PollDevice(devices[id]);
    PollDeviceLeads(devices[id], guid, b);
    EntryContinues(devices, polled.device, polled.calls, guid, b);
  }

  lemma {:induction false} PollAllContinues(devices: Devices, order: seq<string>, guid: string, b: nat)
    requires AllSound(devices) && b < MAX_BUTTONS && forall k | 0 <= k < |order| :: order[k] in devices.Keys
    ensures var r := PollAll(devices, order); Continues(devices, r.calls, r.devices, guid, b)
    ensures Opened(PollAll(devices, order).devices, guid) == Opened(devices, guid)
  {
    if order == [] {
    } else {
      var front := PollAll(devices, order[..|order| - 1]);
      var last := PollOne(front.devices, order[|order| - 1]);
      PollAllContinues(devices, order[..|order| - 1], guid, b);
      PollOneContinues(front.devices, order[|order| - 1], guid, b);
      EdgesConcat(front.calls, last.calls, guid, b);
      if Opened(devices, guid) {
        LeadsConcat(devices[guid].state.down[b], front.calls, front.devices[guid].state.down[b],
                    last.calls, last.devices[guid].state.down[b], guid, b);
      }
    }
  }

  // ---- Scanning ----

  predicate NoEdge(calls: seq<SinkCall>) {
    forall k | 0 <= k < |calls| :: !calls[k].EmitButton?
  }

  /** Opening devices says nothing about buttons and leaves opened ones as they are. */
  lemma AdmitIsSilent(devices: Devices, found: Found)
    requires AllSound(devices)
    ensures NoEdge(Admit(devices, found).calls)
  {
    var known := Known(devices, found.descriptor);
    if !known.initialized {
      InitializeIsSilent(known, found.opening);
    }
  }

  /** What Admit does to one entry of the table. */
  lemma AdmitEntry(devices: Devices, found: Found) returns (entry: Device)
    requires AllSound(devices)
    ensures var id := found.descriptor.guid;
            && Admit(devices, found).devices == devices[id := entry]
            && (Opened(devices, id) ==> entry == devices[id].(descriptor := found.descriptor))
  {
    var id, known := found.descriptor.guid, Known(devices, found.descriptor);
    entry := if known.initialized then known else Initialize(known, found.opening).device;
    if Opened(devices, id) {
      assert Sound(devices[id]);
    }
  }

  /** An opened device is as it was, and no other than the named one is newly opened. */
  ghost predicate KeepsOpened(before: Devices, after: Devices, id: string, guid: string) {
    && (Opened(before, guid) ==> Opened(after, guid) && after[guid].state == before[guid].state)
    && (guid != id && Opened(after, guid) ==> Opened(before, guid))
  }

  lemma EntryKeepsOpened(before: Devices, id: string, entry: Device, descriptor: Descriptor, guid: string)
    requires Opened(before, id) ==> entry == before[id].(descriptor := descriptor)
    ensures KeepsOpened(before, before[id := entry], id, guid)
  {
  }

  lemma AdmitKeepsOpened(devices: Devices, found: Found, guid: string)
    requires AllSound(devices)
    ensures KeepsOpened(devices, Admit(devices, found).devices, found.descriptor.guid, guid)
  {
    var entry := AdmitEntry(devices, found);
    EntryKeepsOpened(devices, found.descriptor.guid, entry, found.descriptor, guid);
  }

  lemma InitializeIsSilent(d: Device, opening: Opening)
    requires Sound(d) && d.machine.None?
    ensures NoEdge(Initialize(d, opening).calls)
  {
    InitializeRemembered(d, opening, map[]);
  }

  lemma {:induction false} AdmitAllIsSilent(devices: Devices, found: seq<Found>)
    requires AllSound(devices)
    ensures NoEdge(AdmitAll(devices, found).calls)
  {
    if found == [] {
    } else {
      AdmitAllIsSilent(devices, found[..|found| - 1]);
      AdmitIsSilent(AdmitAll(devices, found[..|found| - 1]).devices, found[|found| - 1]);
    }
  }

  lemma {:induction false} AdmitAllKeepsOpened(devices: Devices, found: seq<Found>, guid: string)
    requires AllSound(devices)
    ensures var after := AdmitAll(devices, found).devices;
            && (Opened(devices, guid) ==> Opened(after, guid) && after[guid].state == devices[guid].state)
            && (guid !in Seen(found) && Opened(after, guid) ==> Opened(devices, guid))
  {
    if found == [] {
    } else {
      AdmitAllKeepsOpened(devices, found[..|found| - 1], guid);
      AdmitKeepsOpened(AdmitAll(devices, found[..|found| - 1]).devices, found[|found| - 1], guid);
    }
  }

  /** A release lets go of what is down. */
  lemma ReleaseLeads(d: Device, guid: string, b: nat)
    requires Sound(d) && b < MAX_BUTTONS
    ensures guid == d.descriptor.guid ==> Leads(d.state.down[b], Edges(ReleaseCalls(d), guid, b), false)
    ensures guid != d.descriptor.guid || d.machine.None? ==> Edges(ReleaseCalls(d), guid, b) == []
  {
    ReleaseIsQuiet(d);
    if d.machine.None? {
      NoReleases(d.tables, d.state, MAX_BUTTONS);
    } else if guid == d.descriptor.guid {
      TracksLetGo(d.tables, d.state);
    } else {
      OtherEdges(d.descriptor.guid, ReleaseCalls(d), guid, b);
    }
  }

  lemma {:induction false} DropEdges(devices: Devices, order: seq<string>, guid: string, b: nat)
    requires AllSound(devices) && Distinct(order) && b < MAX_BUTTONS
    requires forall k | 0 <= k < |order| :: order[k] in devices
    ensures var edges := Edges(DropCalls(devices, order), guid, b);
            if Opened(devices, guid) && guid in order then Leads(devices[guid].state.down[b], edges, false)
            else edges == []
  {
    if order == [] {
    } else {
      var front, id := order[..|order| - 1], order[|order| - 1];
      DropEdges(devices, front, guid, b);
      ReleaseLeads(devices[id], guid, b);
      EdgesConcat(DropCalls(devices, front), ReleaseCalls(devices[id]), guid, b);
      assert order == front + [id] && id !in front;
      var before, last := Edges(DropCalls(devices, front), guid, b), Edges(ReleaseCalls(devices[id]), guid, b);
      assert guid == id ==> before + last == last;
      assert last == [] ==> before + last == before;
    }
  }

  lemma NoEdgeNoEdges(calls: seq<SinkCall>, guid: string, b: nat)
    requires NoEdge(calls)
    ensures Edges(calls, guid, b) == []
  {
    NoEdgesUpTo(calls, |calls|, guid, b);
  }

  /** In the trace of a scan only the releases carry edges. */
  lemma SyncEdges(opens: seq<SinkCall>, releases: seq<SinkCall>, list: seq<DeviceInfo>, guid: string, b: nat)
    requires NoEdge(opens)
    ensures Edges(opens + releases + [SetDevices(list)], guid, b) == Edges(releases, guid, b)
  {
    NoEdgeNoEdges(opens, guid, b);
    NoEdgeNoEdges([SetDevices(list)], guid, b);
    EdgesConcat(opens, releases, guid, b);
    EdgesConcat(opens + releases, [SetDevices(list)], guid, b);
    assert [] + Edges(releases, guid, b) + [] == Edges(releases, guid, b);
  }

  lemma InOrder(order: seq<string>, keys: set<string>, guid: string)
    requires Walks(order, keys)
    ensures guid in order <==> guid in keys
  {
  }

  lemma InDropped(admitted: Devices, found: seq<Found>, dropped: seq<string>, guid: string)
    requires Walks(dropped, Unseen(admitted, found))
    ensures guid in dropped <==> guid in admitted && guid !in Seen(found)
  {
    InOrder(dropped, Unseen(admitted, found), guid);
  }

  /** The releases of a scan, for one device. */
  lemma DroppedLeads(devices: Devices, admitted: Devices, found: seq<Found>, dropped: seq<string>, guid: string, b: nat)
    requires AllSound(devices) && AllSound(admitted) && b < MAX_BUTTONS && admitted == AdmitAll(devices, found).devices
    requires Walks(dropped, Unseen(admitted, found)) && forall k | 0 <= k < |dropped| :: dropped[k] in admitted
    ensures var edges := Edges(DropCalls(admitted, dropped), guid, b);
            if Opened(devices, guid) && guid !in Seen(found) then Leads(devices[guid].state.down[b], edges, false)
            else edges == []
  {
    InDropped(admitted, found, dropped, guid);
    AdmitAllKeepsOpened(devices, found, guid);
    DropEdges(admitted, dropped, guid, b);
  }

  /** What a scan leaves of one entry. */
  lemma AttachedEntry(devices: Devices, found: seq<Found>, guid: string)
    requires AllSound(devices)
    ensures var admitted, attached := AdmitAll(devices, found).devices, Attached(devices, found);
            && (guid in attached <==> guid in Seen(found))
            && (guid in attached && Opened(admitted, guid) ==>
                  Opened(attached, guid) && attached[guid].state == admitted[guid].state)
  {
  }

  lemma SyncParts(devices: Devices, found: seq<Found>, dropped: seq<string>, listed: seq<string>)
    returns (list: seq<DeviceInfo>)
    requires AllSound(devices) && ScanOrders(devices, found, dropped, listed)
    ensures forall k | 0 <= k < |dropped| :: dropped[k] in AdmitAll(devices, found).devices
    ensures var r, admitted := Sync(devices, found, dropped, listed), AdmitAll(devices, found);
            && r.devices == Attached(devices, found)
            && r.calls == admitted.calls + DropCalls(admitted.devices, dropped) + [SetDevices(list)]
  {
    WalksIndex(dropped, Unseen(AdmitAll(devices, found).devices, found));
    WalksIndex(listed, Attached(devices, found).Keys);
    list := Sorting.InsertionSort(InfoLess(), Infos(Attached(devices, found), listed));
  }

  /** A scan: an opened device is either still there, untouched and unheard of, or released. */
  lemma SyncContinues(devices: Devices, found: seq<Found>, dropped: seq<string>, listed: seq<string>, guid: string,
          b: nat)
    requires AllSound(devices) && ScanOrders(devices, found, dropped, listed) && b < MAX_BUTTONS
    ensures var r := Sync(devices, found, dropped, listed); Continues(devices, r.calls, r.devices, guid, b)
  {
    var list := SyncParts(devices, found, dropped, listed);
    var admitted := AdmitAll(devices, found);
    AdmitAllIsSilent(devices, found);
    AdmitAllKeepsOpened(devices, found, guid);
    AttachedEntry(devices, found, guid);
    SyncEdges(admitted.calls, DropCalls(admitted.devices, dropped), list, guid, b);
    DroppedLeads(devices, admitted.devices, found, dropped, guid, b);
  }

  // ---- Runs ----

  lemma OpContinues(devices: Devices, op: Op, guid: string, b: nat)
    requires AllSound(devices) && Possible(devices, op) && b < MAX_BUTTONS
    ensures var r := Perform(devices, op); Continues(devices, r.calls, r.devices, guid, b)
  {
    match op
    case Tick(order) =>
      assert forall k | 0 <= k < |order| :: order[k] in order;
      PollAllContinues(devices, order, guid, b);
    case Scan(None, _, _) => NoEdgeNoEdges(Perform(devices, op).calls, guid, b);
    case Scan(Some(found), dropped, listed) => SyncContinues(devices, found, dropped, listed, guid, b);
  }

  // ---- Runs, seen from one button of one device ----

  /** What a state of a run says about one button. */
  datatype Look = Look(present: bool, live: bool, down: bool, calls: seq<SinkCall>)

  function LookAt(c: Change, guid: string, b: nat): Look {
    var live := Opened(c.devices, guid);
    Look(guid in c.devices, live,
         live && b < |c.devices[guid].state.down| && c.devices[guid].state.down[b], c.calls)
  }

  /** What was said between two states. */
  function Since(x: seq<SinkCall>, y: seq<SinkCall>): seq<SinkCall> {
    if |x| <= |y| then y[|x|..] else []
  }

  ghost predicate Follows(x: Look, y: Look, guid: string, b: nat) {
    && x.calls <= y.calls
    && var edges := Edges(Since(x.calls, y.calls), guid, b);
       if !x.live then edges == []
       else if y.present then y.live && Leads(x.down, edges, y.down)
       else Leads(x.down, edges, false)
  }

  ghost predicate FollowsAt(states: seq<Change>, k: nat, guid: string, b: nat) {
    k + 1 < |states| && Follows(LookAt(states[k], guid, b), LookAt(states[k + 1], guid, b), guid, b)
  }

  lemma StepFollows(state: Change, op: Op, next: Change, guid: string, b: nat)
    requires Steps(state, op, next) && b < MAX_BUTTONS
    ensures Follows(LookAt(state, guid, b), LookAt(next, guid, b), guid, b)
  {
    var step := Perform(state.devices, op);
    OpContinues(state.devices, op, guid, b);
    assert (state.calls + step.calls)[|state.calls|..] == step.calls;
  }

  lemma RunFollows(ops: seq<Op>, states: seq<Change>, k: nat, guid: string, b: nat)
    requires Runs(ops, states) && k < |ops| && b < MAX_BUTTONS
    ensures FollowsAt(states, k, guid, b)
  {
    RunSteps(ops, states, k);
    StepFollows(states[k], ops[k], states[k + 1], guid, b);
  }

  lemma SinceAgain(x: seq<SinkCall>, y: seq<SinkCall>, z: seq<SinkCall>)
    requires x <= y && y <= z
    ensures x <= z && Since(x, z) == Since(x, y) + Since(y, z)
  {
  }

  /** Opened in state j and in every state after it up to k. */
  predicate OpenedFrom(states: seq<Change>, j: nat, k: nat, guid: string)
    decreases k
  {
    j <= k < |states| && Opened(states[k].devices, guid) && (k == j || OpenedFrom(states, j, k - 1, guid))
  }

  lemma {:induction false} OpenedFromMeans(states: seq<Change>, j: nat, k: nat, guid: string)
    ensures OpenedFrom(states, j, k, guid)
       <==> j <= k < |states| && forall i | j <= i <= k :: Opened(states[i].devices, guid)
    decreases k
  {
    if k <= j {
    } else {
      OpenedFromMeans(states, j, k - 1, guid);
    }
  }

  lemma {:induction false} OpenedLeads(states: seq<Change>, j: nat, k: nat, guid: string, b: nat)
    requires OpenedFrom(states, j, k, guid) && forall i | j <= i < k :: FollowsAt(states, i, guid, b)
    ensures var x, z := LookAt(states[j], guid, b), LookAt(states[k], guid, b);
            x.calls <= z.calls && Leads(x.down, Edges(Since(x.calls, z.calls), guid, b), z.down)
    decreases k
  {
    var x, z := LookAt(states[j], guid, b), LookAt(states[k], guid, b);
    if k == j {
      assert Since(x.calls, x.calls) == [];
    } else {
      var y := LookAt(states[k - 1], guid, b);
      OpenedLeads(states, j, k - 1, guid, b);
      assert FollowsAt(states, k - 1, guid, b);
      OnwardLeads(x, y, z, guid, b);
    }
  }

  lemma OnwardLeads(x: Look, y: Look, z: Look, guid: string, b: nat)
    requires x.calls <= y.calls && Leads(x.down, Edges(Since(x.calls, y.calls), guid, b), y.down)
    requires y.live && Follows(y, z, guid, b)
    ensures x.calls <= z.calls
    ensures Leads(x.down, Edges(Since(x.calls, z.calls), guid, b), z.present && z.down)
  {
    SinceAgain(x.calls, y.calls, z.calls);
    LeadsConcat(x.down, Since(x.calls, y.calls), y.down, Since(y.calls, z.calls), z.present && z.down, guid, b);
  }

  /** One incarnation up to some state: not opened in state i, opened in all from i + 1 to k. */
  predicate Incarnation(states: seq<Change>, i: nat, k: nat, guid: string) {
    i < k < |states| && !Opened(states[i].devices, guid) && OpenedFrom(states, i + 1, k, guid)
  }

  // ---- Main results ----

  /** From the scan that opens a device on, through any scans and polls, failures and other
      devices, the edges of each button alternate strictly, begin opposite to the state found
      at opening, and end at the tracked state. */
  lemma IncarnationAlternates(ops: seq<Op>, states: seq<Change>, i: nat, k: nat, guid: string, b: nat)
    requires Runs(ops, states) && Incarnation(states, i, k, guid) && b < MAX_BUTTONS
    ensures var x, held, y := LookAt(states[i], guid, b), LookAt(states[i + 1], guid, b), LookAt(states[k], guid, b);
            x.calls <= y.calls && Leads(held.down, Edges(Since(x.calls, y.calls), guid, b), y.down)
  {
    var x, held, y := LookAt(states[i], guid, b), LookAt(states[i + 1], guid, b), LookAt(states[k], guid, b);
    RunFollows(ops, states, i, guid, b);
    forall n | i < n < k ensures FollowsAt(states, n, guid, b) {
      RunFollows(ops, states, n, guid, b);
    }
    OpenedLeads(states, i + 1, k, guid, b);
    SinceAgain(x.calls, held.calls, y.calls);
    EdgesConcat(Since(x.calls, held.calls), Since(held.calls, y.calls), guid, b);
    assert [] + Edges(Since(held.calls, y.calls), guid, b) == Edges(Since(held.calls, y.calls), guid, b);
  }

  /** And when a scan no longer finds the device, the incarnation ends with every button let
      go: a button that was seen pressed, or was held at opening, is Released last. */
  lemma UnpluggedIncarnation(ops: seq<Op>, states: seq<Change>, i: nat, k: nat, guid: string, b: nat)
    requires Runs(ops, states) && Incarnation(states, i, k, guid) && b < MAX_BUTTONS
    requires k < |ops| && guid !in states[k + 1].devices
    ensures var x, held, z := LookAt(states[i], guid, b), LookAt(states[i + 1], guid, b),
        LookAt(states[k + 1], guid, b);
            x.calls <= z.calls && Leads(held.down, Edges(Since(x.calls, z.calls), guid, b), false)
  {
    var x, held := LookAt(states[i], guid, b), LookAt(states[i + 1], guid, b);
    var y, z := LookAt(states[k], guid, b), LookAt(states[k + 1], guid, b);
    IncarnationAlternates(ops, states, i, k, guid, b);
    RunFollows(ops, states, k, guid, b);
    OnwardLeads(x.(down := held.down), y, z, guid, b);
  }

  /** The same for the release that ends the run. */
  lemma ShutDownIncarnation(ops: seq<Op>, states: seq<Change>, i: nat, order: seq<string>, guid: string, b: nat)
    requires Runs(ops, states) && Incarnation(states, i, |ops|, guid) && b < MAX_BUTTONS
    requires Walks(order, states[|ops|].devices.Keys)
    ensures var x, held, y := LookAt(states[i], guid, b), LookAt(states[i + 1], guid, b),
        LookAt(states[|ops|], guid, b);
            var released := ReleaseAll(states[|ops|].devices, order).calls;
            x.calls <= y.calls && Leads(held.down, Edges(Since(x.calls, y.calls) + released, guid, b), false)
  {
    var x, held, y := LookAt(states[i], guid, b), LookAt(states[i + 1], guid, b), LookAt(states[|ops|], guid, b);
    IncarnationAlternates(ops, states, i, |ops|, guid, b);
    ReleaseAllLeads(states[|ops|].devices, order, guid, b);
    LeadsConcat(held.down, Since(x.calls, y.calls), y.down, ReleaseAll(states[|ops|].devices, order).calls, false,
        guid, b);
  }

  lemma ReleaseAllLeads(devices: Devices, order: seq<string>, guid: string, b: nat)
    requires AllSound(devices) && Walks(order, devices.Keys) && Opened(devices, guid) && b < MAX_BUTTONS
    ensures Leads(devices[guid].state.down[b], Edges(ReleaseAll(devices, order).calls, guid, b), false)
  {
    assert forall k | 0 <= k < |order| :: order[k] in order;
    InOrder(order, devices.Keys, guid);
    DropEdges(devices, order, guid, b);
    SyncEdges([], DropCalls(devices, order), [], guid, b);
    assert [] + DropCalls(devices, order) == DropCalls(devices, order);
  }

  /** An opened device stays opened until a scan does not find it. */
  lemma OpenedUntilUnplugged(ops: seq<Op>, states: seq<Change>, k: nat, guid: string)
    requires Runs(ops, states) && k < |ops| && Opened(states[k].devices, guid)
    ensures guid in states[k + 1].devices ==> Opened(states[k + 1].devices, guid)
  {
    RunFollows(ops, states, k, guid, 0);
  }

  /** What strict alternation from one state to another means for a list of edges. */
  lemma LeadsMeans(start: bool, edges: seq<bool>, end: bool)
    ensures Leads(start, edges, end)
       <==> (forall i | 0 < i < |edges| :: edges[i] != edges[i - 1])
            && (if edges == [] then start == end else edges[0] == !start && edges[|edges| - 1] == end)
  {
    AlternatesNeighbours(start, edges);
  }
}
