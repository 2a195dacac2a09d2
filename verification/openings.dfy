/** Which devices a scan opens, which failures it reports and what it publishes, told from the
    answers DirectInput gives. */
module Openings {
  import opened ControllerTypes
  import opened PackedLayout
  import opened Hardware
  import opened DeviceSpec
  import opened DeviceTheorems
  import opened Recovery
  import opened InputTables
  import opened RuntimeSpec
  import opened RuntimeTheorems
  import opened Incarnations
  import opened Polling
  import opened Sorting

  // ---- One opening ----

  /** Something usable was enumerated: a button numbered below 128, or an axis. */
  ghost predicate HasInputs(opening: Opening)
    requires opening.buttons.Some? && opening.axes.Some?
  {
    || (exists k :: 0 <= k < |opening.buttons.value| && Instance(opening.buttons.value[k]) < 128)
    || opening.axes.value != []
  }

  /** DirectInput creates and enumerates the device, and configures it if there is reason to. */
  ghost predicate Good(opening: Opening) {
    && opening.created && opening.buttons.Some? && opening.axes.Some?
    && (HasInputs(opening) ==> opening.formatted && opening.configured)
  }

  /** A good opening of a device that has something to read. */
  ghost predicate Opens(opening: Opening) {
    Good(opening) && HasInputs(opening)
  }

  lemma NoButtonsIff(objectTypes: seq<uint32>)
    ensures ButtonTable(objectTypes) == []
       <==> forall k | 0 <= k < |objectTypes| :: Instance(objectTypes[k]) >= 128
  {
    ButtonNumbersExact(objectTypes);
    var numbers := ButtonNumbers(objectTypes);
    if k :| 0 <= k < |objectTypes| && Instance(objectTypes[k]) < 128 {
      assert Enumerated(objectTypes, Instance(objectTypes[k]));
      assert Instance(objectTypes[k]) in numbers;
    }
    if numbers != [] {
      assert numbers[0] in numbers;
    }
  }

  lemma NoAxesIff(objects: seq<AxisObject>)
    ensures AxisTable(objects) == [] <==> objects == []
  {
    var axes := AxisTable(objects);
    if objects != [] {
      AxisTableExact(objects, AxisInstance(objects[0]));
    }
    if axes != [] {
      AxisTableExact(objects, axes[0].instance);
      assert Listed(axes, axes[0].instance);
    }
  }

  lemma NoTablesIff(opening: Opening)
    requires opening.buttons.Some? && opening.axes.Some?
    ensures HasInputs(opening)
       <==> |ButtonTable(opening.buttons.value)| != 0 || |AxisTable(opening.axes.value)| != 0
  {
    NoButtonsIff(opening.buttons.value);
    NoAxesIff(opening.axes.value);
  }

  /** An opening succeeds exactly if DirectInput gives the answers it needs, and leaves the
      device with something to poll exactly if there is something to read. */
  lemma InitializeIff(d: Device, opening: Opening)
    requires Sound(d) && d.machine.None?
    ensures var r := Initialize(d, opening);
            && (r.ok <==> Good(opening))
            && (r.device.machine.Some? <==> Opens(opening))
            && (r.device.initialized <==> Good(opening) || d.initialized)
  {
    if opening.buttons.Some? && opening.axes.Some? {
      NoTablesIff(opening);
    }
  }

  /** The tables are those of the latest enumeration, however the opening ends. */
  lemma InitializeTables(d: Device, opening: Opening)
    requires Sound(d) && d.machine.None?
    ensures var tables := Initialize(d, opening).device.tables;
            && tables.buttons == (if opening.created && opening.buttons.Some? then ButtonTable(opening.buttons.value)
                                  else d.tables.buttons)
            && tables.axes == (if opening.created && opening.buttons.Some? && opening.axes.Some?
                               then AxisTable(opening.axes.value) else d.tables.axes)
  {
  }

  /** What the object that DirectInput creates starts from. */
  function Start(opening: Opening): Machine
    requires opening.buttons.Some? && opening.axes.Some?
  {
    StartingMachine(opening, |AxisTable(opening.axes.value)|, |ButtonTable(opening.buttons.value)|)
  }

  lemma StartIs(opening: Opening)
    requires opening.buttons.Some? && opening.axes.Some?
    requires |opening.raws| == |AxisTable(opening.axes.value)|
    requires |opening.bytes| == |ButtonTable(opening.buttons.value)|
    ensures Start(opening) == Machine(opening.raws, opening.bytes, [], false, opening.plan)
  {
    assert Start(opening).axes == opening.raws;
  }

  /** Nothing is known of the inputs yet. */
  function Blank(opening: Opening): Tracked
    requires opening.axes.Some?
  {
    Tracked(AllUp(), Unknown(|AxisTable(opening.axes.value)|))
  }

  /** The tables of an opened device, named by its descriptor. */
  function OpenTables(descriptor: Descriptor, opening: Opening): (tables: Tables)
    requires opening.buttons.Some? && opening.axes.Some?
    ensures WellFormed(tables) && Shaped(tables, Blank(opening)) && Fits(tables, Start(opening))
  {
    var buttons, axes := ButtonTable(opening.buttons.value), AxisTable(opening.axes.value);
    Tables(DeviceInfo(descriptor.guid, descriptor.productGuid, descriptor.instanceName, descriptor.productName,
                      |buttons|, |axes|), buttons, axes)
  }

  /** A device that opens is brought up from what DirectInput hands over; if that succeeds and
      the hardware is quiet after the last snapshot, it tracks the hardware's state and is in
      step for its first poll. */
  lemma OpenedDeviceStartsInStep(d: Device, opening: Opening)
    requires Sound(d) && d.machine.None? && Opens(opening)
    ensures var r, tables := Initialize(d, opening), OpenTables(d.descriptor, opening);
            var run := BringUp(tables, Blank(opening), Start(opening));
            && r.device.machine == Some(run.machine) && r.device.tables == tables && r.device.state == run.state
            && r.calls == run.calls
            && (run.ok && QuietDrain(AtLastSnapshot(tables, Blank(opening), Start(opening))) ==>
                 && Matches(tables, r.device.state, run.machine) && InStep(tables, r.device.state, run.machine))
  {
    NoTablesIff(opening);
    var r, tables := Initialize(d, opening), OpenTables(d.descriptor, opening);
    var run := BringUp(tables, Blank(opening), Start(opening));
    if run.ok && QuietDrain(AtLastSnapshot(tables, Blank(opening), Start(opening))) {
      BringUpStartsInStep(tables, Blank(opening), Start(opening));
    }
  }

  // ---- The openings of a scan ----

  predicate Initialized(devices: Devices, guid: string) {
    guid in devices && devices[guid].initialized
  }

  /** Entry k is about the device, and no opening of it before entry k was good. */
  ghost predicate Tried(found: seq<Found>, guid: string, k: nat) {
    && k < |found| && found[k].descriptor.guid == guid
    && forall j | 0 <= j < k && found[j].descriptor.guid == guid :: !Good(found[j].opening)
  }

  /** A good opening is among the first n entries. */
  ghost predicate Succeeds(found: seq<Found>, guid: string, n: nat) {
    exists k: nat :: k < n && Tried(found, guid, k) && Good(found[k].opening)
  }

  /** And it is of a device with inputs. */
  ghost predicate Yields(found: seq<Found>, guid: string, n: nat) {
    exists k: nat :: k < n && Tried(found, guid, k) && Opens(found[k].opening)
  }

  lemma OneMoreTry(found: seq<Found>, guid: string, n: nat)
    requires n < |found|
    ensures var now := found[n].descriptor.guid == guid && !Succeeds(found, guid, n);
            && (Succeeds(found, guid, n + 1) <==> Succeeds(found, guid, n) || (now && Good(found[n].opening)))
            && (Yields(found, guid, n + 1) <==> Yields(found, guid, n) || (now && Opens(found[n].opening)))
            && (Tried(found, guid, n) <==> now)
  {
    if !Succeeds(found, guid, n) {
      NoneGood(found, guid, n);
    }
    if found[n].descriptor.guid == guid && !Succeeds(found, guid, n) {
      assert Tried(found, guid, n);
    }
  }

  lemma {:induction false} NoneGood(found: seq<Found>, guid: string, n: nat)
    requires n <= |found| && !Succeeds(found, guid, n)
    ensures forall j | 0 <= j < n && found[j].descriptor.guid == guid :: !Good(found[j].opening)
  {
    if n == 0 {
    } else {
      NoneGood(found, guid, n - 1);
      if found[n - 1].descriptor.guid == guid {
        assert Tried(found, guid, n - 1);
      }
    }
  }

  // ---- The errors in a trace ----

  function Errors(calls: seq<SinkCall>): seq<string> {
    if calls == [] then []
    else
      var last := calls[|calls| - 1];
      Errors(calls[..|calls| - 1]) + (if last.Report? then [last.error] else [])
  }

  lemma {:induction false} NoErrors(calls: seq<SinkCall>)
    requires forall k | 0 <= k < |calls| :: !calls[k].Report?
    ensures Errors(calls) == []
  {
    if calls == [] {
    } else {
      NoErrors(calls[..|calls| - 1]);
    }
  }

  lemma {:induction false} ErrorsConcat(a: seq<SinkCall>, b: seq<SinkCall>)
    ensures Errors(a + b) == Errors(a) + Errors(b)
  {
    if b == [] {
      assert a + b == a;
    } else {
      ErrorsConcat(a, b[..|b| - 1]);
      assert (a + b)[..|a + b| - 1] == a + b[..|b| - 1];
    }
  }

  lemma OneError(call: SinkCall)
    ensures Errors([call]) == if call.Report? then [call.error] else []
  {
    assert [call][..0] == [];
  }

  // ---- An enumeration, entry by entry ----

  /** The table and the errors reported, part of the way through an enumeration. */
  datatype Progress = Progress(devices: Devices, errors: seq<string>)

  /** The device a good opening with inputs makes. */
  function Brought(found: Found): (d: Device)
    requires found.opening.buttons.Some? && found.opening.axes.Some?
    ensures Sound(d) && d.machine.Some?
  {
    var tables := OpenTables(found.descriptor, found.opening);
    var run := BringUp(tables, Blank(found.opening), Start(found.opening));
    Device(found.descriptor, tables, true, Some(run.machine), run.state, |tables.axes| * 4 + |tables.buttons|)
  }

  lemma InitializeBrings(d: Device, found: Found)
    requires Sound(d) && d.machine.None? && d.descriptor == found.descriptor && Opens(found.opening)
    ensures SameButNames(Brought(found), Initialize(d, found.opening).device)
  {
    OpenedDeviceStartsInStep(d, found.opening);
  }

  /** What one entry makes of its device: nothing new if it is initialized, else an attempt. */
  ghost predicate Grows(before: Progress, found: Found, entry: Device, after: Progress) {
    var id := found.descriptor.guid;
    var attempt := !Initialized(before.devices, id);
    && after.devices == before.devices[id := entry]
    && entry.descriptor == found.descriptor
    && (entry.initialized <==> !attempt || Good(found.opening))
    && (entry.machine.Some? <==> Incarnations.Opened(before.devices, id) || (attempt && Opens(found.opening)))
    && (Incarnations.Opened(before.devices, id) ==> SameButNames(before.devices[id], entry))
    && (attempt && Opens(found.opening) ==> SameButNames(Brought(found), entry))
    && after.errors == before.errors
       + (if attempt && !Good(found.opening) then [OpenFailure(found.descriptor).error] else [])
  }

  lemma AdmitErrors(devices: Devices, found: Found)
    requires AllSound(devices)
    ensures Errors(Admit(devices, found).calls)
            == if !Initialized(devices, found.descriptor.guid) && !Good(found.opening)
               then [OpenFailure(found.descriptor).error] else []
  {
    var known := Known(devices, found.descriptor);
    if !known.initialized {
      var attempt := Initialize(known, found.opening);
      InitializeIff(known, found.opening);
      InitializeRemembered(known, found.opening, map[]);
      NoErrors(attempt.calls);
      ErrorsConcat(attempt.calls, [OpenFailure(found.descriptor)]);
      OneError(OpenFailure(found.descriptor));
    }
  }

  lemma AdmitGrows(devices: Devices, found: Found, errors: seq<string>) returns (entry: Device)
    requires AllSound(devices)
    ensures var r := Admit(devices, found);
            Grows(Progress(devices, errors), found, entry, Progress(r.devices, errors + Errors(r.calls)))
  {
    var known := Known(devices, found.descriptor);
    assert found.descriptor.guid in devices ==> Sound(devices[found.descriptor.guid]);
    AdmitErrors(devices, found);
    if known.initialized {
      entry := known;
    } else {
      entry := Initialize(known, found.opening).device;
      InitializeIff(known, found.opening);
      if Opens(found.opening) {
        InitializeBrings(known, found);
      }
    }
  }

  /** The first n entries, one by one. */
  ghost predicate Growth(steps: seq<Progress>, entries: seq<Device>, found: seq<Found>, n: nat) {
    && |entries| == n <= |found| && |steps| == n + 1
    && forall k: nat | k < n :: GrowsAt(steps, entries, found, k)
  }

  ghost predicate GrowsAt(steps: seq<Progress>, entries: seq<Device>, found: seq<Found>, k: nat) {
    k < |found| && k < |entries| && k + 1 < |steps| && Grows(steps[k], found[k], entries[k], steps[k + 1])
  }

  lemma GrowthOn(steps: seq<Progress>, entries: seq<Device>, front: seq<Found>, found: seq<Found>, entry: Device,
          after: Progress)
    requires Growth(steps, entries, front, |front|) && |found| == |front| + 1 && found[..|front|] == front
    requires Grows(steps[|front|], found[|front|], entry, after)
    ensures Growth(steps + [after], entries + [entry], found, |found|)
  {
    forall k: nat | k < |found| ensures GrowsAt(steps + [after], entries + [entry], found, k) {
      if k < |front| {
        assert GrowsAt(steps, entries, front, k) && found[..|front|][k] == found[k];
      }
    }
  }

  lemma AdmitAllLast(devices: Devices, found: seq<Found>, front: Change, last: Change)
    requires AllSound(devices) && found != []
    requires front == AdmitAll(devices, found[..|found| - 1]) && last == Admit(front.devices, found[|found| - 1])
    ensures AdmitAll(devices, found).devices == last.devices
    ensures Errors(AdmitAll(devices, found).calls) == Errors(front.calls) + Errors(last.calls)
  {
    ErrorsConcat(front.calls, last.calls);
  }

  /** The steps so far are those of this enumeration. */
  ghost predicate GrowthOf(devices: Devices, found: seq<Found>, steps: seq<Progress>, entries: seq<Device>) {
    && AllSound(devices) && Growth(steps, entries, found, |found|) && steps[0] == Progress(devices, [])
    && var r := AdmitAll(devices, found); steps[|found|] == Progress(r.devices, Errors(r.calls))
  }

  lemma GrowthOfOn(devices: Devices, front: seq<Found>, found: seq<Found>, steps: seq<Progress>, entries: seq<Device>)
    returns (entry: Device, after: Progress)
    requires GrowthOf(devices, front, steps, entries) && found != [] && front == found[..|found| - 1]
    ensures GrowthOf(devices, found, steps + [after], entries + [entry])
  {
    var before := AdmitAll(devices, front);
    var last := Admit(before.devices, found[|front|]);
    AdmitAllLast(devices, found, before, last);
    entry := AdmitGrows(before.devices, found[|front|], Errors(before.calls));
    after := Progress(last.devices, Errors(before.calls) + Errors(last.calls));
    GrowthOn(steps, entries, front, found, entry, after);
  }

  lemma {:induction false} AdmitAllGrows(devices: Devices, found: seq<Found>)
    returns (steps: seq<Progress>, entries: seq<Device>)
    requires AllSound(devices)
    ensures GrowthOf(devices, found, steps, entries)
  {
    if found == [] {
      steps, entries := [Progress(devices, [])], [];
    } else {
      var front := found[..|found| - 1];
      steps, entries := AdmitAllGrows(devices, front);
      var entry, after := GrowthOfOn(devices, front, found, steps, entries);
      steps, entries := steps + [after], entries + [entry];
    }
  }

  ghost predicate OpensAt(steps: seq<Progress>, found: seq<Found>, guid: string, n: nat) {
    && n < |steps| && n <= |found|
    && var first, after := steps[0].devices, steps[n].devices;
       && (Initialized(after, guid) <==> Initialized(first, guid) || Succeeds(found, guid, n))
       && (Incarnations.Opened(after, guid)
           <==> Incarnations.Opened(first, guid) || (!Initialized(first, guid) && Yields(found, guid, n)))
  }

  lemma OneMoreOpens(steps: seq<Progress>, entries: seq<Device>, found: seq<Found>, guid: string, n: nat)
    requires GrowsAt(steps, entries, found, n) && OpensAt(steps, found, guid, n)
    ensures OpensAt(steps, found, guid, n + 1)
  {
    OneMoreTry(found, guid, n);
  }

  lemma {:induction false} GrowthOpens(steps: seq<Progress>, entries: seq<Device>, found: seq<Found>, guid: string,
          n: nat)
    requires Growth(steps, entries, found, |found|) && n <= |found|
    ensures OpensAt(steps, found, guid, n)
  {
    if n == 0 {
    } else {
      GrowthOpens(steps, entries, found, guid, n - 1);
      assert GrowsAt(steps, entries, found, n - 1);
      OneMoreOpens(steps, entries, found, guid, n - 1);
    }
  }

  /** The whole enumeration: a device is opened by its first good opening, if it has inputs
      and was not initialized before; nothing else opens it and no failure closes it. */
  lemma AdmitAllOpens(devices: Devices, found: seq<Found>, guid: string)
    requires AllSound(devices)
    ensures var after := AdmitAll(devices, found).devices;
            && (Initialized(after, guid) <==> Initialized(devices, guid) || Succeeds(found, guid, |found|))
            && (Incarnations.Opened(after, guid)
                <==> Incarnations.Opened(devices, guid)
                     || (!Initialized(devices, guid) && Yields(found, guid, |found|)))
  {
    var steps, entries := AdmitAllGrows(devices, found);
    GrowthOpens(steps, entries, found, guid, |found|);
  }

  lemma TriedFirst(found: seq<Found>, guid: string, k: nat)
    requires Tried(found, guid, k)
    ensures !Succeeds(found, guid, k)
  {
  }

  lemma {:induction false} GrowthBrings(steps: seq<Progress>, entries: seq<Device>, found: seq<Found>, guid: string,
          k: nat, n: nat)
    requires Growth(steps, entries, found, |found|) && k < n <= |found|
    requires Tried(found, guid, k) && Opens(found[k].opening) && !Initialized(steps[0].devices, guid)
    ensures guid in steps[n].devices && SameButNames(Brought(found[k]), steps[n].devices[guid])
    decreases n
  {
    assert GrowsAt(steps, entries, found, n - 1);
    if k == n - 1 {
      TriedFirst(found, guid, k);
      GrowthOpens(steps, entries, found, guid, k);
    } else {
      GrowthBrings(steps, entries, found, guid, k, n - 1);
    }
  }

  /** A scan, for every device: it is opened afterwards exactly if it was enumerated, and was
      opened before or opens now. */
  lemma ScanOpens(devices: Devices, found: seq<Found>, dropped: seq<string>, listed: seq<string>, guid: string)
    requires AllSound(devices) && ScanOrders(devices, found, dropped, listed)
    ensures var after := Sync(devices, found, dropped, listed).devices;
            Incarnations.Opened(after, guid)
            <==> guid in Seen(found)
                 && (Incarnations.Opened(devices, guid)
                     || (!Initialized(devices, guid) && Yields(found, guid, |found|)))
  {
    AdmitAllOpens(devices, found, guid);
  }

  /** What a scan opens is the device its first good opening makes, but for its names. */
  lemma ScanBrings(devices: Devices, found: seq<Found>, dropped: seq<string>, listed: seq<string>, guid: string,
          k: nat)
    requires AllSound(devices) && ScanOrders(devices, found, dropped, listed) && guid in Seen(found)
    requires Tried(found, guid, k) && Opens(found[k].opening) && !Initialized(devices, guid)
    ensures var after := Sync(devices, found, dropped, listed).devices;
            guid in after && SameButNames(Brought(found[k]), after[guid])
  {
    var steps, entries := AdmitAllGrows(devices, found);
    GrowthBrings(steps, entries, found, guid, k, |found|);
  }

  /** The bring-up succeeds and the hardware is quiet after its last snapshot. */
  predicate ComesUp(found: Found)
    requires found.opening.buttons.Some? && found.opening.axes.Some?
  {
    var tables := OpenTables(found.descriptor, found.opening);
    && BringUp(tables, Blank(found.opening), Start(found.opening)).ok
    && QuietDrain(AtLastSnapshot(tables, Blank(found.opening), Start(found.opening)))
  }

  lemma BroughtFollows(found: Found)
    requires found.opening.buttons.Some? && found.opening.axes.Some? && ComesUp(found)
    ensures Following(Brought(found))
  {
    BringUpStartsInStep(OpenTables(found.descriptor, found.opening), Blank(found.opening), Start(found.opening));
  }

  lemma OpeningScanTracks(ops: seq<Op>, states: seq<Change>, i: nat, guid: string, n: nat)
    requires Runs(ops, states) && i < |ops| && ops[i].Scan? && ops[i].found.Some?
    requires var found := ops[i].found.value;
             guid in Seen(found) && Tried(found, guid, n) && Opens(found[n].opening) && ComesUp(found[n])
    requires !Initialized(states[i].devices, guid)
    ensures Tracking(states[i + 1], guid)
  {
    var op := ops[i];
    RunSteps(ops, states, i);
    ScanBrings(states[i].devices, op.found.value, op.dropped, op.listed, guid, n);
    BroughtFollows(op.found.value[n]);
    RenamedFollows(Brought(op.found.value[n]), states[i + 1].devices[guid]);
  }

  /** From plug-in on, in any run: a device that a scan finds for the first time, and whose
      first good opening has inputs and brings it up, tracks exactly the hardware's state right
      after each poll tick, for as long as it stays plugged in and its polls are clean. */
  lemma PluggedInKeepsUp(ops: seq<Op>, states: seq<Change>, i: nat, k: nat, guid: string, n: nat)
    requires Runs(ops, states) && i < k <= |ops| && ops[i].Scan? && ops[i].found.Some?
    requires var found := ops[i].found.value;
             guid in Seen(found) && Tried(found, guid, n) && Opens(found[n].opening) && ComesUp(found[n])
    requires !Initialized(states[i].devices, guid)
    requires forall j | i < j <= k :: guid in states[j].devices
    requires forall j | i < j < k :: CleanIfTick(states[j], ops[j], guid)
    ensures Tracking(states[k], guid) && (ops[k - 1].Tick? ==> Caught(states[k], guid))
  {
    OpeningScanTracks(ops, states, i, guid, n);
    RunKeepsUp(ops, states, i + 1, k, guid);
  }

  // ---- The reports of a scan ----

  /** Entry k is an attempt to open a device, and it fails. */
  ghost predicate Fails(devices: Devices, found: seq<Found>, k: nat)
    requires k < |found|
  {
    var guid := found[k].descriptor.guid;
    !Initialized(devices, guid) && Tried(found, guid, k) && !Good(found[k].opening)
  }

  /** One report for each failed attempt among the first n entries, in order. */
  ghost function FailureReports(devices: Devices, found: seq<Found>, n: nat): seq<string>
    requires n <= |found|
  {
    if n == 0 then []
    else
      var descriptor := found[n - 1].descriptor;
      var name := if descriptor.productName != "" then descriptor.productName else descriptor.guid;
      FailureReports(devices, found, n - 1)
      + (if Fails(devices, found, n - 1) then ["controller: open " + name] else [])
  }

  ghost predicate ReportsAt(steps: seq<Progress>, found: seq<Found>, n: nat) {
    n <= |found| && n < |steps| && steps[n].errors == FailureReports(steps[0].devices, found, n)
  }

  lemma OneMoreReport(steps: seq<Progress>, entries: seq<Device>, found: seq<Found>, n: nat)
    requires Growth(steps, entries, found, |found|) && n < |found| && ReportsAt(steps, found, n)
    ensures ReportsAt(steps, found, n + 1)
  {
    var guid := found[n].descriptor.guid;
    GrowthOpens(steps, entries, found, guid, n);
    OneMoreTry(found, guid, n);
    assert GrowsAt(steps, entries, found, n);
  }

  lemma {:induction false} GrowthReports(steps: seq<Progress>, entries: seq<Device>, found: seq<Found>, n: nat)
    requires Growth(steps, entries, found, |found|) && n <= |found| && steps[0].errors == []
    ensures ReportsAt(steps, found, n)
  {
    if n == 0 {
    } else {
      GrowthReports(steps, entries, found, n - 1);
      OneMoreReport(steps, entries, found, n - 1);
    }
  }

  /** Each failed attempt is reported, once, in order, and nothing else is. */
  lemma AdmitAllReports(devices: Devices, found: seq<Found>)
    requires AllSound(devices)
    ensures Errors(AdmitAll(devices, found).calls) == FailureReports(devices, found, |found|)
  {
    var steps, entries := AdmitAllGrows(devices, found);
    GrowthReports(steps, entries, found, |found|);
  }

  lemma PartsErrors(opens: seq<SinkCall>, releases: seq<SinkCall>, list: seq<DeviceInfo>)
    requires forall k | 0 <= k < |releases| :: releases[k].EmitButton?
    ensures Errors(opens + releases + [SetDevices(list)]) == Errors(opens)
  {
    NoErrors(releases);
    OneError(SetDevices(list));
    ErrorsConcat(opens, releases);
    ErrorsConcat(opens + releases, [SetDevices(list)]);
  }

  lemma ScanReports(devices: Devices, found: seq<Found>, dropped: seq<string>, listed: seq<string>)
    requires AllSound(devices) && ScanOrders(devices, found, dropped, listed)
    ensures Errors(Sync(devices, found, dropped, listed).calls) == FailureReports(devices, found, |found|)
  {
    var list := SyncParts(devices, found, dropped, listed);
    var admitted := AdmitAll(devices, found);
    AdmitAllReports(devices, found);
    DropCallsAreEdges(admitted.devices, dropped);
    PartsErrors(admitted.calls, DropCalls(admitted.devices, dropped), list);
  }

  // ---- The published list ----

  /** Entry k is the last one about the device. */
  ghost predicate LastAbout(found: seq<Found>, guid: string, k: nat) {
    && k < |found| && found[k].descriptor.guid == guid
    && forall j | k < j < |found| :: found[j].descriptor.guid != guid
  }

  lemma {:induction false} GrowthNames(steps: seq<Progress>, entries: seq<Device>, found: seq<Found>, guid: string,
          k: nat, n: nat)
    requires Growth(steps, entries, found, |found|) && LastAbout(found, guid, k) && k < n <= |found|
    ensures guid in steps[n].devices && steps[n].devices[guid].descriptor == found[k].descriptor
    decreases n
  {
    assert GrowsAt(steps, entries, found, n - 1);
    if k == n - 1 {
    } else {
      GrowthNames(steps, entries, found, guid, k, n - 1);
    }
  }

  /** A device goes by the last descriptor enumerated for it. */
  lemma AdmitAllNames(devices: Devices, found: seq<Found>, guid: string, k: nat)
    requires AllSound(devices) && LastAbout(found, guid, k)
    ensures var after := AdmitAll(devices, found).devices;
            guid in after && after[guid].descriptor == found[k].descriptor
  {
    var steps, entries := AdmitAllGrows(devices, found);
    GrowthNames(steps, entries, found, guid, k, |found|);
  }

  /** The names and counts listed for a device. */
  lemma AttachedInfo(devices: Devices, found: seq<Found>, guid: string, k: nat)
    requires AllSound(devices) && LastAbout(found, guid, k) && guid in Attached(devices, found)
    ensures var d, descriptor := Attached(devices, found)[guid], found[k].descriptor;
            d.tables.info == DeviceInfo(guid, descriptor.productGuid, descriptor.instanceName,
                                        descriptor.productName, |d.tables.buttons|, |d.tables.axes|)
  {
    AdmitAllNames(devices, found, guid, k);
  }

  lemma {:induction false} LastExists(found: seq<Found>, guid: string) returns (k: nat)
    requires guid in Seen(found)
    ensures LastAbout(found, guid, k)
  {
    var n := |found| - 1;
    if found[n].descriptor.guid == guid {
      k := n;
    } else {
      k := LastExists(found[..n], guid);
      forall j | k < j < |found| ensures found[j].descriptor.guid != guid {
        if j < n { assert found[..n][j] == found[j]; }
      }
    }
  }

  /** An entry of the published list, from what was enumerated and what is in the table. */
  ghost predicate Publishes(attached: Devices, found: seq<Found>, guid: string, k: nat, info: DeviceInfo) {
    && LastAbout(found, guid, k) && guid in attached
    && var descriptor := found[k].descriptor;
       info == DeviceInfo(guid, descriptor.productGuid, descriptor.instanceName, descriptor.productName,
                          |attached[guid].tables.buttons|, |attached[guid].tables.axes|)
  }

  /** Of the published list: its order, product name first, and that it lists a device once. */
  ghost predicate InListOrder(list: seq<DeviceInfo>) {
    forall i, j | 0 <= i < j < |list| ::
      || StringLess(list[i].productName, list[j].productName)
      || (list[i].productName == list[j].productName && StringLess(list[i].instanceGuid, list[j].instanceGuid))
  }

  lemma WalkedListInOrder(devices: Devices, listed: seq<string>)
    requires Named(devices) && Walks(listed, devices.Keys)
    requires forall k | 0 <= k < |listed| :: listed[k] in devices
    ensures InListOrder(InsertionSort(InfoLess(), Infos(devices, listed)))
  {
    var infos := Infos(devices, listed);
    var list := InsertionSort(InfoLess(), infos);
    InfosOfWalk(devices, listed);
    InfoLessIsStrict();
    SortIsSortedPermutation(InfoLess(), infos);
    forall i, j | 0 <= i < j < |list|
      ensures StringLess(list[i].productName, list[j].productName)
           || (list[i].productName == list[j].productName && StringLess(list[i].instanceGuid, list[j].instanceGuid))
    {
      DistinctAfterSort(infos, list, i, j);
      MembersOf(infos, list, list[i]);
      MembersOf(infos, list, list[j]);
      StringLessTotal(list[i].productName, list[j].productName);
      StringLessTotal(list[i].instanceGuid, list[j].instanceGuid);
    }
  }

  lemma DistinctAfterSort(infos: seq<DeviceInfo>, list: seq<DeviceInfo>, i: nat, j: nat)
    requires NoRepeats(infos) && multiset(infos) == multiset(list) && i < j < |list|
    ensures list[i] != list[j]
  {
    OnceEach(infos, list[i]);
    assert list == list[..j] + list[j..];
    assert multiset(list) == multiset(list[..j]) + multiset(list[j..]);
    assert list[..j][i] == list[i] && list[j..][0] == list[j];
  }

  lemma PublishesTable(devices: Devices, found: seq<Found>, guid: string, k: nat, info: DeviceInfo)
    requires AllSound(devices) && LastAbout(found, guid, k)
    ensures Publishes(Attached(devices, found), found, guid, k, info)
       <==> guid in Attached(devices, found) && info == Attached(devices, found)[guid].tables.info
  {
    if guid in Attached(devices, found) {
      AttachedInfo(devices, found, guid, k);
    }
  }

  /** The list a scan publishes: one entry for each device it leaves in the table, ordered by
      product name and then GUID; each entry has the names last enumerated for its device and
      the sizes of its tables. */
  lemma PublishedList(devices: Devices, found: seq<Found>, dropped: seq<string>, listed: seq<string>,
          list: seq<DeviceInfo>, info: DeviceInfo)
    requires AllSound(devices) && ScanOrders(devices, found, dropped, listed)
    requires var calls := Sync(devices, found, dropped, listed).calls;
             calls != [] && calls[|calls| - 1] == SetDevices(list)
    ensures InListOrder(list)
    ensures info in list <==> exists guid, k: nat :: Publishes(Attached(devices, found), found, guid, k, info)
  {
    var attached := Attached(devices, found);
    WalksIndex(listed, attached.Keys);
    WalkedListInOrder(attached, listed);
    InfosOfWalk(attached, listed);
    InfoLessIsStrict();
    SortIsSortedPermutation(InfoLess(), Infos(attached, listed));
    MembersOf(Infos(attached, listed), list, info);
    if info in list {
      var guid :| guid in attached && attached[guid].tables.info == info;
      var k := LastExists(found, guid);
      PublishesTable(devices, found, guid, k, info);
    }
    if guid, k: nat :| Publishes(attached, found, guid, k, info) {
      PublishesTable(devices, found, guid, k, info);
    }
  }
}
