/** What the poll ticks of a run do, device by device: every opened device is polled once, and
    one that is in step tracks the hardware's state after each clean poll. */
module Polling {
  import opened ControllerTypes
  import opened Hardware
  import opened DeviceSpec
  import opened Traces
  import opened DeviceTheorems
  import opened DeviceLife
  import opened RuntimeSpec
  import opened RuntimeTheorems
  import opened Incarnations

  // ---- One tick ----

  predicate Names(call: SinkCall, guid: string) {
    Own(guid, [call])
  }

  /** The calls that name a device. */
  function About(calls: seq<SinkCall>, guid: string): seq<SinkCall> {
    if calls == [] then []
    else
      var last := calls[|calls| - 1];
      About(calls[..|calls| - 1], guid) + (if Names(last, guid) then [last] else [])
  }

  lemma {:induction false} AboutConcat(a: seq<SinkCall>, b: seq<SinkCall>, guid: string)
    ensures About(a + b, guid) == About(a, guid) + About(b, guid)
  {
    if b == [] {
      assert a + b == a;
    } else {
      var front, last := b[..|b| - 1], b[|b| - 1];
      AboutConcat(a, front, guid);
      assert (a + b)[..|a + b| - 1] == a + front;
      Associative(About(a, guid), About(front, guid), if Names(last, guid) then [last] else []);
    }
  }

  lemma {:induction false} AboutOwn(calls: seq<SinkCall>, owner: string, guid: string)
    requires Own(owner, calls)
    ensures About(calls, guid) == if guid == owner then calls else []
  {
    if calls == [] {
    } else {
      var front := calls[..|calls| - 1];
      AboutOwn(front, owner, guid);
      assert calls == front + [calls[|calls| - 1]];
    }
  }

  lemma PollIsOwn(d: Device)
    requires Sound(d)
    ensures Own(d.descriptor.guid, PollDevice(d).calls)
  {
    if d.machine.Some? {
      HeardPoll(d.tables, d.state, d.machine.value, map[]);
    }
  }

  /** The device is as it was, and nothing was said of it. */
  ghost predicate Untouched(d: Device, r: Change) {
    && d.descriptor.guid in r.devices && r.devices[d.descriptor.guid] == d
    && About(r.calls, d.descriptor.guid) == []
  }

  /** The device was polled once, and the sink was told what that poll tells. */
  ghost predicate Polled(d: Device, r: Change)
    requires Sound(d)
  {
    && d.descriptor.guid in r.devices && r.devices[d.descriptor.guid] == PollDevice(d).device
    && About(r.calls, d.descriptor.guid) == PollDevice(d).calls
  }

  lemma PollOneEach(devices: Devices, id: string, guid: string)
    requires AllSound(devices) && id in devices && guid in devices
    ensures guid == id ==> Polled(devices[guid], PollOne(devices, id))
    ensures guid != id ==> Untouched(devices[guid], PollOne(devices, id))
  {
    PollIsOwn(devices[id]);
    AboutOwn(PollDevice(devices[id]).calls, id, guid);
  }

  /** One device of a tick. */
  ghost predicate PollStep(before: Change, id: string, after: Change) {
    && AllSound(before.devices) && id in before.devices
    && var one := PollOne(before.devices, id);
       after == Change(one.devices, before.calls + one.calls)
  }

  lemma PollStepSelf(d: Device, before: Change, after: Change)
    requires Sound(d) && Untouched(d, before) && PollStep(before, d.descriptor.guid, after)
    ensures Polled(d, after)
  {
    var guid := d.descriptor.guid;
    var one := PollOne(before.devices, guid);
    PollOneEach(before.devices, guid, guid);
    AboutConcat(before.calls, one.calls, guid);
  }

  lemma PollStepOther(d: Device, before: Change, id: string, after: Change)
    requires Sound(d) && PollStep(before, id, after) && d.descriptor.guid != id
    ensures Untouched(d, before) ==> Untouched(d, after)
    ensures Polled(d, before) ==> Polled(d, after)
  {
    var guid := d.descriptor.guid;
    var one := PollOne(before.devices, id);
    AboutConcat(before.calls, one.calls, guid);
    if guid in before.devices {
      PollOneEach(before.devices, id, guid);
    }
  }

  predicate AllIn(devices: Devices, order: seq<string>) {
    forall k | 0 <= k < |order| :: order[k] in devices.Keys
  }

  /** The tick after some of its devices. */
  ghost predicate Reaches(devices: Devices, order: seq<string>, r: Change) {
    AllSound(devices) && AllIn(devices, order) && r == PollAll(devices, order)
  }

  lemma ReachesOn(devices: Devices, front: seq<string>, order: seq<string>, before: Change, after: Change)
    requires Reaches(devices, front, before) && Reaches(devices, order, after)
    requires order != [] && front == order[..|order| - 1]
    ensures PollStep(before, order[|order| - 1], after)
  {
  }

  predicate Before(order: seq<string>, n: nat, guid: string) {
    exists k :: 0 <= k < n <= |order| && order[k] == guid
  }

  lemma BeforeOn(order: seq<string>, n: nat, guid: string)
    requires n < |order| && Distinct(order)
    ensures Before(order, n + 1, guid) <==> Before(order, n, guid) || guid == order[n]
    ensures guid == order[n] ==> !Before(order, n, guid)
  {
    if guid == order[n] {
      assert order[n] == guid && Before(order, n + 1, guid);
    }
    if Before(order, n, guid) {
      var k :| 0 <= k < n && order[k] == guid;
    }
  }

  /** After the first n devices of a tick, this one was polled if it was among them. */
  ghost predicate PolledAt(order: seq<string>, d: Device, n: nat, r: Change) {
    Sound(d) && if Before(order, n, d.descriptor.guid) then Polled(d, r) else Untouched(d, r)
  }

  lemma PolledAtOn(order: seq<string>, d: Device, n: nat, before: Change, after: Change)
    requires n < |order| && Distinct(order) && PolledAt(order, d, n, before) && PollStep(before, order[n], after)
    ensures PolledAt(order, d, n + 1, after)
  {
    BeforeOn(order, n, d.descriptor.guid);
    if d.descriptor.guid == order[n] {
      PollStepSelf(d, before, after);
    } else {
      PollStepOther(d, before, order[n], after);
    }
  }

  /** The same, said of the tick itself. */
  ghost predicate PolledBy(devices: Devices, order: seq<string>, d: Device, n: nat) {
    && n <= |order| && AllSound(devices) && AllIn(devices, order[..n])
    && PolledAt(order, d, n, PollAll(devices, order[..n]))
  }

  lemma PolledByOn(devices: Devices, order: seq<string>, d: Device, n: nat, front: seq<string>, more: seq<string>)
    requires AllSound(devices) && AllIn(devices, front) && AllIn(devices, more) && n < |order|
    requires more != [] && front == more[..|more| - 1] && more[|more| - 1] == order[n]
    requires Distinct(order) && PolledAt(order, d, n, PollAll(devices, front))
    ensures PolledAt(order, d, n + 1, PollAll(devices, more))
  {
    var before, after := PollAll(devices, front), PollAll(devices, more);
    ReachesOn(devices, front, more, before, after);
    PolledAtOn(order, d, n, before, after);
  }

  lemma PrefixAndNext(devices: Devices, order: seq<string>, n: nat, front: seq<string>, more: seq<string>)
    requires AllIn(devices, order) && n < |order| && front == order[..n] && more == order[..n + 1]
    ensures AllIn(devices, front) && AllIn(devices, more)
    ensures more != [] && front == more[..|more| - 1] && more[|more| - 1] == order[n]
  {
  }

  /** A prefix and the next one. */
  lemma PolledBySlices(devices: Devices, order: seq<string>, d: Device, n: nat, front: seq<string>, more: seq<string>)
    requires Distinct(order) && AllIn(devices, order) && n < |order| && AllSound(devices)
    requires front == order[..n] && more == order[..n + 1] && PolledAt(order, d, n, PollAll(devices, front))
    ensures AllIn(devices, more) && PolledAt(order, d, n + 1, PollAll(devices, more))
  {
    PrefixAndNext(devices, order, n, front, more);
    PolledByOn(devices, order, d, n, front, more);
  }

  lemma PolledByStep(devices: Devices, order: seq<string>, d: Device, n: nat)
    requires Distinct(order) && AllIn(devices, order) && n < |order| && PolledBy(devices, order, d, n)
    ensures PolledBy(devices, order, d, n + 1)
  {
    PolledBySlices(devices, order, d, n, order[..n], order[..n + 1]);
  }

  lemma {:induction false} PolledThroughout(devices: Devices, order: seq<string>, d: Device, n: nat)
    requires PolledBy(devices, order, d, 0)
    requires forall k: nat | k < n :: PolledBy(devices, order, d, k) ==> PolledBy(devices, order, d, k + 1)
    ensures PolledBy(devices, order, d, n)
  {
    if n == 0 {
    } else {
      PolledThroughout(devices, order, d, n - 1);
    }
  }

  /** A tick polls each device it walks over once, from the state it had before the tick, and
      says of it what that poll says. */
  lemma PollAllEach(devices: Devices, order: seq<string>, guid: string)
    requires AllSound(devices) && Distinct(order) && AllIn(devices, order) && guid in devices && guid in order
    ensures Polled(devices[guid], PollAll(devices, order))
  {
    var d := devices[guid];
    assert order[..0] == [];
    forall k: nat | k < |order| && PolledBy(devices, order, d, k) ensures PolledBy(devices, order, d, k + 1) {
      PolledByStep(devices, order, d, k);
    }
    PolledThroughout(devices, order, d, |order|);
    assert order[..|order|] == order;
    assert Before(order, |order|, guid);
  }

  /** A tick of the run polls every device of the table. */
  lemma TickPollsEach(devices: Devices, order: seq<string>, guid: string)
    requires AllSound(devices) && Possible(devices, Tick(order)) && guid in devices
    ensures var r, polled := Perform(devices, Tick(order)), PollDevice(devices[guid]);
            && r.devices.Keys == devices.Keys && r.devices[guid] == polled.device
            && About(r.calls, guid) == polled.calls
  {
    assert forall k | 0 <= k < |order| :: order[k] in order;
    InOrder(order, devices.Keys, guid);
    PollAllEach(devices, order, guid);
  }

  /** The device tracks the hardware's state. */
  predicate Right(d: Device)
    requires Sound(d) && d.machine.Some?
  {
    Matches(d.tables, d.state, d.machine.value)
  }

  /** It will once it has read what is pending. */
  predicate Following(d: Device)
    requires Sound(d) && d.machine.Some?
  {
    InStep(d.tables, d.state, d.machine.value)
  }

  /** The next poll meets no failure, no overflow and no unannounced change. */
  predicate Undisturbed(d: Device)
    requires Sound(d) && d.machine.Some?
  {
    CleanPoll(d.machine.value)
  }

  lemma PollDeviceCatchesUp(d: Device)
    requires Sound(d) && d.machine.Some? && Following(d) && Undisturbed(d)
    ensures var r := PollDevice(d);
            && r.device.machine.Some? && Right(r.device) && Following(r.device)
            && (d.tables.buttons != [] || d.tables.axes != [] ==>
                  r.calls == Poll(d.tables, d.state, d.machine.value).calls)
  {
    PollCatchesUp(d.tables, d.state, d.machine.value);
  }

  /** After a tick an opened device that was in step, and whose poll was clean, tracks the
      hardware's state, and the sink was told what its poll tells. */
  lemma TickCatchesUp(devices: Devices, order: seq<string>, guid: string)
    requires AllSound(devices) && Possible(devices, Tick(order)) && Incarnations.Opened(devices, guid)
    requires Following(devices[guid]) && Undisturbed(devices[guid])
    ensures var r, d := Perform(devices, Tick(order)), devices[guid];
            && Incarnations.Opened(r.devices, guid) && Right(r.devices[guid]) && Following(r.devices[guid])
            && (d.tables.buttons != [] || d.tables.axes != [] ==>
                  About(r.calls, guid) == Poll(d.tables, d.state, d.machine.value).calls)
  {
    TickPollsEach(devices, order, guid);
    PollDeviceCatchesUp(devices[guid]);
  }

  // ---- A scan in between ----

  /** How a device is named makes no difference to what it tracks. */
  lemma {:induction false} NamesDoNotMatter(tb: Tables, named: Tables, s: Tracked, records: seq<Record>)
    requires WellFormed(tb) && Shaped(tb, s) && named.buttons == tb.buttons && named.axes == tb.axes
    ensures SeeRecords(named, s, records).state == SeeRecords(tb, s, records).state
  {
    if records == [] {
    } else {
      NamesDoNotMatter(tb, named, s, records[..|records| - 1]);
    }
  }

  /** The same device, but for its names. */
  predicate SameButNames(a: Device, b: Device) {
    && a.machine == b.machine && a.state == b.state
    && a.tables.buttons == b.tables.buttons && a.tables.axes == b.tables.axes
  }

  lemma RenamedFollows(d: Device, e: Device)
    requires Sound(d) && Sound(e) && d.machine.Some? && SameButNames(d, e)
    ensures Following(d) <==> Following(e)
  {
    NamesDoNotMatter(d.tables, e.tables, d.state, d.machine.value.queue);
  }

  lemma AdmitRenames(devices: Devices, found: Found, guid: string)
    requires AllSound(devices) && Incarnations.Opened(devices, guid)
    ensures var after := Admit(devices, found).devices;
            guid in after && SameButNames(devices[guid], after[guid])
  {
    assert Sound(devices[guid]);
    var entry := AdmitEntry(devices, found);
  }

  lemma {:induction false} AdmitAllRenames(devices: Devices, found: seq<Found>, guid: string)
    requires AllSound(devices) && Incarnations.Opened(devices, guid)
    ensures var after := AdmitAll(devices, found).devices;
            guid in after && SameButNames(devices[guid], after[guid])
  {
    if found == [] {
    } else {
      AdmitAllRenames(devices, found[..|found| - 1], guid);
      AdmitRenames(AdmitAll(devices, found[..|found| - 1]).devices, found[|found| - 1], guid);
    }
  }

  /** A scan that still finds an opened device changes nothing but its names. */
  lemma ScanRenames(devices: Devices, op: Op, guid: string)
    requires AllSound(devices) && Possible(devices, op) && op.Scan? && Incarnations.Opened(devices, guid)
    ensures var after := Perform(devices, op).devices;
            guid in after ==> SameButNames(devices[guid], after[guid])
  {
    if op.found.Some? {
      AdmitAllRenames(devices, op.found.value, guid);
    }
  }

  // ---- Whole runs ----

  /** One operation, for a device that stays opened. */
  ghost predicate Tracking(state: Change, guid: string) {
    && guid in state.devices && Sound(state.devices[guid]) && state.devices[guid].machine.Some?
    && Following(state.devices[guid])
  }

  ghost predicate Caught(state: Change, guid: string) {
    Tracking(state, guid) && Right(state.devices[guid])
  }

  ghost predicate CleanIfTick(state: Change, op: Op, guid: string) {
    op.Tick? && Tracking(state, guid) ==> Undisturbed(state.devices[guid])
  }

  lemma OpTracks(state: Change, op: Op, next: Change, guid: string)
    requires Steps(state, op, next) && AllSound(next.devices) && Tracking(state, guid)
    requires CleanIfTick(state, op, guid) && guid in next.devices
    ensures Tracking(next, guid) && (op.Tick? ==> Caught(next, guid))
  {
    if op.Tick? {
      TickCatchesUp(state.devices, op.order, guid);
    } else {
      ScanRenames(state.devices, op, guid);
      RenamedFollows(state.devices[guid], next.devices[guid]);
    }
  }

  /** One operation of a run, for a device that is there before and after it. */
  lemma RunTracks(ops: seq<Op>, states: seq<Change>, k: nat, guid: string)
    requires Runs(ops, states) && k < |ops| && Tracking(states[k], guid)
    requires CleanIfTick(states[k], ops[k], guid) && guid in states[k + 1].devices
    ensures Tracking(states[k + 1], guid) && (ops[k].Tick? ==> Caught(states[k + 1], guid))
  {
    RunSteps(ops, states, k);
    OpTracks(states[k], ops[k], states[k + 1], guid);
  }

  /** The operations from i to k, one by one. */
  ghost predicate Onward(ops: seq<Op>, states: seq<Change>, k: nat, guid: string) {
    && k < |ops| && k + 1 < |states|
    && (Tracking(states[k], guid) ==>
          Tracking(states[k + 1], guid) && (ops[k].Tick? ==> Caught(states[k + 1], guid)))
  }

  lemma {:induction false} OnwardKeepsUp(ops: seq<Op>, states: seq<Change>, i: nat, k: nat, guid: string)
    requires i <= k <= |ops| < |states| && Tracking(states[i], guid)
    requires forall j | i <= j < k :: Onward(ops, states, j, guid)
    ensures Tracking(states[k], guid) && (k > i && ops[k - 1].Tick? ==> Caught(states[k], guid))
    decreases k
  {
    if k == i {
    } else {
      OnwardKeepsUp(ops, states, i, k - 1, guid);
      assert Onward(ops, states, k - 1, guid);
    }
  }

  /** Over any run: a device that is in step at some point, and stays plugged in while its
      polls are clean, is in step from there on, through every scan and every other device's
      doings, and right after each poll tick it tracks exactly the hardware's state. */
  lemma RunKeepsUp(ops: seq<Op>, states: seq<Change>, i: nat, k: nat, guid: string)
    requires Runs(ops, states) && i <= k <= |ops| && Tracking(states[i], guid)
    requires forall j | i <= j <= k :: guid in states[j].devices
    requires forall j | i <= j < k :: CleanIfTick(states[j], ops[j], guid)
    ensures Tracking(states[k], guid) && (k > i && ops[k - 1].Tick? ==> Caught(states[k], guid))
  {
    forall j | i <= j < k ensures Onward(ops, states, j, guid) {
      assert CleanIfTick(states[j], ops[j], guid);
      if Tracking(states[j], guid) {
        RunTracks(ops, states, j, guid);
      }
    }
    OnwardKeepsUp(ops, states, i, k, guid);
  }
}
