/** directInputRuntime (directinput_windows.go:142-146, 168-210, 307-321): the device table and
    the loops over it.  Go walks a map in any order, so each method reports the order it happened
    to take; what it does is told by a function of the table with its devices as values. */
module Runtime {
  import opened ControllerTypes
  import opened Hardware
  import opened Traces
  import opened DeviceSpec
  import opened Sorting
  import opened RuntimeSpec
  import opened RuntimeDevices

  type Table = map<string, RuntimeDevice>

  // ---- Who owns what ----

  ghost predicate IsPart(part: object) {
    part is RuntimeDevice || part is array<bool> || part is InputDevice
  }

  ghost predicate OnlyParts(owners: map<object, string>) {
    forall part | part in owners :: IsPart(part)
  }

  /** Which entry of the table an object belongs to. */
  type Owners = owners: map<object, string> | OnlyParts(owners) ghost witness map[]

  /** Device id, its button states and its COM object are its own. */
  ghost predicate Owns(owners: Owners, id: string, d: RuntimeDevice)
    reads d
  {
    && d in owners && owners[d] == id
    && d.buttonState in owners && owners[d.buttonState] == id
    && (d.device != null ==> d.device in owners && owners[d.device] == id)
  }

  ghost predicate Apart(table: Table, owners: Owners)
    reads owners.Keys
  {
    forall id | id in table :: table[id] in owners && Owns(owners, id, table[id])
  }

  ghost function Views(table: Table, owners: Owners): (devices: Devices)
    requires Apart(table, owners)
    reads owners.Keys
    ensures devices.Keys == table.Keys
  {
    map id | id in table :: table[id].View()
  }

  ghost predicate AllValid(table: Table, owners: Owners)
    requires Apart(table, owners)
    reads owners.Keys
  {
    forall id | id in table :: table[id].Valid()
  }

  /** The same owners, and perhaps more. */
  ghost predicate Extends(owners: Owners, more: Owners) {
    forall part | part in owners :: part in more && more[part] == owners[part]
  }

  /** An entry that is as it was. */
  ghost predicate Kept(owners: Owners, id: string, d: RuntimeDevice, v: Device)
    reads d, d.buttonState, d.device
  {
    d.View() == v && d.Valid() && Owns(owners, id, d)
  }

  /** A device as it was, in an unchanged part of the heap. */
  twostate lemma OneStays(d: RuntimeDevice)
    requires unchanged(d) && unchanged(d.buttonState) && (d.device != null ==> unchanged(d.device))
    ensures d.View() == old(d.View()) && d.Valid() == old(d.Valid())
  {
  }

  lemma OwnsMore(owners: Owners, more: Owners, id: string, d: RuntimeDevice)
    requires Owns(owners, id, d) && Extends(owners, more)
    ensures Owns(more, id, d)
  {
  }

  /** An entry that has changed, or is new, and may have got parts of its own. */
  lemma Entered(table: Table, owners: Owners, before: Devices, id: string, more: Owners)
    requires id in table && before.Keys + {id} == table.Keys && Extends(owners, more)
    requires Owns(more, id, table[id]) && table[id].Valid()
    requires forall j | j in table && j != id :: Kept(owners, j, table[j], before[j])
    ensures Apart(table, more) && AllValid(table, more)
    ensures Views(table, more) == before[id := table[id].View()]
  {
    forall j | j in table ensures Owns(more, j, table[j]) {
      if j != id { OwnsMore(owners, more, j, table[j]); }
    }
  }

  /** An entry that has been taken away. */
  lemma Removed(table: Table, owners: Owners, before: Devices, id: string)
    requires id in before && id !in table && table.Keys == before.Keys - {id}
    requires forall j | j in table :: Kept(owners, j, table[j], before[j])
    ensures Apart(table, owners) && AllValid(table, owners)
    ensures Views(table, owners) == before - {id}
  {
  }

  /** An entry that has changed and owns what it did. */
  lemma Changed(table: Table, owners: Owners, before: Devices, id: string)
    requires id in table && before.Keys == table.Keys && Owns(owners, id, table[id]) && table[id].Valid()
    requires forall j | j in table && j != id :: Kept(owners, j, table[j], before[j])
    ensures Apart(table, owners) && AllValid(table, owners)
    ensures Views(table, owners) == before[id := table[id].View()]
  {
  }

  // ---- Walks ----

  /** So far the devices in `order` have been polled. */
  ghost predicate Polled(before: Devices, order: seq<string>, done: Change) {
    AllSound(before) && Within(order, before.Keys) && done == PollAll(before, order)
  }

  ghost function PollOf(done: Change, id: string): seq<SinkCall>
    requires id in done.devices && Sound(done.devices[id])
  {
    RuntimeSpec.PollDevice(done.devices[id]).calls
  }

  ghost function AfterPoll(done: Change, id: string): Change
    requires id in done.devices && Sound(done.devices[id])
  {
    Change(done.devices[id := RuntimeSpec.PollDevice(done.devices[id]).device], done.calls + PollOf(done, id))
  }

  lemma PolledOn(before: Devices, order: seq<string>, done: Change, id: string)
    requires Polled(before, order, done) && id in before
    ensures id in done.devices && Sound(done.devices[id]) && Polled(before, order + [id], AfterPoll(done, id))
  {
    SoundAt(done.devices, id);
    WithinOn(order, before.Keys, id);
    PollOn(before, order, id);
  }

  lemma WithinOn(order: seq<string>, keys: set<string>, id: string)
    requires Within(order, keys) && id in keys
    ensures Within(order + [id], keys)
  {
  }

  /** These have been released. */
  ghost predicate Dropped(before: Devices, dropped: seq<string>) {
    AllSound(before) && Within(dropped, before.Keys)
  }

  lemma DroppedOn(before: Devices, dropped: seq<string>, id: string, base: seq<SinkCall>)
    requires Dropped(before, dropped) && id in before
    ensures Dropped(before, dropped + [id]) && Sound(before[id])
    ensures base + DropCalls(before, dropped) + ReleaseCalls(before[id]) == base + DropCalls(before, dropped + [id])
  {
    SoundAt(before, id);
    WithinOn(dropped, before.Keys, id);
    DropOn(before, dropped, id);
    Associative(base, DropCalls(before, dropped), ReleaseCalls(before[id]));
  }

  /** Those in `remaining` still have to be refreshed. */
  ghost function Partly(before: Devices, remaining: set<string>): Devices {
    map id | id in before :: if id in remaining then before[id] else Refreshed(before[id])
  }

  lemma PartlyOn(before: Devices, remaining: set<string>, id: string)
    requires id in before && id in remaining
    ensures Partly(before, remaining)[id] == before[id]
    ensures Partly(before, remaining)[id := Refreshed(before[id])] == Partly(before, remaining - {id})
  {
  }

  lemma PartlyEnds(before: Devices)
    ensures Partly(before, before.Keys) == before && Partly(before, {}) == RefreshAll(before)
  {
  }

  ghost function PublishedList(kept: Devices, listed: seq<string>): seq<SinkCall>
    requires Within(listed, kept.Keys)
  {
    [SetDevices(InsertionSort(InfoLess(), Infos(RefreshAll(kept), listed)))]
  }

  /** What the three loops of syncDevices and the publication amount to. */
  lemma SyncIs(devices: Devices, found: seq<Found>, dropped: seq<string>, listed: seq<string>, kept: Devices,
          base: seq<SinkCall>)
    requires AllSound(devices)
    requires kept == AdmitAll(devices, found).devices - (AdmitAll(devices, found).devices.Keys - Seen(found))
    requires Walks(dropped, AdmitAll(devices, found).devices.Keys - Seen(found)) && Walks(listed, kept.Keys)
    requires Within(listed, kept.Keys) && Within(dropped, AdmitAll(devices, found).devices.Keys)
    ensures ScanOrders(devices, found, dropped, listed)
    ensures var r, admitted := Sync(devices, found, dropped, listed), AdmitAll(devices, found);
            && r.devices == RefreshAll(kept)
            && base + admitted.calls + DropCalls(admitted.devices, dropped) + PublishedList(kept, listed)
               == base + r.calls
  {
    var admitted := AdmitAll(devices, found);
    assert kept.Keys == Seen(found);
    Associative(base, admitted.calls, DropCalls(admitted.devices, dropped));
    Associative(base, admitted.calls + DropCalls(admitted.devices, dropped), PublishedList(kept, listed));
  }

  // ---- One device ----

  /** The table's device for a descriptor, or a new one. */
  ghost function EntryFor(devices: Devices, descriptor: Descriptor): Device {
    if descriptor.guid in devices then devices[descriptor.guid].(descriptor := descriptor) else Fresh(descriptor)
  }

  /** What the first loop of syncDevices does to it. */
  ghost function AdmitDevice(known: Device, found: Found): Acted
    requires Sound(known) && (!known.initialized ==> known.machine.None?)
  {
    if known.initialized then Acted(known, [])
    else
      var r := Initialize(known, found.opening);
      Acted(r.device, if r.ok then r.calls else r.calls + [OpenFailure(found.descriptor)])
  }

  /** So far these have been admitted. */
  ghost predicate Admitted(before: Devices, found: seq<Found>, done: Change) {
    AllSound(before) && done == AdmitAll(before, found)
  }

  ghost predicate Admissible(devices: Devices, found: Found) {
    var known := EntryFor(devices, found.descriptor);
    Sound(known) && (!known.initialized ==> known.machine.None?)
  }

  ghost function AdmitOf(done: Change, found: Found): Acted
    requires Admissible(done.devices, found)
  {
    AdmitDevice(EntryFor(done.devices, found.descriptor), found)
  }

  ghost function AfterAdmit(done: Change, found: Found): Change
    requires Admissible(done.devices, found)
  {
    var r := AdmitOf(done, found);
    Change(done.devices[found.descriptor.guid := r.device], done.calls + r.calls)
  }

  lemma AdmitIs(devices: Devices, found: Found)
    requires AllSound(devices)
    ensures Admissible(devices, found)
    ensures var r := AdmitDevice(EntryFor(devices, found.descriptor), found);
            RuntimeSpec.Admit(devices, found) == Change(devices[found.descriptor.guid := r.device], r.calls)
  {
    var known := Known(devices, found.descriptor);
  }

  lemma AdmittedOn(before: Devices, found: seq<Found>, k: nat, done: Change)
    requires k < |found| && Admitted(before, found[..k], done)
    ensures Admissible(done.devices, found[k]) && Admitted(before, found[..k + 1], AfterAdmit(done, found[k]))
    ensures Seen(found[..k + 1]) == Seen(found[..k]) + {found[k].descriptor.guid}
  {
    AdmitOn(before, found, k);
    AdmitIs(done.devices, found[k]);
  }

  /** The owners with the COM object a device has got. */
  ghost function WithDevice(owners: Owners, d: RuntimeDevice, id: string): Owners
    reads d
  {
    if d.device == null then owners else owners[d.device as object := id]
  }

  /** The owners with all parts of a new device. */
  ghost function WithParts(owners: Owners, d: RuntimeDevice, id: string): Owners
    reads d
  {
    WithDevice(owners[d := id][d.buttonState := id], d, id)
  }

  lemma PartsOwned(owners: Owners, d: RuntimeDevice, id: string)
    requires d !in owners && d.buttonState !in owners && (d.device != null ==> d.device !in owners)
    ensures var more := WithParts(owners, d, id);
            && Extends(owners, more) && Owns(more, id, d)
            && (forall part | part in more ::
                  part in owners || part == d || part == d.buttonState || (d.device != null && part == d.device))
  {
  }

  /** The body of that loop, once there is an entry. */
  method Bring(device: RuntimeDevice, found: Found, sink: Sink)
    requires device.Valid() && Sound(device.View().(descriptor := found.descriptor))
    modifies device, device.buttonState, sink
    ensures device.Valid()
    ensures device.device != old(device.device) ==> device.device != null && fresh(device.device)
    ensures var r := AdmitDevice(old(device.View()).(descriptor := found.descriptor), found);
            device.View() == r.device && sink.calls == old(sink.calls) + r.calls
  {
    device.descriptor := found.descriptor;
    assert sink.calls + [] == sink.calls;
    if !device.initialized {
      ghost var attempt := Initialize(device.View(), found.opening);
      Associative(sink.calls, attempt.calls, [OpenFailure(found.descriptor)]);
      var ok := device.Initialize(found.opening, sink);
      if !ok {
        sink.Call(OpenFailure(found.descriptor));
      }
    }
  }

  class DirectInputRuntime {
    var devices: Table
    ghost var owners: Owners

    ghost predicate Valid()
      reads this, owners.Keys
    {
      Apart(devices, owners) && AllValid(devices, owners)
    }

    /** The table with its devices as values. */
    ghost function View(): Devices
      requires Valid()
      reads this, owners.Keys
    {
      Views(devices, owners)
    }

    constructor ()
      ensures devices == map[] && Valid() && View() == map[] && owners == map[]
    {
      devices := map[];
      owners := map[];
    }

    /** The parts an entry has got are entered. */
    ghost method Own(before: Devices, id: string, more: Owners)
      requires id in devices && before.Keys + {id} == devices.Keys
      requires Extends(owners, more) && Owns(more, id, devices[id]) && devices[id].Valid()
      requires forall j | j in devices && j != id :: Kept(owners, j, devices[j], before[j])
      modifies this`owners
      ensures owners == more && Valid() && View() == before[id := devices[id].View()]
    {
      ghost var known := owners;
      owners := more;
      forall j | j in devices ensures devices[j].View() == old(devices[j].View()) && devices[j].Valid() {
        OneStays(devices[j]);
      }
      Entered(devices, known, before, id, more);
    }

    // ---- poll ----

    /** One device is polled; the others keep still. */
    method PollDevice(id: string, sink: Sink)
      requires Valid() && id in devices && Sound(devices[id].View())
      modifies devices[id], devices[id].buttonState, devices[id].device, sink
      ensures Owns(owners, id, devices[id]) && devices[id].Valid()
      ensures var r := RuntimeSpec.PollDevice(old(devices[id].View()));
              devices[id].View() == r.device && sink.calls == old(sink.calls) + r.calls
      ensures forall j | j in devices && j != id :: Kept(owners, j, devices[j], old(View())[j])
    {
      var device := devices[id];
      assert Owns(owners, id, device);
      device.Poll(sink);
      forall j | j in devices && j != id ensures Kept(owners, j, devices[j], old(View())[j]) {
        assert old(Owns(owners, j, devices[j]));
        OneStays(devices[j]);
      }
    }

    method PollOne(id: string, sink: Sink)
      requires Valid() && id in devices && Sound(devices[id].View())
      modifies owners.Keys, sink
      ensures Valid() && devices == old(devices) && owners == old(owners)
      ensures var r := RuntimeSpec.PollDevice(old(devices[id].View()));
              View() == old(View())[id := r.device] && sink.calls == old(sink.calls) + r.calls
    {
      ghost var before := View();
      assert Owns(owners, id, devices[id]);
      PollDevice(id, sink);
      Changed(devices, owners, before, id);
    }

    /** The next device of a walk. */
    method PollNext(id: string, sink: Sink, ghost before: Devices, ghost order: seq<string>, ghost done: Change)
      requires Valid() && id in devices && View() == done.devices
      requires Polled(before, order, done) && id in before && id in done.devices && Sound(done.devices[id])
      modifies owners.Keys, sink
      ensures Valid() && devices == old(devices) && owners == old(owners)
      ensures Polled(before, order + [id], AfterPoll(done, id)) && View() == AfterPoll(done, id).devices
      ensures sink.calls == old(sink.calls) + PollOf(done, id)
    {
      PolledOn(before, order, done, id);
      PollOne(id, sink);
    }

    method Poll(sink: Sink) returns (ghost order: seq<string>)
      requires Valid() && AllSound(View())
      modifies owners.Keys, sink
      ensures Valid() && Walks(order, old(View()).Keys) && Within(order, old(View()).Keys)
      ensures var r := PollAll(old(View()), order);
              View() == r.devices && sink.calls == old(sink.calls) + r.calls
    {
      order := [];
      ghost var before, base := View(), sink.calls;
      ghost var done := PollAll(before, order);
      assert base + done.calls == base;
      var remaining := devices.Keys;
      while remaining != {}
        invariant Valid() && devices == old(devices) && owners == old(owners)
        invariant remaining <= before.Keys && Walks(order, before.Keys - remaining)
        invariant Polled(before, order, done) && View() == done.devices && sink.calls == base + done.calls
        decreases remaining
      {
        var id :| id in remaining;
        WalkOn(order, before.Keys, remaining, id);
        Associative(base, done.calls, PollOf(done, id));
        PollNext(id, sink, before, order, done);
        done := AfterPoll(done, id);
        remaining, order := remaining - {id}, order + [id];
      }
    }

    // ---- The first loop of syncDevices ----

    /** A device the table knows; the others keep still. */
    method BringKnown(id: string, found: Found, sink: Sink)
      requires Valid() && id in devices && Sound(devices[id].View().(descriptor := found.descriptor))
      modifies devices[id], devices[id].buttonState, sink
      ensures var more := WithDevice(owners, devices[id], id);
              && Extends(owners, more) && Owns(more, id, devices[id])
              && (forall part | part in more :: part in owners || fresh(part))
      ensures devices[id].Valid()
      ensures var r := AdmitDevice(old(devices[id].View()).(descriptor := found.descriptor), found);
              devices[id].View() == r.device && sink.calls == old(sink.calls) + r.calls
      ensures forall j | j in devices && j != id :: Kept(owners, j, devices[j], old(View())[j])
    {
      var device := devices[id];
      assert Owns(owners, id, device);
      Bring(device, found, sink);
      forall j | j in devices && j != id ensures Kept(owners, j, devices[j], old(View())[j]) {
        assert old(Owns(owners, j, devices[j]));
        OneStays(devices[j]);
      }
    }

    /** A device met for the first time, before it is in the table. */
    method BringNew(found: Found, sink: Sink) returns (device: RuntimeDevice)
      requires Valid() && Sound(Fresh(found.descriptor))
      modifies sink
      ensures fresh(device) && fresh(device.buttonState) && (device.device != null ==> fresh(device.device))
      ensures device !in owners && device.buttonState !in owners
      ensures device.device != null ==> device.device !in owners
      ensures device.Valid()
      ensures var r := AdmitDevice(Fresh(found.descriptor), found);
              device.View() == r.device && sink.calls == old(sink.calls) + r.calls
      ensures forall j | j in devices :: Kept(owners, j, devices[j], old(View())[j])
    {
      device := new RuntimeDevice(found.descriptor);
      Bring(device, found, sink);
      forall j | j in devices ensures Kept(owners, j, devices[j], old(View())[j]) {
        assert old(Owns(owners, j, devices[j]));
        OneStays(devices[j]);
      }
    }

    /** The device enters the table, and its parts are its own. */
    method Insert(id: string, device: RuntimeDevice, ghost before: Devices)
      requires id !in devices && before.Keys == devices.Keys && device.Valid()
      requires device !in owners && device.buttonState !in owners
      requires device.device != null ==> device.device !in owners
      requires forall j | j in devices :: Kept(owners, j, devices[j], before[j])
      modifies this
      ensures Valid() && View() == before[id := old(device.View())]
      ensures forall part | part in owners ::
                || part in old(owners) || part == device || part == device.buttonState
                || (device.device != null && part == device.device)
    {
      ghost var table := devices;
      ghost var more := WithParts(owners, device, id);
      PartsOwned(owners, device, id);
      devices := devices[id := device];
      OneStays(device);
      forall j | j in table ensures Kept(owners, j, table[j], before[j]) {
        OneStays(table[j]);
      }
      Own(before, id, more);
    }

    method AdmitKnown(found: Found, sink: Sink)
      requires Valid() && found.descriptor.guid in devices && Sound(EntryFor(View(), found.descriptor))
      modifies this`owners, owners.Keys, sink
      ensures Valid() && (forall part | part in owners :: part in old(owners) || fresh(part))
      ensures var id, r := found.descriptor.guid, AdmitDevice(EntryFor(old(View()), found.descriptor), found);
              View() == old(View())[id := r.device] && sink.calls == old(sink.calls) + r.calls
    {
      var id := found.descriptor.guid;
      ghost var before := View();
      assert Owns(owners, id, devices[id]);
      BringKnown(id, found, sink);
      Own(before, id, WithDevice(owners, devices[id], id));
    }

    method AdmitNew(found: Found, sink: Sink)
      requires Valid() && found.descriptor.guid !in devices && Sound(Fresh(found.descriptor))
      modifies this, sink
      ensures Valid() && (forall part | part in owners :: part in old(owners) || fresh(part))
      ensures var id, r := found.descriptor.guid, AdmitDevice(Fresh(found.descriptor), found);
              View() == old(View())[id := r.device] && sink.calls == old(sink.calls) + r.calls
    {
      var id := found.descriptor.guid;
      ghost var before := View();
      var device := BringNew(found, sink);
      Insert(id, device, before);
    }

    /** One pass of the loop. */
    method AdmitOne(found: Found, sink: Sink)
      requires Valid() && Sound(EntryFor(View(), found.descriptor))
      modifies this, owners.Keys, sink
      ensures Valid() && (forall part | part in owners :: part in old(owners) || fresh(part))
      ensures var id, r := found.descriptor.guid, AdmitDevice(EntryFor(old(View()), found.descriptor), found);
              View() == old(View())[id := r.device] && sink.calls == old(sink.calls) + r.calls
    {
      if found.descriptor.guid in devices {
        AdmitKnown(found, sink);
      } else {
        AdmitNew(found, sink);
      }
    }

    method Admit(found: seq<Found>, sink: Sink) returns (seen: set<string>)
      requires Valid() && AllSound(View())
      modifies this, owners.Keys, sink
      ensures Valid() && (forall part | part in owners :: part in old(owners) || fresh(part)) && seen == Seen(found)
      ensures var r := AdmitAll(old(View()), found);
              View() == r.devices && sink.calls == old(sink.calls) + r.calls
    {
      seen := {};
      ghost var before, base := View(), sink.calls;
      ghost var done := AdmitAll(before, []);
      assert base + done.calls == base && found[..0] == [];
      for k := 0 to |found|
        invariant Valid() && seen == Seen(found[..k])
        invariant forall part | part in owners :: part in old(owners) || fresh(part)
        invariant Admitted(before, found[..k], done) && View() == done.devices && sink.calls == base + done.calls
      {
        AdmittedOn(before, found, k, done);
        Associative(base, done.calls, AdmitOf(done, found[k]).calls);
        AdmitOne(found[k], sink);
        done := AfterAdmit(done, found[k]);
        seen := seen + {found[k].descriptor.guid};
      }
      assert found[..|found|] == found;
    }

    // ---- Releasing ----

    /** One device is released; the others keep still. */
    method ReleaseDevice(id: string, sink: Sink)
      requires Valid() && id in devices && Sound(devices[id].View())
      modifies devices[id], devices[id].buttonState, sink
      ensures sink.calls == old(sink.calls) + ReleaseCalls(old(devices[id].View()))
      ensures forall j | j in devices && j != id :: Kept(owners, j, devices[j], old(View())[j])
    {
      var device := devices[id];
      assert Owns(owners, id, device);
      device.Release(sink);
      forall j | j in devices && j != id ensures Kept(owners, j, devices[j], old(View())[j]) {
        assert old(Owns(owners, j, devices[j]));
        OneStays(devices[j]);
      }
    }

    method Delete(id: string, ghost before: Devices)
      requires id in devices && before.Keys == devices.Keys
      requires forall j | j in devices && j != id :: Kept(owners, j, devices[j], before[j])
      modifies this`devices
      ensures Valid() && devices == old(devices) - {id} && View() == before - {id}
    {
      devices := devices - {id};
      forall j | j in devices ensures Kept(owners, j, devices[j], before[j]) {
        OneStays(devices[j]);
      }
      Removed(devices, owners, before, id);
    }

    method ReleaseOne(id: string, sink: Sink)
      requires Valid() && id in devices && Sound(devices[id].View())
      modifies this`devices, owners.Keys, sink
      ensures Valid() && owners == old(owners) && devices == old(devices) - {id} && View() == old(View()) - {id}
      ensures sink.calls == old(sink.calls) + ReleaseCalls(old(devices[id].View()))
    {
      ghost var before := View();
      assert Owns(owners, id, devices[id]);
      ReleaseDevice(id, sink);
      Delete(id, before);
    }

    /** The loops that release devices: those not `kept`, in the order Go meets them. */
    method Drop(kept: set<string>, sink: Sink) returns (ghost dropped: seq<string>)
      requires Valid() && AllSound(View())
      modifies this`devices, owners.Keys, sink
      ensures Valid() && Walks(dropped, old(View()).Keys - kept) && Within(dropped, old(View()).Keys)
      ensures View() == old(View()) - (old(View()).Keys - kept)
      ensures sink.calls == old(sink.calls) + DropCalls(old(View()), dropped)
    {
      dropped := [];
      ghost var before, base := View(), sink.calls;
      assert base + DropCalls(before, dropped) == base;
      var remaining := devices.Keys;
      while remaining != {}
        invariant Valid() && owners == old(owners) && remaining <= before.Keys
        invariant Walks(dropped, before.Keys - kept - remaining) && Dropped(before, dropped)
        invariant View() == before - (before.Keys - kept - remaining)
        invariant sink.calls == base + DropCalls(before, dropped)
        decreases remaining
      {
        var id :| id in remaining;
        if id in kept {
          KeptOn(before.Keys, kept, remaining, id);
        } else {
          WalkOnDropped(dropped, before, kept, remaining, id);
          DroppedOn(before, dropped, id, base);
          ReleaseOne(id, sink);
          dropped := dropped + [id];
        }
        remaining := remaining - {id};
      }
      KeptAll(before.Keys, kept);
    }

    // ---- The last loop of syncDevices ----

    method RefreshOne(id: string) returns (info: DeviceInfo)
      requires Valid() && id in devices
      modifies devices[id]
      ensures Valid() && View() == old(View())[id := Refreshed(old(devices[id].View()))]
      ensures info == View()[id].tables.info
    {
      ghost var before := View();
      var device := devices[id];
      assert Owns(owners, id, device);
      device.RefreshInfo();
      assert Owns(owners, id, device) && device.Valid();
      forall j | j in devices && j != id ensures Kept(owners, j, devices[j], before[j]) {
        assert old(Owns(owners, j, devices[j]));
        OneStays(devices[j]);
      }
      Changed(devices, owners, before, id);
      info := device.info;
    }

    method Refresh() returns (infos: seq<DeviceInfo>, ghost listed: seq<string>)
      requires Valid()
      modifies owners.Keys
      ensures Valid() && devices == old(devices) && owners == old(owners)
      ensures Walks(listed, old(View()).Keys) && Within(listed, old(View()).Keys)
      ensures View() == RefreshAll(old(View())) && infos == Infos(View(), listed)
    {
      infos, listed := [], [];
      ghost var before := View();
      ghost var after := RefreshAll(before);
      var remaining := devices.Keys;
      PartlyEnds(before);
      while remaining != {}
        invariant Valid() && devices == old(devices) && owners == old(owners) && remaining <= before.Keys
        invariant Walks(listed, before.Keys - remaining) && Within(listed, before.Keys)
        invariant View() == Partly(before, remaining)
        invariant infos == Infos(after, listed)
        decreases remaining
      {
        var id :| id in remaining;
        WalkOn(listed, before.Keys, remaining, id);
        InfosOn(after, listed, id);
        PartlyOn(before, remaining, id);
        assert Owns(owners, id, devices[id]);
        var info := RefreshOne(id);
        infos := infos + [info];
        remaining := remaining - {id};
        listed := listed + [id];
      }
    }

    /** sortDeviceInfos */
    method SortInfos(infos: seq<DeviceInfo>) returns (sorted: seq<DeviceInfo>)
      ensures sorted == InsertionSort(InfoLess(), infos)
    {
      var list := new DeviceInfo[|infos|](k requires 0 <= k < |infos| => infos[k]);
      assert list[..] == infos;
      SortInPlace(list, InfoLess());
      sorted := list[..];
    }

    /** setDevices on the sink. */
    method Publish(list: seq<DeviceInfo>, sink: Sink)
      requires Valid()
      modifies sink
      ensures Valid() && View() == old(View()) && sink.calls == old(sink.calls) + [SetDevices(list)]
    {
      assert sink !in owners;
      sink.Call(SetDevices(list));
    }

    /** The first two loops. */
    method AdmitAndDrop(found: seq<Found>, sink: Sink) returns (ghost dropped: seq<string>)
      requires Valid() && AllSound(View())
      modifies this, owners.Keys, sink
      ensures Valid() && (forall part | part in owners :: part in old(owners) || fresh(part))
      ensures var r := AdmitAll(old(View()), found);
              && Walks(dropped, r.devices.Keys - Seen(found)) && Within(dropped, r.devices.Keys)
              && View() == r.devices - (r.devices.Keys - Seen(found))
              && sink.calls == old(sink.calls) + r.calls + DropCalls(r.devices, dropped)
    {
      var seen := Admit(found, sink);
      dropped := Drop(seen, sink);
    }

    /** The third, and the publication. */
    method RefreshAndPublish(sink: Sink) returns (ghost listed: seq<string>)
      requires Valid()
      modifies owners.Keys, sink
      ensures Valid() && owners == old(owners)
      ensures Walks(listed, old(View()).Keys) && Within(listed, old(View()).Keys)
      ensures View() == RefreshAll(old(View())) && sink.calls == old(sink.calls) + PublishedList(old(View()), listed)
    {
      assert sink !in owners;
      var infos;
      infos, listed := Refresh();
      var list := SortInfos(infos);
      Publish(list, sink);
    }

    /** What follows an enumeration that succeeds. */
    method SyncFound(found: seq<Found>, sink: Sink) returns (ghost dropped: seq<string>, ghost listed: seq<string>)
      requires Valid() && AllSound(View())
      modifies this, owners.Keys, sink
      ensures Valid() && (forall part | part in owners :: part in old(owners) || fresh(part))
      ensures ScanOrders(old(View()), found, dropped, listed)
      ensures var r := Sync(old(View()), found, dropped, listed);
              View() == r.devices && sink.calls == old(sink.calls) + r.calls
    {
      ghost var before, base := View(), sink.calls;
      dropped := AdmitAndDrop(found, sink);
      ghost var kept := View();
      listed := RefreshAndPublish(sink);
      SyncIs(before, found, dropped, listed, kept, base);
    }

    method SyncDevices(found: Option<seq<Found>>, sink: Sink)
      returns (ok: bool, ghost dropped: seq<string>, ghost listed: seq<string>)
      requires Valid() && AllSound(View())
      modifies this, owners.Keys, sink
      ensures Valid() && (forall part | part in owners :: part in old(owners) || fresh(part))
      ensures ok == found.Some?
      ensures !ok ==> View() == old(View()) && sink.calls == old(sink.calls)
      ensures ok ==>
        && ScanOrders(old(View()), found.value, dropped, listed)
        && var r := Sync(old(View()), found.value, dropped, listed);
           View() == r.devices && sink.calls == old(sink.calls) + r.calls
    {
      dropped, listed := [], [];
      ok := found.Some?;
      if ok {
        dropped, listed := SyncFound(found.value, sink);
      }
    }

    method ReleaseAll(sink: Sink) returns (ghost order: seq<string>)
      requires Valid() && AllSound(View())
      modifies this`devices, owners.Keys, sink
      ensures Valid() && Walks(order, old(View()).Keys)
      ensures var r := RuntimeSpec.ReleaseAll(old(View()), order);
              View() == r.devices && sink.calls == old(sink.calls) + r.calls
    {
      ghost var before, base := View(), sink.calls;
      order := Drop({}, sink);
      assert before.Keys - {} == before.Keys;
      Associative(base, DropCalls(before, order), [SetDevices([])]);
      Publish([], sink);
    }
  }

  ghost predicate Within(order: seq<string>, keys: set<string>) {
    forall k | 0 <= k < |order| :: order[k] in keys
  }

  /** A walk over part of a map, one key further. */
  lemma WalkOn(order: seq<string>, keys: set<string>, remaining: set<string>, id: string)
    requires remaining <= keys && Walks(order, keys - remaining) && id in remaining
    ensures Walks(order + [id], keys - (remaining - {id}))
  {
    assert id !in order;
    forall x ensures x in order + [id] <==> x in keys - (remaining - {id}) {}
  }

  lemma KeptOn(keys: set<string>, kept: set<string>, remaining: set<string>, id: string)
    requires id in kept
    ensures keys - kept - (remaining - {id}) == keys - kept - remaining
  {
  }

  lemma KeptAll(keys: set<string>, kept: set<string>)
    ensures keys - kept - {} == keys - kept
  {
  }

  /** The same for a walk that leaves out what is kept. */
  lemma WalkOnDropped(dropped: seq<string>, before: Devices, kept: set<string>, remaining: set<string>, id: string)
    requires remaining <= before.Keys && Walks(dropped, before.Keys - kept - remaining)
    requires id in remaining && id !in kept && Within(dropped, before.Keys)
    ensures Walks(dropped + [id], before.Keys - kept - (remaining - {id})) && Within(dropped + [id], before.Keys)
    ensures before - (before.Keys - kept - remaining) - {id} == before - (before.Keys - kept - (remaining - {id}))
  {
    assert id !in dropped;
    forall x ensures x in dropped + [id] <==> x in before.Keys - kept - (remaining - {id}) {}
  }

  lemma SoundAt(devices: Devices, id: string)
    requires AllSound(devices) && id in devices
    ensures Sound(devices[id])
  {
  }

  lemma InfosOn(devices: Devices, order: seq<string>, id: string)
    requires Within(order, devices.Keys) && id in devices
    ensures Within(order + [id], devices.Keys)
    ensures Infos(devices, order + [id]) == Infos(devices, order) + [devices[id].tables.info]
  {
  }

  lemma Appended<T>(s: seq<T>, x: T)
    ensures (s + [x])[..|s + [x]| - 1] == s && (s + [x])[|s + [x]| - 1] == x
  {
  }

  lemma PollLast(devices: Devices, order: seq<string>)
    requires AllSound(devices) && Within(order, devices.Keys) && order != []
    ensures var front := PollAll(devices, order[..|order| - 1]);
            var last := PollOne(front.devices, order[|order| - 1]);
            PollAll(devices, order) == Change(last.devices, front.calls + last.calls)
  {
  }

  lemma PollOn(devices: Devices, order: seq<string>, id: string)
    requires AllSound(devices) && Within(order, devices.Keys) && Within(order + [id], devices.Keys) && id in devices
    ensures var front := PollAll(devices, order);
            var last := PollOne(front.devices, id);
            PollAll(devices, order + [id]) == Change(last.devices, front.calls + last.calls)
  {
    Appended(order, id);
    PollLast(devices, order + [id]);
  }

  lemma DropOn(devices: Devices, order: seq<string>, id: string)
    requires AllSound(devices) && Within(order, devices.Keys) && Within(order + [id], devices.Keys) && id in devices
    ensures DropCalls(devices, order + [id]) == DropCalls(devices, order) + ReleaseCalls(devices[id])
  {
    Appended(order, id);
  }

  lemma AdmitOn(devices: Devices, found: seq<Found>, k: nat)
    requires AllSound(devices) && k < |found|
    ensures var front := AdmitAll(devices, found[..k]);
            var step := Admit(front.devices, found[k]);
            AdmitAll(devices, found[..k + 1]) == Change(step.devices, front.calls + step.calls)
    ensures Seen(found[..k + 1]) == Seen(found[..k]) + {found[k].descriptor.guid}
  {
    assert found[..k + 1][..k] == found[..k];
  }
}
