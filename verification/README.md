# Verification of tracklogic-peripherals

A Dafny model of the two parts of the repository that carry state: the DirectInput controller
layer (`pkg/controller`) and the Simagic haptic driver (`pkg/hpr/driver/simagic`), with proofs
about every run of them.

    dafny verify dfyconfig.toml

## How it is built

**The DirectInput runtime** turns buffered records into edge events, repairs itself from
snapshots and follows plugging and unplugging. The COM device is a machine with current values,
a buffer of 256 records and a script: for each call the script says whether it succeeds and what
happened to the inputs before it. A change may be announced, lost without trace, or be the one at
which the buffer is flagged as overflowed - with any number of records in it, and left with
whatever records DirectInput chooses to keep. Statements about all scripts cover all of that.
What they rest on is this form of script: the answers to one call are fixed before the call, a
successful call reads the current values, and a buffer that fills up without being flagged
earlier drops its newest record. Only `Recovery.StaleAfterOverflow` needs that last choice, which
the source does not fix; `Recovery.DroppingOldestIsHarmless` says what the other one does.
`device_spec.dfy` and `runtime_spec.dfy` say what each operation does to a device and to the
device table, as functions on values. `runtime_device.dfy`, `runtime.dfy`, `backend.dfy`,
`input_tables.dfy`, `layout.dfy` and `sorting.dfy` hold the objects, loops and in-place updates of
the source, proved equal to those functions; the device table maps ids to device objects, and a
ghost map says which object belongs to which entry. `device_theorems.dfy`, `recovery.dfy`,
`device_life.dfy`, `runtime_theorems.dfy`, `incarnations.dfy`, `polling.dfy` and `openings.dfy`
prove what the functions promise, up to whole runs and to the life of one device inside a run -
from the answers that open it, through every poll, to its release. `Backend.Run` is such a run,
told from the ticks that wake it.

**The manager** is a protocol between one backend goroutine and any number of clients.
`protocol.dfy` is its step relation: a critical section or a channel operation is one step, and
any interleaving of any number of calls is a run. `protocol_lifecycle.dfy`,
`protocol_capture.dfy` and `protocol_streams.dfy` prove inductive invariants over all runs, and
`protocol_progress.dfy` that there is no deadlock.
`manager.dfy` is the `Manager` object itself; a ghost field holds the protocol state its fields
stand for, and each method takes the protocol's steps. `manager_session.dfy` proves of it what three
of the repository's tests expect. `composition.dfy` puts the two layers
together: the sink calls of a backend run are the protocol's backend steps.

**The haptic driver** keeps a cache that suppresses repeated Off commands in front of a motor
whose watchdog may turn any channel off at any time. `simagic.dfy` compares it with a driver that
sends every packet; `haptic_device.dfy` is the handle with its fields updated in place.

## Where the code falls short of a promise

- Overflow. The branch for a full buffer reconciles but does not drain
  (`pkg/controller/directinput_windows.go:370-373`). The records it leaves behind are replayed by
  the next poll over a newer snapshot. `Recovery.StaleAfterOverflow` gives a run that ends with a
  released button held down; `Recovery.OverflowLeavesStep` and
  `Recovery.NextPollIsRightIffSettled` say exactly when the branch does no harm.
- Close. `wg.Add` is called after the lock is given up (`pkg/controller/manager.go:125-128`), so a
  Close in between does not wait, and a second Close never does.
  `ProtocolLifecycle.CloseGuarantee` states the exact guard.
- The repository's README gives a frequency range of 0..50 (`README.md:191`); the code clamps to
  10..200 (`pkg/hpr/driver/simagic/driver.go:21-24`), and the model follows the code.

## Model

| member | source | states |
|---|---|---|
| `ControllerTypes.NormalizedAxisTravel` | pkg/controller/types.go:148-173 | travel lies in 0..1 for any baseline, value and direction |
| `ControllerTypes.TravelReaches` | pkg/controller/types.go:148-173 | travel is at least t exactly when there is room in the direction and the value has covered t of it; no division left |
| `ControllerTypes.TravelMonotone` | pkg/controller/types.go:148-173 | travel grows with the distance moved in the bound direction |
| `ControllerTypes.TravelEndpoints` | pkg/controller/types.go:148-173 | travel is 0 at the baseline, and 1 at the endpoint and nowhere else in 0..1 |
| `ControllerTypes.TravelOneDirection` | pkg/controller/types.go:148-173 | a sample never travels in both directions |
| `ControllerTypes.TravelMirror` | pkg/controller/types.go:148-173 | increasing travel is decreasing travel on the mirrored axis |
| `ControllerTypes.WithAxisCaptureThreshold` | pkg/controller/types.go:200-208 | accepts exactly the thresholds in (0, 1] |
| `AxisCapture.WaitingBaselines` | pkg/controller/manager.go:241-246 | while a request waits, its baseline for a key is the axis value at registration or else the first sample of that key, and never changes |
| `AxisCapture.FirstQualifyingSample` | pkg/controller/manager.go:352-385 | over any stream of samples a CaptureAxis is completed by the first sample that moved at least 0.20 and travelled the threshold from that baseline, and by no other |
| `AxisCapture.QualifyingMovement` | pkg/controller/manager.go:360-370 | a qualifying sample lies beyond its baseline by 0.20 and by threshold times span |
| `AxisCapture.QualifiesIff` | pkg/controller/manager.go:360-370 | and exactly: a sample qualifies if and only if it lies above its baseline, or below it, by 0.20 and by the threshold's part of the way to that end |
| `AxisCapture.EnoughMovementCompletes` | pkg/controller/manager.go:352-385 | one more event for a waiting request: an accepted sample that has moved enough from its known baseline, up or down, completes it with a binding of that axis, its name, direction and baseline; any other event leaves it waiting |
| `AxisCapture.DeliveredBindingRoundTrip` | pkg/controller/manager.go:371-377 | the binding matches its completing event, travels at least the threshold on it, has the direction of the movement, and a baseline that left room (at most 0.80 increasing, at least 0.20 decreasing) |
| `AxisCapture.FullTravelCapturesAtEndpoint` | pkg/controller/manager.go:369-377 | with threshold 1 only the endpoint itself completes a capture |
| `Sorting.SortInPlace` | pkg/controller/directinput_windows.go:523-533 | the in-place insertion sort, for any order, turns the array into InsertionSort of its old contents |
| `Sorting.InsertInPlace` | pkg/controller/directinput_windows.go:550-566 | its inner loop shifts one element into the sorted front |
| `Sorting.SortIsSortedPermutation` | pkg/controller/directinput_windows.go:496-507 | for a strict weak order the result is sorted and a permutation |
| `Sorting.SortIsStable` | pkg/controller/directinput_windows.go:496-507 | elements the order does not tell apart keep their sequence |
| `Sorting.SortedIsCanonical` | pkg/controller/directinput_windows.go:550-566 | two sorted lists with the same elements are equal when the order tells all elements apart |
| `Sorting.UniqueInPlace` | pkg/controller/directinput_windows.go:535-548 | rewrites its slice to the adjacent-duplicate-free list and returns its length |
| `Sorting.DedupIsSet` | pkg/controller/directinput_windows.go:535-548 | on sorted input that list is strictly ascending and has the same elements |
| `Sorting.StringLessTotal` | pkg/controller/directinput_windows.go:550-556 | Go's string order is irreflexive and total |
| `Sorting.StringLessTransitive` | pkg/controller/directinput_windows.go:550-556 | and transitive |
| `Sorting.StringLessMeans` | pkg/controller/directinput_windows.go:550-556 | a string is less than another exactly if at their first difference it ends or has the smaller character |
| `PackedLayout.SetInputDataFormat` | pkg/controller/directinput_windows.go:904-927 | axis i gets its own GUID and offset 4i, button j the button GUID and offset 4|axes| + j, with their object types; the data size is the sum |
| `PackedLayout.OffsetBijection` | pkg/controller/directinput_windows.go:354-368 | for every uint32, in wrapping arithmetic, decoding gives an axis or button exactly at its own assigned offset and nothing anywhere else |
| `PackedLayout.FormatsAreDecoded` | pkg/controller/directinput_windows.go:354-368 | a record at the offset an object was given is read as that very object, and the object's type gives back its instance |
| `PackedLayout.InstanceReads` | pkg/controller/directinput_windows.go:878-879 | the instance is read out of any object type, whatever its kind and flags |
| `PackedLayout.HighBitIsBitSeven` | pkg/controller/directinput_windows.go:420 | a button is down exactly if bit 7 is set, whatever the other bits are |
| `PackedLayout.LayoutPartition` | pkg/controller/directinput_windows.go:904-923 | the objects' bytes are disjoint and fill the data buffer exactly |
| `PackedLayout.LittleEndianRoundTrip` | pkg/controller/directinput_windows.go:406 | four little-endian bytes give back the value |
| `PackedLayout.ReadBack` | pkg/controller/directinput_windows.go:405-419 | reconcile reads from the buffer exactly the objects' values |
| `InputTables.BuildButtonTable` | pkg/controller/directinput_windows.go:218-235 | enumerate, sort, deduplicate, cut and narrow: the loop builds ButtonTable |
| `InputTables.EnumButtons` | pkg/controller/directinput_windows.go:876-883 | keeps the instances below 128 in enumeration order |
| `InputTables.SortInstances` | pkg/controller/directinput_windows.go:223-227 | sorted, duplicates dropped, at most 128 |
| `InputTables.ButtonNumbersExact` | pkg/controller/directinput_windows.go:218-235 | the button table is strictly ascending and is exactly the set of enumerated instances below 128; the cut to 128 never takes anything away |
| `InputTables.BuildAxisTable` | pkg/controller/directinput_windows.go:237-256 | the loop with its seen-set builds AxisTable |
| `InputTables.SortKeepsFirst` | pkg/controller/directinput_windows.go:496-507 | sorting keeps the first-enumerated object of each instance first |
| `InputTables.LeftOutIsLarger` | pkg/controller/directinput_windows.go:246-248 | an instance is left out only when 32 smaller ones fill the table |
| `InputTables.PickedAreFirst` | pkg/controller/directinput_windows.go:243-256 | each axis is the first object with its instance: instance, name and GUID |
| `InputTables.AxisTableExact` | pkg/controller/directinput_windows.go:237-256 | so the axis table holds exactly the at most 32 smallest enumerated instances, ascending, each with name and GUID of its first-enumerated object |
| `InputTables.ButtonTableExact` | pkg/controller/directinput_windows.go:218-235 | a button is in the table exactly if it is below 128 and bits 8 to 23 of some enumerated object type are its number |
| `InputTables.AxisEntryIsFirstObject` | pkg/controller/directinput_windows.go:243-256 | the fields of each entry are those of the first enumerated object with its instance; where that has no name, the entry is called Axis and the instance number |
| `InputTables.DigitsReadBack` | pkg/controller/directinput_windows.go:509-514 | that number is written in decimal: it reads back, digit by digit, with no leading zero |
| `Hardware.InputDevice.Acquire` | pkg/controller/directinput_windows.go:1006-1010 | one call served by the scripted device |
| `Hardware.InputDevice.Poll` | pkg/controller/directinput_windows.go:1028-1032 | one call served by the scripted device |
| `Hardware.InputDevice.GetDeviceState` | pkg/controller/directinput_windows.go:1034-1044 | fills the buffer with the packed current values, or fails and fills nothing |
| `Hardware.InputDevice.GetDeviceData` | pkg/controller/directinput_windows.go:1046-1059 | pops at most 64 records in order and reports an overflow once, at whatever fill it was flagged, or fails and pops nothing |
| `DeviceTheorems.DrainRefinesFold` | pkg/controller/directinput_windows.go:344-377 | an undisturbed drain, in batches of 64, sees the popped records one by one and leaves nothing pending, whatever the queue's length |
| `DeviceTheorems.StreamIsQueue` | pkg/controller/directinput_windows.go:344-377 | when nothing moves before any call of this drain, the popped records are exactly the queue |
| `DeviceTheorems.StreamStartsWithQueue` | pkg/controller/directinput_windows.go:344-377 | when something does, but no failure or overflow disturbs the drain, the queue still comes first, in order |
| `DeviceTheorems.MovesKeepStep` | pkg/controller/directinput_windows.go:349-368 | hardware changes that are queued keep tracked state plus pending records equal to the hardware |
| `DeviceTheorems.DrainReachesSnapshot` | pkg/controller/directinput_windows.go:344-377 | if tracked state plus pending records lead to the hardware's state and every change before a call of this drain is announced, the drain ends with the tracked state equal to it and an empty queue |
| `DeviceTheorems.PollCatchesUp` | pkg/controller/directinput_windows.go:334-378 | a poll that meets no failure, no overflow and no unannounced change ends equal to the hardware and in step for the next poll, whatever the hardware does afterwards |
| `DeviceTheorems.LastAxisRecordWins` | pkg/controller/directinput_windows.go:355-359 | after any records an axis has the value of its last one |
| `DeviceTheorems.LastButtonRecordWins` | pkg/controller/directinput_windows.go:360-367 | and a button the high bit of its last one |
| `DeviceTheorems.EdgesAreCompression` | pkg/controller/directinput_windows.go:430-448 | the edges emitted for a button are its records with repetitions taken out, starting from the tracked state |
| `DeviceTheorems.SamplesAreCompression` | pkg/controller/directinput_windows.go:450-463 | the samples emitted for an axis are its records with repetitions taken out |
| `DeviceTheorems.PollEdgesAreCompression` | pkg/controller/directinput_windows.go:334-378 | button by button, the calls of a whole undisturbed poll are the stutter-free compression of the records it pops, which are the queue when nothing moves meanwhile |
| `DeviceTheorems.PollSamplesAreCompression` | pkg/controller/directinput_windows.go:334-378 | axis by axis the same |
| `DeviceTheorems.PollEdgesAlternate` | pkg/controller/directinput_windows.go:334-378 | and the edges of a poll alternate, from the tracked state before it to the one after it |
| `DeviceSpec.NormalizedIsLinear` | pkg/controller/directinput_windows.go:465-474 | 0..65535 is mapped linearly onto 0..1 and anything larger to 1, which nothing below 65535 reaches |
| `DeviceSpec.AxisSampleIs` | pkg/controller/directinput_windows.go:465-478 | a sample carries the device's info, the instance and name of its axis, the raw value cut at 65535 and that value over 65535 |
| `Recovery.SnapshotMatches` | pkg/controller/directinput_windows.go:399-428 | after a reconcile, emitting or not, the tracked state is the snapshot |
| `Recovery.RecoveryIsExact` | pkg/controller/directinput_windows.go:399-428 | an emitting reconcile fails and changes nothing, or tells of exactly the buttons that differ and the axes that differ or had no state, once each |
| `Recovery.SyncsTellEveryAxis` | pkg/controller/directinput_windows.go:405-415 | a silent reconcile tells the value of every axis once, in order, and of no button |
| `Recovery.EveryPollIsAFold` | pkg/controller/directinput_windows.go:334-428 | every poll, with any failure at any call and any overflow, is the fold over the records it pops and then the snapshot it takes, if it takes one; it succeeds exactly if the records ran out or a snapshot was taken |
| `Recovery.EveryPollEdges` | pkg/controller/directinput_windows.go:334-448 | so in every poll what the sink hears of a button is the stutter-free compression of what the records and then the snapshot say of it, and the tracked state ends there |
| `Recovery.EveryPollSamples` | pkg/controller/directinput_windows.go:334-463 | the same for every axis |
| `Recovery.EveryPollIsItsOwn` | pkg/controller/directinput_windows.go:334-463 | and the sink is told of no other button or axis |
| `Recovery.SnapshotPollMatches` | pkg/controller/directinput_windows.go:334-428 | a poll that takes a snapshot, after a failure or an overflow, ends with the tracked state equal to it |
| `Recovery.FailedPollRecovers` | pkg/controller/directinput_windows.go:339-347 | a poll whose first call or whose read of records fails succeeds exactly if acquire, poll and state read succeed after that; then it has the state at the snapshot, and is in step if the drain is quiet |
| `Recovery.HopelessPollIsIdle` | pkg/controller/directinput_windows.go:339-342 | and one that cannot reacquire after its first call failed changes and tells nothing |
| `Recovery.AgreesIffSettled` | pkg/controller/directinput_windows.go:370-373 | right after a snapshot the pending records lead to the hardware's state if and only if each object's last one carries its current value |
| `Recovery.ReacquireRestoresStep` | pkg/controller/directinput_windows.go:380-397 | reacquiring ends equal to the hardware and in step, if the hardware is quiet from the snapshot to the end of the drain that follows; what it does later does not matter |
| `Recovery.ReacquireInStepIffUnmoved` | pkg/controller/directinput_windows.go:380-397 | and exactly: with a drain that does not fail, it ends in step if and only if the hardware is then where it was at the snapshot |
| `Recovery.StabilizeRestoresStep` | pkg/controller/directinput_windows.go:293-304 | the same for one stabilising round |
| `Recovery.BringUpStartsInStep` | pkg/controller/directinput_windows.go:286-304 | so a device that was opened without a failure starts in step |
| `Recovery.OverflowLeavesStep` | pkg/controller/directinput_windows.go:370-373 | the overflow branch returns equal to the hardware, and in step exactly if what it left pending is settled |
| `Recovery.NextPollIsRightIffSettled` | pkg/controller/directinput_windows.go:370-373 | a next poll whose drain is quiet ends equal to the hardware exactly if what was pending when it began to read was settled |
| `Recovery.StaleAfterOverflow` | pkg/controller/directinput_windows.go:370-373 | a concrete run, over a buffer that drops the newest record, in which after an overflow and two good polls a released button is still tracked as down |
| `Recovery.DroppingOldestIsHarmless` | pkg/controller/directinput_windows.go:370-373 | dropping the oldest of settled records leaves settled ones, so over such a buffer the branch does no harm |
| `DeviceLife.TracksRecords` | pkg/controller/directinput_windows.go:349-368 | what the sink heard of a button is what the device tracks |
| `DeviceLife.TracksLetGo` | pkg/controller/directinput_windows.go:480-487 | release emits Released for exactly the buttons that are down |
| `DeviceLife.HeardPoll` | pkg/controller/directinput_windows.go:334-378 | through any poll, with failures and overflow, heard edges and remembered axis values keep following the tracked state |
| `DeviceLife.SilentBringUp` | pkg/controller/directinput_windows.go:286-304 | opening emits no event at all and tells the sink every axis value it takes over |
| `DeviceLife.ChainKeepsUp` | pkg/controller/directinput_windows.go:334-378 | a device in step matches the hardware after each of any number of clean polls |
| `DeviceLife.OpenedDeviceKeepsUp` | pkg/controller/directinput_windows.go:286-378 | and an opened device keeps up from its opening on |
| `RuntimeDevices.RuntimeDevice.RefreshInfo` | pkg/controller/directinput_windows.go:323-332 | the published info follows the descriptor and the tables |
| `RuntimeDevices.RuntimeDevice.EmitButtonIfChanged` | pkg/controller/directinput_windows.go:430-448 | one edge when the state changes, else nothing |
| `RuntimeDevices.RuntimeDevice.EmitAxisIfChanged` | pkg/controller/directinput_windows.go:450-463 | one sample when the raw value changes or is the first, else nothing; out-of-range index ignored |
| `RuntimeDevices.RuntimeDevice.ReadRecord` | pkg/controller/directinput_windows.go:349-368 | one record, decoded in uint32 arithmetic |
| `RuntimeDevices.RuntimeDevice.ReadRecords` | pkg/controller/directinput_windows.go:349-368 | one batch of records is the fold over it |
| `RuntimeDevices.RuntimeDevice.PollRecords` | pkg/controller/directinput_windows.go:344-377 | the outer loop over batches, with its failure, overflow and short-batch exits, is PollLoop |
| `RuntimeDevices.RuntimeDevice.Poll` | pkg/controller/directinput_windows.go:334-378 | the whole of poll, with its guard and reacquisition |
| `RuntimeDevices.RuntimeDevice.Reconcile` | pkg/controller/directinput_windows.go:399-428 | the two loops over the packed buffer take over one snapshot |
| `RuntimeDevices.RuntimeDevice.AcquireAndReconcile` | pkg/controller/directinput_windows.go:380-397 | acquire, poll, reconcile, drain, with an exit at each failure |
| `RuntimeDevices.RuntimeDevice.DrainDeviceData` | pkg/controller/directinput_windows.go:1061-1070 | pops and forgets until a short batch or a failure |
| `RuntimeDevices.RuntimeDevice.Release` | pkg/controller/directinput_windows.go:480-494 | synthetic releases in button order, then the device is given up |
| `RuntimeDevices.RuntimeDevice.ReadTables` | pkg/controller/directinput_windows.go:213-256 | the tables as far as the enumerations succeed |
| `RuntimeDevices.RuntimeDevice.Configure` | pkg/controller/directinput_windows.go:257-305 | an input-less device is opened without a machine; each failing call leaves the state the source leaves; which answers open a device is Openings.InitializeIff |
| `RuntimeDevices.RuntimeDevice.Initialize` | pkg/controller/directinput_windows.go:212-305 | the whole of initializeDevice, whose results Openings.InitializeIff, InitializeTables and OpenedDeviceStartsInStep tell from the answers |
| `RuntimeDevices.RuntimeDevice.BringUp` | pkg/controller/directinput_windows.go:287-304 | reacquire and refresh twice, silently, stopping at the first failure |
| `Runtime.DirectInputRuntime.Poll` | pkg/controller/directinput_windows.go:309-313 | every device object once, in the order the map is walked |
| `Runtime.DirectInputRuntime.AdmitOne` | pkg/controller/directinput_windows.go:175-196 | one pass of the first loop: a known device gets its new descriptor, a new one enters the table, an unopened one is opened, a failure is reported; no other entry changes |
| `Runtime.DirectInputRuntime.Admit` | pkg/controller/directinput_windows.go:174-196 | the first loop over everything enumerated |
| `Runtime.DirectInputRuntime.Drop` | pkg/controller/directinput_windows.go:198-204 | releases and deletes exactly the devices not kept |
| `Runtime.DirectInputRuntime.Refresh` | pkg/controller/directinput_windows.go:206-209 | refreshes every device and lists its info |
| `Runtime.DirectInputRuntime.SyncDevices` | pkg/controller/directinput_windows.go:168-210 | the whole scan, for the orders in which the map was walked |
| `Runtime.DirectInputRuntime.ReleaseAll` | pkg/controller/directinput_windows.go:315-321 | releases and deletes every device, then publishes the empty list |
| `Backend.Rescan` | pkg/controller/directinput_windows.go:126-136 | a rescan is a Scan of the model's runs, with its report when the enumeration fails |
| `Backend.Run` | pkg/controller/directinput_windows.go:79-139 | run makes one scan first and then, wake by wake, a poll of the devices for each poll tick and a scan of what is enumerated for each rescan tick, until the context is done or the caller's window is lost; its calls on the sink are those of these operations in turn and of the release that ends them; it is ready exactly if the first enumeration succeeds |
| `Backend.RunIsSafe` | pkg/controller/directinput_windows.go:79-139 | so a sink that has heard nothing before hears no double press from run, and is left with no button pressed |
| `RuntimeTheorems.InvPerform` | pkg/controller/directinput_windows.go:168-321 | every scan and every poll keeps: no double press so far, buttons last seen pressed are attached and tracked down, the axis values are those of the attached devices |
| `RuntimeTheorems.WholeRunEdgeSafety` | pkg/controller/directinput_windows.go:168-321 | over any run of scans, polls, failures, unplugs and the final release no button is pressed twice without a release between, and none is left pressed |
| `RuntimeTheorems.CacheAgreement` | pkg/controller/directinput_windows.go:168-321 | between operations the remembered axis values are exactly the known axes of the attached, opened devices, each min(raw, 65535)/65535 |
| `RuntimeTheorems.ReleaseEmptiesTable` | pkg/controller/directinput_windows.go:315-321 | the release that ends a run leaves no device, publishes the empty list last, and leaves no axis value behind |
| `RuntimeTheorems.CanonicalScan` | pkg/controller/directinput_windows.go:174-209 | after a scan the table's keys are exactly the enumerated GUIDs and the published list is sorted and independent of map order |
| `RuntimeTheorems.InfoLessIsStrict` | pkg/controller/directinput_windows.go:550-556 | the order by product name and GUID is a strict weak order |
| `Openings.InitializeIff` | pkg/controller/directinput_windows.go:212-305 | opening succeeds if and only if the device is created and enumerated and either has nothing usable or is formatted and configured; it then has a machine to poll if and only if a button below 128 or an axis was enumerated |
| `Openings.InitializeTables` | pkg/controller/directinput_windows.go:212-256 | the tables are those of the latest enumerations that succeeded, whether the opening succeeds or not |
| `Openings.OpenedDeviceStartsInStep` | pkg/controller/directinput_windows.go:282-305 | what opens is brought up from the values DirectInput hands over, with the info and tables of its descriptor and enumerations; if that succeeds and the drain is quiet, it tracks the hardware's state and is in step for its first poll |
| `Openings.ScanOpens` | pkg/controller/directinput_windows.go:168-210 | for every device: it is opened after a scan if and only if it was enumerated and was opened before, or was not initialized and its first good opening in this scan has inputs; a failed opening opens none |
| `Openings.ScanBrings` | pkg/controller/directinput_windows.go:187-195 | and what is opened is, but for its names, the device that opening makes |
| `Openings.ScanReports` | pkg/controller/directinput_windows.go:190-194 | a scan reports each failed attempt to open a device once, in order, under the product name or else the GUID, and reports nothing else |
| `Openings.PublishedList` | pkg/controller/directinput_windows.go:202-209 | the published list has one entry for each device in the table, ordered by product name and then GUID; its names are those last enumerated for the device, its counts the sizes of its tables |
| `Openings.PluggedInKeepsUp` | pkg/controller/directinput_windows.go:79-139 | in any run, from the scan that first finds and opens a device on, it tracks exactly the hardware's state right after each poll tick, for as long as it stays plugged in and its polls are clean |
| `Polling.TickPollsEach` | pkg/controller/directinput_windows.go:309-313 | a poll tick polls every device of the table once, from the state it had before the tick, and tells of each exactly what its poll tells |
| `Polling.TickCatchesUp` | pkg/controller/directinput_windows.go:309-378 | an opened device in step whose poll is clean tracks the hardware's state after the tick |
| `Polling.RunKeepsUp` | pkg/controller/directinput_windows.go:79-139 | over any run, a device once in step stays in step through scans, other devices and clean polls, and has the hardware's state after each tick |
| `Incarnations.IncarnationAlternates` | pkg/controller/directinput_windows.go:168-321 | over any run, from the scan that opens a device on, through every scan, poll, failure and other device in between, each button of it strictly alternates, begins opposite to the state found at opening, and stands at the tracked state |
| `Incarnations.UnpluggedIncarnation` | pkg/controller/directinput_windows.go:198-204 | and when a scan no longer finds the device, that alternation ends Released |
| `Incarnations.ShutDownIncarnation` | pkg/controller/directinput_windows.go:315-321 | and likewise at the release that ends the run |
| `Incarnations.LeadsMeans` | pkg/controller/directinput_windows.go:430-448 | what that alternation is: neighbouring edges differ, the first is opposite to the starting state, the last is the final state, and with no edge the two are equal |
| `Incarnations.OpenedUntilUnplugged` | pkg/controller/directinput_windows.go:174-204 | an opened device stays opened until a scan does not find it |
| `Streams.TrySendFaithful` | pkg/controller/manager.go:340-344 | a send with a default arm keeps the stream faithful and records the item as offered |
| `Streams.DeliveredInOrder` | pkg/controller/manager.go:340-344 | received and pending items are an in-order subsequence of the offered ones, all of them when nothing was dropped |
| `ProtocolLifecycle.LifeStep` | pkg/controller/manager.go:99-423 | every step of every interleaving keeps the life-cycle invariant |
| `ProtocolLifecycle.ChannelLifecycle` | pkg/controller/manager.go:411-423 | in every interleaving each channel is closed at most once, no send meets a closed channel, nothing panics |
| `ProtocolLifecycle.FailedStartIsFinished` | pkg/controller/manager.go:138-150 | a Start that fails after launching the backend returns only with all four channels closed |
| `ProtocolLifecycle.StartTellsTheAnswer` | pkg/controller/manager.go:101-150 | in every interleaving Start returns nil only if the backend has said it is ready; it fails only if the backend has said it failed or the context was done, and with all channels closed; it refuses only for the guards' reasons |
| `ProtocolLifecycle.AnswerIsTaken` | pkg/controller/manager.go:138-150 | and when a waiting Start sees the answer it returns nil if the answer is nil and joins the goroutine otherwise, as it does when the context is done; an admitted Start goes on and any other is refused at once |
| `ProtocolLifecycle.JoiningOnlyFails` | pkg/controller/manager.go:141-150 | a Start that joins the goroutine can only fail |
| `ProtocolLifecycle.CoveredCloseFinishes` | pkg/controller/manager.go:268-288 | a Close that flips closed before Start or after wg.Add returns only with all four channels closed |
| `ProtocolLifecycle.CloseGuarantee` | pkg/controller/manager.go:268-288 | and that guard is exact: the guarantee holds for all continuations if and only if Start had not run or was past wg.Add |
| `ProtocolLifecycle.UncoveredCloseMayReturn` | pkg/controller/manager.go:122-128 | otherwise the very next steps return from Close with all channels open |
| `ProtocolLifecycle.EarlyCloses` | pkg/controller/manager.go:270-273 | a reachable such state, and a second Close that returns before the channels are closed |
| `ProtocolProgress.WaitersCanReturn` | pkg/controller/manager.go:279-286 | no deadlock: from every reachable state a Close or Start that waits for the goroutine returns after a finite number of the goroutine's own steps |
| `ProtocolProgress.ExitStep` | pkg/controller/manager.go:129-136 | whatever the goroutine is doing, its next step towards the end is possible at once and brings the end nearer |
| `ProtocolCapture.SlotsStep` | pkg/controller/manager.go:180-264 | every step of every interleaving keeps the slot invariant |
| `ProtocolCapture.CaptureProtocol` | pkg/controller/manager.go:326-338 | at most one slot is taken, a waiting request's channel is empty so the default arms never run, no request gets two bindings, and from the end of finish's critical section on both slots are empty for good |
| `ProtocolCapture.SlotIsLeftByItsOwner` | pkg/controller/manager.go:202-208 | a request leaves its slot only by its own delivery, its own cleanup or finish |
| `ProtocolCapture.CaptureReturnsFirstPress` | pkg/controller/manager.go:180-218 | Capture gets the first press after its registration and waits exactly until then |
| `ProtocolCapture.CaptureAxisReturnsFirstQualifying` | pkg/controller/manager.go:222-264 | CaptureAxis gets the first qualifying sample after its registration, judged from the axis values at registration |
| `ProtocolCapture.MovementServesCapture` | pkg/controller/manager.go:352-385 | in every interleaving an accepted sample serves the waiting CaptureAxis in its own step if and only if it has moved enough, up or down, from its baseline, and the binding names its axis, direction and baseline |
| `ProtocolCapture.SelectTakesOnce` | pkg/controller/manager.go:210-217 | the select takes the one binding the request was sent, or leaves with none |
| `ProtocolStreams.BoundedDelivery` | pkg/controller/manager.go:321-345 | button events: in order, at most 256 pending, missing only when 256 were pending, every drop reported |
| `ProtocolStreams.BoundedAxisDelivery` | pkg/controller/manager.go:386-397 | the same for axis events from the first call of AxisEvents, and none before it |
| `ProtocolStreams.EveryErrorIsOffered` | pkg/controller/manager.go:129-135 | whatever the backend reports, and the error its run ends with, is the next thing offered to errors, and gets in if fewer than 16 are pending |
| `ProtocolStreams.PressServesCapture` | pkg/controller/manager.go:327-338 | a press completes the waiting Capture even when its stream copy is dropped |
| `ProtocolStreams.SinkNeverWaits` | pkg/controller/manager.go:399-409 | no step of a sink call waits: one or two steps of its own bring the backend back |
| `Composition.TracePlays` | pkg/controller/manager.go:18-24 | any trace of backend calls can be played against the protocol |
| `Composition.AxisValuesAreDeviceState` | pkg/controller/manager.go:312-319 | across both layers: the manager's axis values are exactly the devices' known axes, whatever the clients do |
| `Composition.ConsumerSeesSafeEdges` | pkg/controller/manager.go:340-344 | across both layers: a consumer that keeps up sees no double press and no button left pressed |
| `Managers.Manager.constructor` | pkg/controller/manager.go:68-89 | fresh channels, empty fields; the last acceptable option of each kind wins, the threshold is always in (0, 1] |
| `Managers.Manager.StartLocked` | pkg/controller/manager.go:104-125 | the refusals in their order, else started; the protocol's Start |
| `Managers.Manager.CloseLocked` | pkg/controller/manager.go:269-277 | who closes and who waits; the protocol's Close |
| `Managers.Manager.Close` | pkg/controller/manager.go:268-288 | the first Close of a manager that was not started finishes it and returns; that of a started one has to wait; any later one does nothing |
| `Managers.Manager.Finish` | pkg/controller/manager.go:411-423 | for whoever has come to finish: the first caller's body empties the slots, sets closed and closes the four channels, any later caller passes; all the protocol's steps |
| `Managers.Manager.Conclude` | pkg/controller/manager.go:129-136 | what the goroutine does once run has returned: the report of its error, finish, and nothing else |
| `Managers.Manager.RegisterCapture` | pkg/controller/manager.go:186-200 | refused when closed, else when not started, else when either slot is taken; otherwise in the slot |
| `Managers.Manager.CleanUpCapture` | pkg/controller/manager.go:202-208 | takes away its own request and no other |
| `Managers.Manager.RegisterAxisCapture` | pkg/controller/manager.go:228-246 | the same refusals, else in its slot with a copy of the axis values as baselines |
| `Managers.Manager.CleanUpAxisCapture` | pkg/controller/manager.go:248-254 | takes away its own request and no other |
| `Managers.Manager.SetDevices` | pkg/controller/manager.go:290-304 | replaces the list and prunes the axis values |
| `Managers.Manager.SyncAxis` | pkg/controller/manager.go:312-319 | enters an acceptable sample, ignores any other |
| `Managers.Manager.ServeCapture` | pkg/controller/manager.go:326-338 | the critical section of emitButton, as one step: a press serves the waiting Capture and empties the slot |
| `Managers.Manager.OfferEdge` | pkg/controller/manager.go:340-341 | its send, as one step |
| `Managers.Manager.EmitButton` | pkg/controller/manager.go:321-345 | the two with nothing between: the trace, the capture and the stream, or nothing for a button of 128 and above |
| `Managers.Manager.ServeAxisCapture` | pkg/controller/manager.go:352-387 | the critical section of emitAxis, as one step: the axis value, and baseline entered, completed, or neither |
| `Managers.Manager.Judge` | pkg/controller/manager.go:359-377 | the branches with delta and absolute value give a binding exactly for enough movement in either direction, as in AxisCapture.QualifiesIff, with the axis, its name, the direction and the baseline |
| `Managers.Manager.OfferSample` | pkg/controller/manager.go:392-393 | its send, as one step |
| `Managers.Manager.EmitAxis` | pkg/controller/manager.go:347-397 | axis value, capture and stream, or nothing for an unacceptable sample |
| `Managers.Manager.Complain` | pkg/controller/manager.go:403-408 | the select of report, as one step: offered to errors, dropped when full |
| `Managers.Manager.Report` | pkg/controller/manager.go:399-409 | a whole report |
| `Managers.CallsAreSteps` | pkg/controller/manager.go:290-409 | the steps the methods take are the protocol's own, call by call |
| `Managers.SendsAreSteps` | pkg/controller/manager.go:340-344 | and so are the sends, the report and the end of run |
| `Managers.EdgePlayed` | pkg/controller/manager.go:321-345 | what EmitButton does to the fields is the protocol's sink call played to its end |
| `Managers.SamplePlayed` | pkg/controller/manager.go:347-397 | the same for EmitAxis |
| `Managers.RestPlayed` | pkg/controller/manager.go:290-319 | and for the other sink calls |
| `Managers.FinishReturns` | pkg/controller/manager.go:411-423 | when finish is over, its caller is past it |
| `Managers.ApplyOptions` | pkg/controller/manager.go:78-87 | nil is skipped, the last acceptable option of each kind wins, and an error is remembered exactly if some option is unacceptable |
| `Managers.LastOptionCounts` | pkg/controller/manager.go:78-87 | with no option that sets it the threshold is 0.95, and otherwise that of the last one that does; likewise the window |
| `ManagerSession.StartFakeManager` | pkg/controller/manager_test.go:57-66 | a Start whose backend reports ready at once has returned nil, and the manager is running |
| `ManagerSession.CaptureReturnsNextPressedWithoutConsumingEvent` | pkg/controller/manager_test.go:122-168 | a client starts, captures, sees a release go by, and gets the press that follows; both events are on the stream |
| `ManagerSession.CloseReleasesCaptureAndClosesChannels` | pkg/controller/manager_test.go:294-314 | a client constructs, starts, captures and closes: the waiting request is gone and the channels are closed |
| `ManagerSession.EventBufferOverflowIsReported` | pkg/controller/manager_test.go:332-345 | 257 events to a manager nobody reads leave 256 pending and exactly one report |
| `Simagic.Normalize` | pkg/hpr/driver/simagic/driver.go:285-304 | refuses exactly the invalid targets; a request to vibrate comes out at the nearest frequency and amplitude within the bounds, and exactly those with no amplitude or another state become the Off of their target |
| `Simagic.NormalizeIsProjection` | pkg/hpr/driver/simagic/driver.go:285-304 | normalizing is idempotent and leaves exactly the legal commands alone |
| `Simagic.OffIsCanonical` | pkg/hpr/driver/simagic/driver.go:292-297 | all Off commands for a target are one value |
| `Simagic.PacketRoundTrip` | pkg/hpr/driver/simagic/protocol.go:78-86 | the packet decodes to the command |
| `Simagic.AlwaysTruthful` | pkg/hpr/driver/simagic/driver.go:261-283 | whatever the watchdog does and however many packets fail, a cached Off means the channel is off |
| `Simagic.SuppressionIsInvisible` | pkg/hpr/driver/simagic/driver.go:262-268 | after any operations every channel is as if each packet had been sent |
| `Simagic.OnIsAlwaysSent` | pkg/hpr/driver/simagic/driver.go:124-135 | an On is never suppressed, and vibrates as asked when it succeeds |
| `Simagic.OffLeavesQuiet` | pkg/hpr/driver/simagic/driver.go:138-148 | a Stop that succeeds leaves its channel quiet, sent or not |
| `Simagic.SessionLog` | pkg/hpr/driver/simagic/driver.go:62-168 | only legal packets; three Offs first; Close tries all three Offs even when some fail; from the return of the first Close on the log does not change |
| `Simagic.SecondOffIsSuppressed` | pkg/hpr/driver/simagic/driver.go:262-268 | an Off right after one that succeeded, from Stop or Vibrate, is not sent again and returns nil |
| `Simagic.StopAllTells` | pkg/hpr/driver/simagic/driver.go:251-259 | stopAll tries all three channels and returns the first of their errors, nil if and only if there is none; each channel whose Off got through is quiet |
| `Simagic.OpenedIsQuiet` | pkg/hpr/driver/simagic/driver.go:86-90 | Open succeeds if and only if all three Offs got through, and then all three channels are quiet |
| `Simagic.CloseTells` | pkg/hpr/driver/simagic/driver.go:152-168 | Close of an open handle returns the transport's error, else the first error of the three Offs, nil if and only if all four calls succeeded |
| `Simagic.InvalidIsRefused` | pkg/hpr/driver/simagic/driver.go:124-148 | a target that does not exist is refused and nothing is sent |
| `Simagic.WireBytes` | pkg/hpr/driver/simagic/protocol.go:78-86 | a packet is 0xF1, 0xEC, target, state, frequency, amplitude and 58 zero bytes |
| `Simagic.SessionOnTheWire` | pkg/hpr/driver/simagic/driver.go:62-168 | every packet of any session has these six bytes with a target up to 2, and either asks for nothing or for 10..200 Hz at 1..100 |
| `Simagic.ClosedIsClosed` | pkg/hpr/driver/simagic/driver.go:152-160 | a closed handle refuses commands, and another Close returns nil |
| `HapticDevices.HapticDevice.Open` | pkg/hpr/driver/simagic/driver.go:86-90 | a handle if and only if all three Offs got through, and then the motor is quiet; otherwise the transport is closed and the first error returned |
| `HapticDevices.HapticDevice.SendLocked` | pkg/hpr/driver/simagic/driver.go:261-283 | suppressed, failed or sent and remembered |
| `HapticDevices.HapticDevice.StopAll` | pkg/hpr/driver/simagic/driver.go:251-259 | tries every target and returns the first error, as told by Simagic.StopAllTells |
| `HapticDevices.HapticDevice.Vibrate` | pkg/hpr/driver/simagic/driver.go:124-135 | closed, invalid or sent |
| `HapticDevices.HapticDevice.Stop` | pkg/hpr/driver/simagic/driver.go:138-148 | closed, invalid or sent |
| `HapticDevices.HapticDevice.Close` | pkg/hpr/driver/simagic/driver.go:152-168 | forced all-stop, then the transport closed, with its error before the first of the stop's |

## Left out

- Recovery.ReacquireRestoresStep: assumes that nothing moves between the snapshot and the end of the drain that follows it, because acquireAndReconcile throws away what arrives in between; ReacquireInStepIffUnmoved says exactly when that does harm.
- Recovery.StaleAfterOverflow: is about a buffer that drops the newest record at 256; which record DirectInput drops is not in the source.
- Managers.Manager.EmitButton: runs a sink call in one go; its critical section and its send are also methods of their own, and how they interleave with other threads is proved on Protocol, whose steps those two are.
- Managers.Manager.EmitAxis: in the same way runs critical section and send in one go.
- Managers.Manager.Finish: runs the body of finishOnce in one go; its steps one by one are Protocol's.
- Managers.Manager.RegisterCapture: the select that follows, in which Go may choose a done context although a binding is ready, is in Protocol as TakeResult and GiveUp.
- Contexts and tickers: a context may be done at any time and the backend may poll, scan or return at any time; cancellation has no other effect in the model, and time stamps are not kept.
- Liveness: that a cancelled backend does return is not claimed, only that nothing but its own steps is needed for a waiting Close or Start to return.
- A nil sink: run always passes the manager, so the nil checks in the runtime are not modelled.
- Backend.Run: begins once the window and DirectInput exist; a failure before that makes no call on the sink, and giving the two up afterwards makes none either.
- Win32, COM and HID calls, windows, callbacks and struct layouts other than the data format; the answers to the range, buffer and cooperative-level calls are one answer, since each failure leaves the same state.
- GUIDs are strings in registry format; those of devices are never empty.
- Floating point: axis values are reals, so rounding at a threshold is not modelled.
- The haptic transport: a SetFeature that fails is taken to have had no effect, and a motor to obey a packet as protocol.go lays it out.
- Reading pedals, pulses, model matching, scanning and claiming of haptic devices, String methods and demos: short case analysis.
- Manager.Devices and the copies made of device lists: sequences here are values, so a copy is not visible.
