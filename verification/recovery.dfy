/** Recovery by snapshot: what reconcile repairs, when the device is in step again afterwards,
    and the one recovery path that does not put it in step. */
module Recovery {
  import opened ControllerTypes
  import opened PackedLayout
  import opened Hardware
  import opened DeviceSpec
  import opened Traces
  import opened DeviceTheorems

  // ---- A snapshot names every object once ----

  lemma SnapshotDecodes(tb: Tables, m: Machine, k: nat)
    requires WellFormed(tb) && Fits(tb, m) && k < |Snapshot(m)|
    ensures Decode(tb, Snapshot(m)[k]) == if k < |tb.axes| then AxisItem(k) else ButtonItem(k - |tb.axes|)
  {
    OffsetBijection(Snapshot(m)[k].offset, |tb.axes|, |tb.buttons|);
  }

  /** Where an object stands in the snapshot, and its value there. */
  function Place(tb: Tables, item: Item): nat
    requires item != NoItem
  {
    if item.AxisItem? then item.axis else |tb.axes| + item.button
  }

  function ValueOf(m: Machine, item: Item): uint32
    requires IsItem(item, |m.axes|, |m.buttons|)
  {
    if item.AxisItem? then m.axes[item.axis] else m.buttons[item.button]
  }

  lemma SnapshotPlace(tb: Tables, m: Machine, item: Item, k: nat)
    requires WellFormed(tb) && Fits(tb, m) && k < |Snapshot(m)|
    requires IsItem(item, |tb.axes|, |tb.buttons|)
    ensures Decode(tb, Snapshot(m)[k]) == item <==> k == Place(tb, item)
    ensures k == Place(tb, item) ==> Snapshot(m)[k].data == ValueOf(m, item)
  {
    SnapshotDecodes(tb, m, k);
  }

  /** A queue in which one object occurs at one place only. */
  lemma {:induction false} OccursOnce(tb: Tables, records: seq<Record>, item: Item, at: nat, value: uint32)
    requires forall k | 0 <= k < |records| :: Decode(tb, records[k]) == item <==> k == at
    requires at < |records| ==> records[at].data == value
    ensures DataFor(tb, records, item) == (if at < |records| then [value] else [])
    ensures LastData(tb, records, item) == (if at < |records| then Some(value) else None)
  {
    if records == [] {
    } else {
      OccursOnce(tb, records[..|records| - 1], item, at, value);
    }
  }

  lemma SnapshotSays(tb: Tables, m: Machine, item: Item)
    requires WellFormed(tb) && Fits(tb, m) && IsItem(item, |tb.axes|, |tb.buttons|)
    ensures DataFor(tb, Snapshot(m), item) == [ValueOf(m, item)]
    ensures LastData(tb, Snapshot(m), item) == Some(ValueOf(m, item))
  {
    forall k | 0 <= k < |Snapshot(m)| ensures Decode(tb, Snapshot(m)[k]) == item <==> k == Place(tb, item) {
      SnapshotPlace(tb, m, item, k);
    }
    assert Place(tb, item) < |Snapshot(m)|;
    SnapshotPlace(tb, m, item, Place(tb, item));
    OccursOnce(tb, Snapshot(m), item, Place(tb, item), ValueOf(m, item));
  }

  lemma SnapshotMatches(tb: Tables, s: Tracked, m: Machine, emit: bool)
    requires WellFormed(tb) && Shaped(tb, s) && Fits(tb, m)
    ensures Matches(tb, Reconciled(tb, s, m, emit).state, m)
  {
    var r := Reconciled(tb, s, m, emit).state;
    forall i | 0 <= i < |tb.axes| ensures r.axes[i] == Some(m.axes[i]) {
      SnapshotSays(tb, m, AxisItem(i));
      LastAxisRecordWins(tb, s, Snapshot(m), i);
    }
    forall j | 0 <= j < |tb.buttons| ensures r.down[tb.buttons[j]] == HighBit(m.buttons[j]) {
      SnapshotSays(tb, m, ButtonItem(j));
      LastButtonRecordWins(tb, s, Snapshot(m), j);
    }
  }

  // ---- The events of a repair ----

  predicate ButtonDiffers(tb: Tables, s: Tracked, m: Machine, j: nat)
    requires WellFormed(tb) && Shaped(tb, s) && Fits(tb, m) && j < |tb.buttons|
  {
    s.down[tb.buttons[j]] != HighBit(m.buttons[j])
  }

  predicate AxisDiffers(tb: Tables, s: Tracked, m: Machine, i: nat)
    requires Shaped(tb, s) && Fits(tb, m) && i < |tb.axes|
  {
    s.axes[i] != Some(m.axes[i])
  }

  lemma CompressOne<V>(start: V, value: V)
    ensures Compress(start, [value]) == if start == value then [] else [value]
  {
    assert [value] == [] + [value];
    CompressAppend(start, [], value);
  }

  lemma RepairEdges(tb: Tables, s: Tracked, m: Machine, j: nat)
    requires WellFormed(tb) && Shaped(tb, s) && Fits(tb, m) && j < |tb.buttons|
    ensures Edges(Reconciled(tb, s, m, true).calls, tb.info.instanceGuid, tb.buttons[j])
         == if ButtonDiffers(tb, s, m, j) then [HighBit(m.buttons[j])] else []
  {
    SnapshotSays(tb, m, ButtonItem(j));
    EdgesAreCompression(tb, s, Snapshot(m), j);
    assert AsDown([m.buttons[j]]) == [HighBit(m.buttons[j])];
    CompressOne(s.down[tb.buttons[j]], HighBit(m.buttons[j]));
  }

  lemma SamplesOfOne(tb: Tables, i: nat, raw: uint32)
    requires i < |tb.axes|
    ensures SamplesOf(tb, i, [Some(raw)]) == [AxisSample(tb, i, raw)] && SamplesOf(tb, i, []) == []
  {
  }

  lemma RepairSamples(tb: Tables, s: Tracked, m: Machine, i: nat)
    requires WellFormed(tb) && Shaped(tb, s) && Fits(tb, m) && i < |tb.axes|
    ensures Samples(Reconciled(tb, s, m, true).calls, tb.info.instanceGuid, tb.axes[i].instance)
         == if AxisDiffers(tb, s, m, i) then [AxisSample(tb, i, m.axes[i])] else []
  {
    SnapshotSays(tb, m, AxisItem(i));
    SamplesAreCompression(tb, s, Snapshot(m), i);
    assert AsKnown([m.axes[i]]) == [Some(m.axes[i])];
    CompressOne(s.axes[i], Some(m.axes[i]));
    SamplesOfOne(tb, i, m.axes[i]);
  }

  /** The sink's calls about this device are edges of its buttons and samples of its axes. */
  predicate FromTables(tb: Tables, call: SinkCall) {
    match call
    case EmitButton(edge) => edge.device == tb.info && exists j :: 0 <= j < |tb.buttons| && tb.buttons[j] == edge.button
    case EmitAxis(sample) =>
      sample.device == tb.info && exists i :: 0 <= i < |tb.axes| && tb.axes[i].instance == sample.axis
    case _ => false
  }

  lemma {:induction false} FoldCallsFromTables(tb: Tables, s: Tracked, records: seq<Record>)
    requires WellFormed(tb) && Shaped(tb, s)
    ensures forall call | call in SeeRecords(tb, s, records).calls :: FromTables(tb, call)
  {
    if records == [] {
    } else {
      FoldCallsFromTables(tb, s, records[..|records| - 1]);
    }
  }

  /** Recovery.  Whatever was lost before, a reconcile that emits either fails and changes
      nothing, or ends with the tracked state being the hardware's, having told the sink of
      each button whose state differs and each axis that differs or had no state, once, and
      of nothing else. */
  lemma RecoveryIsExact(tb: Tables, s: Tracked, m: Machine)
    requires WellFormed(tb) && Shaped(tb, s) && Fits(tb, m)
    ensures var r := Reconcile(tb, s, m, true);
            && (!r.ok ==> r.state == s && r.calls == [])
            && (r.ok ==>
                 && Matches(tb, r.state, r.machine)
                 && (forall call | call in r.calls :: FromTables(tb, call))
                 && (forall j | 0 <= j < |tb.buttons| ::
                       Edges(r.calls, tb.info.instanceGuid, tb.buttons[j])
                       == if ButtonDiffers(tb, s, r.machine, j) then [HighBit(r.machine.buttons[j])] else [])
                 && (forall i | 0 <= i < |tb.axes| ::
                       Samples(r.calls, tb.info.instanceGuid, tb.axes[i].instance)
                       == if AxisDiffers(tb, s, r.machine, i) then [AxisSample(tb, i, r.machine.axes[i])] else []))
  {
    TurnKeepsShape(m);
    var n := Turn(m);
    SnapshotMatches(tb, s, n, true);
    FoldCallsFromTables(tb, s, Snapshot(n));
    var r := Reconciled(tb, s, n, true);
    forall j | 0 <= j < |tb.buttons|
      ensures Edges(r.calls, tb.info.instanceGuid, tb.buttons[j])
           == if ButtonDiffers(tb, s, n, j) then [HighBit(n.buttons[j])] else []
    {
      RepairEdges(tb, s, n, j);
    }
    forall i | 0 <= i < |tb.axes|
      ensures Samples(r.calls, tb.info.instanceGuid, tb.axes[i].instance)
           == if AxisDiffers(tb, s, n, i) then [AxisSample(tb, i, n.axes[i])] else []
    {
      RepairSamples(tb, s, n, i);
    }
  }

  /** A reconcile that does not emit tells the value of every axis, one call each and in order,
      and of no button. */
  lemma {:induction false} SyncsTellEveryAxis(tb: Tables, m: Machine, n: nat)
    requires Fits(tb, m) && n <= |tb.axes|
    ensures var calls := AxisSyncs(tb, m, n);
            |calls| == n && forall k | 0 <= k < n :: calls[k] == SyncAxis(AxisSample(tb, k, m.axes[k]))
  {
    if n == 0 {
    } else {
      SyncsTellEveryAxis(tb, m, n - 1);
    }
  }

  // ---- In step again? ----

  /** For every object the last pending record, if there is one, carries its current value. */
  predicate Settled(tb: Tables, m: Machine)
    requires Fits(tb, m)
  {
    && (forall i | 0 <= i < |tb.axes| ::
          var last := LastData(tb, m.queue, AxisItem(i));
          last.Some? ==> last.value == m.axes[i])
    && (forall j | 0 <= j < |tb.buttons| ::
          var last := LastData(tb, m.queue, ButtonItem(j));
          last.Some? ==> HighBit(last.value) == HighBit(m.buttons[j]))
  }

  /** Right after a snapshot, being in step is a matter of what is still pending. */
  lemma AgreesIffSettled(tb: Tables, s: Tracked, m: Machine)
    requires WellFormed(tb) && Shaped(tb, s) && Fits(tb, m) && Matches(tb, s, m)
    ensures Agrees(tb, s, m) <==> Settled(tb, m)
  {
    forall i | 0 <= i < |tb.axes|
      ensures SeeRecords(tb, s, m.queue).state.axes[i] == Some(m.axes[i])
         <==> (var last := LastData(tb, m.queue, AxisItem(i)); last.Some? ==> last.value == m.axes[i])
    {
      LastAxisRecordWins(tb, s, m.queue, i);
    }
    forall j | 0 <= j < |tb.buttons|
      ensures SeeRecords(tb, s, m.queue).state.down[tb.buttons[j]] == HighBit(m.buttons[j])
         <==> (var last := LastData(tb, m.queue, ButtonItem(j));
               last.Some? ==> HighBit(last.value) == HighBit(m.buttons[j]))
    {
      LastButtonRecordWins(tb, s, m.queue, j);
    }
  }

  /** No call of this drain fails and nothing moves before any of them. */
  predicate QuietDrain(m: Machine)
    decreases |m.plan|, |m.queue|
  {
    TurnKeepsShape(m);
    && Ok(m) && (m.plan != [] ==> m.plan[0].moves == [])
    && (|Batch(Turn(m))| < BATCH || QuietDrain(Popped(Turn(m))))
  }

  lemma {:induction false} QuietDiscard(m: Machine)
    requires QuietDrain(m)
    ensures var r := Discard(m);
            r.queue == [] && !r.overflowed && r.axes == m.axes && r.buttons == m.buttons && |r.plan| <= |m.plan|
    decreases |m.plan|, |m.queue|
  {
    TurnKeepsShape(m);
    if |Batch(Turn(m))| != BATCH {
    } else {
      QuietDiscard(Popped(Turn(m)));
    }
  }

  lemma {:induction false} QuietIsUntroubled(m: Machine)
    requires QuietDrain(m)
    ensures StillDrain(m)
    ensures !m.overflowed ==> Untroubled(m)
    decreases |m.plan|, |m.queue|
  {
    TurnKeepsShape(m);
    if |Batch(Turn(m))| != BATCH {
    } else {
      QuietIsUntroubled(Popped(Turn(m)));
    }
  }

  /** The machine at the moment AcquireAndReconcile has read the snapshot. */
  function AtSnapshot(m: Machine): Machine {
    Turn(Turn(Turn(m)))
  }

  /** Reacquiring puts the device in step, provided the hardware is quiet from the snapshot to
      the end of the drain that follows it; what it does later does not matter. */
  lemma ReacquireRestoresStep(tb: Tables, s: Tracked, m: Machine, emit: bool)
    requires WellFormed(tb) && Shaped(tb, s) && Fits(tb, m)
    requires AcquireAndReconcile(tb, s, m, emit).ok && QuietDrain(AtSnapshot(m))
    ensures var r := AcquireAndReconcile(tb, s, m, emit);
            && r.machine.queue == [] && Matches(tb, r.state, r.machine) && InStep(tb, r.state, r.machine)
  {
    AcquireKeepsShape(tb, m);
    SnapshotMatches(tb, s, AtSnapshot(m), emit);
    QuietDiscard(AtSnapshot(m));
  }

  lemma AcquireKeepsShape(tb: Tables, m: Machine)
    requires Fits(tb, m)
    ensures Fits(tb, Turn(m)) && Fits(tb, Turn(Turn(m))) && Fits(tb, AtSnapshot(m))
  {
    TurnKeepsShape(m);
    TurnKeepsShape(Turn(m));
    TurnKeepsShape(Turn(Turn(m)));
  }

  /** No call of this drain fails. */
  predicate DrainSucceeds(m: Machine)
    decreases |m.plan|, |m.queue|
  {
    TurnKeepsShape(m);
    Ok(m) && (|Batch(Turn(m))| < BATCH || DrainSucceeds(Popped(Turn(m))))
  }

  lemma {:induction false} DiscardEmpties(m: Machine)
    requires DrainSucceeds(m)
    ensures var r := Discard(m);
            r.queue == [] && !r.overflowed && |r.axes| == |m.axes| && |r.buttons| == |m.buttons|
    decreases |m.plan|, |m.queue|
  {
    TurnKeepsShape(m);
    if |Batch(Turn(m))| != BATCH {
    } else {
      DiscardEmpties(Popped(Turn(m)));
    }
  }

  /** The values are the same, as far as the device tracks them. */
  predicate SameValues(m: Machine, n: Machine) {
    && m.axes == n.axes && |m.buttons| == |n.buttons|
    && forall j | 0 <= j < |m.buttons| :: HighBit(m.buttons[j]) == HighBit(n.buttons[j])
  }

  /** And exactly: what arrives during the drain is thrown away, so if none of its calls fails,
      the device is in step if and only if the hardware is where it was at the snapshot. */
  lemma ReacquireInStepIffUnmoved(tb: Tables, s: Tracked, m: Machine, emit: bool)
    requires WellFormed(tb) && Shaped(tb, s) && Fits(tb, m)
    requires AcquireAndReconcile(tb, s, m, emit).ok && DrainSucceeds(AtSnapshot(m))
    ensures var r := AcquireAndReconcile(tb, s, m, emit);
            && r.machine.queue == []
            && (InStep(tb, r.state, r.machine) <==> SameValues(AtSnapshot(m), r.machine))
  {
    AcquireKeepsShape(tb, m);
    SnapshotMatches(tb, s, AtSnapshot(m), emit);
    DiscardEmpties(AtSnapshot(m));
  }

  /** The same for one stabilising round of initializeDevice. */
  lemma StabilizeRestoresStep(tb: Tables, s: Tracked, m: Machine)
    requires WellFormed(tb) && Shaped(tb, s) && Fits(tb, m)
    requires Stabilize(tb, s, m).ok && QuietDrain(Turn(Turn(m)))
    ensures var r := Stabilize(tb, s, m);
            && r.machine.queue == [] && Matches(tb, r.state, r.machine) && InStep(tb, r.state, r.machine)
  {
    AcquireKeepsShape(tb, m);
    SnapshotMatches(tb, s, Turn(Turn(m)), false);
    QuietDiscard(Turn(Turn(m)));
  }

  /** The machine when the last round of BringUp has read its snapshot. */
  function AtLastSnapshot(tb: Tables, s: Tracked, m: Machine): Machine
    requires WellFormed(tb) && Shaped(tb, s) && Fits(tb, m)
  {
    var first := AcquireAndReconcile(tb, s, m, false);
    var second := Stabilize(tb, first.state, first.machine);
    Turn(Turn(second.machine))
  }

  /** An opened device starts in step: a bring-up that succeeds ends with the hardware's state,
      if the hardware is quiet after its last snapshot. */
  lemma BringUpStartsInStep(tb: Tables, s: Tracked, m: Machine)
    requires WellFormed(tb) && Shaped(tb, s) && Fits(tb, m)
    requires BringUp(tb, s, m).ok && QuietDrain(AtLastSnapshot(tb, s, m))
    ensures var r := BringUp(tb, s, m);
            && r.machine.queue == [] && Matches(tb, r.state, r.machine) && InStep(tb, r.state, r.machine)
  {
    var first := AcquireAndReconcile(tb, s, m, false);
    var second := Stabilize(tb, first.state, first.machine);
    StabilizeRestoresStep(tb, second.state, second.machine);
  }

  /** The overflow branch of poll reconciles but does not drain.  When that succeeds the
      tracked state is the hardware's, and the device is in step again exactly if the records
      left in the buffer end, object by object, at the current values. */
  lemma OverflowLeavesStep(tb: Tables, s: Tracked, m: Machine)
    requires WellFormed(tb) && Shaped(tb, s) && Fits(tb, m)
    requires Ok(m) && Turn(m).overflowed && Ok(Popped(Turn(m)))
    ensures var r := PollLoop(tb, s, m);
            && r.ok && Matches(tb, r.state, r.machine)
            && (Agrees(tb, r.state, r.machine) <==> Settled(tb, r.machine))
            && (r.machine.queue == [] ==> Agrees(tb, r.state, r.machine))
  {
    TurnKeepsShape(m);
    var n := Popped(Turn(m));
    TurnKeepsShape(n);
    var step := SeeRecords(tb, s, Batch(Turn(m)));
    SnapshotMatches(tb, step.state, Turn(n), true);
    AgreesIffSettled(tb, PollLoop(tb, s, m).state, Turn(n));
  }

  // ---- Every poll, whatever happens in it ----

  datatype Cause = ShortBatch | Overflow | Failure

  /** How the reading of records comes to an end: what was read, why it ended, and the machine
      as the call that ended it leaves it. */
  datatype Reading = Reading(records: seq<Record>, cause: Cause, machine: Machine)

  function ReadOut(m: Machine): (r: Reading)
    ensures |r.machine.axes| == |m.axes| && |r.machine.buttons| == |m.buttons|
    decreases |m.plan|, |m.queue|
  {
    TurnKeepsShape(m);
    var n := Turn(m);
    if !Ok(m) then Reading([], Failure, n)
    else if n.overflowed then Reading(Batch(n), Overflow, Popped(n))
    else if |Batch(n)| < BATCH then Reading(Batch(n), ShortBatch, Popped(n))
    else
      var rest := ReadOut(Popped(n));
      rest.(records := Batch(n) + rest.records)
  }

  /** The same for a whole poll, which begins with a call of its own. */
  function Read(m: Machine): (r: Reading)
    ensures |r.machine.axes| == |m.axes| && |r.machine.buttons| == |m.buttons|
  {
    TurnKeepsShape(m);
    if Ok(m) then ReadOut(Turn(m)) else Reading([], Failure, Turn(m))
  }

  /** The three calls of a reacquisition, up to the snapshot. */
  predicate Reacquires(m: Machine) {
    Ok(m) && Ok(Turn(m)) && Ok(Turn(Turn(m)))
  }

  /** The snapshot a poll takes, if it comes to that. */
  function Taken(r: Reading): (n: Option<Machine>)
    ensures n.Some? ==> |n.value.axes| == |r.machine.axes| && |n.value.buttons| == |r.machine.buttons|
  {
    TurnKeepsShape(r.machine);
    TurnKeepsShape(Turn(r.machine));
    TurnKeepsShape(Turn(Turn(r.machine)));
    match r.cause
    case ShortBatch => None
    case Overflow => if Ok(r.machine) then Some(Turn(r.machine)) else None
    case Failure => if Reacquires(r.machine) then Some(AtSnapshot(r.machine)) else None
  }

  /** Everything the poll learns: the records it pops, and the snapshot if it takes one. */
  function Learned(r: Reading): seq<Record>
    requires |r.machine.axes| <= MAX_AXES && |r.machine.buttons| <= MAX_BUTTONS
  {
    r.records + (if Taken(r).Some? then Snapshot(Taken(r).value) else [])
  }

  /** Where it leaves the machine. */
  function Leaves(r: Reading): Machine {
    match r.cause
    case ShortBatch => r.machine
    case Overflow => Turn(r.machine)
    case Failure =>
      if !Ok(r.machine) then Turn(r.machine)
      else if !Ok(Turn(r.machine)) then Turn(Turn(r.machine))
      else if !Ok(Turn(Turn(r.machine))) then AtSnapshot(r.machine)
      else Discard(AtSnapshot(r.machine))
  }

  /** The run is the fold over what was learned. */
  predicate Follows(tb: Tables, s: Tracked, reading: Reading, r: Run)
    requires WellFormed(tb) && Shaped(tb, s) && Fits(tb, reading.machine)
  {
    var fold := SeeRecords(tb, s, Learned(reading));
    && r.state == fold.state && r.calls == fold.calls && r.machine == Leaves(reading)
    && (r.ok <==> reading.cause == ShortBatch || Taken(reading).Some?)
  }

  lemma ReacquireFollows(tb: Tables, s: Tracked, m: Machine)
    requires WellFormed(tb) && Shaped(tb, s) && Fits(tb, m)
    ensures Follows(tb, s, Reading([], Failure, m), AcquireAndReconcile(tb, s, m, true))
  {
    AcquireKeepsShape(tb, m);
    if Reacquires(m) {
      assert Learned(Reading([], Failure, m)) == Snapshot(AtSnapshot(m));
    }
  }

  lemma ReconcileFollows(tb: Tables, s: Tracked, m: Machine)
    requires WellFormed(tb) && Shaped(tb, s) && Fits(tb, m)
    ensures Follows(tb, s, Reading([], Overflow, m), Reconcile(tb, s, m, true))
  {
    TurnKeepsShape(m);
    if Ok(m) {
      assert Learned(Reading([], Overflow, m)) == Snapshot(Turn(m));
    }
  }

  /** What is read first goes before. */
  lemma FollowsAfter(tb: Tables, s: Tracked, front: seq<Record>, rest: Reading, r: Run)
    requires WellFormed(tb) && Shaped(tb, s) && Fits(tb, rest.machine)
    requires Follows(tb, SeeRecords(tb, s, front).state, rest, r)
    ensures var whole := rest.(records := front + rest.records);
            Follows(tb, s, whole, r.(calls := SeeRecords(tb, s, front).calls + r.calls))
  {
    var snapshot := if Taken(rest).Some? then Snapshot(Taken(rest).value) else [];
    assert Taken(rest.(records := front + rest.records)) == Taken(rest);
    Associative(front, rest.records, snapshot);
    SeeConcat(tb, s, front, Learned(rest));
  }

  lemma ShortFollows(tb: Tables, s: Tracked, records: seq<Record>, m: Machine)
    requires WellFormed(tb) && Shaped(tb, s) && Fits(tb, m)
    ensures var step := SeeRecords(tb, s, records);
            Follows(tb, s, Reading(records, ShortBatch, m), Run(true, step.state, m, step.calls))
  {
    assert Learned(Reading(records, ShortBatch, m)) == records;
  }

  lemma {:induction false} LoopFollows(tb: Tables, s: Tracked, m: Machine)
    requires WellFormed(tb) && Shaped(tb, s) && Fits(tb, m)
    ensures Follows(tb, s, ReadOut(m), PollLoop(tb, s, m))
    decreases |m.plan|, |m.queue|
  {
    TurnKeepsShape(m);
    var n := Turn(m);
    if !Ok(m) {
      ReacquireFollows(tb, s, n);
    } else {
      var step := SeeRecords(tb, s, Batch(n));
      if n.overflowed {
        ReconcileFollows(tb, step.state, Popped(n));
        FollowsAfter(tb, s, Batch(n), Reading([], Overflow, Popped(n)), Reconcile(tb, step.state, Popped(n), true));
        assert Batch(n) + [] == Batch(n);
      } else if |Batch(n)| == BATCH {
        LoopFollows(tb, step.state, Popped(n));
        FollowsAfter(tb, s, Batch(n), ReadOut(Popped(n)), PollLoop(tb, step.state, Popped(n)));
      } else {
        ShortFollows(tb, s, Batch(n), Popped(n));
      }
    }
  }

  /** Every poll, with any failure at any call and any overflow, is the fold over what it
      learns; it succeeds exactly if the records ran out or a snapshot was taken. */
  lemma EveryPollIsAFold(tb: Tables, s: Tracked, m: Machine)
    requires WellFormed(tb) && Shaped(tb, s) && Fits(tb, m)
    ensures Follows(tb, s, Read(m), Poll(tb, s, m))
  {
    TurnKeepsShape(m);
    if Ok(m) { LoopFollows(tb, s, Turn(m)); } else { ReacquireFollows(tb, s, Turn(m)); }
  }

  /** So for every poll what the sink hears of a button is the stutter-free compression of what
      the records, and then the snapshot, say about it. */
  lemma EveryPollEdges(tb: Tables, s: Tracked, m: Machine, j: nat)
    requires WellFormed(tb) && Shaped(tb, s) && Fits(tb, m) && j < |tb.buttons|
    ensures var r, button := Poll(tb, s, m), tb.buttons[j];
            var popped := AsDown(DataFor(tb, Read(m).records, ButtonItem(j)));
            var known := LastValue(s.down[button], popped);
            if Taken(Read(m)).None? then
              && Edges(r.calls, tb.info.instanceGuid, button) == Compress(s.down[button], popped)
              && r.state.down[button] == known
            else
              var value := HighBit(Taken(Read(m)).value.buttons[j]);
              && Edges(r.calls, tb.info.instanceGuid, button)
                 == Compress(s.down[button], popped) + (if value != known then [value] else [])
              && r.state.down[button] == value
  {
    EveryPollIsAFold(tb, s, m);
    var reading, fold := Read(m), SeeRecords(tb, s, Read(m).records);
    EdgesAreCompression(tb, s, reading.records, j);
    if Taken(reading).Some? {
      var snapshot := Taken(reading).value;
      SeeConcat(tb, s, reading.records, Snapshot(snapshot));
      SnapshotMatches(tb, fold.state, snapshot, true);
      RepairEdges(tb, fold.state, snapshot, j);
      EdgesConcat(fold.calls, SeeRecords(tb, fold.state, Snapshot(snapshot)).calls, tb.info.instanceGuid,
                  tb.buttons[j]);
    } else {
      assert Learned(reading) == reading.records;
    }
  }

  /** And of an axis. */
  lemma EveryPollSamples(tb: Tables, s: Tracked, m: Machine, i: nat)
    requires WellFormed(tb) && Shaped(tb, s) && Fits(tb, m) && i < |tb.axes|
    ensures var r, axis := Poll(tb, s, m), tb.axes[i].instance;
            var popped := AsKnown(DataFor(tb, Read(m).records, AxisItem(i)));
            var known := LastValue(s.axes[i], popped);
            var said := SamplesOf(tb, i, Compress(s.axes[i], popped));
            if Taken(Read(m)).None? then
              Samples(r.calls, tb.info.instanceGuid, axis) == said && r.state.axes[i] == known
            else
              var value := Taken(Read(m)).value.axes[i];
              && Samples(r.calls, tb.info.instanceGuid, axis)
                 == said + (if known != Some(value) then [AxisSample(tb, i, value)] else [])
              && r.state.axes[i] == Some(value)
  {
    EveryPollIsAFold(tb, s, m);
    var reading, fold := Read(m), SeeRecords(tb, s, Read(m).records);
    SamplesAreCompression(tb, s, reading.records, i);
    if Taken(reading).Some? {
      var snapshot := Taken(reading).value;
      SeeConcat(tb, s, reading.records, Snapshot(snapshot));
      SnapshotMatches(tb, fold.state, snapshot, true);
      RepairSamples(tb, fold.state, snapshot, i);
      SamplesConcat(fold.calls, SeeRecords(tb, fold.state, Snapshot(snapshot)).calls, tb.info.instanceGuid,
                    tb.axes[i].instance);
    } else {
      assert Learned(reading) == reading.records;
    }
  }

  /** The sink is told of nothing but the device's own buttons and axes. */
  lemma EveryPollIsItsOwn(tb: Tables, s: Tracked, m: Machine)
    requires WellFormed(tb) && Shaped(tb, s) && Fits(tb, m)
    ensures forall call | call in Poll(tb, s, m).calls :: FromTables(tb, call)
  {
    EveryPollIsAFold(tb, s, m);
    FoldCallsFromTables(tb, s, Learned(Read(m)));
  }

  /** Whatever made a poll take a snapshot, it ends with the state at that snapshot. */
  lemma SnapshotPollMatches(tb: Tables, s: Tracked, m: Machine)
    requires WellFormed(tb) && Shaped(tb, s) && Fits(tb, m) && Taken(Read(m)).Some?
    ensures Matches(tb, Poll(tb, s, m).state, Taken(Read(m)).value)
  {
    EveryPollIsAFold(tb, s, m);
    var reading := Read(m);
    var fold := SeeRecords(tb, s, reading.records);
    SeeConcat(tb, s, reading.records, Snapshot(Taken(reading).value));
    SnapshotMatches(tb, fold.state, Taken(reading).value, true);
  }

  /** A poll one of whose calls fails - the first, or a read of records - recovers exactly if
      the three calls of the reacquisition succeed.  Then it tracks the state at the snapshot,
      and is in step if the hardware stays quiet while the rest is drained. */
  lemma FailedPollRecovers(tb: Tables, s: Tracked, m: Machine)
    requires WellFormed(tb) && Shaped(tb, s) && Fits(tb, m) && Read(m).cause == Failure
    ensures var r, failed := Poll(tb, s, m), Read(m).machine;
            && Fits(tb, AtSnapshot(failed))
            && (r.ok <==> Ok(failed) && Ok(Turn(failed)) && Ok(Turn(Turn(failed))))
            && (r.ok ==> Matches(tb, r.state, AtSnapshot(failed)))
            && (r.ok && QuietDrain(AtSnapshot(failed)) ==>
                  r.machine.queue == [] && Matches(tb, r.state, r.machine) && InStep(tb, r.state, r.machine))
  {
    EveryPollIsAFold(tb, s, m);
    AcquireKeepsShape(tb, Read(m).machine);
    if Taken(Read(m)).Some? {
      SnapshotPollMatches(tb, s, m);
      if QuietDrain(AtSnapshot(Read(m).machine)) {
        QuietDiscard(AtSnapshot(Read(m).machine));
      }
    }
  }

  /** A poll whose first call fails and that cannot reacquire changes nothing. */
  lemma HopelessPollIsIdle(tb: Tables, s: Tracked, m: Machine)
    requires WellFormed(tb) && Shaped(tb, s) && Fits(tb, m) && !Ok(m)
    ensures var r := Poll(tb, s, m); !r.ok ==> r.state == s && r.calls == []
  {
    EveryPollIsAFold(tb, s, m);
  }

  // ---- How the overflow branch goes wrong ----

  /** A wheel with one button and nothing else. */
  function Wheel(): Tables {
    Tables(DeviceInfo("{wheel}", "{wheel}", "Wheel", "Wheel", 1, 0), [0], [])
  }

  function OnlyButton(down: bool): Tracked {
    Tracked(seq(MAX_BUTTONS, b => b == 0 && down), [])
  }

  /** The button, held at first, is let go, pressed, let go, and so on. */
  function Tap(k: nat): Record {
    Record(0, if k % 2 == 0 then 0x00 else 0x80)
  }

  function Taps(n: nat): seq<Record> {
    seq(n, k requires 0 <= k < n => Tap(k))
  }

  /** The machine after n such changes with nobody reading. */
  function Tapped(n: nat): Machine {
    Machine([], [if n == 0 then 0x80 else Tap(n - 1).data], Taps(Min(n, DEVICE_BUFFER)), n > DEVICE_BUFFER, [])
  }

  function TapMoves(n: nat): seq<Move> {
    seq(n, k requires 0 <= k < n => Queued(Tap(k)))
  }

  lemma {:induction false} MoveAllAppend(m: Machine, moves: seq<Move>, move: Move)
    ensures MoveAll(m, moves + [move]) == MoveOnce(MoveAll(m, moves), move)
    decreases |moves|
  {
    if moves == [] {
      assert [move][1..] == [];
    } else {
      MoveAllAppend(MoveOnce(m, moves[0]), moves[1..], move);
      assert (moves + [move])[1..] == moves[1..] + [move];
    }
  }

  lemma OneTap(n: nat)
    requires 0 < n <= DEVICE_BUFFER + 1
    ensures MoveOnce(Tapped(n - 1), Queued(Tap(n - 1))) == Tapped(n)
  {
    assert n <= DEVICE_BUFFER ==> Taps(n) == Taps(n - 1) + [Tap(n - 1)];
  }

  lemma {:induction false} TapsTapped(n: nat)
    requires n <= DEVICE_BUFFER + 1
    ensures MoveAll(Tapped(0), TapMoves(n)) == Tapped(n)
  {
    if n == 0 {
    } else {
      TapsTapped(n - 1);
      assert TapMoves(n) == TapMoves(n - 1) + [Queued(Tap(n - 1))];
      MoveAllAppend(Tapped(0), TapMoves(n - 1), Queued(Tap(n - 1)));
      OneTap(n);
    }
  }

  /** A poll that nothing disturbs empties the buffer and leaves a button as its last record
      says - which need not be as the hardware has it. */
  lemma QuietPollEndsAtLastRecord(tb: Tables, s: Tracked, m: Machine, j: nat)
    requires WellFormed(tb) && Shaped(tb, s) && Fits(tb, m) && j < |tb.buttons|
    requires Ok(m) && QuietDrain(Turn(m)) && !Turn(m).overflowed
    requires LastData(tb, Turn(m).queue, ButtonItem(j)).Some?
    ensures var r, n := Poll(tb, s, m), Turn(m);
            && r.ok && r.machine.queue == [] && !r.machine.overflowed
            && r.machine.axes == n.axes && r.machine.buttons == n.buttons && |r.machine.plan| <= |n.plan|
            && r.state.down[tb.buttons[j]] == HighBit(LastData(tb, n.queue, ButtonItem(j)).value)
  {
    TurnKeepsShape(m);
    var n := Turn(m);
    QuietIsUntroubled(n);
    StreamIsQueue(n);
    DrainRefinesFold(tb, s, n);
    LastButtonRecordWins(tb, s, n.queue, j);
    QuietDiscard(n);
  }

  /** So the next poll after a snapshot, if it is quiet, gets it right exactly if what was
      pending when it began to read was settled. */
  lemma NextPollIsRightIffSettled(tb: Tables, s: Tracked, m: Machine)
    requires WellFormed(tb) && Shaped(tb, s) && Fits(tb, m) && Fits(tb, Turn(m)) && Matches(tb, s, Turn(m))
    requires Ok(m) && QuietDrain(Turn(m)) && !Turn(m).overflowed
    ensures var r := Poll(tb, s, m);
            r.ok && r.machine.queue == [] && (Matches(tb, r.state, r.machine) <==> Settled(tb, Turn(m)))
  {
    var n := Turn(m);
    QuietIsUntroubled(n);
    StreamIsQueue(n);
    DrainRefinesFold(tb, s, n);
    QuietDiscard(n);
    AgreesIffSettled(tb, s, n);
  }

  /** Whether the branch does harm is thus a matter of what DirectInput drops: if it drops the
      oldest of records that were settled, it does none. */
  lemma DroppingOldestIsHarmless(tb: Tables, m: Machine, all: seq<Record>, k: nat)
    requires Fits(tb, m) && k <= |all| && m.queue == all[k..] && Settled(tb, m.(queue := all))
    ensures Settled(tb, m)
  {
    forall item ensures LastData(tb, m.queue, item).Some? ==> LastData(tb, m.queue, item) == LastData(tb, all, item) {
      LastOfSuffix(tb, all, k, item);
    }
  }

  lemma {:induction false} LastOfSuffix(tb: Tables, all: seq<Record>, k: nat, item: Item)
    requires k <= |all|
    ensures var last := LastData(tb, all[k..], item);
            last.Some? ==> last == LastData(tb, all, item)
    decreases |all|
  {
    if k == |all| {
    } else {
      LastOfSuffix(tb, all[..|all| - 1], k, item);
      assert all[k..][..|all[k..]| - 1] == all[..|all| - 1][k..];
    }
  }

  lemma {:induction false} NoPlanIsQuiet(m: Machine)
    requires m.plan == []
    ensures QuietDrain(m)
    decreases |m.queue|
  {
    if |Batch(m)| != BATCH {
    } else {
      NoPlanIsQuiet(Popped(m));
    }
  }

  lemma WheelIsShaped(down: bool, m: Machine)
    ensures WellFormed(Wheel()) && Shaped(Wheel(), OnlyButton(down))
    ensures |m.axes| == 0 && |m.buttons| == 1 ==> Fits(Wheel(), m)
  {
  }

  lemma LastTapPresses(n: nat)
    requires n == DEVICE_BUFFER + 1
    ensures LastData(Wheel(), Popped(Tapped(n)).queue, ButtonItem(0)) == Some(0x80)
  {
    var queue := Popped(Tapped(n)).queue;
    assert queue[|queue| - 1] == Tap(n - 2);
    OffsetBijection(0, 0, 1);
  }

  /** The wheel with its button held, and n taps between now and the next poll. */
  function Tapping(n: nat): Machine {
    Tapped(0).(plan := [Outcome(true, TapMoves(n))])
  }

  lemma TappingTurns(n: nat)
    requires n <= DEVICE_BUFFER + 1
    ensures Ok(Tapping(n)) && Turn(Tapping(n)) == Tapped(n) && LosslessTurn(Tapping(n))
  {
    TapsTapped(n);
    assert Tapping(n).(plan := []) == Tapped(0);
  }

  lemma FirstPollReconciles(n: nat)
    requires n == DEVICE_BUFFER + 1 && Fits(Wheel(), Tapping(n))
    ensures var tb, r := Wheel(), Poll(Wheel(), OnlyButton(true), Tapping(n));
            && r.ok && r.machine == Popped(Tapped(n))
            && Shaped(tb, r.state) && Fits(tb, r.machine) && Matches(tb, r.state, r.machine)
  {
    TappingTurns(n);
    WheelIsShaped(true, Tapped(n));
    OverflowLeavesStep(Wheel(), OnlyButton(true), Tapped(n));
  }

  lemma SecondPollReplays(n: nat, s: Tracked)
    requires n == DEVICE_BUFFER + 1 && Shaped(Wheel(), s) && Fits(Wheel(), Popped(Tapped(n)))
    ensures var r := Poll(Wheel(), s, Popped(Tapped(n)));
            && r.ok && r.machine.queue == [] && !r.machine.overflowed && r.machine.plan == []
            && r.state.down[0] && r.machine.buttons == [0x00]
  {
    var m := Popped(Tapped(n));
    LastTapPresses(n);
    NoPlanIsQuiet(m);
    assert Turn(m) == m;
    QuietPollEndsAtLastRecord(Wheel(), s, m, 0);
  }

  /** A concrete loss of state.  The device is in step and every change is announced, but more
      changes arrive between two polls than the buffer holds, and the one that is lost lets the
      button go.  Both polls that follow succeed, the buffer is empty and not overflowed,
      nothing moves any more - and the tracker still holds the button down. */
  lemma StaleAfterOverflow(n: nat)
    requires n == DEVICE_BUFFER + 1
    ensures
      var tb, s, m := Wheel(), OnlyButton(true), Tapping(n);
      && WellFormed(tb) && Shaped(tb, s) && Fits(tb, m) && InStep(tb, s, m) && LosslessTurn(m)
      && var first := Poll(tb, s, m);
         var second := Poll(tb, first.state, first.machine);
         && first.ok && Matches(tb, first.state, first.machine)
         && second.ok && second.machine.queue == [] && !second.machine.overflowed && second.machine.plan == []
         && second.state.down[0] && second.machine.buttons == [0x00]
  {
    WheelIsShaped(true, Tapping(n));
    TappingTurns(n);
    FirstPollReconciles(n);
    SecondPollReplays(n, Poll(Wheel(), OnlyButton(true), Tapping(n)).state);
  }
}
