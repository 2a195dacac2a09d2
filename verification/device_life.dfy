/** The life of one opened device, as its sink sees it: edges alternate, and the last value
    of every axis is what the device tracks. */
module DeviceLife {
  import opened ControllerTypes
  import opened PackedLayout
  import opened Hardware
  import opened DeviceSpec
  import opened Traces
  import opened DeviceTheorems
  import opened Recovery

  // ---- Edges alternate ----

  /** For every button the edges alternate, starting from and ending at the tracked states. */
  ghost predicate Tracks(tb: Tables, before: Tracked, calls: seq<SinkCall>, after: Tracked)
    requires |before.down| == |after.down| == MAX_BUTTONS
  {
    forall b: nat | b < MAX_BUTTONS ::
      var edges := Edges(calls, tb.info.instanceGuid, b);
      AlternatesFrom(before.down[b], edges) && LastOf(before.down[b], edges) == after.down[b]
  }

  lemma TracksNothing(tb: Tables, s: Tracked)
    requires |s.down| == MAX_BUTTONS
    ensures Tracks(tb, s, [], s)
  {
  }

  lemma TracksConcat(tb: Tables, s: Tracked, a: seq<SinkCall>, t: Tracked, b: seq<SinkCall>, u: Tracked)
    requires |s.down| == |t.down| == |u.down| == MAX_BUTTONS
    requires Tracks(tb, s, a, t) && Tracks(tb, t, b, u)
    ensures Tracks(tb, s, a + b, u)
  {
    forall k: nat | k < MAX_BUTTONS
      ensures var edges := Edges(a + b, tb.info.instanceGuid, k);
              AlternatesFrom(s.down[k], edges) && LastOf(s.down[k], edges) == u.down[k]
    {
      EdgesConcat(a, b, tb.info.instanceGuid, k);
      AlternatesConcat(s.down[k], Edges(a, tb.info.instanceGuid, k), Edges(b, tb.info.instanceGuid, k));
    }
  }

  lemma TracksRecord(tb: Tables, s: Tracked, record: Record)
    requires WellFormed(tb) && Shaped(tb, s)
    ensures var r := SeeRecord(tb, s, record); Tracks(tb, s, r.calls, r.state)
  {
    forall b: nat | b < MAX_BUTTONS
      ensures var r := SeeRecord(tb, s, record);
              var edges := Edges(r.calls, tb.info.instanceGuid, b);
              AlternatesFrom(s.down[b], edges) && LastOf(s.down[b], edges) == r.state.down[b]
    {
      OneRecordEdges(tb, s, record, b);
    }
  }

  lemma {:induction false} TracksRecords(tb: Tables, s: Tracked, records: seq<Record>)
    requires WellFormed(tb) && Shaped(tb, s)
    ensures var r := SeeRecords(tb, s, records); Tracks(tb, s, r.calls, r.state)
  {
    if records == [] {
      TracksNothing(tb, s);
    } else {
      var front := SeeRecords(tb, s, records[..|records| - 1]);
      var record := records[|records| - 1];
      TracksRecords(tb, s, records[..|records| - 1]);
      TracksRecord(tb, front.state, record);
      var last := SeeRecord(tb, front.state, record);
      TracksConcat(tb, s, front.calls, front.state, last.calls, last.state);
    }
  }

  lemma {:induction false} ReleaseEdges(tb: Tables, s: Tracked, n: nat, b: nat)
    requires n <= |s.down| == MAX_BUTTONS && b < MAX_BUTTONS
    ensures Edges(Releases(tb, s, n), tb.info.instanceGuid, b) == if b < n && s.down[b] then [false] else []
  {
    if n == 0 {
    } else {
      ReleaseEdges(tb, s, n - 1, b);
      if s.down[n - 1] {
        var call := Edge(tb, n - 1, false);
        EdgesConcat(Releases(tb, s, n - 1), [call], tb.info.instanceGuid, b);
        OneCall(call, tb.info.instanceGuid, b);
      }
    }
  }

  /** Releasing a device lets go of every button that is down, and of no other. */
  lemma TracksLetGo(tb: Tables, s: Tracked)
    requires |s.down| == MAX_BUTTONS
    ensures var r := LetGo(tb, s, MAX_BUTTONS);
            Tracks(tb, s, r.calls, r.state) && forall b | 0 <= b < MAX_BUTTONS :: !r.state.down[b]
  {
    forall b: nat | b < MAX_BUTTONS
      ensures var edges := Edges(Releases(tb, s, MAX_BUTTONS), tb.info.instanceGuid, b);
              AlternatesFrom(s.down[b], edges) && LastOf(s.down[b], edges) == false
    {
      ReleaseEdges(tb, s, MAX_BUTTONS, b);
    }
  }

  // ---- The manager's table recalls the tracked axis values ----

  function Entry(tb: Tables, i: nat): AxisKey
    requires i < |tb.axes|
  {
    AxisKey(tb.info.instanceGuid, tb.axes[i].instance)
  }

  /** The table has an entry of this device exactly for the axes with a state, holding the
      state normalized. */
  ghost predicate Recalls(tb: Tables, s: Tracked, table: map<AxisKey, real>)
    requires Shaped(tb, s)
  {
    && (forall i | 0 <= i < |tb.axes| ::
          if s.axes[i].Some? then Entry(tb, i) in table && table[Entry(tb, i)] == Normalized(s.axes[i].value)
          else Entry(tb, i) !in table)
    && (forall key | key in table && key.device == tb.info.instanceGuid ::
          exists i :: 0 <= i < |tb.axes| && key == Entry(tb, i))
  }

  /** Entries of other devices are left alone. */
  ghost predicate OthersKept(guid: string, before: map<AxisKey, real>, after: map<AxisKey, real>) {
    forall key: AxisKey | key.device != guid ::
      (key in before <==> key in after) && (key in before ==> before[key] == after[key])
  }

  ghost predicate Recorded(tb: Tables, s: Tracked, calls: seq<SinkCall>, t: Tracked, table: map<AxisKey, real>)
    requires Shaped(tb, s) && Shaped(tb, t)
  {
    Recalls(tb, s, table) ==>
      Recalls(tb, t, Cache(table, calls)) && OthersKept(tb.info.instanceGuid, table, Cache(table, calls))
  }

  lemma RecallsSample(tb: Tables, s: Tracked, i: nat, raw: uint32, table: map<AxisKey, real>, call: SinkCall)
    requires WellFormed(tb) && Shaped(tb, s) && i < |tb.axes| && tb.info.instanceGuid != ""
    requires Recalls(tb, s, table)
    requires call == EmitAxis(AxisSample(tb, i, raw)) || call == SyncAxis(AxisSample(tb, i, raw))
    ensures Recalls(tb, s.(axes := s.axes[i := Some(raw)]), Remember(table, call))
    ensures OthersKept(tb.info.instanceGuid, table, Remember(table, call))
  {
    var after := Remember(table, call);
    assert after == table[Entry(tb, i) := Normalized(raw)];
    forall k | 0 <= k < |tb.axes| && k != i ensures Entry(tb, k) != Entry(tb, i) {
      assert tb.axes[k].instance != tb.axes[i].instance;
    }
  }

  lemma CacheOne(table: map<AxisKey, real>, call: SinkCall)
    ensures Cache(table, [call]) == Remember(table, call)
  {
    assert [call][..0] == [];
  }

  lemma RecordedRecord(tb: Tables, s: Tracked, record: Record, table: map<AxisKey, real>)
    requires WellFormed(tb) && Shaped(tb, s) && tb.info.instanceGuid != ""
    ensures var r := SeeRecord(tb, s, record); Recorded(tb, s, r.calls, r.state, table)
  {
    OffsetBijection(record.offset, |tb.axes|, |tb.buttons|);
    match Decode(tb, record)
    case AxisItem(i) =>
      if Recalls(tb, s, table) {
        CacheOne(table, EmitAxis(AxisSample(tb, i, record.data)));
        RecallsSample(tb, s, i, record.data, table, EmitAxis(AxisSample(tb, i, record.data)));
      }
    case ButtonItem(j) => CacheOne(table, Edge(tb, tb.buttons[j], HighBit(record.data)));
    case NoItem =>
  }

  lemma RecordedConcat(tb: Tables, s: Tracked, a: seq<SinkCall>, t: Tracked, b: seq<SinkCall>, u: Tracked,
          table: map<AxisKey, real>)
    requires Shaped(tb, s) && Shaped(tb, t) && Shaped(tb, u)
    requires Recorded(tb, s, a, t, table) && Recorded(tb, t, b, u, Cache(table, a))
    ensures Recorded(tb, s, a + b, u, table)
  {
    CacheConcat(table, a, b);
  }

  lemma {:induction false} RecordedRecords(tb: Tables, s: Tracked, records: seq<Record>, table: map<AxisKey, real>)
    requires WellFormed(tb) && Shaped(tb, s) && tb.info.instanceGuid != ""
    ensures var r := SeeRecords(tb, s, records); Recorded(tb, s, r.calls, r.state, table)
  {
    if records == [] {
    } else {
      var front := SeeRecords(tb, s, records[..|records| - 1]);
      var record := records[|records| - 1];
      RecordedRecords(tb, s, records[..|records| - 1], table);
      RecordedRecord(tb, front.state, record, Cache(table, front.calls));
      var last := SeeRecord(tb, front.state, record);
      RecordedConcat(tb, s, front.calls, front.state, last.calls, last.state, table);
    }
  }

  /** The silent reconcile of initializeDevice tells the manager every axis. */
  lemma {:induction false} RecordedSyncs(tb: Tables, s: Tracked, m: Machine, n: nat, table: map<AxisKey, real>)
    requires WellFormed(tb) && Shaped(tb, s) && Fits(tb, m) && tb.info.instanceGuid != "" && n <= |tb.axes|
    ensures var t := s.(axes := seq(|s.axes|, i requires 0 <= i < |s.axes| =>
                                      if i < n then Some(m.axes[i]) else s.axes[i]));
            Recorded(tb, s, AxisSyncs(tb, m, n), t, table)
  {
    var t := s.(axes := seq(|s.axes|, i requires 0 <= i < |s.axes| => if i < n then Some(m.axes[i]) else s.axes[i]));
    if n == 0 {
      assert t == s;
    } else {
      var u := s.(axes := seq(|s.axes|, i requires 0 <= i < |s.axes| =>
                                if i < n - 1 then Some(m.axes[i]) else s.axes[i]));
      var front := AxisSyncs(tb, m, n - 1);
      var call := SyncAxis(AxisSample(tb, n - 1, m.axes[n - 1]));
      RecordedSyncs(tb, s, m, n - 1, table);
      assert t.axes == u.axes[n - 1 := Some(m.axes[n - 1])];
      CacheOne(Cache(table, front), call);
      if Recalls(tb, u, Cache(table, front)) {
        RecallsSample(tb, u, n - 1, m.axes[n - 1], Cache(table, front), call);
      }
      RecordedConcat(tb, s, front, u, [call], t, table);
    }
  }

  lemma RecallsIgnoresButtons(tb: Tables, s: Tracked, t: Tracked, table: map<AxisKey, real>)
    requires Shaped(tb, s) && Shaped(tb, t) && s.axes == t.axes
    ensures Recalls(tb, s, table) == Recalls(tb, t, table)
  {
  }

  // ---- Whole runs of one device ----

  /** Every call names the device. */
  predicate Own(guid: string, calls: seq<SinkCall>) {
    forall k | 0 <= k < |calls| ::
      match calls[k]
      case EmitButton(edge) => edge.device.instanceGuid == guid
      case EmitAxis(sample) => sample.device.instanceGuid == guid
      case SyncAxis(sample) => sample.device.instanceGuid == guid
      case _ => false
  }

  lemma {:induction false} OwnRecords(tb: Tables, s: Tracked, records: seq<Record>)
    requires WellFormed(tb) && Shaped(tb, s)
    ensures Own(tb.info.instanceGuid, SeeRecords(tb, s, records).calls)
  {
    if records == [] {
    } else {
      OwnRecords(tb, s, records[..|records| - 1]);
    }
  }

  lemma {:induction false} OwnSyncs(tb: Tables, m: Machine, n: nat)
    requires Fits(tb, m) && n <= |tb.axes|
    ensures Own(tb.info.instanceGuid, AxisSyncs(tb, m, n))
    ensures forall k | 0 <= k < |AxisSyncs(tb, m, n)| :: AxisSyncs(tb, m, n)[k].SyncAxis?
  {
    if n == 0 {
    } else {
      OwnSyncs(tb, m, n - 1);
    }
  }

  /** A device's calls hold no edge of another device. */
  lemma OtherEdges(guid: string, calls: seq<SinkCall>, other: string, b: nat)
    requires Own(guid, calls) && other != guid
    ensures Edges(calls, other, b) == []
  {
    NoEdgesUpTo(calls, |calls|, other, b);
  }

  /** A run the sink hears in full: the calls are the device's own, edges continue the tracked
      states, and a table that recalled the state before recalls the state after. */
  ghost predicate Heard(tb: Tables, s: Tracked, calls: seq<SinkCall>, t: Tracked, table: map<AxisKey, real>)
    requires Shaped(tb, s) && Shaped(tb, t)
  {
    Own(tb.info.instanceGuid, calls) && Tracks(tb, s, calls, t) && Recorded(tb, s, calls, t, table)
  }

  lemma HeardNothing(tb: Tables, s: Tracked, table: map<AxisKey, real>)
    requires Shaped(tb, s)
    ensures Heard(tb, s, [], s, table)
  {
    TracksNothing(tb, s);
  }

  lemma HeardConcat(tb: Tables, s: Tracked, a: seq<SinkCall>, t: Tracked, b: seq<SinkCall>, u: Tracked,
          table: map<AxisKey, real>)
    requires Shaped(tb, s) && Shaped(tb, t) && Shaped(tb, u)
    requires Heard(tb, s, a, t, table) && Heard(tb, t, b, u, Cache(table, a))
    ensures Heard(tb, s, a + b, u, table)
  {
    TracksConcat(tb, s, a, t, b, u);
    RecordedConcat(tb, s, a, t, b, u, table);
  }

  lemma HeardRecords(tb: Tables, s: Tracked, records: seq<Record>, table: map<AxisKey, real>)
    requires WellFormed(tb) && Shaped(tb, s) && tb.info.instanceGuid != ""
    ensures var r := SeeRecords(tb, s, records); Heard(tb, s, r.calls, r.state, table)
  {
    OwnRecords(tb, s, records);
    TracksRecords(tb, s, records);
    RecordedRecords(tb, s, records, table);
  }

  lemma HeardReconcile(tb: Tables, s: Tracked, m: Machine, table: map<AxisKey, real>)
    requires WellFormed(tb) && Shaped(tb, s) && Fits(tb, m) && tb.info.instanceGuid != ""
    ensures var r := Reconcile(tb, s, m, true); Heard(tb, s, r.calls, r.state, table)
  {
    TurnKeepsShape(m);
    HeardNothing(tb, s, table);
    if Ok(m) { HeardRecords(tb, s, Snapshot(Turn(m)), table); }
  }

  lemma HeardReacquire(tb: Tables, s: Tracked, m: Machine, table: map<AxisKey, real>)
    requires WellFormed(tb) && Shaped(tb, s) && Fits(tb, m) && tb.info.instanceGuid != ""
    ensures var r := AcquireAndReconcile(tb, s, m, true); Heard(tb, s, r.calls, r.state, table)
  {
    TurnKeepsShape(m);
    TurnKeepsShape(Turn(m));
    HeardNothing(tb, s, table);
    if Ok(m) && Ok(Turn(m)) { HeardReconcile(tb, s, Turn(Turn(m)), table); }
  }

  lemma {:induction false} HeardPollLoop(tb: Tables, s: Tracked, m: Machine, table: map<AxisKey, real>)
    requires WellFormed(tb) && Shaped(tb, s) && Fits(tb, m) && tb.info.instanceGuid != ""
    ensures var r := PollLoop(tb, s, m); Heard(tb, s, r.calls, r.state, table)
    decreases |m.plan|, |m.queue|
  {
    TurnKeepsShape(m);
    var n := Turn(m);
    if !Ok(m) {
      HeardReacquire(tb, s, n, table);
    } else {
      var step := SeeRecords(tb, s, Batch(n));
      HeardRecords(tb, s, Batch(n), table);
      if n.overflowed {
        var r := Reconcile(tb, step.state, Popped(n), true);
        HeardReconcile(tb, step.state, Popped(n), Cache(table, step.calls));
        HeardConcat(tb, s, step.calls, step.state, r.calls, r.state, table);
      } else if |Batch(n)| == BATCH {
        var r := PollLoop(tb, step.state, Popped(n));
        HeardPollLoop(tb, step.state, Popped(n), Cache(table, step.calls));
        HeardConcat(tb, s, step.calls, step.state, r.calls, r.state, table);
      }
    }
  }

  /** Whatever happens inside a poll - batches, failures, overflow, reacquisition - the sink
      hears all of it. */
  lemma HeardPoll(tb: Tables, s: Tracked, m: Machine, table: map<AxisKey, real>)
    requires WellFormed(tb) && Shaped(tb, s) && Fits(tb, m) && tb.info.instanceGuid != ""
    ensures var r := Poll(tb, s, m); Heard(tb, s, r.calls, r.state, table)
  {
    TurnKeepsShape(m);
    if Ok(m) { HeardPollLoop(tb, s, Turn(m), table); } else { HeardReacquire(tb, s, Turn(m), table); }
  }

  /** A run in which the sink is told axis values but hears no edge. */
  ghost predicate Silent(tb: Tables, s: Tracked, calls: seq<SinkCall>, t: Tracked, table: map<AxisKey, real>)
    requires Shaped(tb, s) && Shaped(tb, t)
  {
    && Own(tb.info.instanceGuid, calls)
    && (forall k | 0 <= k < |calls| :: calls[k].SyncAxis?)
    && Recorded(tb, s, calls, t, table)
  }

  lemma SilentReconcile(tb: Tables, s: Tracked, m: Machine, table: map<AxisKey, real>)
    requires WellFormed(tb) && Shaped(tb, s) && Fits(tb, m) && tb.info.instanceGuid != ""
    ensures var r := Reconcile(tb, s, m, false); Silent(tb, s, r.calls, r.state, table)
  {
    TurnKeepsShape(m);
    if Ok(m) {
      var n := Turn(m);
      var r := Reconcile(tb, s, m, false);
      OwnSyncs(tb, n, |tb.axes|);
      RecordedSyncs(tb, s, n, |tb.axes|, table);
      SnapshotMatches(tb, s, n, false);
      var t := s.(axes := seq(|s.axes|, i requires 0 <= i < |s.axes| =>
                                if i < |tb.axes| then Some(n.axes[i]) else s.axes[i]));
      assert t.axes == r.state.axes;
      RecallsIgnoresButtons(tb, t, r.state, Cache(table, r.calls));
    }
  }

  lemma SilentConcat(tb: Tables, s: Tracked, a: seq<SinkCall>, t: Tracked, b: seq<SinkCall>, u: Tracked,
          table: map<AxisKey, real>)
    requires Shaped(tb, s) && Shaped(tb, t) && Shaped(tb, u)
    requires Silent(tb, s, a, t, table) && Silent(tb, t, b, u, Cache(table, a))
    ensures Silent(tb, s, a + b, u, table)
  {
    RecordedConcat(tb, s, a, t, b, u, table);
  }

  lemma SilentStabilize(tb: Tables, s: Tracked, m: Machine, table: map<AxisKey, real>)
    requires WellFormed(tb) && Shaped(tb, s) && Fits(tb, m) && tb.info.instanceGuid != ""
    ensures var r := Stabilize(tb, s, m); Silent(tb, s, r.calls, r.state, table)
  {
    TurnKeepsShape(m);
    if Ok(m) { SilentReconcile(tb, s, Turn(m), table); }
  }

  lemma SilentReacquire(tb: Tables, s: Tracked, m: Machine, table: map<AxisKey, real>)
    requires WellFormed(tb) && Shaped(tb, s) && Fits(tb, m) && tb.info.instanceGuid != ""
    ensures var r := AcquireAndReconcile(tb, s, m, false); Silent(tb, s, r.calls, r.state, table)
  {
    TurnKeepsShape(m);
    TurnKeepsShape(Turn(m));
    if Ok(m) && Ok(Turn(m)) { SilentReconcile(tb, s, Turn(Turn(m)), table); }
  }

  /** Opening a device is silent: a button held at plug-in is recorded, not announced. */
  lemma SilentBringUp(tb: Tables, s: Tracked, m: Machine, table: map<AxisKey, real>)
    requires WellFormed(tb) && Shaped(tb, s) && Fits(tb, m) && tb.info.instanceGuid != ""
    ensures var r := BringUp(tb, s, m); Silent(tb, s, r.calls, r.state, table)
  {
    var first := AcquireAndReconcile(tb, s, m, false);
    SilentReacquire(tb, s, m, table);
    if first.ok {
      var step := Stabilize(tb, first.state, first.machine);
      SilentStabilize(tb, first.state, first.machine, Cache(table, first.calls));
      SilentConcat(tb, s, first.calls, first.state, step.calls, step.state, table);
      var second := After(first, step);
      if second.ok {
        var last := Stabilize(tb, second.state, second.machine);
        SilentStabilize(tb, second.state, second.machine, Cache(table, second.calls));
        SilentConcat(tb, s, second.calls, second.state, last.calls, last.state, table);
      }
    }
  }

  // ---- Poll after poll ----

  /** A run continued by one more poll. */
  function PollOn(tb: Tables, r: Run): (next: Run)
    requires WellFormed(tb) && Shaped(tb, r.state) && Fits(tb, r.machine)
    ensures Shaped(tb, next.state) && Fits(tb, next.machine)
  {
    After(r, Poll(tb, r.state, r.machine))
  }

  /** Polls in a row; what the hardware does in between is in the machine's plan. */
  ghost predicate PollChain(tb: Tables, runs: seq<Run>)
    requires WellFormed(tb)
  {
    && runs != [] && runs[0].calls == []
    && (forall k | 0 <= k < |runs| :: Shaped(tb, runs[k].state) && Fits(tb, runs[k].machine))
    && (forall k | 0 < k < |runs| :: runs[k] == PollOn(tb, runs[k - 1]))
  }

  /** A device in step keeps up: through any number of clean polls it matches the hardware
      after each of them. */
  lemma {:induction false} ChainKeepsUp(tb: Tables, runs: seq<Run>, k: nat)
    requires WellFormed(tb) && PollChain(tb, runs) && k < |runs|
    requires InStep(tb, runs[0].state, runs[0].machine) && forall j | 0 <= j < k :: CleanPoll(runs[j].machine)
    ensures InStep(tb, runs[k].state, runs[k].machine)
    ensures k > 0 ==> Matches(tb, runs[k].state, runs[k].machine)
  {
    if k == 0 {
    } else {
      ChainKeepsUp(tb, runs, k - 1);
      PollCatchesUp(tb, runs[k - 1].state, runs[k - 1].machine);
    }
  }

  /** So an opened device keeps up from the start, for as long as its polls are clean. */
  lemma OpenedDeviceKeepsUp(tb: Tables, s: Tracked, m: Machine, runs: seq<Run>, k: nat)
    requires WellFormed(tb) && Shaped(tb, s) && Fits(tb, m) && PollChain(tb, runs) && k < |runs|
    requires runs[0] == BringUp(tb, s, m).(calls := [])
    requires BringUp(tb, s, m).ok && QuietDrain(AtLastSnapshot(tb, s, m))
    requires forall j | 0 <= j < k :: CleanPoll(runs[j].machine)
    ensures Matches(tb, runs[k].state, runs[k].machine)
  {
    BringUpStartsInStep(tb, s, m);
    ChainKeepsUp(tb, runs, k);
  }
}
