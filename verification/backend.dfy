/** run of directInputBackend (directinput_windows.go:79-139), from the creation of the runtime to
    its last release: whatever the tickers, the enumerations and the devices do, the calls it
    makes are those of one run of RuntimeTheorems. */
module Backend {
  import opened ControllerTypes
  import opened Traces
  import opened RuntimeSpec
  import opened RuntimeTheorems
  import opened RuntimeDevices
  import opened Runtime

  /** What wakes the loop: the poll ticker, or the rescan ticker with what the window check and
      the enumeration then answer.  The context is done when there is nothing more. */
  datatype Wake = PollTick | RescanTick(windowValid: bool, found: Option<seq<Found>>)

  /** The operation is what the source does at this wake. */
  predicate Serves(op: Op, wake: Wake) {
    match wake
    case PollTick => op.Tick?
    case RescanTick(_, found) => op.Scan? && op.found == found
  }

  /** The wake at which run gives up: the caller's window is gone. */
  predicate Loses(wake: Wake, externalWindow: bool) {
    wake.RescanTick? && externalWindow && !wake.windowValid
  }

  /** These operations serve these wakes, one each, after those that went before. */
  ghost predicate Serve(before: seq<Op>, after: seq<Op>, wakes: seq<Wake>) {
    && |after| == |before| + |wakes| && before <= after
    && forall k | 0 <= k < |wakes| :: Serves(after[|before| + k], wakes[k])
  }

  lemma ServeOn(before: seq<Op>, after: seq<Op>, wakes: seq<Wake>, op: Op, wake: Wake)
    requires Serve(before, after, wakes) && Serves(op, wake)
    ensures Serve(before, after + [op], wakes + [wake])
  {
  }

  /** What the backend has done since `base` is this run. */
  ghost predicate Tracks(devices: Devices, heard: seq<SinkCall>, base: seq<SinkCall>,
          ops: seq<Op>, states: seq<Change>)
  {
    Runs(ops, states) && states[|ops|].devices == devices && heard == base + states[|ops|].calls
  }

  lemma TracksSound(devices: Devices, heard: seq<SinkCall>, base: seq<SinkCall>, ops: seq<Op>, states: seq<Change>)
    requires Tracks(devices, heard, base, ops, states)
    ensures AllSound(devices)
  {
  }

  lemma TracksOn(devices: Devices, heard: seq<SinkCall>, base: seq<SinkCall>, ops: seq<Op>, states: seq<Change>, op: Op)
    requires Tracks(devices, heard, base, ops, states) && AllSound(devices) && Possible(devices, op)
    ensures AllSound(states[|ops|].devices) && Possible(states[|ops|].devices, op)
    ensures var step := Perform(devices, op);
            Tracks(step.devices, heard + step.calls, base, ops + [op], states + [Next(states[|ops|], op)])
  {
    RunsOn(ops, states, op);
    Associative(base, states[|ops|].calls, Perform(devices, op).calls);
  }

  method Poll(r: DirectInputRuntime, sink: Sink) returns (ghost op: Op)
    requires r.Valid() && AllSound(r.View())
    modifies r.owners.Keys, sink
    ensures r.Valid() && r.owners == old(r.owners) && op.Tick? && Possible(old(r.View()), op)
    ensures var step := Perform(old(r.View()), op);
            r.View() == step.devices && sink.calls == old(sink.calls) + step.calls
  {
    ghost var order := r.Poll(sink);
    op := Tick(order);
  }

  /** report on the sink. */
  method Complain(r: DirectInputRuntime, error: string, sink: Sink)
    requires r.Valid()
    modifies sink
    ensures r.Valid() && r.View() == old(r.View()) && sink.calls == old(sink.calls) + [Report(error)]
  {
    assert sink !in r.owners;
    sink.Call(Report(error));
  }

  method Rescan(r: DirectInputRuntime, found: Option<seq<Found>>, sink: Sink) returns (ghost op: Op)
    requires r.Valid() && AllSound(r.View())
    modifies r, r.owners.Keys, sink
    ensures r.Valid() && (forall part | part in r.owners :: part in old(r.owners) || fresh(part))
    ensures op.Scan? && op.found == found && Possible(old(r.View()), op)
    ensures found.None? ==>
              r.View() == old(r.View())
              && sink.calls == old(sink.calls) + [Report("controller: enumeration failed")]
    ensures var step := Perform(old(r.View()), op);
            r.View() == step.devices && sink.calls == old(sink.calls) + step.calls
  {
    ghost var before, base := r.View(), sink.calls;
    var ok;
    ghost var dropped, listed;
    ok, dropped, listed := r.SyncDevices(found, sink);
    op := Op.Scan(found, dropped, listed);
    if ok {
      ScanPerforms(before, found.value, dropped, listed);
    } else {
      Complain(r, "controller: enumeration failed", sink);
    }
  }

  lemma ScanPerforms(devices: Devices, found: seq<Found>, dropped: seq<string>, listed: seq<string>)
    requires AllSound(devices) && ScanOrders(devices, found, dropped, listed)
    ensures Perform(devices, Op.Scan(Some(found), dropped, listed)) == Sync(devices, found, dropped, listed)
  {
  }

  /** One pass of the select: every wake is served by its operation, but for the last. */
  method Wakes(r: DirectInputRuntime, wake: Wake, externalWindow: bool, sink: Sink,
          ghost base: seq<SinkCall>, ghost ops: seq<Op>, ghost states: seq<Change>)
    returns (lost: bool, ghost after: seq<Op>, ghost reached: seq<Change>)
    requires r.Valid() && Tracks(r.View(), sink.calls, base, ops, states)
    modifies r, r.owners.Keys, sink
    ensures r.Valid() && (forall part | part in r.owners :: part in old(r.owners) || fresh(part))
    ensures Tracks(r.View(), sink.calls, base, after, reached)
    ensures lost <==> Loses(wake, externalWindow)
    ensures if lost then after == ops
            else |after| == |ops| + 1 && after == ops + [after[|ops|]] && Serves(after[|ops|], wake)
  {
    lost, after, reached := false, ops, states;
    ghost var before, heard := r.View(), sink.calls;
    TracksSound(before, heard, base, ops, states);
    ghost var op;
    match wake
    case PollTick =>
      op := Poll(r, sink);
      TracksOn(before, heard, base, ops, states, op);
      after, reached := ops + [op], states + [Next(states[|ops|], op)];
    case RescanTick(windowValid, found) =>
      if externalWindow && !windowValid {
        return true, ops, states;
      }
      op := Rescan(r, found, sink);
      TracksOn(before, heard, base, ops, states, op);
      after, reached := ops + [op], states + [Next(states[|ops|], op)];
  }

  /** The loop, until the context is done or the window is lost; `served` counts the wakes. */
  method Loop(r: DirectInputRuntime, wakes: seq<Wake>, externalWindow: bool, sink: Sink,
          ghost base: seq<SinkCall>, ghost ops: seq<Op>, ghost states: seq<Change>)
    returns (lost: bool, ghost served: nat, ghost after: seq<Op>, ghost reached: seq<Change>)
    requires r.Valid() && Tracks(r.View(), sink.calls, base, ops, states)
    modifies r, r.owners.Keys, sink
    ensures r.Valid() && (forall part | part in r.owners :: part in old(r.owners) || fresh(part))
    ensures Tracks(r.View(), sink.calls, base, after, reached)
    ensures Until(wakes, externalWindow, lost, served) && Serve(ops, after, wakes[..served])
  {
    lost, served, after, reached := false, 0, ops, states;
    for k := 0 to |wakes|
      invariant r.Valid() && Tracks(r.View(), sink.calls, base, after, reached)
      invariant forall part | part in r.owners :: part in old(r.owners) || fresh(part)
      invariant served == k && Serve(ops, after, wakes[..k])
      invariant forall i | 0 <= i < k :: !Loses(wakes[i], externalWindow)
    {
      ghost var front := after;
      lost, after, reached := Wakes(r, wakes[k], externalWindow, sink, base, after, reached);
      if lost {
        return;
      }
      ServeOn(ops, front, wakes[..k], after[|front|], wakes[k]);
      assert wakes[..k + 1] == wakes[..k] + [wakes[k]];
      served := k + 1;
    }
  }

  /** The wakes that are served: all of them, or those before the one that loses the window. */
  predicate Until(wakes: seq<Wake>, externalWindow: bool, lost: bool, served: nat) {
    && served <= |wakes| && (forall i | 0 <= i < served :: !Loses(wakes[i], externalWindow))
    && (if lost then served < |wakes| && Loses(wakes[served], externalWindow) else served == |wakes|)
  }

  /** Before the first scan. */
  lemma NothingYet(base: seq<SinkCall>)
    ensures AllSound(map[]) && Tracks(map[], base, base, [], [Change(map[], [])])
  {
    assert base + [] == base;
    StepsRun([], [Change(map[], [])]);
  }

  lemma FirstTracks(base: seq<SinkCall>, found: seq<Found>, dropped: seq<string>, listed: seq<string>)
    returns (ops: seq<Op>, states: seq<Change>)
    requires ScanOrders(map[], found, dropped, listed)
    ensures var r := Sync(map[], found, dropped, listed); Tracks(r.devices, base + r.calls, base, ops, states)
    ensures ops == [Op.Scan(Some(found), dropped, listed)]
  {
    var op, none, start := Op.Scan(Some(found), dropped, listed), [], [Change(map[], [])];
    NothingYet(base);
    ScanPerforms(map[], found, dropped, listed);
    TracksOn(map[], base, base, none, start, op);
    ops, states := none + [op], start + [Next(start[|none|], op)];
  }

  /** The first scan, on which readiness depends; if it fails, nothing is said. */
  method Begin(r: DirectInputRuntime, first: Option<seq<Found>>, sink: Sink)
    returns (ready: bool, ghost ops: seq<Op>, ghost states: seq<Change>)
    requires r.Valid() && r.View() == map[]
    modifies r, r.owners.Keys, sink
    ensures r.Valid() && (forall part | part in r.owners :: part in old(r.owners) || fresh(part))
    ensures ready == first.Some? && Tracks(r.View(), sink.calls, old(sink.calls), ops, states)
    ensures if ready then |ops| == 1 && ops[0].Scan? && ops[0].found == first else ops == []
  {
    ghost var base := sink.calls;
    ops, states := [], [Change(map[], [])];
    NothingYet(base);
    ghost var dropped, listed;
    ready, dropped, listed := r.SyncDevices(first, sink);
    if ready {
      ops, states := FirstTracks(base, first.value, dropped, listed);
    }
  }

  /** The operations of a run of the backend, told from what woke it. */
  ghost predicate RunIs(first: Option<seq<Found>>, wakes: seq<Wake>, externalWindow: bool,
          ready: bool, lost: bool, served: nat, ops: seq<Op>)
  {
    && ready == first.Some?
    && if !ready then !lost && ops == []
       else
         && Until(wakes, externalWindow, lost, served) && |ops| == served + 1
         && ops[0].Scan? && ops[0].found == first
         && (forall k | 0 <= k < served :: Serves(ops[k + 1], wakes[k]))
  }

  /** run, from the creation of the runtime on.  Whatever happens, the calls on the sink are
      those of a run of the backend and of the release that ends it; and the run is the one the
      wakes ask for: the first scan, then a poll for each poll tick and a scan for each rescan
      tick, until the context is done or the caller's window is lost. */
  method Run(first: Option<seq<Found>>, wakes: seq<Wake>, externalWindow: bool, sink: Sink)
    returns (ready: bool, lost: bool, ghost served: nat,
          ghost ops: seq<Op>, ghost states: seq<Change>, ghost order: seq<string>)
    modifies sink
    ensures RunIs(first, wakes, externalWindow, ready, lost, served, ops)
    ensures Runs(ops, states) && Walks(order, states[|ops|].devices.Keys)
    ensures sink.calls
         == old(sink.calls) + states[|ops|].calls + ReleaseAll(states[|ops|].devices, order).calls
  {
    var r := new DirectInputRuntime();
    ghost var base := sink.calls;
    lost, served := false, 0;
    ready, ops, states := Begin(r, first, sink);
    if ready {
      ghost var begun := ops;
      lost, served, ops, states := Loop(r, wakes, externalWindow, sink, base, ops, states);
      RunIsServed(first, wakes, externalWindow, lost, served, begun, ops);
    }
    TracksSound(r.View(), sink.calls, base, ops, states);
    order := r.ReleaseAll(sink);
  }

  lemma RunIsServed(first: Option<seq<Found>>, wakes: seq<Wake>, externalWindow: bool,
          lost: bool, served: nat, begun: seq<Op>, ops: seq<Op>)
    requires first.Some? && |begun| == 1 && begun[0].Scan? && begun[0].found == first
    requires Until(wakes, externalWindow, lost, served) && Serve(begun, ops, wakes[..served])
    ensures RunIs(first, wakes, externalWindow, true, lost, served, ops)
  {
    ServeRest(begun, ops, wakes[..served]);
    forall k | 0 <= k < served ensures Serves(ops[k + 1], wakes[k]) {
      assert wakes[..served][k] == wakes[k];
    }
  }

  lemma ServeRest(begun: seq<Op>, ops: seq<Op>, wakes: seq<Wake>)
    requires |begun| == 1 && Serve(begun, ops, wakes)
    ensures |ops| == |wakes| + 1 && ops[0] == begun[0]
    ensures forall k | 0 <= k < |wakes| :: Serves(ops[k + 1], wakes[k])
  {
    forall k | 0 <= k < |wakes| ensures Serves(ops[k + 1], wakes[k]) {
      assert Serves(ops[|begun| + k], wakes[k]);
    }
  }

  /** No press of a button after a press of it, and none left pressed. */
  ghost predicate Safe(calls: seq<SinkCall>) {
    forall guid, b: nat | b < MAX_BUTTONS ::
      var edges := Edges(calls, guid, b);
      NoDoublePress(edges) && (edges != [] ==> edges[|edges| - 1] == false)
  }

  lemma WholeRunIsSafe(ops: seq<Op>, states: seq<Change>, order: seq<string>, calls: seq<SinkCall>)
    requires Runs(ops, states) && Walks(order, states[|ops|].devices.Keys)
    requires calls == [] + states[|ops|].calls + ReleaseAll(states[|ops|].devices, order).calls
    ensures Safe(calls)
  {
    assert [] + states[|ops|].calls == states[|ops|].calls;
    forall guid, b: nat | b < MAX_BUTTONS
      ensures var edges := Edges(calls, guid, b);
              NoDoublePress(edges) && (edges != [] ==> edges[|edges| - 1] == false)
    {
      WholeRunEdgeSafety(ops, states, order, guid, b);
    }
  }

  /** So a sink that has heard nothing before hears a safe trace. */
  method RunIsSafe(first: Option<seq<Found>>, wakes: seq<Wake>, externalWindow: bool, sink: Sink)
    returns (ready: bool, lost: bool)
    requires sink.calls == []
    modifies sink
    ensures Safe(sink.calls)
  {
    ghost var served, ops, states, order;
    ready, lost, served, ops, states, order := Run(first, wakes, externalWindow, sink);
    WholeRunIsSafe(ops, states, order, sink.calls);
  }
}
