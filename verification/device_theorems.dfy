/** What polling guarantees about one device, for every machine: the batched loop is a fold
    over records, it keeps up with the hardware, and its events are the compressed records. */
module DeviceTheorems {
  import opened ControllerTypes
  import opened PackedLayout
  import opened Hardware
  import opened DeviceSpec
  import opened Traces

  // ---- The last record for an object decides ----

  /** The data of the last record for an object. */
  function LastData(tb: Tables, records: seq<Record>, item: Item): Option<uint32> {
    if records == [] then None
    else if Decode(tb, records[|records| - 1]) == item then Some(records[|records| - 1].data)
    else LastData(tb, records[..|records| - 1], item)
  }

  /** One record changes its own object and no other. */
  lemma OneRecord(tb: Tables, s: Tracked, record: Record)
    requires WellFormed(tb) && Shaped(tb, s)
    ensures var r := SeeRecord(tb, s, record).state;
            && (forall i | 0 <= i < |s.axes| ::
                  r.axes[i] == if Decode(tb, record) == AxisItem(i) then Some(record.data) else s.axes[i])
            && (forall j | 0 <= j < |tb.buttons| ::
                  r.down[tb.buttons[j]]
                  == if Decode(tb, record) == ButtonItem(j) then HighBit(record.data) else s.down[tb.buttons[j]])
  {
    OffsetBijection(record.offset, |tb.axes|, |tb.buttons|);
    forall j, k | 0 <= j < |tb.buttons| && 0 <= k < |tb.buttons| && j != k ensures tb.buttons[j] != tb.buttons[k] {}
  }

  /** Folding a run of records leaves every object at its last record. */
  lemma {:induction false} LastAxisRecordWins(tb: Tables, s: Tracked, records: seq<Record>, i: nat)
    requires WellFormed(tb) && Shaped(tb, s) && i < |tb.axes|
    ensures var last := LastData(tb, records, AxisItem(i));
            SeeRecords(tb, s, records).state.axes[i] == if last.Some? then last else s.axes[i]
  {
    if records == [] {
    } else {
      var front := records[..|records| - 1];
      LastAxisRecordWins(tb, s, front, i);
      OneRecord(tb, SeeRecords(tb, s, front).state, records[|records| - 1]);
    }
  }

  lemma {:induction false} LastButtonRecordWins(tb: Tables, s: Tracked, records: seq<Record>, j: nat)
    requires WellFormed(tb) && Shaped(tb, s) && j < |tb.buttons|
    ensures var last := LastData(tb, records, ButtonItem(j));
            SeeRecords(tb, s, records).state.down[tb.buttons[j]]
            == if last.Some? then HighBit(last.value) else s.down[tb.buttons[j]]
  {
    if records == [] {
    } else {
      var front := records[..|records| - 1];
      LastButtonRecordWins(tb, s, front, j);
      OneRecord(tb, SeeRecords(tb, s, front).state, records[|records| - 1]);
    }
  }

  // ---- Agreement between the tracked state and the machine ----

  /** The tracked state is the hardware's state. */
  predicate Matches(tb: Tables, s: Tracked, m: Machine)
    requires WellFormed(tb) && Shaped(tb, s) && Fits(tb, m)
  {
    && (forall i | 0 <= i < |tb.axes| :: s.axes[i] == Some(m.axes[i]))
    && (forall j | 0 <= j < |tb.buttons| :: s.down[tb.buttons[j]] == HighBit(m.buttons[j]))
  }

  /** The tracked state, once the pending records are read, will be the hardware's state. */
  predicate Agrees(tb: Tables, s: Tracked, m: Machine)
    requires WellFormed(tb) && Shaped(tb, s) && Fits(tb, m)
  {
    Matches(tb, SeeRecords(tb, s, m.queue).state, m)
  }

  /** Unless the buffer has overflowed, the pending records lead to the hardware's state. */
  predicate InStep(tb: Tables, s: Tracked, m: Machine)
    requires WellFormed(tb) && Shaped(tb, s) && Fits(tb, m)
  {
    m.overflowed || Agrees(tb, s, m)
  }

  /** Every change is announced, by a record or by the overflow flag. */
  predicate Lossless(moves: seq<Move>) {
    forall k | 0 <= k < |moves| :: !moves[k].Lost?
  }

  /** What happens before the next call is announced. */
  predicate LosslessTurn(m: Machine) {
    m.plan != [] ==> Lossless(m.plan[0].moves)
  }

  lemma HighBitOfByte(data: uint32)
    ensures HighBit(data % 0x100) == HighBit(data)
  {
    assert data == data / 0x100 * 0x100 + data % 0x100;
    assert data / 0x80 == data / 0x100 * 2 + data % 0x100 / 0x80;
  }

  /** One record read is one change followed. */
  lemma FollowChange(tb: Tables, s: Tracked, m: Machine, record: Record)
    requires WellFormed(tb) && Shaped(tb, s) && Fits(tb, m) && Matches(tb, s, m)
    ensures Matches(tb, SeeRecord(tb, s, record).state, Change(m, record))
  {
    OneRecord(tb, s, record);
    OffsetBijection(record.offset, |tb.axes|, |tb.buttons|);
    HighBitOfByte(record.data);
  }

  lemma SeeLast(tb: Tables, s: Tracked, records: seq<Record>, record: Record)
    requires WellFormed(tb) && Shaped(tb, s)
    ensures var front := SeeRecords(tb, s, records);
            var last := SeeRecord(tb, front.state, record);
            SeeRecords(tb, s, records + [record]) == Step(last.state, front.calls + last.calls)
  {
    assert (records + [record])[..|records|] == records;
  }

  lemma {:induction false} MovesKeepStep(tb: Tables, s: Tracked, m: Machine, moves: seq<Move>)
    requires WellFormed(tb) && Shaped(tb, s) && Fits(tb, m)
    requires InStep(tb, s, m) && Lossless(moves)
    ensures Fits(tb, MoveAll(m, moves)) && InStep(tb, s, MoveAll(m, moves))
    decreases |moves|
  {
    if moves == [] {
    } else {
      var next := MoveOnce(m, moves[0]);
      if !m.overflowed && |m.queue| < DEVICE_BUFFER {
        SeeLast(tb, s, m.queue, moves[0].record);
        FollowChange(tb, SeeRecords(tb, s, m.queue).state, m, moves[0].record);
      }
      MovesKeepStep(tb, s, next, moves[1..]);
    }
  }

  lemma TurnKeepsStep(tb: Tables, s: Tracked, m: Machine)
    requires WellFormed(tb) && Shaped(tb, s) && Fits(tb, m)
    requires InStep(tb, s, m) && LosslessTurn(m)
    ensures Fits(tb, Turn(m)) && InStep(tb, s, Turn(m))
  {
    TurnKeepsShape(m);
    if m.plan != [] { MovesKeepStep(tb, s, m.(plan := m.plan[1..]), m.plan[0].moves); }
  }

  // ---- The batched drain refines a fold ----

  /** Every call of the drain succeeds and none reports an overflow. */
  predicate Untroubled(m: Machine)
    decreases |m.plan|, |m.queue|
  {
    TurnKeepsShape(m);
    Ok(m) && !Turn(m).overflowed && (|Batch(Turn(m))| < BATCH || Untroubled(Popped(Turn(m))))
  }

  /** All records the drain pops, first to last. */
  function Stream(m: Machine): seq<Record>
    decreases |m.plan|, |m.queue|
  {
    TurnKeepsShape(m);
    if |Batch(Turn(m))| < BATCH then Batch(Turn(m)) else Batch(Turn(m)) + Stream(Popped(Turn(m)))
  }

  lemma {:induction false} SeeConcat(tb: Tables, s: Tracked, a: seq<Record>, b: seq<Record>)
    requires WellFormed(tb) && Shaped(tb, s)
    ensures var first := SeeRecords(tb, s, a);
            var second := SeeRecords(tb, first.state, b);
            SeeRecords(tb, s, a + b) == Step(second.state, first.calls + second.calls)
  {
    if b == [] {
      assert a + b == a;
    } else {
      var front, record := b[..|b| - 1], b[|b| - 1];
      assert b == front + [record] && a + b == (a + front) + [record];
      SeeConcat(tb, s, a, front);
      SeeLast(tb, s, a + front, record);
      var first := SeeRecords(tb, s, a);
      SeeLast(tb, first.state, front, record);
      var second := SeeRecords(tb, first.state, front);
      Associative(first.calls, second.calls, SeeRecord(tb, second.state, record).calls);
    }
  }

  /** The batches do not show: the loop of poll sees the popped records one by one, makes
      exactly the calls that makes, and leaves nothing pending. */
  lemma {:induction false} DrainRefinesFold(tb: Tables, s: Tracked, m: Machine)
    requires WellFormed(tb) && Shaped(tb, s) && Fits(tb, m) && Untroubled(m)
    ensures var fold := SeeRecords(tb, s, Stream(m));
            PollLoop(tb, s, m) == Run(true, fold.state, Discard(m), fold.calls)
    ensures Discard(m).queue == []
    decreases |m.plan|, |m.queue|
  {
    TurnKeepsShape(m);
    var n := Turn(m);
    if |Batch(n)| != BATCH {
    } else {
      DrainRefinesFold(tb, SeeRecords(tb, s, Batch(n)).state, Popped(n));
      SeeConcat(tb, s, Batch(n), Stream(Popped(n)));
    }
  }

  /** Nothing moves before any call of this drain. */
  predicate StillDrain(m: Machine)
    decreases |m.plan|, |m.queue|
  {
    TurnKeepsShape(m);
    (m.plan != [] ==> m.plan[0].moves == []) && (|Batch(Turn(m))| < BATCH || StillDrain(Popped(Turn(m))))
  }

  /** Then what is pending is all there is to read, whatever its length. */
  lemma {:induction false} StreamIsQueue(m: Machine)
    requires StillDrain(m)
    ensures Stream(m) == m.queue
    decreases |m.plan|, |m.queue|
  {
    TurnKeepsShape(m);
    var n := Turn(m);
    assert n.queue == m.queue == Batch(n) + Popped(n).queue;
    if |Batch(n)| != BATCH {
    } else {
      StreamIsQueue(Popped(n));
    }
  }

  lemma {:induction false} MovesExtendQueue(m: Machine, moves: seq<Move>)
    ensures MoveAll(m, moves).overflowed || m.queue <= MoveAll(m, moves).queue
    ensures m.overflowed ==> MoveAll(m, moves).overflowed
    decreases |moves|
  {
    if moves == [] {
    } else {
      MovesExtendQueue(MoveOnce(m, moves[0]), moves[1..]);
    }
  }

  /** And when something does move, but no overflow disturbs the drain, what was pending is
      still read first and in order. */
  lemma {:induction false} StreamStartsWithQueue(m: Machine)
    requires Untroubled(m)
    ensures m.queue <= Stream(m)
    decreases |m.plan|, |m.queue|
  {
    TurnKeepsShape(m);
    var n := Turn(m);
    if m.plan == [] {
    } else {
      MovesExtendQueue(m.(plan := m.plan[1..]), m.plan[0].moves);
    }
    assert m.queue <= n.queue && n.queue == Batch(n) + Popped(n).queue;
    if |Batch(n)| != BATCH {
    } else {
      StreamStartsWithQueue(Popped(n));
      assert n.queue <= Stream(m);
    }
  }

  lemma BatchKeepsAgreement(tb: Tables, s: Tracked, n: Machine)
    requires WellFormed(tb) && Shaped(tb, s) && Fits(tb, n) && Agrees(tb, s, n)
    ensures Agrees(tb, SeeRecords(tb, s, Batch(n)).state, Popped(n))
  {
    assert n.queue == Batch(n) + Popped(n).queue;
    SeeConcat(tb, s, Batch(n), Popped(n).queue);
  }

  /** Every change before a call of this drain is announced. */
  predicate LosslessDrain(m: Machine)
    decreases |m.plan|, |m.queue|
  {
    TurnKeepsShape(m);
    LosslessTurn(m) && (|Batch(Turn(m))| < BATCH || LosslessDrain(Popped(Turn(m))))
  }

  /** If the records not yet read lead to the hardware's state, then at the end of the drain
      the tracked state is the hardware's state. */
  lemma {:induction false} DrainReachesSnapshot(tb: Tables, s: Tracked, m: Machine)
    requires WellFormed(tb) && Shaped(tb, s) && Fits(tb, m)
    requires InStep(tb, s, m) && LosslessDrain(m) && Untroubled(m)
    ensures var r := PollLoop(tb, s, m);
            r.ok && r.machine.queue == [] && !r.machine.overflowed && Matches(tb, r.state, r.machine)
    decreases |m.plan|, |m.queue|
  {
    TurnKeepsShape(m);
    TurnKeepsStep(tb, s, m);
    var n := Turn(m);
    BatchKeepsAgreement(tb, s, n);
    if |Batch(n)| != BATCH {
    } else {
      DrainReachesSnapshot(tb, SeeRecords(tb, s, Batch(n)).state, Popped(n));
    }
  }

  /** A poll that meets neither a failure nor an overflow nor an unannounced change; what the
      hardware does after the poll is of no concern. */
  predicate CleanPoll(m: Machine) {
    Ok(m) && LosslessTurn(m) && Untroubled(Turn(m)) && LosslessDrain(Turn(m))
  }

  /** Such a poll in step with the hardware catches up with it - and is in step for the next
      poll, so this goes on for as long as the polls are clean. */
  lemma PollCatchesUp(tb: Tables, s: Tracked, m: Machine)
    requires WellFormed(tb) && Shaped(tb, s) && Fits(tb, m)
    requires InStep(tb, s, m) && CleanPoll(m)
    ensures var r := Poll(tb, s, m);
            && r.ok && r.machine.queue == [] && Matches(tb, r.state, r.machine)
            && InStep(tb, r.state, r.machine)
  {
    TurnKeepsShape(m);
    TurnKeepsStep(tb, s, m);
    DrainReachesSnapshot(tb, s, Turn(m));
  }

  // ---- The events of a fold are the compressed records, object by object ----

  /** The data a run of records gives to an object. */
  function DataFor(tb: Tables, records: seq<Record>, item: Item): seq<uint32> {
    if records == [] then []
    else
      var last := records[|records| - 1];
      DataFor(tb, records[..|records| - 1], item) + (if Decode(tb, last) == item then [last.data] else [])
  }

  lemma DataForAppend(tb: Tables, records: seq<Record>, record: Record, item: Item)
    ensures DataFor(tb, records + [record], item)
         == if Decode(tb, record) == item then DataFor(tb, records, item) + [record.data]
            else DataFor(tb, records, item)
  {
    assert (records + [record])[..|records|] == records;
  }

  function AsDown(data: seq<uint32>): seq<bool> {
    seq(|data|, k requires 0 <= k < |data| => HighBit(data[k]))
  }

  function AsKnown(data: seq<uint32>): seq<Option<uint32>> {
    seq(|data|, k requires 0 <= k < |data| => Some(data[k]))
  }

  function SamplesOf(tb: Tables, i: nat, raws: seq<Option<uint32>>): seq<AxisEvent>
    requires i < |tb.axes|
  {
    seq(|raws|, k requires 0 <= k < |raws| => AxisSample(tb, i, if raws[k].Some? then raws[k].value else 0))
  }

  lemma CompressAppend<V>(start: V, values: seq<V>, value: V)
    ensures Compress(start, values + [value])
         == Compress(start, values) + (if value == LastValue(start, values) then [] else [value])
  {
    assert (values + [value])[..|values|] == values;
  }

  /** A record makes the sink hear of a button exactly when the button's tracked state
      changes, and hear the new state. */
  lemma OneRecordEdges(tb: Tables, s: Tracked, record: Record, b: nat)
    requires WellFormed(tb) && Shaped(tb, s) && b < MAX_BUTTONS
    ensures var r := SeeRecord(tb, s, record);
            Edges(r.calls, tb.info.instanceGuid, b) == if r.state.down[b] != s.down[b] then [r.state.down[b]] else []
  {
    OffsetBijection(record.offset, |tb.axes|, |tb.buttons|);
    match Decode(tb, record)
    case AxisItem(i) =>
      OneCall(EmitAxis(AxisSample(tb, i, record.data)), tb.info.instanceGuid, b);
    case ButtonItem(k) =>
      OneCall(Edge(tb, tb.buttons[k], HighBit(record.data)), tb.info.instanceGuid, b);
    case NoItem =>
  }

  lemma EdgesGrow(tb: Tables, start: bool, front: seq<Record>, record: Record, j: nat)
    requires j < |tb.buttons|
    ensures var said := AsDown(DataFor(tb, front, ButtonItem(j)));
            var now := AsDown(DataFor(tb, front + [record], ButtonItem(j)));
            var down := HighBit(record.data);
            && Compress(start, now) == Compress(start, said)
               + (if Decode(tb, record) == ButtonItem(j) && down != LastValue(start, said) then [down] else [])
            && LastValue(start, now) == if Decode(tb, record) == ButtonItem(j) then down else LastValue(start, said)
  {
    DataForAppend(tb, front, record, ButtonItem(j));
    var said := AsDown(DataFor(tb, front, ButtonItem(j)));
    if Decode(tb, record) == ButtonItem(j) {
      assert AsDown(DataFor(tb, front + [record], ButtonItem(j))) == said + [HighBit(record.data)];
      CompressAppend(start, said, HighBit(record.data));
    } else {
      assert AsDown(DataFor(tb, front + [record], ButtonItem(j))) == said;
    }
  }

  /** For every button: what the sink hears is the stutter-free compression of what the
      records say about it. */
  lemma {:induction false} EdgesAreCompression(tb: Tables, s: Tracked, records: seq<Record>, j: nat)
    requires WellFormed(tb) && Shaped(tb, s) && j < |tb.buttons|
    ensures var r := SeeRecords(tb, s, records);
            var button := tb.buttons[j];
            var said := AsDown(DataFor(tb, records, ButtonItem(j)));
            && Edges(r.calls, tb.info.instanceGuid, button) == Compress(s.down[button], said)
            && r.state.down[button] == LastValue(s.down[button], said)
  {
    if records == [] {
    } else {
      var button := tb.buttons[j];
      var front, record := records[..|records| - 1], records[|records| - 1];
      assert records == front + [record];
      EdgesAreCompression(tb, s, front, j);
      var r := SeeRecords(tb, s, front);
      var last := SeeRecord(tb, r.state, record);
      OneRecord(tb, r.state, record);
      OneRecordEdges(tb, r.state, record, button);
      EdgesConcat(r.calls, last.calls, tb.info.instanceGuid, button);
      EdgesGrow(tb, s.down[button], front, record, j);
    }
  }

  lemma OneRecordSamples(tb: Tables, s: Tracked, record: Record, i: nat)
    requires WellFormed(tb) && Shaped(tb, s) && i < |tb.axes|
    ensures Samples(SeeRecord(tb, s, record).calls, tb.info.instanceGuid, tb.axes[i].instance)
            == if Decode(tb, record) == AxisItem(i) && s.axes[i] != Some(record.data)
               then [AxisSample(tb, i, record.data)] else []
  {
    OffsetBijection(record.offset, |tb.axes|, |tb.buttons|);
    match Decode(tb, record)
    case AxisItem(k) =>
      OneCall(EmitAxis(AxisSample(tb, k, record.data)), tb.info.instanceGuid, tb.axes[i].instance);
      assert k != i ==> tb.axes[k].instance != tb.axes[i].instance;
    case ButtonItem(j) =>
      OneCall(Edge(tb, tb.buttons[j], HighBit(record.data)), tb.info.instanceGuid, tb.axes[i].instance);
    case NoItem =>
  }

  lemma SamplesOfAppend(tb: Tables, i: nat, raws: seq<Option<uint32>>, raw: uint32)
    requires i < |tb.axes|
    ensures SamplesOf(tb, i, raws + [Some(raw)]) == SamplesOf(tb, i, raws) + [AxisSample(tb, i, raw)]
  {
  }

  lemma SamplesGrow(tb: Tables, start: Option<uint32>, front: seq<Record>, record: Record, i: nat)
    requires i < |tb.axes|
    ensures var said := AsKnown(DataFor(tb, front, AxisItem(i)));
            var now := AsKnown(DataFor(tb, front + [record], AxisItem(i)));
            var known := LastValue(start, said);
            && SamplesOf(tb, i, Compress(start, now)) == SamplesOf(tb, i, Compress(start, said))
               + (if Decode(tb, record) == AxisItem(i) && known != Some(record.data)
                  then [AxisSample(tb, i, record.data)] else [])
            && LastValue(start, now) == if Decode(tb, record) == AxisItem(i) then Some(record.data) else known
  {
    DataForAppend(tb, front, record, AxisItem(i));
    var said := AsKnown(DataFor(tb, front, AxisItem(i)));
    if Decode(tb, record) == AxisItem(i) {
      assert AsKnown(DataFor(tb, front + [record], AxisItem(i))) == said + [Some(record.data)];
      CompressAppend(start, said, Some(record.data));
      SamplesOfAppend(tb, i, Compress(start, said), record.data);
    } else {
      assert AsKnown(DataFor(tb, front + [record], AxisItem(i))) == said;
    }
  }

  /** The same for every axis, which has no state at all until its first sample. */
  lemma {:induction false} SamplesAreCompression(tb: Tables, s: Tracked, records: seq<Record>, i: nat)
    requires WellFormed(tb) && Shaped(tb, s) && i < |tb.axes|
    ensures var r := SeeRecords(tb, s, records);
            var said := AsKnown(DataFor(tb, records, AxisItem(i)));
            && Samples(r.calls, tb.info.instanceGuid, tb.axes[i].instance)
                == SamplesOf(tb, i, Compress(s.axes[i], said))
            && r.state.axes[i] == LastValue(s.axes[i], said)
  {
    if records == [] {
    } else {
      var front, record := records[..|records| - 1], records[|records| - 1];
      assert records == front + [record];
      SamplesAreCompression(tb, s, front, i);
      var r := SeeRecords(tb, s, front);
      var last := SeeRecord(tb, r.state, record);
      OneRecord(tb, r.state, record);
      OneRecordSamples(tb, r.state, record, i);
      SamplesConcat(r.calls, last.calls, tb.info.instanceGuid, tb.axes[i].instance);
      SamplesGrow(tb, s.axes[i], front, record, i);
    }
  }

  lemma PollIsFold(tb: Tables, s: Tracked, m: Machine)
    requires WellFormed(tb) && Shaped(tb, s) && Fits(tb, m) && Ok(m) && Untroubled(Turn(m))
    ensures var fold := SeeRecords(tb, s, Stream(Turn(m)));
            Poll(tb, s, m).calls == fold.calls && Poll(tb, s, m).state == fold.state
  {
    TurnKeepsShape(m);
    DrainRefinesFold(tb, s, Turn(m));
  }

  /** The whole of an undisturbed poll, button by button: the sink hears the stutter-free
      compression of the records the poll pops, and these are the records pending when the
      poll begins to read if nothing moves after that. */
  lemma PollEdgesAreCompression(tb: Tables, s: Tracked, m: Machine, j: nat)
    requires WellFormed(tb) && Shaped(tb, s) && Fits(tb, m) && Ok(m) && Untroubled(Turn(m)) && j < |tb.buttons|
    ensures var records := if StillDrain(Turn(m)) then Turn(m).queue else Stream(Turn(m));
            Edges(Poll(tb, s, m).calls, tb.info.instanceGuid, tb.buttons[j])
            == Compress(s.down[tb.buttons[j]], AsDown(DataFor(tb, records, ButtonItem(j))))
  {
    if StillDrain(Turn(m)) {
      StreamIsQueue(Turn(m));
    }
    PollIsFold(tb, s, m);
    EdgesAreCompression(tb, s, Stream(Turn(m)), j);
  }

  /** And axis by axis. */
  lemma PollSamplesAreCompression(tb: Tables, s: Tracked, m: Machine, i: nat)
    requires WellFormed(tb) && Shaped(tb, s) && Fits(tb, m) && Ok(m) && Untroubled(Turn(m)) && i < |tb.axes|
    ensures var records := if StillDrain(Turn(m)) then Turn(m).queue else Stream(Turn(m));
            Samples(Poll(tb, s, m).calls, tb.info.instanceGuid, tb.axes[i].instance)
            == SamplesOf(tb, i, Compress(s.axes[i], AsKnown(DataFor(tb, records, AxisItem(i)))))
  {
    if StillDrain(Turn(m)) {
      StreamIsQueue(Turn(m));
    }
    PollIsFold(tb, s, m);
    SamplesAreCompression(tb, s, Stream(Turn(m)), i);
  }

  /** The edges a button gives are themselves free of stutter, and end where its records do. */
  lemma PollEdgesAlternate(tb: Tables, s: Tracked, m: Machine, j: nat)
    requires WellFormed(tb) && Shaped(tb, s) && Fits(tb, m) && Ok(m) && Untroubled(Turn(m)) && j < |tb.buttons|
    ensures var edges := Edges(Poll(tb, s, m).calls, tb.info.instanceGuid, tb.buttons[j]);
            && AlternatesFrom(s.down[tb.buttons[j]], edges)
            && LastOf(s.down[tb.buttons[j]], edges) == Poll(tb, s, m).state.down[tb.buttons[j]]
  {
    PollIsFold(tb, s, m);
    EdgesAreCompression(tb, s, Stream(Turn(m)), j);
    CompressAlternates(s.down[tb.buttons[j]], AsDown(DataFor(tb, Stream(Turn(m)), ButtonItem(j))));
  }
}
