/** The DirectInput device object behind the vtable, as a scripted machine.  Everything the
    source cannot predict - failures, what the user does, what DirectInput loses, when it flags
    an overflow and what it then keeps - is read from `plan`. */
module Hardware {
  import opened ControllerTypes
  import opened PackedLayout

  const DEVICE_BUFFER := 256
  const BATCH := 64

  datatype Record = Record(offset: uint32, data: uint32)

  /** A change of one object: normally queued as a record; or the one at which the buffer is
      flagged as overflowed, at any fill, and left with whatever DirectInput chooses to keep;
      or lost without trace. */
  datatype Move = Queued(record: Record) | Spilled(record: Record, left: seq<Record>) | Lost(record: Record)

  /** What happens at one call into the device: the changes up to then, and whether the call
      succeeds. */
  datatype Outcome = Outcome(ok: bool, moves: seq<Move>)

  /** `axes` and `buttons` are the current values in data-format order.  Each call consumes one
      entry of `plan`; once it is used up, calls succeed and nothing moves. */
  datatype Machine = Machine(
    axes: seq<uint32>, buttons: seq<uint8>, queue: seq<Record>, overflowed: bool, plan: seq<Outcome>)

  function Min(a: nat, b: nat): nat {
    if a < b then a else b
  }

  /** The effect of a change on the current values, read back the way poll reads a record. */
  function Change(m: Machine, record: Record): Machine {
    match DecodeOffset(record.offset, |m.axes|, |m.buttons|)
    case AxisItem(i) => if i < |m.axes| then m.(axes := m.axes[i := record.data]) else m
    case ButtonItem(j) => m.(buttons := m.buttons[j := record.data % 0x100])
    case NoItem => m
  }

  function MoveOnce(m: Machine, move: Move): Machine {
    var changed := Change(m, move.record);
    match move
    case Lost(_) => changed
    case Spilled(_, left) => changed.(queue := left[..Min(DEVICE_BUFFER, |left|)], overflowed := true)
    case Queued(record) =>
      if |m.queue| < DEVICE_BUFFER then changed.(queue := m.queue + [record])
      else changed.(overflowed := true)
  }

  function MoveAll(m: Machine, moves: seq<Move>): Machine
    decreases |moves|
  {
    if moves == [] then m else MoveAll(MoveOnce(m, moves[0]), moves[1..])
  }

  function Ok(m: Machine): bool {
    m.plan == [] || m.plan[0].ok
  }

  /** The machine at the moment a call is served. */
  function Turn(m: Machine): Machine {
    if m.plan == [] then m else MoveAll(m.(plan := m.plan[1..]), m.plan[0].moves)
  }

  function Batch(m: Machine): seq<Record> {
    m.queue[..Min(BATCH, |m.queue|)]
  }

  function Popped(m: Machine): Machine {
    m.(queue := m.queue[Min(BATCH, |m.queue|)..], overflowed := false)
  }

  lemma {:induction false} MovesKeepShape(m: Machine, moves: seq<Move>)
    ensures var n := MoveAll(m, moves);
            |n.axes| == |m.axes| && |n.buttons| == |m.buttons| && n.plan == m.plan
            && (|m.queue| <= DEVICE_BUFFER ==> |n.queue| <= DEVICE_BUFFER)
    decreases |moves|
  {
    if moves == [] {
    } else {
      MovesKeepShape(MoveOnce(m, moves[0]), moves[1..]);
    }
  }

  lemma TurnKeepsShape(m: Machine)
    ensures var n := Turn(m);
            |n.axes| == |m.axes| && |n.buttons| == |m.buttons|
            && n.plan == (if m.plan == [] then [] else m.plan[1..])
            && (|m.queue| <= DEVICE_BUFFER ==> |n.queue| <= DEVICE_BUFFER)
  {
    if m.plan != [] { MovesKeepShape(m.(plan := m.plan[1..]), m.plan[0].moves); }
  }

  datatype DataResult = DataOk | DataOverflow | DataFailed

  /** The COM object: one call per method, in the order the source makes them. */
  class InputDevice {
    var machine: Machine

    constructor (machine: Machine)
      ensures this.machine == machine
    {
      this.machine := machine;
    }

    method Step() returns (ok: bool)
      modifies this
      ensures ok == Ok(old(machine)) && machine == Turn(old(machine))
    {
      ok := Ok(machine);
      machine := Turn(machine);
    }

    method Acquire() returns (ok: bool)
      modifies this
      ensures ok == Ok(old(machine)) && machine == Turn(old(machine))
    {
      ok := Step();
    }

    method Poll() returns (ok: bool)
      modifies this
      ensures ok == Ok(old(machine)) && machine == Turn(old(machine))
    {
      ok := Step();
    }

    method GetDeviceState(state: array<uint8>) returns (ok: bool)
      requires state.Length == DataSize(|machine.axes|, |machine.buttons|)
      modifies this, state
      ensures ok == Ok(old(machine)) && machine == Turn(old(machine))
      ensures ok ==> state[..] == StateBytes(machine.axes, machine.buttons)
    {
      TurnKeepsShape(machine);
      ok := Step();
      if ok {
        var bytes := StateBytes(machine.axes, machine.buttons);
        forall k | 0 <= k < state.Length {
          state[k] := bytes[k];
        }
      }
    }

    method GetDeviceData(records: array<Record>) returns (result: DataResult, count: nat)
      requires records.Length == BATCH
      modifies this, records
      ensures result.DataFailed? <==> !Ok(old(machine))
      ensures result.DataFailed? ==> machine == Turn(old(machine))
      ensures !result.DataFailed? ==>
        && machine == Popped(Turn(old(machine)))
        && (result.DataOverflow? <==> Turn(old(machine)).overflowed)
        && count == |Batch(Turn(old(machine)))|
        && records[..count] == Batch(Turn(old(machine)))
      ensures count <= BATCH
    {
      var ok := Step();
      count := 0;
      if !ok {
        return DataFailed, 0;
      }
      result := if machine.overflowed then DataOverflow else DataOk;
      var batch := Batch(machine);
      count := |batch|;
      forall k | 0 <= k < count {
        records[k] := batch[k];
      }
      machine := Popped(machine);
    }
  }
}
