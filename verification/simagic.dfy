/** The Simagic haptic driver (pkg/hpr/driver/simagic): commands, packets, and the device
    handle as a value, in front of a motor with a watchdog of its own. */
module Simagic {
  import opened ControllerTypes

  const MIN_FREQUENCY: uint8 := 10
  const MAX_FREQUENCY: uint8 := 200
  const MIN_AMPLITUDE: uint8 := 0
  const MAX_AMPLITUDE: uint8 := 100
  const OFF: uint8 := 0
  const ON: uint8 := 1
  const FRAME_HEADER: uint8 := 0xf1
  const COMMAND_CODE: uint8 := 0xec
  const PACKET_SIZE := 64

  // ---- Commands ----

  datatype Command = Command(target: uint8, state: uint8, frequency: uint8, amplitude: uint8)

  datatype NormalizedCommand = NormalizedCommand(target: uint8, state: uint8, frequency: uint8, amplitude: uint8)

  predicate ValidTarget(target: uint8) {
    target == 0 || target == 1 || target == 2
  }

  function ClampToRange(v: uint8, min: uint8, max: uint8): uint8 {
    if v < min then min else if v > max then max else v
  }

  function OffCommand(target: uint8): NormalizedCommand {
    NormalizedCommand(target, OFF, 0, 0)
  }

  function Distance(a: int, b: int): nat {
    if a <= b then b - a else a - b
  }

  /** No value within the bounds is closer. */
  ghost predicate Nearest(v: uint8, requested: uint8, min: uint8, max: uint8) {
    min <= v <= max && forall w: int :: min <= w <= max ==> Distance(v, requested) <= Distance(w, requested)
  }

  /** A vibration comes out as close to the request as the bounds allow; one that asks for no
      amplitude, or for any other state, becomes the Off of its target. */
  function Normalize(cmd: Command): (r: Option<NormalizedCommand>)
    ensures r.Some? <==> ValidTarget(cmd.target)
    ensures r.Some? ==> Legal(r.value) && r.value.target == cmd.target
    ensures r.Some? ==> (r.value.state == ON <==> cmd.state == ON && cmd.amplitude > 0)
    ensures r.Some? && r.value.state == ON ==> Nearest(r.value.frequency, cmd.frequency, MIN_FREQUENCY, MAX_FREQUENCY)
    ensures r.Some? && r.value.state == ON ==> Nearest(r.value.amplitude, cmd.amplitude, MIN_AMPLITUDE, MAX_AMPLITUDE)
  {
    if !ValidTarget(cmd.target) then None
    else
      var frequency := ClampToRange(cmd.frequency, MIN_FREQUENCY, MAX_FREQUENCY);
      var amplitude := ClampToRange(cmd.amplitude, MIN_AMPLITUDE, MAX_AMPLITUDE);
      var state := if cmd.state != ON then OFF else cmd.state;
      if state == OFF || frequency == 0 || amplitude == 0 then Some(OffCommand(cmd.target))
      else Some(NormalizedCommand(cmd.target, ON, frequency, amplitude))
  }

  /** What may go onto the wire: vibration within the bounds, or the one Off of a target. */
  predicate Legal(cmd: NormalizedCommand) {
    && ValidTarget(cmd.target)
    && (cmd == OffCommand(cmd.target)
        || (cmd.state == ON && 10 <= cmd.frequency <= 200 && 1 <= cmd.amplitude <= 100))
  }

  /** Normalizing is a projection: exactly the legal commands are left as they are. */
  lemma NormalizeIsProjection(cmd: Command)
    requires ValidTarget(cmd.target)
    ensures var n := Normalize(cmd).value;
            Normalize(Command(n.target, n.state, n.frequency, n.amplitude)) == Some(n)
    ensures Legal(NormalizedCommand(cmd.target, cmd.state, cmd.frequency, cmd.amplitude))
       <==> Normalize(cmd).value == NormalizedCommand(cmd.target, cmd.state, cmd.frequency, cmd.amplitude)
  {
  }

  /** All Off commands for a target are one value. */
  lemma OffIsCanonical(a: Command, b: Command)
    requires ValidTarget(a.target) && a.target == b.target
    requires Normalize(a).value.state == OFF && Normalize(b).value.state == OFF
    ensures Normalize(a) == Normalize(b)
  {
  }

  // ---- Packets ----

  /** vibrateCommand, padded to 64 bytes. */
  function Encode(cmd: NormalizedCommand): (packet: seq<uint8>)
    ensures |packet| == PACKET_SIZE
  {
    [FRAME_HEADER, COMMAND_CODE, cmd.target, cmd.state, cmd.frequency, cmd.amplitude] + seq(PACKET_SIZE - 6, _ => 0)
  }

  function Decode(packet: seq<uint8>): Option<NormalizedCommand> {
    if |packet| == PACKET_SIZE && packet[0] == FRAME_HEADER && packet[1] == COMMAND_CODE
    then Some(NormalizedCommand(packet[2], packet[3], packet[4], packet[5]))
    else None
  }

  lemma PacketRoundTrip(cmd: NormalizedCommand)
    ensures Decode(Encode(cmd)) == Some(cmd)
  {
    var packet := Encode(cmd);
    assert packet[..6] == [FRAME_HEADER, COMMAND_CODE, cmd.target, cmd.state, cmd.frequency, cmd.amplitude];
    assert packet[0] == packet[..6][0] && packet[1] == packet[..6][1] && packet[2] == packet[..6][2];
    assert packet[3] == packet[..6][3] && packet[4] == packet[..6][4] && packet[5] == packet[..6][5];
  }

  // ---- The motor ----

  datatype Channel = Quiet | Vibrating(frequency: uint8, amplitude: uint8)

  /** Three channels. */
  type Motor = m: seq<Channel> | |m| == 3 witness [Quiet, Quiet, Quiet]

  /** What the world does at one operation: the channels whose watchdog has run out by then,
      and the error of a SetFeature made now, if it fails. */
  datatype Moment = Moment(expired: set<nat>, error: Option<string>)

  type Moments = m: seq<Moment> | |m| == 3 witness [Moment({}, None), Moment({}, None), Moment({}, None)]

  function Expire(motor: Motor, expired: set<nat>): Motor {
    seq(3, i requires 0 <= i < 3 => if i in expired then Quiet else motor[i])
  }

  /** The motor takes a packet. */
  function Obey(motor: Motor, packet: seq<uint8>): Motor {
    match Decode(packet)
    case None => motor
    case Some(cmd) =>
      if !ValidTarget(cmd.target) then motor
      else motor[cmd.target := if cmd.state == ON then Vibrating(cmd.frequency, cmd.amplitude) else Quiet]
  }

  // ---- The device handle ----

  datatype Outcome = Nil | ErrDeviceClosed | ErrInvalidTarget | ErrTransport(error: string)

  /** `last` is what the handle believes it sent last; `log` holds every packet it tried to send. */
  datatype Handle = Handle(last: map<uint8, NormalizedCommand>, closed: bool, motor: Motor, log: seq<seq<uint8>>)

  datatype Acted = Acted(handle: Handle, outcome: Outcome)

  /** What a call returns for the transport's answer. */
  function Answer(error: Option<string>): Outcome {
    if error.Some? then ErrTransport(error.value) else Nil
  }

  /** sendLocked */
  function Send(h: Handle, cmd: NormalizedCommand, force: bool, moment: Moment): Acted {
    var motor := Expire(h.motor, moment.expired);
    if !force && cmd.target in h.last && h.last[cmd.target] == cmd && cmd.state == OFF then
      Acted(h.(motor := motor), Nil)
    else
      var logged := h.(log := h.log + [Encode(cmd)]);
      if moment.error.Some? then Acted(logged.(motor := motor), ErrTransport(moment.error.value))
      else Acted(logged.(motor := Obey(motor, Encode(cmd)), last := h.last[cmd.target := cmd]), Nil)
  }

  /** stopAll over the targets from 0 up to n. */
  function StopAll(h: Handle, moments: Moments, n: nat): Acted
    requires n <= 3
  {
    if n == 0 then Acted(h, Nil)
    else
      var before := StopAll(h, moments, n - 1);
      var sent := Send(before.handle, OffCommand(n - 1), true, moments[n - 1]);
      Acted(sent.handle, if before.outcome != Nil then before.outcome else sent.outcome)
  }

  datatype Op =
    | Vibrate(cmd: Command, moment: Moment)
    | Stop(target: uint8, moment: Moment)
    | Close(moments: Moments, closeError: Option<string>)

  function Perform(h: Handle, op: Op): Acted {
    match op
    case Vibrate(cmd, moment) =>
      if h.closed then Acted(h, ErrDeviceClosed)
      else
        (match Normalize(cmd)
         case None => Acted(h, ErrInvalidTarget)
         case Some(normalized) => Send(h, normalized, false, moment))
    case Stop(target, moment) =>
      if h.closed then Acted(h, ErrDeviceClosed)
      else if !ValidTarget(target) then Acted(h, ErrInvalidTarget)
      else Send(h, OffCommand(target), false, moment)
    case Close(moments, closeError) =>
      if h.closed then Acted(h, Nil)
      else
        var stopped := StopAll(h, moments, 3);
        Acted(stopped.handle.(closed := true),
              if closeError.Some? then ErrTransport(closeError.value) else stopped.outcome)
  }

  /** Open: a handle only if all three Offs got through. */
  function Open(motor: Motor, moments: Moments): Acted {
    StopAll(Handle(map[], false, motor, []), moments, 3)
  }

  /** The handle after a sequence of operations. */
  function After(h: Handle, ops: seq<Op>): Handle {
    if ops == [] then h else Perform(After(h, ops[..|ops| - 1]), ops[|ops| - 1]).handle
  }

  // ---- Suppression ----

  /** The cache tells the truth about Off: what it believes off is off, whatever the watchdog
      did and however many packets were lost. */
  ghost predicate Truthful(h: Handle) {
    forall t | t in h.last ::
      ValidTarget(t) && Legal(h.last[t]) && h.last[t].target == t && (h.last[t].state == OFF ==> h.motor[t] == Quiet)
  }

  lemma SendIsTruthful(h: Handle, cmd: NormalizedCommand, force: bool, moment: Moment)
    requires Truthful(h) && Legal(cmd)
    ensures Truthful(Send(h, cmd, force, moment).handle)
  {
    PacketRoundTrip(cmd);
  }

  lemma {:induction false} StopAllIsTruthful(h: Handle, moments: Moments, n: nat)
    requires Truthful(h) && n <= 3
    ensures Truthful(StopAll(h, moments, n).handle)
  {
    if n == 0 {
    } else {
      StopAllIsTruthful(h, moments, n - 1);
      SendIsTruthful(StopAll(h, moments, n - 1).handle, OffCommand(n - 1), true, moments[n - 1]);
    }
  }

  lemma PerformIsTruthful(h: Handle, op: Op)
    requires Truthful(h)
    ensures Truthful(Perform(h, op).handle)
  {
    match op
    case Vibrate(cmd, moment) =>
      if !h.closed && ValidTarget(cmd.target) { SendIsTruthful(h, Normalize(cmd).value, false, moment); }
    case Stop(target, moment) =>
      if !h.closed && ValidTarget(target) { SendIsTruthful(h, OffCommand(target), false, moment); }
    case Close(moments, _) => StopAllIsTruthful(h, moments, 3);
  }

  lemma {:induction false} AlwaysTruthful(motor: Motor, moments: Moments, ops: seq<Op>)
    ensures Truthful(After(Open(motor, moments).handle, ops))
  {
    if ops == [] {
      StopAllIsTruthful(Handle(map[], false, motor, []), moments, 3);
    } else {
      AlwaysTruthful(motor, moments, ops[..|ops| - 1]);
      PerformIsTruthful(After(Open(motor, moments).handle, ops[..|ops| - 1]), ops[|ops| - 1]);
    }
  }

  /** A driver without the cache: it sends every packet. */
  function SendEvery(motor: Motor, cmd: NormalizedCommand, moment: Moment): Motor {
    var expired := Expire(motor, moment.expired);
    if moment.error.None? then Obey(expired, Encode(cmd)) else expired
  }

  function StopEvery(motor: Motor, moments: Moments, n: nat): Motor
    requires n <= 3
  {
    if n == 0 then motor else SendEvery(StopEvery(motor, moments, n - 1), OffCommand(n - 1), moments[n - 1])
  }

  datatype Plain = Plain(closed: bool, motor: Motor)

  function PerformPlain(p: Plain, op: Op): Plain {
    match op
    case Vibrate(cmd, moment) =>
      if p.closed || !ValidTarget(cmd.target) then p
      else p.(motor := SendEvery(p.motor, Normalize(cmd).value, moment))
    case Stop(target, moment) =>
      if p.closed || !ValidTarget(target) then p else p.(motor := SendEvery(p.motor, OffCommand(target), moment))
    case Close(moments, _) => if p.closed then p else Plain(true, StopEvery(p.motor, moments, 3))
  }

  function AfterPlain(p: Plain, ops: seq<Op>): Plain {
    if ops == [] then p else PerformPlain(AfterPlain(p, ops[..|ops| - 1]), ops[|ops| - 1])
  }

  lemma SendMovesTheMotorAlike(h: Handle, cmd: NormalizedCommand, force: bool, moment: Moment)
    requires Truthful(h) && Legal(cmd)
    ensures Send(h, cmd, force, moment).handle.motor == SendEvery(h.motor, cmd, moment)
  {
    PacketRoundTrip(cmd);
    var motor := Expire(h.motor, moment.expired);
    if cmd.target in h.last && h.last[cmd.target] == cmd && cmd.state == OFF {
      assert motor[cmd.target := Quiet] == motor;
    }
  }

  lemma {:induction false} StopMovesTheMotorAlike(h: Handle, moments: Moments, n: nat)
    requires Truthful(h) && n <= 3
    ensures StopAll(h, moments, n).handle.motor == StopEvery(h.motor, moments, n)
  {
    if n == 0 {
    } else {
      StopMovesTheMotorAlike(h, moments, n - 1);
      StopAllIsTruthful(h, moments, n - 1);
      SendMovesTheMotorAlike(StopAll(h, moments, n - 1).handle, OffCommand(n - 1), true, moments[n - 1]);
    }
  }

  /** Suppression is invisible to the motor: after any operations of a session, with any
      watchdog and any failures, every channel is as if each packet had been sent. */
  lemma {:induction false} SuppressionIsInvisible(motor: Motor, moments: Moments, ops: seq<Op>)
    ensures var h := After(Open(motor, moments).handle, ops);
            Plain(h.closed, h.motor) == AfterPlain(Plain(false, StopEvery(motor, moments, 3)), ops)
  {
    if ops == [] {
      StopMovesTheMotorAlike(Handle(map[], false, motor, []), moments, 3);
      StopAllStaysOpen(Handle(map[], false, motor, []), moments, 3);
    } else {
      var front, op := ops[..|ops| - 1], ops[|ops| - 1];
      var h := After(Open(motor, moments).handle, front);
      SuppressionIsInvisible(motor, moments, front);
      AlwaysTruthful(motor, moments, front);
      match op
      case Vibrate(cmd, moment) =>
        if ValidTarget(cmd.target) { SendMovesTheMotorAlike(h, Normalize(cmd).value, false, moment); }
      case Stop(target, moment) =>
        if ValidTarget(target) { SendMovesTheMotorAlike(h, OffCommand(target), false, moment); }
      case Close(moments', _) => StopMovesTheMotorAlike(h, moments', 3);
    }
  }

  lemma {:induction false} StopAllStaysOpen(h: Handle, moments: Moments, n: nat)
    requires n <= 3
    ensures StopAll(h, moments, n).handle.closed == h.closed
  {
    if n == 0 {
    } else {
      StopAllStaysOpen(h, moments, n - 1);
    }
  }

  /** An On is never suppressed: every Vibrate that asks for vibration puts its packet on the
      wire, and when it succeeds the channel vibrates as asked. */
  lemma OnIsAlwaysSent(h: Handle, cmd: Command, moment: Moment)
    requires !h.closed && ValidTarget(cmd.target) && Normalize(cmd).value.state == ON
    ensures var n := Normalize(cmd).value;
            var r := Perform(h, Vibrate(cmd, moment));
            && r.handle.log == h.log + [Encode(n)]
            && r.outcome == Answer(moment.error)
            && (r.outcome == Nil ==> r.handle.motor[cmd.target] == Vibrating(n.frequency, n.amplitude))
  {
    PacketRoundTrip(Normalize(cmd).value);
  }

  /** A Stop or an Off that reports success leaves the channel quiet, sent or not. */
  lemma OffLeavesQuiet(motor: Motor, moments: Moments, ops: seq<Op>, target: uint8, moment: Moment)
    requires ValidTarget(target)
        && Perform(After(Open(motor, moments).handle, ops), Stop(target, moment)).outcome == Nil
    ensures Perform(After(Open(motor, moments).handle, ops), Stop(target, moment)).handle.motor[target] == Quiet
  {
    AlwaysTruthful(motor, moments, ops);
    PacketRoundTrip(OffCommand(target));
  }

  // ---- What the caller is told ----

  function FirstError(errors: seq<Option<string>>): Option<string> {
    if errors == [] then None else if errors[0].Some? then errors[0] else FirstError(errors[1..])
  }

  lemma FirstOfThree(a: Option<string>, b: Option<string>, c: Option<string>)
    ensures FirstError([a, b, c]) == if a.Some? then a else if b.Some? then b else c
  {
    assert [a, b, c][1..] == [b, c] && [b, c][1..] == [c] && [c][1..] == [];
    assert FirstError([c]) == c;
    assert FirstError([b, c]) == if b.Some? then b else c;
  }

  /** stopAll tries every channel: each whose Off got through is quiet at the end and known to
      be off, and the first of the errors is returned, if there is any. */
  lemma StopAllTells(h: Handle, moments: Moments)
    ensures var r := StopAll(h, moments, 3);
            && r.outcome == Answer(FirstError([moments[0].error, moments[1].error, moments[2].error]))
            && (r.outcome == Nil <==> forall t | 0 <= t < 3 :: moments[t].error == None)
            && (forall t: uint8 | t < 3 && moments[t].error == None ::
                  r.handle.motor[t] == Quiet && t in r.handle.last && r.handle.last[t] == OffCommand(t))
  {
    FirstOfThree(moments[0].error, moments[1].error, moments[2].error);
    PacketRoundTrip(OffCommand(0));
    PacketRoundTrip(OffCommand(1));
    PacketRoundTrip(OffCommand(2));
    assert StopAll(h, moments, 0) == Acted(h, Nil);
    var a, b, c := StopAll(h, moments, 1), StopAll(h, moments, 2), StopAll(h, moments, 3);
    assert a.outcome == Answer(moments[0].error);
    assert moments[0].error == None ==> a.handle.motor[0] == Quiet;
    assert moments[1].error == None ==> b.handle.motor[1] == Quiet;
    assert moments[0].error == None ==> b.handle.motor[0] == Quiet;
  }

  /** So an opened handle stands before three quiet channels. */
  lemma OpenedIsQuiet(motor: Motor, moments: Moments)
    ensures var r := Open(motor, moments);
            && (r.outcome == Nil <==> forall t | 0 <= t < 3 :: moments[t].error == None)
            && (r.outcome == Nil ==> r.handle.motor == [Quiet, Quiet, Quiet])
  {
    StopAllTells(Handle(map[], false, motor, []), moments);
  }

  /** Close of an open handle: the transport's error if it has one, else the first of the three
      Offs'; nil only if all four calls were answered well, and then every channel is quiet. */
  lemma CloseTells(h: Handle, moments: Moments, closeError: Option<string>)
    requires !h.closed
    ensures var r := Perform(h, Close(moments, closeError));
            && r.handle.closed
            && r.outcome == Answer(FirstError([closeError, moments[0].error, moments[1].error, moments[2].error]))
            && (r.outcome == Nil <==> closeError == None && forall t | 0 <= t < 3 :: moments[t].error == None)
            && (r.outcome == Nil ==> r.handle.motor == [Quiet, Quiet, Quiet])
  {
    StopAllTells(h, moments);
    var errors := [closeError, moments[0].error, moments[1].error, moments[2].error];
    assert errors[1..] == [moments[0].error, moments[1].error, moments[2].error];
  }

  /** A target that does not exist is refused, and nothing is sent. */
  lemma InvalidIsRefused(h: Handle, cmd: Command, target: uint8, moment: Moment)
    requires !h.closed
    ensures cmd.target > 2 ==> Perform(h, Vibrate(cmd, moment)) == Acted(h, ErrInvalidTarget)
    ensures target > 2 ==> Perform(h, Stop(target, moment)) == Acted(h, ErrInvalidTarget)
  {
  }

  /** The operation asks for the Off of a channel. */
  predicate AsksOff(op: Op, target: uint8) {
    match op
    case Vibrate(cmd, _) => cmd.target == target && (cmd.state != ON || cmd.amplitude == 0)
    case Stop(t, _) => t == target
    case Close(_, _) => false
  }

  /** What suppression is for: an Off that follows one that succeeded is not sent again. */
  lemma SecondOffIsSuppressed(h: Handle, first: Op, second: Op, target: uint8)
    requires !h.closed && target <= 2 && AsksOff(first, target) && AsksOff(second, target)
    requires Perform(h, first).outcome == Nil
    ensures var before := Perform(h, first).handle;
            var r := Perform(before, second);
            r.outcome == Nil && r.handle.log == before.log && r.handle.last == before.last
  {
  }

  // ---- The wire ----

  /** A packet, byte by byte. */
  lemma WireBytes(cmd: NormalizedCommand)
    ensures Encode(cmd) == [0xf1, 0xec, cmd.target, cmd.state, cmd.frequency, cmd.amplitude] + seq(58, _ => 0)
  {
  }

  /** A packet that turns a channel off, or that makes it vibrate within the bounds. */
  predicate OnTheWire(packet: seq<uint8>) {
    && |packet| == 64 && packet[0] == 0xf1 && packet[1] == 0xec && packet[2] <= 2
    && (packet[3..6] == [0, 0, 0] || (packet[3] == 1 && 10 <= packet[4] <= 200 && 1 <= packet[5] <= 100))
    && forall k | 6 <= k < 64 :: packet[k] == 0
  }

  lemma LegalOnTheWire(cmd: NormalizedCommand)
    requires Legal(cmd)
    ensures OnTheWire(Encode(cmd))
  {
    WireBytes(cmd);
    var packet := Encode(cmd);
    assert packet[..6] == [0xf1, 0xec, cmd.target, cmd.state, cmd.frequency, cmd.amplitude];
    assert packet[0] == packet[..6][0] && packet[1] == packet[..6][1] && packet[2] == packet[..6][2];
    assert packet[3] == packet[..6][3] && packet[4] == packet[..6][4] && packet[5] == packet[..6][5];
  }

  /** Everything a session ever tries to send is such a packet. */
  lemma SessionOnTheWire(motor: Motor, moments: Moments, ops: seq<Op>)
    ensures forall packet | packet in After(Open(motor, moments).handle, ops).log :: OnTheWire(packet)
  {
    var log := After(Open(motor, moments).handle, ops).log;
    SessionLog(motor, moments, ops);
    forall packet | packet in log ensures OnTheWire(packet) {
      var k :| 0 <= k < |log| && log[k] == packet;
      var cmd :| Legal(cmd) && log[k] == Encode(cmd);
      LegalOnTheWire(cmd);
    }
  }

  ghost predicate LegalLog(log: seq<seq<uint8>>) {
    forall k | 0 <= k < |log| :: exists cmd :: Legal(cmd) && log[k] == Encode(cmd)
  }

  function ThreeOffs(): seq<seq<uint8>> {
    [Encode(OffCommand(0)), Encode(OffCommand(1)), Encode(OffCommand(2))]
  }

  lemma StopAllLogsThreeOffs(h: Handle, moments: Moments)
    ensures StopAll(h, moments, 3).handle.log == h.log + ThreeOffs()
  {
    var a, b, c := StopAll(h, moments, 1), StopAll(h, moments, 2), StopAll(h, moments, 3);
    assert StopAll(h, moments, 0).handle == h;
    assert a.handle.log == h.log + [Encode(OffCommand(0))];
    assert b.handle.log == a.handle.log + [Encode(OffCommand(1))];
    assert c.handle.log == b.handle.log + [Encode(OffCommand(2))];
  }

  lemma LegalAppend(log: seq<seq<uint8>>, cmd: NormalizedCommand)
    requires LegalLog(log) && Legal(cmd)
    ensures LegalLog(log + [Encode(cmd)])
  {
  }

  lemma ThreeOffsAreLegal(log: seq<seq<uint8>>)
    requires LegalLog(log)
    ensures LegalLog(log + ThreeOffs())
  {
    LegalAppend(log, OffCommand(0));
    LegalAppend(log + [Encode(OffCommand(0))], OffCommand(1));
    LegalAppend(log + [Encode(OffCommand(0))] + [Encode(OffCommand(1))], OffCommand(2));
    assert log + ThreeOffs() == log + [Encode(OffCommand(0))] + [Encode(OffCommand(1))] + [Encode(OffCommand(2))];
  }

  /** What one operation adds to the wire. */
  lemma PerformLogs(h: Handle, op: Op)
    requires LegalLog(h.log)
    ensures var r := Perform(h, op).handle;
            && LegalLog(r.log) && h.log <= r.log
            && (h.closed ==> r.log == h.log && r.closed)
            && (!h.closed && op.Close? ==> r.log == h.log + ThreeOffs() && r.closed)
            && (!h.closed && !op.Close? ==> |r.log| <= |h.log| + 1 && !r.closed)
  {
    match op
    case Vibrate(cmd, moment) => if !h.closed && ValidTarget(cmd.target) { LegalAppend(h.log, Normalize(cmd).value); }
    case Stop(target, moment) => if !h.closed && ValidTarget(target) { LegalAppend(h.log, OffCommand(target)); }
    case Close(moments, _) =>
      StopAllLogsThreeOffs(h, moments);
      ThreeOffsAreLegal(h.log);
  }

  /** Whatever follows a Close adds nothing to the log. */
  lemma {:induction false} SilentAfterClose(h: Handle, ops: seq<Op>, k: nat)
    requires LegalLog(h.log) && k < |ops| && ops[k].Close?
    ensures After(h, ops).closed && After(h, ops).log == After(h, ops[..k + 1]).log
    ensures LegalLog(After(h, ops).log)
  {
    var front, op := ops[..|ops| - 1], ops[|ops| - 1];
    OnlyLegal(h, front);
    PerformLogs(After(h, front), op);
    if k == |front| {
      assert ops[..k + 1] == ops;
    } else {
      assert ops[..k + 1] == front[..k + 1];
      SilentAfterClose(h, front, k);
    }
  }

  lemma {:induction false} OnlyLegal(h: Handle, ops: seq<Op>)
    requires LegalLog(h.log)
    ensures LegalLog(After(h, ops).log)
  {
    if ops == [] {
    } else {
      OnlyLegal(h, ops[..|ops| - 1]);
      PerformLogs(After(h, ops[..|ops| - 1]), ops[|ops| - 1]);
    }
  }

  lemma OpenLogsThreeOffs(motor: Motor, moments: Moments)
    ensures var h := Open(motor, moments).handle;
            h.log == ThreeOffs() && LegalLog(h.log) && !h.closed
  {
    var start := Handle(map[], false, motor, []);
    StopAllLogsThreeOffs(start, moments);
    StopAllStaysOpen(start, moments, 3);
    ThreeOffsAreLegal([]);
    assert start.log + ThreeOffs() == ThreeOffs();
    assert [] + ThreeOffs() == ThreeOffs();
  }

  lemma {:induction false} LogGrows(h: Handle, ops: seq<Op>)
    requires LegalLog(h.log) && !h.closed
    ensures var r := After(h, ops);
            && LegalLog(r.log) && h.log <= r.log
            && (r.closed <==> exists k :: 0 <= k < |ops| && ops[k].Close?)
            && (r.closed ==> |r.log| >= |h.log| + 3 && r.log[|r.log| - 3..] == ThreeOffs())
            && |r.log| <= |h.log| + |ops| + (if r.closed then 3 else 0)
  {
    if ops == [] {
    } else {
      var front, op := ops[..|ops| - 1], ops[|ops| - 1];
      LogGrows(h, front);
      PerformLogs(After(h, front), op);
      assert ops == front + [op];
      assert forall k | 0 <= k < |front| :: front[k] == ops[k];
    }
  }

  /** The log of a whole session, from Open on: only legal packets; three Offs first; Close
      tries all three Offs, even when some fail; and from the return of any Close on, so of the
      first, the log stays what it is. */
  lemma SessionLog(motor: Motor, moments: Moments, ops: seq<Op>)
    ensures var start := Open(motor, moments).handle;
            var h := After(start, ops);
            && LegalLog(h.log) && ThreeOffs() <= h.log
            && (h.closed <==> exists k :: 0 <= k < |ops| && ops[k].Close?)
            && (h.closed ==> |h.log| >= 6 && h.log[|h.log| - 3..] == ThreeOffs())
            && (forall k | 0 <= k < |ops| && ops[k].Close? :: h.log == After(start, ops[..k + 1]).log)
            && |h.log| <= 3 + |ops| + (if h.closed then 3 else 0)
  {
    var start := Open(motor, moments).handle;
    OpenLogsThreeOffs(motor, moments);
    LogGrows(start, ops);
    forall k | 0 <= k < |ops| && ops[k].Close? ensures After(start, ops).log == After(start, ops[..k + 1]).log {
      SilentAfterClose(start, ops, k);
    }
  }

  /** After Close: no packet, every command is refused, and another Close returns nil. */
  lemma ClosedIsClosed(h: Handle, op: Op)
    requires h.closed
    ensures Perform(h, op) == Acted(h, if op.Close? then Nil else ErrDeviceClosed)
  {
  }
}
