/** The device handle of the Simagic driver (driver.go:62-168, 218-283) with its fields updated
    in place, on top of a transport that the motor is behind. */
module HapticDevices {
  import opened ControllerTypes
  import opened Simagic

  class Transport {
    var motor: Motor
    var log: seq<seq<uint8>>
    var closed: bool

    constructor (motor: Motor)
      ensures this.motor == motor && log == [] && !closed
    {
      this.motor := motor;
      log := [];
      closed := false;
    }

    /** The watchdog of some channels runs out. */
    method Elapse(expired: set<nat>)
      modifies this`motor
      ensures motor == Expire(old(motor), expired)
    {
      motor := Expire(motor, expired);
    }

    method SetFeature(packet: seq<uint8>, answer: Option<string>) returns (error: Option<string>)
      requires |packet| == PACKET_SIZE
      modifies this`motor, this`log
      ensures error == answer && log == old(log) + [packet]
      ensures motor == if error.None? then Obey(old(motor), packet) else old(motor)
    {
      log := log + [packet];
      error := answer;
      if error.None? {
        motor := Obey(motor, packet);
      }
    }

    method Close(answer: Option<string>) returns (error: Option<string>)
      modifies this`closed
      ensures closed && error == answer
    {
      closed := true;
      error := answer;
    }
  }

  class HapticDevice {
    const transport: Transport
    var closed: bool
    var last: map<uint8, NormalizedCommand>

    /** The handle as a value. */
    ghost function View(): Handle
      reads this, transport
    {
      Handle(last, closed, transport.motor, transport.log)
    }

    constructor (transport: Transport)
      ensures this.transport == transport && !closed && last == map[]
    {
      this.transport := transport;
      closed := false;
      last := map[];
    }

    /** A handle, or the error; `closeError` is what the transport answers when it is given up. */
    static method Open(transport: Transport, moments: Moments, closeError: Option<string>)
      returns (device: HapticDevice?, outcome: Outcome)
      requires transport.log == [] && !transport.closed
      modifies transport
      ensures var r := Simagic.Open(old(transport.motor), moments);
              && outcome == r.outcome && (device == null <==> outcome != Nil) && transport.closed == (device == null)
              && transport.motor == r.handle.motor && transport.log == r.handle.log
              && (device != null ==> fresh(device) && device.transport == transport && device.View() == r.handle)
      ensures device != null <==> forall t | 0 <= t < 3 :: moments[t].error == None
      ensures device != null ==> transport.motor == [Quiet, Quiet, Quiet]
    {
      OpenedIsQuiet(transport.motor, moments);
      var handle := new HapticDevice(transport);
      outcome := handle.StopAll(moments);
      if outcome != Nil {
        var error := transport.Close(closeError);
        return null, outcome;
      }
      device := handle;
    }

    method SendLocked(cmd: NormalizedCommand, force: bool, moment: Moment) returns (outcome: Outcome)
      modifies this`last, transport`motor, transport`log
      ensures Acted(View(), outcome) == Send(old(View()), cmd, force, moment)
    {
      transport.Elapse(moment.expired);
      if !force {
        if cmd.target in last && last[cmd.target] == cmd {
          if cmd.state == OFF {
            return Nil;
          }
        }
      }
      var error := transport.SetFeature(Encode(cmd), moment.error);
      if error.Some? {
        return ErrTransport(error.value);
      }
      last := last[cmd.target := cmd];
      return Nil;
    }

    method StopAll(moments: Moments) returns (firstError: Outcome)
      modifies this`last, transport`motor, transport`log
      ensures Acted(View(), firstError) == Simagic.StopAll(old(View()), moments, 3)
    {
      firstError := Nil;
      for target := 0 to 3
        invariant closed == old(closed)
        invariant Acted(View(), firstError) == Simagic.StopAll(old(View()), moments, target)
      {
        var outcome := SendLocked(OffCommand(target), true, moments[target]);
        if outcome != Nil && firstError == Nil {
          firstError := outcome;
        }
      }
    }

    method Vibrate(cmd: Command, moment: Moment) returns (outcome: Outcome)
      modifies this`last, transport`motor, transport`log
      ensures Acted(View(), outcome) == Perform(old(View()), Op.Vibrate(cmd, moment))
    {
      if closed {
        return ErrDeviceClosed;
      }
      var normalized := Normalize(cmd);
      if normalized.None? {
        return ErrInvalidTarget;
      }
      outcome := SendLocked(normalized.value, false, moment);
    }

    method Stop(target: uint8, moment: Moment) returns (outcome: Outcome)
      modifies this`last, transport`motor, transport`log
      ensures Acted(View(), outcome) == Perform(old(View()), Op.Stop(target, moment))
    {
      if closed {
        return ErrDeviceClosed;
      }
      if !ValidTarget(target) {
        return ErrInvalidTarget;
      }
      outcome := SendLocked(OffCommand(target), false, moment);
    }

    /** `closeError` is the answer of the transport's own Close. */
    method Close(moments: Moments, closeError: Option<string>) returns (outcome: Outcome)
      modifies this`last, this`closed, transport
      ensures Acted(View(), outcome) == Perform(old(View()), Op.Close(moments, closeError))
      ensures !old(closed) ==> transport.closed
    {
      if closed {
        return Nil;
      }
      var stopped := StopAll(moments);
      var error := transport.Close(closeError);
      closed := true;
      if error.Some? {
        return ErrTransport(error.value);
      }
      outcome := stopped;
    }
  }
}
