/** `MCP23017GPIOCover` of `cover/mcp23017_gpio.py`: a cover motor driven by an up pin and a
    down pin through the register access layer, with stop-before-start. Its status accessors
    decode the pins read back from the bus: `is_opening` the DOWN pin, `is_closing` the UP pin. */
module GpioCover {
  import opened Bits
  import opened RegisterBus
  import opened Gpio
  import opened Wrappers
  import opened CoverCommand

  /** One validated pin block of the configuration. */
  datatype Pin = Pin(address: int, port: char, index: int, invertLogic: bool)

  predicate IsPinConfig(p: Pin) {
    IsPin(p.address, p.index) && (p.port == 'A' || p.port == 'B')
  }

  /** `_determine_state`: a pin is active when its level differs from its `invert_logic`. */
  function DetermineState(pinState: bool, invertLogic: bool): (active: bool)
    ensures active == (pinState != invertLogic)
  {
    (pinState && !invertLogic) || (!pinState && invertLogic)
  }

  /** The pin's level read back from the table, decoded through its `invert_logic`. */
  function Active(t: Table, p: Pin): bool
    requires Total(t) && IsPinConfig(p)
  {
    DetermineState(OutputState(t, p.address, p.port, p.index), p.invertLogic)
  }

  /** `set_pin_output_state(level, p.address, p.port, p.index)` on the table. */
  function Drive(t: Table, p: Pin, level: bool): (u: Table)
    requires Total(t) && IsPinConfig(p)
    ensures Total(u)
  {
    WithOutputState(t, level, p.address, p.port, p.index)
  }

  /** The two pins are one output bit of one chip. */
  predicate SharedBit(up: Pin, down: Pin) {
    SameOutputBit(up.address, up.port, up.index, down.address, down.port, down.index)
  }

  /** The two pins are one output bit read the same way: they cannot be told apart. */
  predicate OnePin(up: Pin, down: Pin) {
    SharedBit(up, down) && up.invertLogic == down.invertLogic
  }

  /** Both pins decode as active: both motor directions energised. */
  predicate BothActive(t: Table, up: Pin, down: Pin)
    requires Total(t) && IsPinConfig(up) && IsPinConfig(down)
  {
    Active(t, up) && Active(t, down)
  }

  /** The table after each bus write of one command, in order: `stop_cover` writes the down pin
      inactive, then the up pin; `open_cover` and `close_cover` stop first and then write the up
      pin, respectively the down pin, active. */
  function Steps(t: Table, up: Pin, down: Pin, c: Command): (s: seq<Table>)
    requires Total(t) && IsPinConfig(up) && IsPinConfig(down)
    ensures |s| == if c == Stop then 2 else 3
    ensures forall k :: 0 <= k < |s| ==> Total(s[k])
  {
    var stopDown := Drive(t, down, down.invertLogic);
    var stopUp := Drive(stopDown, up, up.invertLogic);
    match c
    case Stop => [stopDown, stopUp]
    case Open => [stopDown, stopUp, Drive(stopUp, up, !up.invertLogic)]
    case Close => [stopDown, stopUp, Drive(stopUp, down, !down.invertLogic)]
  }

  /** The logged `write_byte_data` that set pin `p` to its level in `t`: its output register's byte. */
  function PinWrite(t: Table, p: Pin): Write
    requires Total(t) && IsPinConfig(p)
  {
    Write(p.address, OutputRegister(p.port), t[(p.address, OutputRegister(p.port))])
  }

  /** The bus writes of one command, in order: down then up for `stop_cover`, followed by up for
      `open_cover` or down for `close_cover`, each carrying the byte of the table it produced. */
  function StepWrites(t: Table, up: Pin, down: Pin, c: Command): (w: seq<Write>)
    requires Total(t) && IsPinConfig(up) && IsPinConfig(down)
    ensures |w| == |Steps(t, up, down, c)|
  {
    var s := Steps(t, up, down, c);
    match c
    case Stop => [PinWrite(s[0], down), PinWrite(s[1], up)]
    case Open => [PinWrite(s[0], down), PinWrite(s[1], up), PinWrite(s[2], up)]
    case Close => [PinWrite(s[0], down), PinWrite(s[1], up), PinWrite(s[2], down)]
  }

  /** The table once a command has finished. */
  function Apply(t: Table, up: Pin, down: Pin, c: Command): (u: Table)
    requires Total(t) && IsPinConfig(up) && IsPinConfig(down)
    ensures Total(u)
  {
    var s := Steps(t, up, down, c);
    s[|s| - 1]
  }

  /** The table after a sequence of commands. */
  function Run(t: Table, up: Pin, down: Pin, cmds: seq<Command>): (u: Table)
    requires Total(t) && IsPinConfig(up) && IsPinConfig(down)
    ensures Total(u)
    decreases |cmds|
  {
    if cmds == [] then t else Run(Apply(t, up, down, cmds[0]), up, down, cmds[1..])
  }

  /** Every table a reader polling the bus can observe during a sequence of commands. */
  function Trace(t: Table, up: Pin, down: Pin, cmds: seq<Command>): (s: seq<Table>)
    requires Total(t) && IsPinConfig(up) && IsPinConfig(down)
    ensures forall k :: 0 <= k < |s| ==> Total(s[k])
    decreases |cmds|
  {
    if cmds == [] then []
    else Steps(t, up, down, cmds[0]) + Trace(Apply(t, up, down, cmds[0]), up, down, cmds[1..])
  }

  /** Writing back the byte a pin write logged, onto the table it started from, gives the
      table that write produced. */
  lemma PinWriteRestores(t: Table, p: Pin, level: bool)
    requires Total(t) && IsPinConfig(p)
    ensures t[(p.address, OutputRegister(p.port)) := PinWrite(Drive(t, p, level), p).value] == Drive(t, p, level)
  {
  }

  /** Replaying a pin write from the table it started on gives that write's table, and then
      whatever the remaining writes give from there. */
  lemma ReplayPinWrite(t: Table, p: Pin, level: bool, rest: seq<Write>)
    requires Total(t) && IsPinConfig(p)
    ensures Replay(t, [PinWrite(Drive(t, p, level), p)] + rest) == [Drive(t, p, level)] + Replay(Drive(t, p, level), rest)
  {
    PinWriteRestores(t, p, level);
    assert ([PinWrite(Drive(t, p, level), p)] + rest)[1..] == rest;
  }

  lemma ReplayStop(t: Table, up: Pin, down: Pin)
    requires Total(t) && IsPinConfig(up) && IsPinConfig(down)
    ensures Replay(t, StepWrites(t, up, down, Stop)) == Steps(t, up, down, Stop)
  {
    var d0 := Drive(t, down, down.invertLogic);
    var d1 := Drive(d0, up, up.invertLogic);
    var w := [PinWrite(d0, down), PinWrite(d1, up)];
    assert StepWrites(t, up, down, Stop) == w;
    ReplayPinWrite(d0, up, up.invertLogic, []);
    ReplayPinWrite(t, down, down.invertLogic, w[1..]);
  }

  lemma ReplayOpen(t: Table, up: Pin, down: Pin)
    requires Total(t) && IsPinConfig(up) && IsPinConfig(down)
    ensures Replay(t, StepWrites(t, up, down, Open)) == Steps(t, up, down, Open)
  {
    var d0 := Drive(t, down, down.invertLogic);
    var d1 := Drive(d0, up, up.invertLogic);
    var d2 := Drive(d1, up, !up.invertLogic);
    var w := [PinWrite(d0, down), PinWrite(d1, up), PinWrite(d2, up)];
    assert StepWrites(t, up, down, Open) == w;
    ReplayPinWrite(d1, up, !up.invertLogic, []);
    ReplayPinWrite(d0, up, up.invertLogic, w[2..]);
    ReplayPinWrite(t, down, down.invertLogic, w[1..]);
  }

  lemma ReplayClose(t: Table, up: Pin, down: Pin)
    requires Total(t) && IsPinConfig(up) && IsPinConfig(down)
    ensures Replay(t, StepWrites(t, up, down, Close)) == Steps(t, up, down, Close)
  {
    var d0 := Drive(t, down, down.invertLogic);
    var d1 := Drive(d0, up, up.invertLogic);
    var d2 := Drive(d1, down, !down.invertLogic);
    var w := [PinWrite(d0, down), PinWrite(d1, up), PinWrite(d2, down)];
    assert StepWrites(t, up, down, Close) == w;
    ReplayPinWrite(d1, down, !down.invertLogic, []);
    ReplayPinWrite(d0, up, up.invertLogic, w[2..]);
    ReplayPinWrite(t, down, down.invertLogic, w[1..]);
  }

  /** Replaying the logged writes of a command from the table it started on gives back, write by
      write, the tables of `Steps`: what the safety lemmas below speak of is what the bus showed. */
  lemma ReplayStepWrites(t: Table, up: Pin, down: Pin, c: Command)
    requires Total(t) && IsPinConfig(up) && IsPinConfig(down)
    ensures Replay(t, StepWrites(t, up, down, c)) == Steps(t, up, down, c)
  {
    match c
    case Stop => ReplayStop(t, up, down);
    case Open => ReplayOpen(t, up, down);
    case Close => ReplayClose(t, up, down);
  }

  /** `stop_cover` leaves the up pin inactive, and the down pin inactive unless it shares the up
      pin's bit with the opposite `invert_logic`. */
  lemma StopReleasesBoth(t: Table, up: Pin, down: Pin)
    requires Total(t) && IsPinConfig(up) && IsPinConfig(down)
    ensures !Active(Apply(t, up, down, Stop), up)
    ensures Active(Apply(t, up, down, Stop), down) <==> SharedBit(up, down) && up.invertLogic != down.invertLogic
  {
    var s := Steps(t, up, down, Stop);
    SetLeavesOtherPins(s[0], up.invertLogic, up.address, up.port, up.index, down.address, down.port, down.index);
  }

  /** `open_cover` leaves the up pin active and the down pin inactive, unless the two are one pin. */
  lemma OpenDrivesUpOnly(t: Table, up: Pin, down: Pin)
    requires Total(t) && IsPinConfig(up) && IsPinConfig(down)
    ensures Active(Apply(t, up, down, Open), up)
    ensures Active(Apply(t, up, down, Open), down) <==> OnePin(up, down)
  {
    var s := Steps(t, up, down, Open);
    SetLeavesOtherPins(s[0], up.invertLogic, up.address, up.port, up.index, down.address, down.port, down.index);
    SetLeavesOtherPins(s[1], !up.invertLogic, up.address, up.port, up.index, down.address, down.port, down.index);
  }

  /** `close_cover` leaves the down pin active and the up pin inactive, unless the two are one pin. */
  lemma CloseDrivesDownOnly(t: Table, up: Pin, down: Pin)
    requires Total(t) && IsPinConfig(up) && IsPinConfig(down)
    ensures Active(Apply(t, up, down, Close), down)
    ensures Active(Apply(t, up, down, Close), up) <==> OnePin(up, down)
  {
    var s := Steps(t, up, down, Close);
    SetLeavesOtherPins(s[1], !down.invertLogic, down.address, down.port, down.index, up.address, up.port, up.index);
  }

  /** With an inverted down pin, `close_cover` leaves the down pin's output bit low while the
      down pin decodes as active (which `is_opening` reports). */
  lemma InvertedDownClose(t: Table, up: Pin, down: Pin)
    requires Total(t) && IsPinConfig(up) && IsPinConfig(down) && down.invertLogic
    ensures !OutputState(Apply(t, up, down, Close), down.address, down.port, down.index)
    ensures Active(Apply(t, up, down, Close), down)
  {
  }

  /** A second `stop_cover` rewrites the values the first one left: the table does not change. */
  lemma StopIdempotent(t: Table, up: Pin, down: Pin)
    requires Total(t) && IsPinConfig(up) && IsPinConfig(down)
    ensures Apply(Apply(t, up, down, Stop), up, down, Stop) == Apply(t, up, down, Stop)
  {
    var once := Apply(t, up, down, Stop);
    var downAgain := Drive(once, down, down.invertLogic);
    if SharedBit(up, down) {
      SetLastWins(once, down.invertLogic, down.address, down.port, down.index,
                  up.invertLogic, up.address, up.port, up.index);
    } else {
      var s := Steps(t, up, down, Stop);
      SetLeavesOtherPins(s[0], up.invertLogic, up.address, up.port, up.index, down.address, down.port, down.index);
      SetCurrentStateChangesNothing(once, down.invertLogic, down.address, down.port, down.index);
    }
    SetCurrentStateChangesNothing(once, up.invertLogic, up.address, up.port, up.index);
  }

  /** The two writes of `stop_cover` each leave the pin just written inactive. */
  lemma StopWritesRelease(t: Table, up: Pin, down: Pin)
    requires Total(t) && IsPinConfig(up) && IsPinConfig(down)
    ensures !Active(Steps(t, up, down, Stop)[0], down)
    ensures !Active(Steps(t, up, down, Stop)[1], up)
  {
  }

  /** No bus write of `open_cover`, `close_cover` or `stop_cover` leaves both pins active,
      unless up and down are one pin. */
  lemma StepsNeverBothActive(t: Table, up: Pin, down: Pin, c: Command)
    requires Total(t) && IsPinConfig(up) && IsPinConfig(down) && !OnePin(up, down)
    ensures forall k :: 0 <= k < |Steps(t, up, down, c)| ==> !BothActive(Steps(t, up, down, c)[k], up, down)
  {
    StopWritesRelease(t, up, down);
    assert Steps(t, up, down, c)[..2] == Steps(t, up, down, Stop);
    match c
    case Stop =>
    case Open => OpenDrivesUpOnly(t, up, down);
    case Close => CloseDrivesDownOnly(t, up, down);
  }

  /** Whatever the starting table, no sequence of commands ever shows both pins active at any
      bus write, unless up and down are one pin. */
  lemma {:induction false} TraceNeverBothActive(t: Table, up: Pin, down: Pin, cmds: seq<Command>)
    requires Total(t) && IsPinConfig(up) && IsPinConfig(down) && !OnePin(up, down)
    ensures forall k :: 0 <= k < |Trace(t, up, down, cmds)| ==> !BothActive(Trace(t, up, down, cmds)[k], up, down)
    decreases |cmds|
  {
    if cmds != [] {
      var first := Steps(t, up, down, cmds[0]);
      var rest := Trace(Apply(t, up, down, cmds[0]), up, down, cmds[1..]);
      StepsNeverBothActive(t, up, down, cmds[0]);
      TraceNeverBothActive(Apply(t, up, down, cmds[0]), up, down, cmds[1..]);
      assert Trace(t, up, down, cmds) == first + rest;
      forall k | 0 <= k < |first + rest|
        ensures !BothActive((first + rest)[k], up, down)
      {
        if k >= |first| {
          assert (first + rest)[k] == rest[k - |first|];
        }
      }
    }
  }

  /** From a table without both pins active, no sequence of commands ends with both active. */
  lemma {:induction false} RunNeverBothActive(t: Table, up: Pin, down: Pin, cmds: seq<Command>)
    requires Total(t) && IsPinConfig(up) && IsPinConfig(down) && !OnePin(up, down)
    requires !BothActive(t, up, down)
    ensures !BothActive(Run(t, up, down, cmds), up, down)
    decreases |cmds|
  {
    if cmds != [] {
      StepsNeverBothActive(t, up, down, cmds[0]);
      RunNeverBothActive(Apply(t, up, down, cmds[0]), up, down, cmds[1..]);
    }
  }

  /** When up and down are one pin, `open_cover` leaves both active: the model's safety
      properties need two distinguishable pins. */
  lemma OnePinOpenBothActive(t: Table, up: Pin, down: Pin)
    requires Total(t) && IsPinConfig(up) && IsPinConfig(down) && OnePin(up, down)
    ensures BothActive(Apply(t, up, down, Open), up, down)
  {
    OpenDrivesUpOnly(t, up, down);
  }

  class Cover {
    const bus: RegisterFile
    const downPin: Pin
    const upPin: Pin

    ghost predicate Valid()
      reads this, bus
    {
      bus.Valid() && IsPinConfig(downPin) && IsPinConfig(upPin)
    }

    /** `__init__` only stores the pin blocks; it touches no register. */
    constructor (bus: RegisterFile, downPin: Pin, upPin: Pin)
      requires bus.Valid() && IsPinConfig(downPin) && IsPinConfig(upPin)
      ensures Valid() && this.bus == bus && this.downPin == downPin && this.upPin == upPin
    {
      this.bus := bus;
      this.downPin := downPin;
      this.upPin := upPin;
    }

    /** `current_cover_position`: no position sensor, always unknown. */
    function CurrentCoverPosition(): (position: Option<int>)
      ensures position == None
    {
      None
    }

    /** `current_cover_tilt_position`: always unknown. */
    function CurrentCoverTiltPosition(): (tilt: Option<int>)
      ensures tilt == None
    {
      None
    }

    /** `is_closed`: always unknown. */
    function IsClosed(): (closed: Option<bool>)
      ensures closed == None
    {
      None
    }

    /** `is_opening`: the DOWN pin's read-back level, decoded through the down pin's `invert_logic`. */
    function IsOpening(): (opening: bool)
      reads this, bus
      requires Valid()
      ensures opening <==> OutputState(bus.regs, downPin.address, downPin.port, downPin.index) != downPin.invertLogic
    {
      DetermineState(OutputState(bus.regs, downPin.address, downPin.port, downPin.index), downPin.invertLogic)
    }

    /** `is_closing`: the UP pin's read-back level, decoded through the up pin's `invert_logic`. */
    function IsClosing(): (closing: bool)
      reads this, bus
      requires Valid()
      ensures closing <==> OutputState(bus.regs, upPin.address, upPin.port, upPin.index) != upPin.invertLogic
    {
      DetermineState(OutputState(bus.regs, upPin.address, upPin.port, upPin.index), upPin.invertLogic)
    }

    /** `open_cover`: stop, then write the up pin active. The status accessors then report
        closing, not opening. */
    method OpenCover()
      requires Valid()
      modifies bus
      ensures Valid()
      ensures bus.regs == Apply(old(bus.regs), upPin, downPin, Open)
      ensures bus.writes == old(bus.writes) + StepWrites(old(bus.regs), upPin, downPin, Open)
      ensures IsClosing()
      ensures IsOpening() <==> OnePin(upPin, downPin)
    {
      StopCover();
      SetPinOutputState(bus, if upPin.invertLogic then false else true, upPin.address, upPin.port, upPin.index);
      OpenDrivesUpOnly(old(bus.regs), upPin, downPin);
    }

    /** `close_cover`: stop, then write the down pin active. The status accessors then report
        opening, not closing. */
    method CloseCover()
      requires Valid()
      modifies bus
      ensures Valid()
      ensures bus.regs == Apply(old(bus.regs), upPin, downPin, Close)
      ensures bus.writes == old(bus.writes) + StepWrites(old(bus.regs), upPin, downPin, Close)
      ensures IsOpening()
      ensures IsClosing() <==> OnePin(upPin, downPin)
    {
      StopCover();
      SetPinOutputState(bus, if downPin.invertLogic then false else true, downPin.address, downPin.port, downPin.index);
      CloseDrivesDownOnly(old(bus.regs), upPin, downPin);
    }

    /** `stop_cover`: write the down pin inactive, then the up pin. */
    method StopCover()
      requires Valid()
      modifies bus
      ensures Valid()
      ensures bus.regs == Apply(old(bus.regs), upPin, downPin, Stop)
      ensures bus.writes == old(bus.writes) + StepWrites(old(bus.regs), upPin, downPin, Stop)
      ensures !IsClosing()
      ensures IsOpening() <==> SharedBit(upPin, downPin) && upPin.invertLogic != downPin.invertLogic
    {
      SetPinOutputState(bus, if downPin.invertLogic then true else false, downPin.address, downPin.port, downPin.index);
      SetPinOutputState(bus, if upPin.invertLogic then true else false, upPin.address, upPin.port, upPin.index);
      StopReleasesBoth(old(bus.regs), upPin, downPin);
    }

    /** `stop_cover_tilt` is `stop_cover`. */
    method StopCoverTilt()
      requires Valid()
      modifies bus
      ensures Valid()
      ensures bus.regs == Apply(old(bus.regs), upPin, downPin, Stop)
      ensures bus.writes == old(bus.writes) + StepWrites(old(bus.regs), upPin, downPin, Stop)
      ensures !IsClosing()
      ensures IsOpening() <==> SharedBit(upPin, downPin) && upPin.invertLogic != downPin.invertLogic
    {
      StopCover();
    }

    /** `set_cover_position`: no proportional control; changes nothing. */
    method SetCoverPosition(position: int)
      requires Valid()
      ensures unchanged(bus)
    {
    }

    /** `open_cover_tilt`: no tilt actuator; changes nothing. */
    method OpenCoverTilt()
      requires Valid()
      ensures unchanged(bus)
    {
    }

    /** `close_cover_tilt`: changes nothing. */
    method CloseCoverTilt()
      requires Valid()
      ensures unchanged(bus)
    {
    }

    /** `set_cover_tilt_position`: changes nothing. */
    method SetCoverTiltPosition(tilt: int)
      requires Valid()
      ensures unchanged(bus)
    {
    }
  }
}
