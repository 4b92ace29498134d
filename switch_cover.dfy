/** `MCP23017GPIOCover` of `cover_mcp23017_gpio.py`: a cover composed of two switches of the
    `switch_mcp23017_gpio.py` kind, one per motor direction. Its status accessors read the
    switches' stored states: `is_opening` is the UP switch, `is_closing` the DOWN switch. */
module SwitchCover {
  import opened RegisterBus
  import opened Gpio
  import opened Wrappers
  import opened CoverCommand
  import RegisterSwitch

  /** The stored states of the up and down switches. */
  datatype Relays = Relays(up: bool, down: bool)

  /** The relay states after each `turn_on`/`turn_off` call of one command, in order:
      `stop_cover` turns the up switch off and then the down switch; `open_cover` and
      `close_cover` stop first and then turn on the up, respectively down, switch. */
  function Steps(s: Relays, c: Command): (r: seq<Relays>)
    ensures |r| == if c == Stop then 2 else 3
  {
    var upOff := Relays(false, s.down);
    var bothOff := Relays(false, false);
    match c
    case Stop => [upOff, bothOff]
    case Open => [upOff, bothOff, Relays(true, false)]
    case Close => [upOff, bothOff, Relays(false, true)]
  }

  /** The relay states once a command has finished. */
  function Apply(s: Relays, c: Command): Relays {
    Steps(s, c)[|Steps(s, c)| - 1]
  }

  function Run(s: Relays, cmds: seq<Command>): Relays
    decreases |cmds|
  {
    if cmds == [] then s else Run(Apply(s, cmds[0]), cmds[1..])
  }

  /** Every pair of relay states a reader polling the status can observe during a sequence of commands. */
  function Trace(s: Relays, cmds: seq<Command>): seq<Relays>
    decreases |cmds|
  {
    if cmds == [] then [] else Steps(s, cmds[0]) + Trace(Apply(s, cmds[0]), cmds[1..])
  }

  predicate BothOn(s: Relays) {
    s.up && s.down
  }

  /** `open_cover` ends with only up on, `close_cover` with only down on, `stop_cover` with both off;
      repeating `stop_cover` changes nothing. */
  lemma CommandOutcomes(s: Relays)
    ensures Apply(s, Open) == Relays(true, false)
    ensures Apply(s, Close) == Relays(false, true)
    ensures Apply(s, Stop) == Relays(false, false)
    ensures Apply(Apply(s, Stop), Stop) == Apply(s, Stop)
  {
  }

  /** Whatever the starting states, no switch call of any sequence of commands leaves both switches on. */
  lemma {:induction false} TraceNeverBothOn(s: Relays, cmds: seq<Command>)
    ensures forall k :: 0 <= k < |Trace(s, cmds)| ==> !BothOn(Trace(s, cmds)[k])
    decreases |cmds|
  {
    if cmds != [] {
      var first := Steps(s, cmds[0]);
      var rest := Trace(Apply(s, cmds[0]), cmds[1..]);
      TraceNeverBothOn(Apply(s, cmds[0]), cmds[1..]);
      assert Trace(s, cmds) == first + rest;
      forall k | 0 <= k < |first + rest|
        ensures !BothOn((first + rest)[k])
      {
        if k >= |first| {
          assert (first + rest)[k] == rest[k - |first|];
        }
      }
    }
  }

  /** Starting with both switches off, no sequence of commands ends with both on. */
  lemma {:induction false} RunNeverBothOn(s: Relays, cmds: seq<Command>)
    requires !BothOn(s)
    ensures !BothOn(Run(s, cmds))
    decreases |cmds|
  {
    if cmds != [] {
      RunNeverBothOn(Apply(s, cmds[0]), cmds[1..]);
    }
  }

  datatype CoverError = NotImplementedError

  /** `turn_on`/`turn_off` of `sw` on the table: the access-layer write of `level` to its pin. */
  function DriveSwitch(t: Table, sw: RegisterSwitch.Switch, level: bool): (u: Table)
    requires Total(t) && RegisterSwitch.IsConfig(sw.i2cAddress, sw.registerIndex, sw.pinIndex)
    ensures Total(u)
  {
    WithOutputState(t, level, sw.i2cAddress, RegisterSwitch.PortOf(sw.registerIndex), sw.pinIndex)
  }

  /** The table after `stop_cover`: the up switch's pin written off, then the down switch's. */
  function StopTable(t: Table, up: RegisterSwitch.Switch, down: RegisterSwitch.Switch): (u: Table)
    requires Total(t)
    requires RegisterSwitch.IsConfig(up.i2cAddress, up.registerIndex, up.pinIndex)
    requires RegisterSwitch.IsConfig(down.i2cAddress, down.registerIndex, down.pinIndex)
    ensures Total(u)
  {
    DriveSwitch(DriveSwitch(t, up, up.invertLogic), down, down.invertLogic)
  }

  /** A second `stop_cover` rewrites both pins with the levels the first one left: the register
      table does not change, whether or not the two switches share a pin. */
  lemma StopTwiceChangesNothing(t: Table, up: RegisterSwitch.Switch, down: RegisterSwitch.Switch)
    requires Total(t)
    requires RegisterSwitch.IsConfig(up.i2cAddress, up.registerIndex, up.pinIndex)
    requires RegisterSwitch.IsConfig(down.i2cAddress, down.registerIndex, down.pinIndex)
    ensures StopTable(StopTable(t, up, down), up, down) == StopTable(t, up, down)
  {
    var ua, up', ui := up.i2cAddress, RegisterSwitch.PortOf(up.registerIndex), up.pinIndex;
    var da, dp, di := down.i2cAddress, RegisterSwitch.PortOf(down.registerIndex), down.pinIndex;
    var upOff := DriveSwitch(t, up, up.invertLogic);
    var once := StopTable(t, up, down);
    SetThenGet(upOff, down.invertLogic, da, dp, di);
    if SameOutputBit(ua, up', ui, da, dp, di) {
      SetLastWins(once, up.invertLogic, ua, up', ui, down.invertLogic, da, dp, di);
    } else {
      SetThenGet(t, up.invertLogic, ua, up', ui);
      SetLeavesOtherPins(upOff, down.invertLogic, da, dp, di, ua, up', ui);
      SetCurrentStateChangesNothing(once, up.invertLogic, ua, up', ui);
    }
    SetCurrentStateChangesNothing(once, down.invertLogic, da, dp, di);
  }

  /** Two switches whose pins are different output bits. */
  predicate DistinctPins(a: RegisterSwitch.Switch, b: RegisterSwitch.Switch) {
    !SameOutputBit(a.i2cAddress, RegisterSwitch.PortOf(a.registerIndex), a.pinIndex,
                   b.i2cAddress, RegisterSwitch.PortOf(b.registerIndex), b.pinIndex)
  }

  class Cover {
    const downSwitch: RegisterSwitch.Switch
    const upSwitch: RegisterSwitch.Switch
    /** The relay states after every `turn_on`/`turn_off` call so far, oldest first. */
    ghost var history: seq<Relays>

    /** Two distinct switch objects on the one I2C bus. */
    ghost predicate Valid()
      reads this, downSwitch, upSwitch, upSwitch.bus
    {
      downSwitch != upSwitch && downSwitch.bus == upSwitch.bus &&
      downSwitch.Valid() && upSwitch.Valid()
    }

    /** (`is_opening`, `is_closing`) */
    function Status(): Relays
      reads this, downSwitch, upSwitch, downSwitch.bus, upSwitch.bus
    {
      Relays(IsOpening(), IsClosing())
    }

    /** `__init__` only stores the two switches, which the platform set-up creates on one bus. */
    constructor (downSwitch: RegisterSwitch.Switch, upSwitch: RegisterSwitch.Switch)
      requires downSwitch != upSwitch && downSwitch.bus == upSwitch.bus
      requires downSwitch.Valid() && upSwitch.Valid()
      ensures Valid() && this.downSwitch == downSwitch && this.upSwitch == upSwitch
      ensures history == []
    {
      this.downSwitch := downSwitch;
      this.upSwitch := upSwitch;
      history := [];
    }

    /** `is_opening`: the UP switch's stored state, its pin's decoded level while it is `Synced`. */
    function IsOpening(): (opening: bool)
      reads this, upSwitch, upSwitch.bus
      ensures upSwitch.Valid() && upSwitch.Synced() ==>
        (opening <==> OutputState(upSwitch.bus.regs, upSwitch.i2cAddress,
                                  RegisterSwitch.PortOf(upSwitch.registerIndex), upSwitch.pinIndex) != upSwitch.invertLogic)
    {
      upSwitch.IsOn()
    }

    /** `is_closing`: the DOWN switch's stored state, its pin's decoded level while it is `Synced`. */
    function IsClosing(): (closing: bool)
      reads this, downSwitch, downSwitch.bus
      ensures downSwitch.Valid() && downSwitch.Synced() ==>
        (closing <==> OutputState(downSwitch.bus.regs, downSwitch.i2cAddress,
                                  RegisterSwitch.PortOf(downSwitch.registerIndex), downSwitch.pinIndex) != downSwitch.invertLogic)
    {
      downSwitch.IsOn()
    }

    /** `is_closed` raises NotImplementedError. */
    function IsClosed(): (closed: Result<bool, CoverError>)
      ensures closed == Failure(NotImplementedError)
    {
      Failure(NotImplementedError)
    }

    /** `stop_cover`: turn the up switch off, then the down switch. */
    method StopCover()
      requires Valid()
      modifies this, upSwitch, downSwitch, upSwitch.bus
      ensures Valid()
      ensures history == old(history) + Steps(old(Status()), Stop)
      ensures Status() == Apply(old(Status()), Stop)
      ensures !IsOpening() && !IsClosing()
      ensures upSwitch.bus.regs == StopTable(old(upSwitch.bus.regs), upSwitch, downSwitch)
      ensures |upSwitch.bus.writes| == |old(upSwitch.bus.writes)| + 2
      ensures DistinctPins(upSwitch, downSwitch) ==> upSwitch.Synced() && downSwitch.Synced()
    {
      upSwitch.TurnOff();
      history := history + [Status()];
      ghost var upOff := upSwitch.bus.regs;
      downSwitch.TurnOff();
      history := history + [Status()];
      SetLeavesOtherPins(upOff, downSwitch.invertLogic,
        downSwitch.i2cAddress, RegisterSwitch.PortOf(downSwitch.registerIndex), downSwitch.pinIndex,
        upSwitch.i2cAddress, RegisterSwitch.PortOf(upSwitch.registerIndex), upSwitch.pinIndex);
    }

    /** `open_cover`: stop, then turn the up switch on. */
    method OpenCover()
      requires Valid()
      modifies this, upSwitch, downSwitch, upSwitch.bus
      ensures Valid()
      ensures history == old(history) + Steps(old(Status()), Open)
      ensures Status() == Apply(old(Status()), Open)
      ensures IsOpening() && !IsClosing()
      ensures upSwitch.bus.regs ==
        DriveSwitch(StopTable(old(upSwitch.bus.regs), upSwitch, downSwitch), upSwitch, !upSwitch.invertLogic)
      ensures |upSwitch.bus.writes| == |old(upSwitch.bus.writes)| + 3
      ensures DistinctPins(upSwitch, downSwitch) ==> upSwitch.Synced() && downSwitch.Synced()
    {
      ghost var before := Status();
      StopCover();
      ghost var stopped := upSwitch.bus.regs;
      upSwitch.TurnOn();
      assert Status() == Relays(true, false);
      history := history + [Relays(true, false)];
      assert Steps(before, Open) == Steps(before, Stop) + [Relays(true, false)];
      SetLeavesOtherPins(stopped, !upSwitch.invertLogic,
        upSwitch.i2cAddress, RegisterSwitch.PortOf(upSwitch.registerIndex), upSwitch.pinIndex,
        downSwitch.i2cAddress, RegisterSwitch.PortOf(downSwitch.registerIndex), downSwitch.pinIndex);
    }

    /** `close_cover`: stop, then turn the down switch on. */
    method CloseCover()
      requires Valid()
      modifies this, upSwitch, downSwitch, upSwitch.bus
      ensures Valid()
      ensures history == old(history) + Steps(old(Status()), Close)
      ensures Status() == Apply(old(Status()), Close)
      ensures !IsOpening() && IsClosing()
      ensures upSwitch.bus.regs ==
        DriveSwitch(StopTable(old(upSwitch.bus.regs), upSwitch, downSwitch), downSwitch, !downSwitch.invertLogic)
      ensures |upSwitch.bus.writes| == |old(upSwitch.bus.writes)| + 3
      ensures DistinctPins(upSwitch, downSwitch) ==> upSwitch.Synced() && downSwitch.Synced()
    {
      ghost var before := Status();
      StopCover();
      ghost var stopped := upSwitch.bus.regs;
      downSwitch.TurnOn();
      assert Status() == Relays(false, true);
      history := history + [Relays(false, true)];
      assert Steps(before, Close) == Steps(before, Stop) + [Relays(false, true)];
      SetLeavesOtherPins(stopped, !downSwitch.invertLogic,
        downSwitch.i2cAddress, RegisterSwitch.PortOf(downSwitch.registerIndex), downSwitch.pinIndex,
        upSwitch.i2cAddress, RegisterSwitch.PortOf(upSwitch.registerIndex), upSwitch.pinIndex);
    }

    /** `stop_cover_tilt` is `stop_cover`. */
    method StopCoverTilt()
      requires Valid()
      modifies this, upSwitch, downSwitch, upSwitch.bus
      ensures Valid()
      ensures history == old(history) + Steps(old(Status()), Stop)
      ensures Status() == Apply(old(Status()), Stop)
      ensures !IsOpening() && !IsClosing()
      ensures upSwitch.bus.regs == StopTable(old(upSwitch.bus.regs), upSwitch, downSwitch)
      ensures |upSwitch.bus.writes| == |old(upSwitch.bus.writes)| + 2
      ensures DistinctPins(upSwitch, downSwitch) ==> upSwitch.Synced() && downSwitch.Synced()
    {
      StopCover();
    }

    /** `set_cover_position`: changes nothing. */
    method SetCoverPosition(position: int)
      requires Valid()
      ensures unchanged(this, upSwitch, downSwitch, upSwitch.bus)
    {
    }

    /** `open_cover_tilt`: changes nothing. */
    method OpenCoverTilt()
      requires Valid()
      ensures unchanged(this, upSwitch, downSwitch, upSwitch.bus)
    {
    }

    /** `close_cover_tilt`: changes nothing. */
    method CloseCoverTilt()
      requires Valid()
      ensures unchanged(this, upSwitch, downSwitch, upSwitch.bus)
    {
    }

    /** `set_cover_tilt_position`: changes nothing. */
    method SetCoverTiltPosition(tilt: int)
      requires Valid()
      ensures unchanged(this, upSwitch, downSwitch, upSwitch.bus)
    {
    }
  }
}
