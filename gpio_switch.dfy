/** `MCP23017GPIOSwitch` of `switch/mcp23017_gpio.py`: one output pin driven through the
    register access layer, holding the last commanded on/off state. */
module GpioSwitch {
  import opened Bits
  import opened RegisterBus
  import opened Gpio

  /** The physical level written for a logical state: high iff on and not inverted, or off and inverted. */
  function PhysicalLevel(state: bool, invertLogic: bool): (high: bool)
    ensures high == (state != invertLogic)
  {
    (state && !invertLogic) || (!state && invertLogic)
  }

  class Switch {
    const bus: RegisterFile
    const address: int
    const port: char
    const index: int
    const invertLogic: bool
    var state: bool

    ghost predicate Valid()
      reads this, bus
    {
      bus.Valid() && IsPin(address, index)
    }

    /** The class invariant the source relies on: the output bit shows `state` through `invertLogic`. */
    ghost predicate Synced()
      reads this, bus
      requires Valid()
    {
      OutputState(bus.regs, address, port, index) == (state != invertLogic)
    }

    /** `__init__`: configure the pin as an output if it is not one yet, then force it off. */
    constructor (bus: RegisterFile, address: int, port: char, index: int, invertLogic: bool)
      requires bus.Valid() && IsPin(address, index) && (port == 'A' || port == 'B')
      modifies bus
      ensures this.bus == bus && this.address == address && this.port == port
      ensures this.index == index && this.invertLogic == invertLogic
      ensures Valid() && Synced() && !IsOn()
      ensures ConfigState(bus.regs, address, port, index) == 0
      ensures OutputState(bus.regs, address, port, index) == invertLogic
      ensures bus.regs ==
        WithOutputState(ConfiguredAsOutput(old(bus.regs), address, port, index), invertLogic, address, port, index)
      ensures bus.writes == old(bus.writes)
        + (if ConfigState(old(bus.regs), address, port, index) != 0
           then [Write(address, DirectionRegister(port),
                       ConfiguredAsOutput(old(bus.regs), address, port, index)[(address, DirectionRegister(port))])]
           else [])
        + [Write(address, OutputRegister(port), bus.regs[(address, OutputRegister(port))])]
    {
      this.bus := bus;
      this.address := address;
      this.port := port;
      this.index := index;
      this.invertLogic := invertLogic;
      new;
      ConfigBus();
      state := false;
      UpdateBus();
    }

    /** `is_on`: the stored state, not a read-back of the pin; while the switch is `Synced` it
        agrees with the pin's level decoded through `invert_logic`. */
    function IsOn(): (on: bool)
      reads this, bus
      ensures Valid() && Synced() ==> (on <==> OutputState(bus.regs, address, port, index) != invertLogic)
    {
      state
    }

    method TurnOn()
      requires Valid()
      modifies this, bus
      ensures Valid() && Synced() && IsOn()
      ensures OutputState(bus.regs, address, port, index) == !invertLogic
      ensures bus.regs == WithOutputState(old(bus.regs), !invertLogic, address, port, index)
      ensures |bus.writes| == |old(bus.writes)| + 1
    {
      state := true;
      UpdateBus();
    }

    method TurnOff()
      requires Valid()
      modifies this, bus
      ensures Valid() && Synced() && !IsOn()
      ensures OutputState(bus.regs, address, port, index) == invertLogic
      ensures bus.regs == WithOutputState(old(bus.regs), invertLogic, address, port, index)
      ensures |bus.writes| == |old(bus.writes)| + 1
    {
      state := false;
      UpdateBus();
    }

    method Toggle()
      requires Valid()
      modifies this, bus
      ensures Valid() && Synced() && IsOn() == !old(IsOn())
      ensures bus.regs == WithOutputState(old(bus.regs), old(state) == invertLogic, address, port, index)
      ensures |bus.writes| == |old(bus.writes)| + 1
    {
      state := !state;
      UpdateBus();
    }

    /** `_config_bus`: reads the direction bit and writes IODIRx only when the pin is not yet an output. */
    method ConfigBus()
      requires Valid()
      modifies bus
      ensures Valid()
      ensures bus.regs == ConfiguredAsOutput(old(bus.regs), address, port, index)
      ensures ConfigState(old(bus.regs), address, port, index) == 0 ==> bus.writes == old(bus.writes)
      ensures ConfigState(old(bus.regs), address, port, index) != 0 ==>
        bus.writes == old(bus.writes) + [Write(address, DirectionRegister(port), bus.regs[(address, DirectionRegister(port))])]
    {
      var bit := GetPinConfigState(bus, address, port, index);
      if bit != 0 {
        ConfigPinAsOutput(bus, address, port, index);
      } else {
        ConfigOfOutputPinChangesNothing(bus.regs, address, port, index);
      }
    }

    /** `_update_bus`: writes the physical level of `state` to the pin's output bit. */
    method UpdateBus()
      requires Valid()
      modifies bus
      ensures Valid() && Synced()
      ensures bus.regs == WithOutputState(old(bus.regs), state != invertLogic, address, port, index)
      ensures bus.writes == old(bus.writes) +
        [Write(address, OutputRegister(port), bus.regs[(address, OutputRegister(port))])]
    {
      var level := PhysicalLevel(state, invertLogic);
      SetPinOutputState(bus, level, address, port, index);
    }
  }

  /** Two `toggle` calls restore both the stored state and the register table. */
  method ToggleTwice(s: Switch)
    requires s.Valid() && s.Synced()
    modifies s, s.bus
    ensures s.Valid() && s.Synced()
    ensures s.IsOn() == old(s.IsOn()) && s.bus.regs == old(s.bus.regs)
  {
    ghost var t := s.bus.regs;
    s.Toggle();
    s.Toggle();
    TogglesCancel(t, s.state, s.invertLogic, s.address, s.port, s.index);
  }

  /** Writing the opposite level and then the current one again leaves the table as it was. */
  lemma TogglesCancel(t: Table, state: bool, invertLogic: bool, address: int, port: char, index: int)
    requires Total(t) && IsPin(address, index)
    requires OutputState(t, address, port, index) == (state != invertLogic)
    ensures WithOutputState(WithOutputState(t, state == invertLogic, address, port, index),
                            state != invertLogic, address, port, index) == t
  {
    SetLastWins(t, state == invertLogic, address, port, index, state != invertLogic, address, port, index);
    SetCurrentStateChangesNothing(t, state != invertLogic, address, port, index);
  }
}
