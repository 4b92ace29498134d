/** `MCP23017GPIOSwitch` of `switch_mcp23017_gpio.py`: the variant that selects the register pair
    by a 0/1 `register_index` and does its own read-modify-write on the bus. */
module RegisterSwitch {
  import opened Bits
  import opened RegisterBus
  import opened Gpio

  /** The ranges of the platform schema: address 0..0xff, register index 0..1, pin index 0..7. */
  predicate IsConfig(i2cAddress: int, registerIndex: int, pinIndex: int) {
    IsAddress(i2cAddress) && 0 <= registerIndex <= 1 && IsIndex(pinIndex)
  }

  /** Register index 0 is port A of the access layer, anything else port B. */
  function PortOf(registerIndex: int): (port: char)
    ensures port == 'A' || port == 'B'
    ensures port == 'A' <==> registerIndex == 0
  {
    if registerIndex == 0 then 'A' else 'B'
  }

  /** `_config_bus` selects 0x00 for register index 0 and 0x01 otherwise. */
  function ConfigRegister(registerIndex: int): (r: int)
    ensures r == DirectionRegister(PortOf(registerIndex))
  {
    if registerIndex == 0 then 0x00 else 0x01
  }

  /** `_update_bus` selects 0x12 for register index 0 and 0x13 otherwise. */
  function WriteRegister(registerIndex: int): (r: int)
    ensures r == OutputRegister(PortOf(registerIndex))
  {
    if registerIndex == 0 then 0x12 else 0x13
  }

  class Switch {
    const bus: RegisterFile
    const i2cAddress: int
    const registerIndex: int
    const pinIndex: int
    const invertLogic: bool
    var state: bool

    ghost predicate Valid()
      reads this, bus
    {
      bus.Valid() && IsConfig(i2cAddress, registerIndex, pinIndex)
    }

    /** The output bit shows `state` through `invertLogic`. */
    ghost predicate Synced()
      reads this, bus
      requires Valid()
    {
      OutputState(bus.regs, i2cAddress, PortOf(registerIndex), pinIndex) == (state != invertLogic)
    }

    /** `__init__`: configure the pin as an output (always writing), then force it off. */
    constructor (bus: RegisterFile, i2cAddress: int, registerIndex: int, pinIndex: int, invertLogic: bool)
      requires bus.Valid() && IsConfig(i2cAddress, registerIndex, pinIndex)
      modifies bus
      ensures this.bus == bus && this.i2cAddress == i2cAddress && this.registerIndex == registerIndex
      ensures this.pinIndex == pinIndex && this.invertLogic == invertLogic
      ensures Valid() && Synced() && !IsOn()
      ensures ConfigState(bus.regs, i2cAddress, PortOf(registerIndex), pinIndex) == 0
      ensures OutputState(bus.regs, i2cAddress, PortOf(registerIndex), pinIndex) == invertLogic
      ensures bus.regs == WithOutputState(ConfiguredAsOutput(old(bus.regs), i2cAddress, PortOf(registerIndex), pinIndex),
                                          invertLogic, i2cAddress, PortOf(registerIndex), pinIndex)
      ensures |bus.writes| == |old(bus.writes)| + 2
      ensures bus.writes[|old(bus.writes)|].register == ConfigRegister(registerIndex)
      ensures bus.writes[|old(bus.writes)| + 1].register == WriteRegister(registerIndex)
    {
      this.bus := bus;
      this.i2cAddress := i2cAddress;
      this.registerIndex := registerIndex;
      this.pinIndex := pinIndex;
      this.invertLogic := invertLogic;
      new;
      ConfigBus();
      state := false;
      UpdateBus();
    }

    /** `is_on`: the stored state, not a read-back of the pin; while the switch is `Synced` it
        agrees with the pin's level decoded through `invert_logic`. */
    function IsOn(): (on: bool)
      reads this, bus
      ensures Valid() && Synced() ==>
        (on <==> OutputState(bus.regs, i2cAddress, PortOf(registerIndex), pinIndex) != invertLogic)
    {
      state
    }

    method TurnOn()
      requires Valid()
      modifies this, bus
      ensures Valid() && Synced() && IsOn()
      ensures OutputState(bus.regs, i2cAddress, PortOf(registerIndex), pinIndex) == !invertLogic
      ensures bus.regs == WithOutputState(old(bus.regs), !invertLogic, i2cAddress, PortOf(registerIndex), pinIndex)
      ensures |bus.writes| == |old(bus.writes)| + 1
    {
      state := true;
      UpdateBus();
    }

    method TurnOff()
      requires Valid()
      modifies this, bus
      ensures Valid() && Synced() && !IsOn()
      ensures OutputState(bus.regs, i2cAddress, PortOf(registerIndex), pinIndex) == invertLogic
      ensures bus.regs == WithOutputState(old(bus.regs), invertLogic, i2cAddress, PortOf(registerIndex), pinIndex)
      ensures |bus.writes| == |old(bus.writes)| + 1
    {
      state := false;
      UpdateBus();
    }

    method Toggle()
      requires Valid()
      modifies this, bus
      ensures Valid() && Synced() && IsOn() == !old(IsOn())
      ensures bus.regs ==
        WithOutputState(old(bus.regs), old(state) == invertLogic, i2cAddress, PortOf(registerIndex), pinIndex)
      ensures |bus.writes| == |old(bus.writes)| + 1
    {
      state := !state;
      UpdateBus();
    }

    /** `_config_bus`: one read and one write of register 0x00 or 0x01 clearing the pin's bit,
        with the same effect as the access layer's `config_pin_as_output`. */
    method ConfigBus()
      requires Valid()
      modifies bus
      ensures Valid()
      ensures bus.regs == ConfiguredAsOutput(old(bus.regs), i2cAddress, PortOf(registerIndex), pinIndex)
      ensures bus.writes == old(bus.writes) +
        [Write(i2cAddress, ConfigRegister(registerIndex), bus.regs[(i2cAddress, ConfigRegister(registerIndex))])]
    {
      var outputRegister := if registerIndex == 0 then 0x00 else 0x01;
      var dataByte := bus.ReadByteData(i2cAddress, outputRegister);
      dataByte := ClearBit(dataByte, pinIndex);
      bus.WriteByteData(i2cAddress, outputRegister, dataByte);
    }

    /** `_update_bus`: one read and one write of register 0x12 or 0x13 setting the pin's bit
        exactly when `state` differs from `invertLogic`, with the same effect as the access
        layer's `set_pin_output_state`. */
    method UpdateBus()
      requires Valid()
      modifies bus
      ensures Valid() && Synced()
      ensures bus.regs ==
        WithOutputState(old(bus.regs), state != invertLogic, i2cAddress, PortOf(registerIndex), pinIndex)
      ensures bus.writes == old(bus.writes) +
        [Write(i2cAddress, WriteRegister(registerIndex), bus.regs[(i2cAddress, WriteRegister(registerIndex))])]
    {
      var writeRegister := if registerIndex == 0 then 0x12 else 0x13;
      var currentValue := bus.ReadByteData(i2cAddress, writeRegister);
      var desiredValue;
      if (state && !invertLogic) || (!state && invertLogic) {
        desiredValue := SetBit(currentValue, pinIndex);
      } else {
        desiredValue := ClearBit(currentValue, pinIndex);
      }
      bus.WriteByteData(i2cAddress, writeRegister, desiredValue);
    }
  }
}
