/** The register access layer of `mcp23017_gpio.py`: each operation is one read of a register
    byte, or one read-modify-write of a single bit in it, on the MCP23017 at `address`. */
module Gpio {
  import opened Bits
  import opened RegisterBus

  /** MCP23017 register addresses with IOCON.BANK = 0. */
  const IODIRA := 0x00
  const IODIRB := 0x01
  const GPIOA := 0x12
  const GPIOB := 0x13

  /** The ranges the configuration schema admits for a pin's address and index. */
  predicate IsPin(address: int, index: int) {
    IsAddress(address) && IsIndex(index)
  }

  /** Port 'A' selects IODIRA; any other port selects IODIRB. */
  function DirectionRegister(port: char): (r: int)
    ensures r == IODIRA || r == IODIRB
    ensures r == IODIRA <==> port == 'A'
  {
    if port == 'A' then IODIRA else IODIRB
  }

  /** Port 'A' selects GPIOA; any other port selects GPIOB. */
  function OutputRegister(port: char): (r: int)
    ensures r == GPIOA || r == GPIOB
    ensures r == GPIOA <==> port == 'A'
  {
    if port == 'A' then GPIOA else GPIOB
  }

  /** Two pins that name the same bit of the same output register of the same chip. */
  predicate SameOutputBit(a1: int, p1: char, i1: int, a2: int, p2: char, i2: int) {
    a1 == a2 && OutputRegister(p1) == OutputRegister(p2) && i1 == i2
  }

  /** What `get_pin_config_state` returns: the pin's direction bit, 0 for an output. */
  function ConfigState(t: Table, address: int, port: char, index: int): (bit: int)
    requires Total(t) && IsPin(address, index)
  {
    BitOf(t[(address, DirectionRegister(port))], index)
  }

  /** What `get_pin_output_state` returns: whether the pin's output bit is high. */
  function OutputState(t: Table, address: int, port: char, index: int): bool
    requires Total(t) && IsPin(address, index)
  {
    BitOf(t[(address, OutputRegister(port))], index) == 1
  }

  /** The table after `config_pin_as_output(address, port, index)`. */
  function ConfiguredAsOutput(t: Table, address: int, port: char, index: int): (u: Table)
    requires Total(t) && IsPin(address, index)
    ensures Total(u) && u.Keys == t.Keys
    ensures forall k :: k in t && k != (address, DirectionRegister(port)) ==> u[k] == t[k]
    ensures !TestBit(u[(address, DirectionRegister(port))], index)
    ensures forall j :: IsIndex(j) && j != index ==>
      TestBit(u[(address, DirectionRegister(port))], j) == TestBit(t[(address, DirectionRegister(port))], j)
  {
    var key := (address, DirectionRegister(port));
    t[key := ClearBit(t[key], index)]
  }

  /** The table after `set_pin_output_state(state, address, port, index)`. */
  function WithOutputState(t: Table, state: bool, address: int, port: char, index: int): (u: Table)
    requires Total(t) && IsPin(address, index)
    ensures Total(u) && u.Keys == t.Keys
    ensures forall k :: k in t && k != (address, OutputRegister(port)) ==> u[k] == t[k]
    ensures TestBit(u[(address, OutputRegister(port))], index) == state
    ensures forall j :: IsIndex(j) && j != index ==>
      TestBit(u[(address, OutputRegister(port))], j) == TestBit(t[(address, OutputRegister(port))], j)
  {
    var key := (address, OutputRegister(port));
    t[key := WriteBit(t[key], index, state)]
  }

  /** `config_pin_as_output`: clears the pin's bit in IODIRA or IODIRB with one read and one write. */
  method ConfigPinAsOutput(bus: RegisterFile, address: int, port: char, index: int)
    requires bus.Valid() && IsPin(address, index)
    modifies bus
    ensures bus.Valid()
    ensures bus.regs == ConfiguredAsOutput(old(bus.regs), address, port, index)
    ensures bus.writes == old(bus.writes) +
      [Write(address, DirectionRegister(port), bus.regs[(address, DirectionRegister(port))])]
  {
    var register := DirectionRegister(port);
    var data := bus.ReadByteData(address, register);
    data := ClearBit(data, index);
    bus.WriteByteData(address, register, data);
  }

  /** `set_pin_output_state`: sets (`state`) or clears the pin's bit in GPIOA or GPIOB with one
      read and one write. */
  method SetPinOutputState(bus: RegisterFile, state: bool, address: int, port: char, index: int)
    requires bus.Valid() && IsPin(address, index)
    modifies bus
    ensures bus.Valid()
    ensures bus.regs == WithOutputState(old(bus.regs), state, address, port, index)
    ensures bus.writes == old(bus.writes) +
      [Write(address, OutputRegister(port), bus.regs[(address, OutputRegister(port))])]
  {
    var register := OutputRegister(port);
    var data := bus.ReadByteData(address, register);
    if state {
      data := SetBit(data, index);
    } else {
      data := ClearBit(data, index);
    }
    bus.WriteByteData(address, register, data);
  }

  /** `get_pin_config_state`: one read of IODIRA or IODIRB; the bus is left untouched. */
  method GetPinConfigState(bus: RegisterFile, address: int, port: char, index: int) returns (bit: int)
    requires bus.Valid() && IsPin(address, index)
    ensures bit == 0 || bit == 1
    ensures bit == 0 <==> !TestBit(bus.regs[(address, DirectionRegister(port))], index)
  {
    var data := bus.ReadByteData(address, DirectionRegister(port));
    bit := BitOf(data, index);
  }

  /** `get_pin_output_state`: one read of GPIOA or GPIOB; the bus is left untouched. */
  method GetPinOutputState(bus: RegisterFile, address: int, port: char, index: int) returns (high: bool)
    requires bus.Valid() && IsPin(address, index)
    ensures high == TestBit(bus.regs[(address, OutputRegister(port))], index)
  {
    var data := bus.ReadByteData(address, OutputRegister(port));
    high := BitOf(data, index) == 1;
  }

  /** After `config_pin_as_output`, `get_pin_config_state` reads 0 (the pin is an output). */
  lemma ConfigThenConfigState(t: Table, address: int, port: char, index: int)
    requires Total(t) && IsPin(address, index)
    ensures ConfigState(ConfiguredAsOutput(t, address, port, index), address, port, index) == 0
  {
  }

  /** `config_pin_as_output` twice is `config_pin_as_output` once. */
  lemma ConfigIdempotent(t: Table, address: int, port: char, index: int)
    requires Total(t) && IsPin(address, index)
    ensures ConfiguredAsOutput(ConfiguredAsOutput(t, address, port, index), address, port, index)
         == ConfiguredAsOutput(t, address, port, index)
  {
    var key := (address, DirectionRegister(port));
    WriteBitLastWins(t[key], index, false, false);
  }

  /** On a pin that is already an output, `config_pin_as_output` changes nothing. */
  lemma ConfigOfOutputPinChangesNothing(t: Table, address: int, port: char, index: int)
    requires Total(t) && IsPin(address, index)
    requires ConfigState(t, address, port, index) == 0
    ensures ConfiguredAsOutput(t, address, port, index) == t
  {
    var key := (address, DirectionRegister(port));
    WriteBitUnchanged(t[key], index, false);
  }

  /** `config_pin_as_output` leaves every pin's output state and every other pin's direction as it was. */
  lemma ConfigLeavesOtherPins(t: Table, address: int, port: char, index: int,
                              a2: int, p2: char, i2: int)
    requires Total(t) && IsPin(address, index) && IsPin(a2, i2)
    ensures OutputState(ConfiguredAsOutput(t, address, port, index), a2, p2, i2) == OutputState(t, a2, p2, i2)
    ensures (a2 != address || DirectionRegister(p2) != DirectionRegister(port) || i2 != index) ==>
      ConfigState(ConfiguredAsOutput(t, address, port, index), a2, p2, i2) == ConfigState(t, a2, p2, i2)
  {
  }

  /** `set_pin_output_state(s, ...)` followed by `get_pin_output_state(...)` reads `s` back. */
  lemma SetThenGet(t: Table, state: bool, address: int, port: char, index: int)
    requires Total(t) && IsPin(address, index)
    ensures OutputState(WithOutputState(t, state, address, port, index), address, port, index) == state
  {
  }

  /** Of two `set_pin_output_state` calls on the same output bit only the second one matters;
      with equal states this is idempotence. */
  lemma SetLastWins(t: Table, v: bool, a1: int, p1: char, i1: int, w: bool, a2: int, p2: char, i2: int)
    requires Total(t) && IsPin(a1, i1) && IsPin(a2, i2)
    requires SameOutputBit(a1, p1, i1, a2, p2, i2)
    ensures WithOutputState(WithOutputState(t, v, a1, p1, i1), w, a2, p2, i2) == WithOutputState(t, w, a2, p2, i2)
  {
    var key := (a1, OutputRegister(p1));
    WriteBitLastWins(t[key], i1, v, w);
  }

  /** Writing the state a pin already has changes nothing. */
  lemma SetCurrentStateChangesNothing(t: Table, state: bool, address: int, port: char, index: int)
    requires Total(t) && IsPin(address, index)
    requires OutputState(t, address, port, index) == state
    ensures WithOutputState(t, state, address, port, index) == t
  {
    var key := (address, OutputRegister(port));
    WriteBitUnchanged(t[key], index, state);
  }

  /** `set_pin_output_state` leaves every other output bit, and every direction bit, as it was. */
  lemma SetLeavesOtherPins(t: Table, state: bool, address: int, port: char, index: int,
                           a2: int, p2: char, i2: int)
    requires Total(t) && IsPin(address, index) && IsPin(a2, i2)
    ensures !SameOutputBit(address, port, index, a2, p2, i2) ==>
      OutputState(WithOutputState(t, state, address, port, index), a2, p2, i2) == OutputState(t, a2, p2, i2)
    ensures ConfigState(WithOutputState(t, state, address, port, index), a2, p2, i2) == ConfigState(t, a2, p2, i2)
  {
  }

  /** `set_pin_output_state` calls on two different output bits may be issued in either order. */
  lemma SetCommutes(t: Table, v: bool, a1: int, p1: char, i1: int, w: bool, a2: int, p2: char, i2: int)
    requires Total(t) && IsPin(a1, i1) && IsPin(a2, i2)
    requires !SameOutputBit(a1, p1, i1, a2, p2, i2)
    ensures WithOutputState(WithOutputState(t, v, a1, p1, i1), w, a2, p2, i2)
         == WithOutputState(WithOutputState(t, w, a2, p2, i2), v, a1, p1, i1)
  {
    var k1, k2 := (a1, OutputRegister(p1)), (a2, OutputRegister(p2));
    if k1 == k2 {
      WriteBitCommutes(t[k1], i1, v, i2, w);
    }
  }
}
