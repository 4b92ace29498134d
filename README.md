# MCP23017 GPIO switch and cover — a Dafny model

This project models the core of the `mcp23017_gpio` Home Assistant integration: driving single
pins of an MCP23017 16-bit I/O expander over I2C, and the switch and cover (motorised blind)
devices built on them.

- **Register access layer** (`mcp23017_gpio.py`, module `Gpio`). Each operation is one
  read-modify-write, or one read, of a single bit of one register byte at a device address.
  The registers are IODIRA/IODIRB (0x00/0x01, direction; 0 means output) and GPIOA/GPIOB
  (0x12/0x13, output level), as in the MCP23017 register map with IOCON.BANK = 0. Port `'A'`
  selects the A register and every other port the B register. The table-level functions
  `ConfiguredAsOutput`, `WithOutputState`, `ConfigState` and `OutputState` specify the
  operations. The methods `ConfigPinAsOutput`, `SetPinOutputState`, `GetPinConfigState` and
  `GetPinOutputState` perform them on the bus.
- **The bus** (module `RegisterBus`). It is a class `RegisterFile` holding a total table from
  (address, register) to a byte. A read returns the last byte written there. It also keeps a
  ghost log of every `write_byte_data`, so the model can say how many writes happen and where.
- **Bit arithmetic** (module `Bits`). A register byte is a `bv8`. `SetBitValue` and
  `ClearBitValue` show that Python's integer `data | (1 << index)` and `data & ~(1 << index)`
  give the same values and stay within 0..255.
- **Switch, access-layer variant** (`switch/mcp23017_gpio.py`, module `GpioSwitch`). It holds a
  logical `state`. Construction configures the pin as an output only when its direction bit is
  not already 0, then writes "off". `TurnOn`, `TurnOff` and `Toggle` set the field and write
  the level `state XOR invert_logic`. The invariant `Synced()` says that the output bit equals
  `state XOR invert_logic`.
- **Switch, register-index variant** (`switch_mcp23017_gpio.py`, module `RegisterSwitch`). It
  does the same register arithmetic itself, choosing the register pair by a 0/1
  `register_index`. Its `_config_bus` always writes. Its methods are proved to have exactly
  the effect of the access layer's functions for port `PortOf(register_index)`.
- **Cover, access-layer variant** (`cover/mcp23017_gpio.py`, module `GpioCover`). It drives an
  up pin and a down pin directly, with stop-before-start. `Steps` lists the table after each bus
  write of a command. Each command method is proved to append exactly `StepWrites` to the bus's
  write log, and `ReplayStepWrites` proves that replaying those writes gives back `Steps`. `TraceNeverBothActive` proves that no write of any command sequence shows
  both pins active, unless the two pins are literally the same output bit read the same way
  (`OnePin`; `OnePinOpenBothActive` shows that case really does fail).
- **Cover, two-switch variant** (`cover_mcp23017_gpio.py`, module `SwitchCover`). It composes
  two `RegisterSwitch.Switch` objects on the same bus. A ghost `history` records the relay
  states after every switch call, and each command is proved to append exactly its `Steps`.
  `TraceNeverBothOn` proves that no switch call of any command sequence leaves both switches on.

The two cover variants report their status from different places, and the model follows each
one as written:

- In `cover/mcp23017_gpio.py`, `is_opening` decodes the DOWN pin and `is_closing` the UP pin.
  So after `open_cover` (which drives the up pin) the model proves `IsClosing()` true, and
  `IsOpening()` false unless up and down are one pin.
- In `cover_mcp23017_gpio.py`, `is_opening` is the up switch's stored state and `is_closing`
  the down switch's.

The variants also differ in how they configure pins and stop the motor:

- The access-layer switch skips the direction write when the pin's direction bit is already 0.
  The register-index switch always writes it.
- `cover/mcp23017_gpio.py` stops by releasing the down pin, then the up pin.
  `cover_mcp23017_gpio.py` turns the up switch off, then the down switch.

Preconditions carry the configuration schema's ranges: address 0..0xff, index 0..7, port
`'A'`/`'B'`, register index 0..1. The schema validates these before any entity exists. The
access-layer functions themselves accept any port character, as the code does.

## Model

| member | source | states |
|---|---|---|
| `Bits.BitOf` | mcp23017_gpio.py:76 | `data >> index & 1` is 0 or 1 |
| `Bits.BitOfIsShift` | mcp23017_gpio.py:76 | the mask test used for bit `index` equals `data >> index & 1` |
| `Bits.SetBit` | mcp23017_gpio.py:59 | `data OR (1 << index)` has bit `index` set and the other seven bits unchanged |
| `Bits.ClearBit` | mcp23017_gpio.py:43 | `data & ~(1 << index)` has bit `index` clear and the other seven bits unchanged |
| `Bits.WriteBit` | mcp23017_gpio.py:58-61 | the set-or-clear branch leaves bit `index` equal to the requested state and the other bits unchanged |
| `Bits.SetBitValue` | mcp23017_gpio.py:59 | on integers, setting the bit adds 2^index exactly when it was clear; the result stays below 256 |
| `Bits.ClearBitValue` | mcp23017_gpio.py:43 | on integers, clearing the bit subtracts 2^index exactly when it was set; the result stays non-negative |
| `RegisterBus.RegisterFile.ReadByteData` | mcp23017_gpio.py:56 | a read returns the byte last written to that register |
| `RegisterBus.RegisterFile.WriteByteData` | mcp23017_gpio.py:63 | a write replaces exactly one byte and is logged |
| `Gpio.DirectionRegister` | mcp23017_gpio.py:37 | the direction register is 0x00 exactly for port 'A', else 0x01 |
| `Gpio.OutputRegister` | mcp23017_gpio.py:53 | the output register is 0x12 exactly for port 'A', else 0x13 |
| `Gpio.ConfiguredAsOutput` | mcp23017_gpio.py:37-45 | only bit `index` of the direction register at `address` changes, and it becomes 0; all other bits, registers and addresses keep their bytes |
| `Gpio.WithOutputState` | mcp23017_gpio.py:53-63 | only bit `index` of the output register at `address` changes, and it becomes `state`; all else keeps its value |
| `Gpio.ConfigPinAsOutput` | mcp23017_gpio.py:31-45 | exactly one logged write, to the direction register, with the effect `ConfiguredAsOutput` |
| `Gpio.SetPinOutputState` | mcp23017_gpio.py:47-63 | exactly one logged write, to the output register, with the effect `WithOutputState` |
| `Gpio.GetPinConfigState` | mcp23017_gpio.py:65-76 | returns 0 or 1, 0 exactly when the pin's direction bit is clear; changes no register |
| `Gpio.GetPinOutputState` | mcp23017_gpio.py:78-89 | returns whether the pin's output bit is set; changes no register |
| `Gpio.ConfigThenConfigState` | mcp23017_gpio.py:43-76 | after `config_pin_as_output`, `get_pin_config_state` returns 0 |
| `Gpio.ConfigIdempotent` | mcp23017_gpio.py:43-45 | configuring a pin twice equals configuring it once |
| `Gpio.ConfigOfOutputPinChangesNothing` | mcp23017_gpio.py:43-45 | configuring a pin whose direction bit is already 0 leaves the table unchanged |
| `Gpio.ConfigLeavesOtherPins` | mcp23017_gpio.py:43-45 | configuring leaves every output state and every other pin's direction unchanged |
| `Gpio.SetThenGet` | mcp23017_gpio.py:53-89 | `set_pin_output_state(s, ...)` then `get_pin_output_state(...)` returns `s` |
| `Gpio.SetLastWins` | mcp23017_gpio.py:56-63 | of two writes to the same output bit only the second matters (idempotence when equal) |
| `Gpio.SetCurrentStateChangesNothing` | mcp23017_gpio.py:56-63 | writing the state a pin already has leaves the table unchanged |
| `Gpio.SetLeavesOtherPins` | mcp23017_gpio.py:55-63 | a write leaves every other output bit and every direction bit unchanged |
| `Gpio.SetCommutes` | mcp23017_gpio.py:55-63 | writes to two different output bits commute, even within one byte |
| `GpioSwitch.PhysicalLevel` | switch/mcp23017_gpio.py:131-134 | the level written is high exactly when `state` differs from `invert_logic` |
| `GpioSwitch.Switch.constructor` | switch/mcp23017_gpio.py:71-87 | ends off, `Synced`, direction bit 0 and output bit equal to `invert_logic` for any prior table; writes the direction register only when its bit was not 0 |
| `GpioSwitch.Switch.IsOn` | switch/mcp23017_gpio.py:97-102 | `is_on` is the stored state; while `Synced`, it is on exactly when the pin's output bit differs from `invert_logic` |
| `GpioSwitch.Switch.TurnOn` | switch/mcp23017_gpio.py:104-106 | `is_on` (the stored field) becomes true and the output bit `not invert_logic`; nothing else changes |
| `GpioSwitch.Switch.TurnOff` | switch/mcp23017_gpio.py:108-110 | `is_on` becomes false and the output bit `invert_logic`; nothing else changes |
| `GpioSwitch.Switch.Toggle` | switch/mcp23017_gpio.py:112-114 | `is_on` flips and the output bit follows, keeping `Synced` |
| `GpioSwitch.Switch.ConfigBus` | switch/mcp23017_gpio.py:116-125 | the table ends as `ConfiguredAsOutput`; no bus write when the direction bit was already 0, else exactly one |
| `GpioSwitch.Switch.UpdateBus` | switch/mcp23017_gpio.py:127-136 | writes `state XOR invert_logic` to the pin, establishing `Synced` |
| `GpioSwitch.ToggleTwice` | switch/mcp23017_gpio.py:112-114 | from a `Synced` switch, two toggles restore both `is_on` and the register table |
| `GpioSwitch.TogglesCancel` | switch/mcp23017_gpio.py:112-114 | writing the opposite level and then the current one restores the table |
| `RegisterSwitch.ConfigRegister` | switch_mcp23017_gpio.py:112 | register index 0 selects the access layer's port-A direction register, else port B |
| `RegisterSwitch.WriteRegister` | switch_mcp23017_gpio.py:130 | register index 0 selects the access layer's port-A output register, else port B |
| `RegisterSwitch.Switch.constructor` | switch_mcp23017_gpio.py:61-77 | ends off, `Synced`, direction bit 0 and output bit `invert_logic`; always two writes, direction then output |
| `RegisterSwitch.Switch.IsOn` | switch_mcp23017_gpio.py:87-92 | `is_on` is the stored state; while `Synced`, it is on exactly when the pin's output bit differs from `invert_logic` |
| `RegisterSwitch.Switch.TurnOn` | switch_mcp23017_gpio.py:94-96 | `is_on` becomes true and the output bit `not invert_logic` |
| `RegisterSwitch.Switch.TurnOff` | switch_mcp23017_gpio.py:98-100 | `is_on` becomes false and the output bit `invert_logic` |
| `RegisterSwitch.Switch.Toggle` | switch_mcp23017_gpio.py:102-104 | `is_on` flips and the output bit follows, keeping `Synced` |
| `RegisterSwitch.Switch.ConfigBus` | switch_mcp23017_gpio.py:106-121 | always one write, clearing bit `pin_index` of 0x00/0x01 and keeping the other bits: the access layer's `ConfiguredAsOutput` |
| `RegisterSwitch.Switch.UpdateBus` | switch_mcp23017_gpio.py:124-140 | one write to 0x12/0x13 setting the bit iff `state XOR invert_logic`, other bits kept: the access layer's `WithOutputState` |
| `GpioCover.DetermineState` | cover/mcp23017_gpio.py:231-235 | `_determine_state(pin, inv)` is `pin XOR inv` |
| `GpioCover.StopReleasesBoth` | cover/mcp23017_gpio.py:187-205 | after `stop_cover` the up pin decodes inactive, and the down pin too unless it shares the bit with opposite inversion |
| `GpioCover.OpenDrivesUpOnly` | cover/mcp23017_gpio.py:153-165 | after `open_cover` the up pin decodes active, the down pin inactive unless the two are one pin |
| `GpioCover.CloseDrivesDownOnly` | cover/mcp23017_gpio.py:167-179 | after `close_cover` the down pin decodes active, the up pin inactive unless the two are one pin |
| `GpioCover.InvertedDownClose` | cover/mcp23017_gpio.py:167-179 | with an inverted down pin, `close_cover` leaves the down pin's bit low yet decoding active |
| `GpioCover.StopIdempotent` | cover/mcp23017_gpio.py:187-205 | a second `stop_cover` leaves the table unchanged |
| `GpioCover.StopWritesRelease` | cover/mcp23017_gpio.py:187-205 | the first stop write leaves the down pin inactive and the second leaves the up pin inactive, from any table |
| `GpioCover.ReplayStepWrites` | cover/mcp23017_gpio.py:153-205 | replaying the writes a command logs, from the table it started on, yields exactly the tables of `Steps` |
| `GpioCover.StepsNeverBothActive` | cover/mcp23017_gpio.py:153-205 | unless up and down are one pin (`OnePin`), no single bus write of open, close or stop leaves both pins active, from any table |
| `GpioCover.TraceNeverBothActive` | cover/mcp23017_gpio.py:153-205 | unless up and down are one pin (`OnePin`), no bus write of any sequence of commands leaves both pins active |
| `GpioCover.RunNeverBothActive` | cover/mcp23017_gpio.py:153-205 | unless up and down are one pin (`OnePin`), starting without both active, no sequence of commands ends with both active |
| `GpioCover.OnePinOpenBothActive` | cover/mcp23017_gpio.py:153-165 | if up and down are one pin, `open_cover` leaves both active |
| `GpioCover.Cover.constructor` | cover/mcp23017_gpio.py:78-86 | stores the pin blocks; it has no write access to the bus |
| `GpioCover.Cover.CurrentCoverPosition` | cover/mcp23017_gpio.py:96-103 | always unknown (None) |
| `GpioCover.Cover.CurrentCoverTiltPosition` | cover/mcp23017_gpio.py:105-112 | always unknown (None) |
| `GpioCover.Cover.IsClosed` | cover/mcp23017_gpio.py:146-151 | always unknown (None) |
| `GpioCover.Cover.IsOpening` | cover/mcp23017_gpio.py:114-128 | `is_opening` is true exactly when the DOWN pin's output bit differs from the down pin's `invert_logic` |
| `GpioCover.Cover.IsClosing` | cover/mcp23017_gpio.py:130-144 | `is_closing` is true exactly when the UP pin's output bit differs from the up pin's `invert_logic` |
| `GpioCover.Cover.OpenCover` | cover/mcp23017_gpio.py:114-165 | stop then drive up; the writes logged are exactly `StepWrites(Open)` (down, up, up) and the table ends as `Apply(Open)`; afterwards `is_closing` (up pin) is true and `is_opening` (down pin) is false unless the two are one pin |
| `GpioCover.Cover.CloseCover` | cover/mcp23017_gpio.py:114-179 | stop then drive down; the writes logged are exactly `StepWrites(Close)` (down, up, down) and the table ends as `Apply(Close)`; afterwards `is_opening` (down pin) is true and `is_closing` false unless the two are one pin |
| `GpioCover.Cover.StopCover` | cover/mcp23017_gpio.py:187-205 | the writes logged are exactly `StepWrites(Stop)`, down then up, and the table ends as `Apply(Stop)`; afterwards `is_closing` is false, and so is `is_opening` unless the pins share a bit with opposite inversion |
| `GpioCover.Cover.StopCoverTilt` | cover/mcp23017_gpio.py:225-229 | the same logged writes, table and status as `stop_cover` |
| `GpioCover.Cover.SetCoverPosition` | cover/mcp23017_gpio.py:181-185 | changes nothing |
| `GpioCover.Cover.OpenCoverTilt` | cover/mcp23017_gpio.py:207-211 | changes nothing |
| `GpioCover.Cover.CloseCoverTilt` | cover/mcp23017_gpio.py:213-217 | changes nothing |
| `GpioCover.Cover.SetCoverTiltPosition` | cover/mcp23017_gpio.py:219-223 | changes nothing |
| `SwitchCover.CommandOutcomes` | cover_mcp23017_gpio.py:85-110 | on the stored states: open ends with only up on, close with only down on, stop with both off; stop twice equals stop once |
| `SwitchCover.TraceNeverBothOn` | cover_mcp23017_gpio.py:85-110 | from any states, no switch call of any command sequence leaves both switches on |
| `SwitchCover.RunNeverBothOn` | cover_mcp23017_gpio.py:85-110 | from both off (or any state not both on), no command sequence ends with both on |
| `SwitchCover.StopTwiceChangesNothing` | cover_mcp23017_gpio.py:105-110 | on the register table, a second `stop_cover` rewrites the levels the first left, so the table is unchanged, whether or not the switches share a pin |
| `SwitchCover.Cover.constructor` | cover_mcp23017_gpio.py:42-44 | stores the two switches, which must be distinct and on one bus, establishing `Valid`, with an empty history |
| `SwitchCover.Cover.IsClosed` | cover_mcp23017_gpio.py:78-83 | always fails with NotImplementedError |
| `SwitchCover.Cover.IsOpening` | cover_mcp23017_gpio.py:64-69 | `is_opening` is the UP switch's state: while that switch is `Synced`, whether the up pin's bit differs from its `invert_logic` |
| `SwitchCover.Cover.IsClosing` | cover_mcp23017_gpio.py:71-76 | `is_closing` is the DOWN switch's state: while that switch is `Synced`, whether the down pin's bit differs from its `invert_logic` |
| `SwitchCover.Cover.StopCover` | cover_mcp23017_gpio.py:105-110 | up off then down off: the history grows by exactly `Steps(Stop)`; `is_opening` (up) and `is_closing` (down) both false; the table ends as `StopTable`, two writes; each switch `Synced` when the pins differ |
| `SwitchCover.Cover.OpenCover` | cover_mcp23017_gpio.py:64-90 | stop then up on: the history grows by exactly `Steps(Open)`; `is_opening` true, `is_closing` false; the table is `StopTable` with the up pin driven, three writes |
| `SwitchCover.Cover.CloseCover` | cover_mcp23017_gpio.py:71-97 | stop then down on: the history grows by exactly `Steps(Close)`; `is_closing` true, `is_opening` false; the table is `StopTable` with the down pin driven, three writes |
| `SwitchCover.Cover.StopCoverTilt` | cover_mcp23017_gpio.py:130-134 | the same history, status, table, write count and `Synced` promise as `stop_cover` |
| `SwitchCover.Cover.SetCoverPosition` | cover_mcp23017_gpio.py:99-103 | changes nothing |
| `SwitchCover.Cover.OpenCoverTilt` | cover_mcp23017_gpio.py:112-116 | changes nothing |
| `SwitchCover.Cover.CloseCoverTilt` | cover_mcp23017_gpio.py:118-122 | changes nothing |
| `SwitchCover.Cover.SetCoverTiltPosition` | cover_mcp23017_gpio.py:124-128 | changes nothing |

## Left out

- Bus I/O through `SMBusWrapper(1)` and smbus2. The bus is an in-memory register table passed
  to each entity. A read returns the last byte written, so the chip's separate GPIO pin levels
  and output latch (OLAT) are not distinguished.
- Bus errors raised by `read_byte_data` and `write_byte_data`. They are not caught anywhere in
  the code, and they come from a foreign library.
- The order and number of `read_byte_data` calls. The bus logs writes only, so contracts count
  writes; each read appears only through the value it returns.
- The `with`-scoped bus access, locking, and interleaving between entities. Every operation is
  modelled as running to completion.
- `setup`, `setup_platform`, `add_devices`, the `PIN_SCHEMA`/`PLATFORM_SCHEMA` validation and
  the Home Assistant base classes. Only the schema ranges are kept, as preconditions.
- The `name` properties and the default names built with `hex()` and string concatenation.
  They are cosmetic.
- Logging, the unused `time` import, `DEPENDENCIES` and `REQUIREMENTS`.
- `current_cover_position` and `current_cover_tilt_position` of `cover_mcp23017_gpio.py`, and
  its `setup_platform`. Those lines (21-35, 53, 62) are not valid Python.
- `**kwargs` of the no-op cover methods. They become one integer parameter or none, since the
  methods ignore them.
- SwitchCover.Cover.StopCover: it promises each switch's `Synced` only when the two pins are
  different output bits. Two switches on one bit overwrite each other's level.
