/** The I2C bus as the code sees it through `read_byte_data` and `write_byte_data`: a table
    from (device address, register number) to the byte last written there. */
module RegisterBus {
  import opened Bits

  predicate IsAddress(a: int) {
    0 <= a <= 0xff
  }

  predicate IsRegister(r: int) {
    0 <= r <= 0xff
  }

  type Table = map<(int, int), Byte>

  /** Every register of every device address holds a byte. */
  ghost predicate Total(t: Table) {
    forall a: int, r: int :: IsAddress(a) && IsRegister(r) ==> (a, r) in t
  }

  /** One `write_byte_data` call, as the bus saw it. */
  datatype Write = Write(address: int, register: int, value: Byte)

  /** The tables a reader of the bus sees after each write of `ws`, starting from `t`: each write
      replaces its one byte. */
  function Replay(t: Table, ws: seq<Write>): (r: seq<Table>)
    ensures |r| == |ws|
    decreases |ws|
  {
    if ws == [] then []
    else
      var u := t[(ws[0].address, ws[0].register) := ws[0].value];
      [u] + Replay(u, ws[1..])
  }

  class RegisterFile {
    var regs: Table
    /** Every write issued on the bus, oldest first. */
    ghost var writes: seq<Write>

    ghost predicate Valid()
      reads this
    {
      Total(regs)
    }

    constructor (contents: Table)
      requires Total(contents)
      ensures Valid() && regs == contents && writes == []
    {
      regs := contents;
      writes := [];
    }

    /** `read_byte_data`: the byte last written to that register. */
    method ReadByteData(address: int, register: int) returns (data: Byte)
      requires Valid() && IsAddress(address) && IsRegister(register)
      ensures data == regs[(address, register)]
    {
      data := regs[(address, register)];
    }

    /** `write_byte_data`: replaces that one byte and nothing else. */
    method WriteByteData(address: int, register: int, data: Byte)
      requires Valid() && IsAddress(address) && IsRegister(register)
      modifies this
      ensures Valid()
      ensures regs == old(regs)[(address, register) := data]
      ensures writes == old(writes) + [Write(address, register, data)]
    {
      regs := regs[(address, register) := data];
      writes := writes + [Write(address, register, data)];
    }
  }
}
