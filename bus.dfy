/** The two-wire bus as the driver sees it, reduced to one device: its
    register file of 0x3A bytes, read and written a byte at a time or read
    as a contiguous block.  A ghost transcript records every transfer in
    order, so that the driver's operations can be specified by the traffic
    they cause and not only by the state they leave. */
module Bus {
  import opened Registers

  /** One bus transfer. */
  datatype BusOp =
    | ByteRead(reg: nat)
    | ByteWrite(reg: nat, value: bv8)
    | BlockRead(start: nat, count: nat)

  class Transport {
    /** The device's registers, indexed by address. */
    const regs: array<bv8>
    /** Every transfer so far, oldest first. */
    ghost var trace: seq<BusOp>

    ghost predicate Valid()
    {
      regs.Length == RegisterCount
    }

    constructor (device: array<bv8>)
      requires device.Length == RegisterCount
      ensures Valid() && regs == device && trace == []
    {
      regs := device;
      trace := [];
    }

    /** Reads register `reg`. */
    method ReadByte(reg: nat) returns (b: bv8)
      requires Valid() && reg < RegisterCount
      modifies this`trace
      ensures b == regs[reg]
      ensures trace == old(trace) + [ByteRead(reg)]
    {
      b := regs[reg];
      trace := trace + [ByteRead(reg)];
    }

    /** Writes `b` to register `reg`; no other register changes. */
    method WriteByte(reg: nat, b: bv8)
      requires Valid() && reg < RegisterCount
      modifies regs, this`trace
      ensures regs[..] == old(regs[..])[reg := b]
      ensures trace == old(trace) + [ByteWrite(reg, b)]
    {
      regs[reg] := b;
      trace := trace + [ByteWrite(reg, b)];
    }

    /** Reads `count` consecutive registers from `start` on. */
    method ReadBlock(start: nat, count: nat) returns (buf: seq<bv8>)
      requires Valid() && start + count <= RegisterCount
      modifies this`trace
      ensures buf == regs[start..start + count]
      ensures trace == old(trace) + [BlockRead(start, count)]
    {
      buf := regs[start..start + count];
      trace := trace + [BlockRead(start, count)];
    }
  }
}
