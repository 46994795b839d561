/**
  One 8255 digital-I/O subdevice at run time: the driver's private record
  (`status`, the last value written to the output latches, and `io_bits`,
  the direction mask) together with the part of the chip the driver talks
  to through its port callback: three 8-bit data ports, the control
  register and a log of every byte written, so that "no write was issued"
  can be stated.
*/
module Chip8255 {
  import opened Errno
  import opened Registers

  // Requests a configuration instruction carries in data[0].
  const ConfigInput: bv32 := 0
  const ConfigOutput: bv32 := 1
  const ConfigQuery: bv32 := 28
  // Directions a query reports in data[1].
  const DirectionInput: bv32 := 0
  const DirectionOutput: bv32 := 1

  /** One byte written by the port callback, at an offset from the base address. */
  datatype PortWrite = PortWrite(offset: nat, value: bv8)

  /** The bits of a 24-bit value that travel through data port `k`. */
  function ByteMask(k: nat): bv32
    requires k < 3
  {
    if k == 0 then 0x00_00ff else if k == 1 then 0x00_ff00 else 0xff_0000
  }

  /** Byte `k` (0 is the least significant) of `x`. */
  function ByteOf(x: bv32, k: nat): bv8
    requires k < 4
  {
    var shifted := if k == 0 then x else if k == 1 then x >> 8 else if k == 2 then x >> 16 else x >> 24;
    (shifted & 0xff) as bv8
  }

  /** Byte `b` put back at the place of byte `k` in a word. */
  function Placed(b: bv8, k: nat): bv32
    requires k < 3
  {
    if k == 0 then b as bv32 else if k == 1 then (b as bv32) << 8 else (b as bv32) << 16
  }

  /**
    Data port `k` carries exactly the bits of a word that lie under
    `ByteMask(k)`: its byte, put back in place, is the word masked by it.
  */
  lemma PortCarriesMask(x: bv32, k: nat)
    requires k < 3
    ensures Placed(ByteOf(x, k), k) == x & ByteMask(k)
  {
    if k == 0 {
      PortCarriesMask0(x, k);
    } else if k == 1 {
      PortCarriesMask1(x, k);
    } else {
      PortCarriesMask2(x, k);
    }
  }

  // The cases below take `k` pinned by a requires rather than a literal, so that
  // the solver handles one fixed shift per case and the dispatch above matches them.
  lemma PortCarriesMask0(x: bv32, k: nat)
    requires k == 0
    ensures Placed(ByteOf(x, k), k) == x & ByteMask(k)
  {
    assert ByteOf(x, k) == (x & 0xff) as bv8;
    assert ((x & 0xff) as bv8) as bv32 == x & 0x00_00ff;
  }

  lemma PortCarriesMask1(x: bv32, k: nat)
    requires k == 1
    ensures Placed(ByteOf(x, k), k) == x & ByteMask(k)
  {
    assert ByteOf(x, k) == ((x >> 8) & 0xff) as bv8;
    assert ((((x >> 8) & 0xff) as bv8) as bv32) << 8 == x & 0x00_ff00;
  }

  lemma PortCarriesMask2(x: bv32, k: nat)
    requires k == 2
    ensures Placed(ByteOf(x, k), k) == x & ByteMask(k)
  {
    assert ByteOf(x, k) == ((x >> 16) & 0xff) as bv8;
    assert ((((x >> 16) & 0xff) as bv8) as bv32) << 16 == x & 0xff_0000;
  }

  /** Whether a write mask has a bit in data port `k`. */
  predicate Touches(mask: bv32, k: nat)
    requires k < 3
  {
    mask & ByteMask(k) != 0
  }

  /**
    The new output state of a masked write: the bits under `mask` take
    their value from `value`, every other bit keeps its value in `prev`.
  */
  function Merge(prev: bv32, mask: bv32, value: bv32): bv32
  {
    (prev & !mask) | (mask & value)
  }

  /** The bits under the mask come from `value`; the others keep their value in `prev`. */
  lemma MergeMeaning(prev: bv32, mask: bv32, value: bv32)
    ensures Merge(prev, mask, value) & mask == value & mask
    ensures Merge(prev, mask, value) & !mask == prev & !mask
  {
  }

  /** An empty mask changes nothing. */
  lemma MergeNothing(prev: bv32, value: bv32)
    ensures Merge(prev, 0, value) == prev
  {
    assert (prev & !0) | (0 & value) == prev;
  }

  /** Merging the same bits a second time changes nothing. */
  lemma MergeIdempotent(prev: bv32, mask: bv32, value: bv32)
    ensures Merge(Merge(prev, mask, value), mask, value) == Merge(prev, mask, value)
  {
  }

  /**
    A port the mask does not touch already holds its byte of the new state,
    which is why a masked write can leave it unwritten.
  */
  lemma UntouchedPortKeepsByte(prev: bv32, mask: bv32, value: bv32, k: nat)
    requires k < 3 && !Touches(mask, k)
    ensures ByteOf(Merge(prev, mask, value), k) == ByteOf(prev, k)
  {
    MergeOutsideMask(prev, mask, value, ByteMask(k));
    SameCarriedSameByte(Merge(prev, mask, value), prev, k);
  }

  /** Two words that agree on the bits a port carries give that port the same byte. */
  lemma SameCarriedSameByte(x: bv32, y: bv32, k: nat)
    requires k < 3 && x & ByteMask(k) == y & ByteMask(k)
    ensures ByteOf(x, k) == ByteOf(y, k)
  {
    PortCarriesMask(x, k);
    PortCarriesMask(y, k);
    PlacedInjective(ByteOf(x, k), ByteOf(y, k), k);
  }

  /** Outside the mask, a merge keeps the old bits. */
  lemma MergeOutsideMask(prev: bv32, mask: bv32, value: bv32, m: bv32)
    requires mask & m == 0
    ensures Merge(prev, mask, value) & m == prev & m
  {
  }

  /** Distinct bytes are placed differently. */
  lemma PlacedInjective(b: bv8, c: bv8, k: nat)
    requires k < 3 && Placed(b, k) == Placed(c, k)
    ensures b == c
  {
  }

  /** The write a masked write issues to data port `k` once the new output state is `s`. */
  function WriteIf(mask: bv32, s: bv32, k: nat): seq<PortWrite>
    requires k < 3
  {
    if Touches(mask, k) then [PortWrite(DataPort + k, ByteOf(s, k))] else []
  }

  /** The port writes a masked write issues once the new output state is `s`. */
  function BitsWrites(mask: bv32, s: bv32): seq<PortWrite>
  {
    WriteIf(mask, s, 0) + WriteIf(mask, s, 1) + WriteIf(mask, s, 2)
  }

  /**
    A masked write writes each data port the mask touches exactly once,
    with that port's byte of the new state, in port order, and writes no
    other port; in particular an empty mask writes nothing.
  */
  lemma BitsWritesExactly(mask: bv32, s: bv32)
    ensures forall w :: w in BitsWrites(mask, s) <==>
              w.offset < 3 && Touches(mask, w.offset) && w.value == ByteOf(s, w.offset)
    ensures forall i, j :: 0 <= i < j < |BitsWrites(mask, s)| ==>
              BitsWrites(mask, s)[i].offset < BitsWrites(mask, s)[j].offset
    ensures mask == 0 ==> BitsWrites(mask, s) == []
  {
    var ws := BitsWrites(mask, s);
    forall w
      ensures w in ws <==> w.offset < 3 && Touches(mask, w.offset) && w.value == ByteOf(s, w.offset)
    {
      assert w in ws <==> w in WriteIf(mask, s, 0) || w in WriteIf(mask, s, 1) || w in WriteIf(mask, s, 2);
    }
  }

  /** The 24-bit value read back from the three data ports, port A in the low byte. */
  function Readback(a: bv8, b: bv8, c: bv8): bv32
  {
    (a as bv32) | ((b as bv32) << 8) | ((c as bv32) << 16)
  }

  /** A readback fits in 24 bits, and its bytes give back the three ports. */
  lemma ReadbackBytes(a: bv8, b: bv8, c: bv8)
    ensures Readback(a, b, c) < 0x100_0000
    ensures ByteOf(Readback(a, b, c), 0) == a
    ensures ByteOf(Readback(a, b, c), 1) == b
    ensures ByteOf(Readback(a, b, c), 2) == c
  {
    var r := (a as bv32) | ((b as bv32) << 8) | ((c as bv32) << 16);
    assert Readback(a, b, c) == r;
    assert ByteOf(r, 0) == (r & 0xff) as bv8 == a;
    assert ByteOf(r, 1) == ((r >> 8) & 0xff) as bv8 == b;
    assert ByteOf(r, 2) == ((r >> 16) & 0xff) as bv8 == c;
  }

  /** The 16-bit sample the interrupt handler assembles, port A in the low byte. */
  function Sample(a: bv8, b: bv8): bv16
  {
    (a as bv16) | ((b as bv16) << 8)
  }

  /** The bytes of a sample give back ports A and B. */
  lemma SampleBytes(a: bv8, b: bv8)
    ensures (Sample(a, b) & 0xff) as bv8 == a
    ensures (Sample(a, b) >> 8) as bv8 == b
  {
    var d := (a as bv16) | ((b as bv16) << 8);
    assert Sample(a, b) == d;
    assert (d & 0xff) as bv8 == a;
    assert (d >> 8) as bv8 == b;
  }

  class Chip {
    /** The base I/O address handed to the port callback; 0 when none was reserved. */
    const cbArg: nat
    /** Whether the board wired the chip's interrupt line. */
    const haveIrq: bool
    /** The last value written to the output latches, one bit per channel. */
    var status: bv32
    /** The direction mask: bit i set means channel i is an output. */
    var ioBits: bv32
    /** What a read of data ports A, B and C returns. */
    const ports: array<bv8>
    /** The last byte written to the control register. */
    var control: bv8
    /** Every byte written through the port callback, oldest first. */
    var log: seq<PortWrite>

    ghost predicate Valid()
      reads this
    {
      ports.Length == 3
    }

    /**
      A private record for the chip at `cbArg`, zeroed apart from the base
      address and the interrupt wiring, with all ports reading 0.
    */
    constructor (cbArg: nat, haveIrq: bool)
      ensures Valid() && fresh(ports)
      ensures this.cbArg == cbArg && this.haveIrq == haveIrq
      ensures status == 0 && ioBits == 0 && control == 0 && log == []
      ensures ports[..] == [0, 0, 0]
    {
      this.cbArg := cbArg;
      this.haveIrq := haveIrq;
      status, ioBits, control, log := 0, 0, 0, [];
      ports := new bv8[3](_ => 0);
    }

    /** The port callback's write direction: one byte to one register. */
    method Out(offset: nat, value: bv8)
      requires Valid() && offset <= ControlPort
      modifies this, ports
      ensures log == old(log) + [PortWrite(offset, value)]
      ensures offset < ControlPort ==> ports[..] == old(ports[..])[offset := value] && control == old(control)
      ensures offset == ControlPort ==> ports[..] == old(ports[..]) && control == value
      ensures status == old(status) && ioBits == old(ioBits)
    {
      if offset < ControlPort {
        ports[offset] := value;
      } else {
        control := value;
      }
      log := log + [PortWrite(offset, value)];
    }

    /** The port callback's read direction: one byte from a data port. */
    method In(offset: nat) returns (value: bv8)
      requires Valid() && offset < ControlPort
      ensures value == ports[offset]
    {
      value := ports[offset];
    }

    /**
      Writes the control word that `ioBits` asks for, built one bank at a
      time, and changes nothing else.
    */
    method DoConfig()
      requires Valid()
      modifies this, ports
      ensures control == ControlWord(ioBits)
      ensures log == old(log) + [PortWrite(ControlPort, control)]
      ensures ports[..] == old(ports[..])
      ensures status == old(status) && ioBits == old(ioBits)
    {
      var config := ModeSet;
      if ioBits & BankA == 0 {
        config := config | PortAInput;
      }
      if ioBits & BankB == 0 {
        config := config | PortBInput;
      }
      if ioBits & BankCLow == 0 {
        config := config | PortCLowInput;
      }
      if ioBits & BankCHigh == 0 {
        config := config | PortCHighInput;
      }
      Out(ControlPort, config);
    }

    /**
      The bit instruction. When data[0] is non-zero the bits it selects take
      their value from data[1] in `status`, and each data port holding one
      of those bits is written with its byte of the new `status`; when it is
      zero nothing is written. Either way data[1] then receives the 24-bit
      readback of the three ports.
    */
    method InsnBits(data: array<bv32>) returns (r: int)
      requires Valid() && data.Length >= 2
      modifies this, ports, data
      ensures r == 0
      ensures status == Merge(old(status), old(data[0]), old(data[1]))
      ensures old(data[0]) == 0 ==> status == old(status) && log == old(log)
      ensures log == old(log) + BitsWrites(old(data[0]), status)
      ensures forall k :: 0 <= k < 3 ==>
                ports[k] == if Touches(old(data[0]), k) then ByteOf(status, k) else old(ports[k])
      ensures data[1] == Readback(ports[0], ports[1], ports[2])
      ensures data[0] == old(data[0])
      ensures forall i :: 2 <= i < data.Length ==> data[i] == old(data[i])
      ensures ioBits == old(ioBits) && control == old(control)
    {
      var mask := data[0];
      if mask != 0 {
        WriteMasked(mask, data[1]);
      } else {
        MergeNothing(status, data[1]);
        BitsWritesExactly(mask, status);
      }
      data[1] := ReadAll();
      r := 0;
    }

    /**
      The non-empty-mask half of the bit instruction: updates `status` under
      `mask` and writes every data port the mask touches.
    */
    method WriteMasked(mask: bv32, value: bv32)
      requires Valid()
      modifies this, ports
      ensures status == Merge(old(status), mask, value)
      ensures log == old(log) + BitsWrites(mask, status)
      ensures forall k :: 0 <= k < 3 ==>
                ports[k] == if Touches(mask, k) then ByteOf(status, k) else old(ports[k])
      ensures ioBits == old(ioBits) && control == old(control)
    {
      status := status & !mask;
      status := status | (mask & value);
      WriteTouched(mask);
    }

    /** Writes each data port that `mask` touches with its byte of `status`. */
    method WriteTouched(mask: bv32)
      requires Valid()
      modifies this, ports
      ensures log == old(log) + BitsWrites(mask, status)
      ensures forall k :: 0 <= k < 3 ==>
                ports[k] == if Touches(mask, k) then ByteOf(status, k) else old(ports[k])
      ensures status == old(status) && ioBits == old(ioBits) && control == old(control)
    {
      ghost var w0, w1, w2 := WriteIf(mask, status, 0), WriteIf(mask, status, 1), WriteIf(mask, status, 2);
      if Touches(mask, 0) {
        Out(DataPort, ByteOf(status, 0));
      }
      assert log == old(log) + w0;
      if Touches(mask, 1) {
        Out(DataPort + 1, ByteOf(status, 1));
      }
      assert log == old(log) + w0 + w1;
      if Touches(mask, 2) {
        Out(DataPort + 2, ByteOf(status, 2));
      }
      assert log == old(log) + w0 + w1 + w2;
      assert old(log) + w0 + w1 + w2 == old(log) + (w0 + w1 + w2);
    }

    /** Reads the three data ports back into one 24-bit value, port A lowest. */
    method ReadAll() returns (v: bv32)
      requires Valid()
      ensures v == Readback(ports[0], ports[1], ports[2])
    {
      var a := In(DataPort);
      v := a as bv32;
      var b := In(DataPort + 1);
      v := v | ((b as bv32) << 8);
      var c := In(DataPort + 2);
      v := v | ((c as bv32) << 16);
      assert v == Readback(a, b, c);
    }

    /**
      The configuration instruction for channel `chan`. An input or output
      request sets the direction of the channel's whole bank in `ioBits` and
      rewrites the control word; a query reports the bank's direction in
      data[1] and changes nothing; any other request is refused with
      -EINVAL and changes nothing.
    */
    method InsnConfig(chan: nat, data: array<bv32>) returns (r: int)
      requires Valid() && chan < 32
      requires data.Length >= 1 && (data[0] == ConfigQuery ==> data.Length >= 2)
      modifies this, ports, data
      ensures var req := old(data[0]);
              r == if req == ConfigInput || req == ConfigOutput || req == ConfigQuery then 0 else -EINVAL
      ensures old(data[0]) == ConfigInput ==> ioBits == WithInputs(old(ioBits), Bank(chan))
      ensures old(data[0]) == ConfigOutput ==> ioBits == WithOutputs(old(ioBits), Bank(chan))
      ensures old(data[0]) == ConfigInput || old(data[0]) == ConfigOutput ==>
                && control == ControlWord(ioBits)
                && log == old(log) + [PortWrite(ControlPort, control)]
                && data[..] == old(data[..])
      ensures old(data[0]) == ConfigQuery ==>
                && ioBits == old(ioBits) && control == old(control) && log == old(log)
                && data[1] == (if old(ioBits) & Bank(chan) != 0 then DirectionOutput else DirectionInput)
                && data[0] == old(data[0])
                && (forall i :: 2 <= i < data.Length ==> data[i] == old(data[i]))
      ensures r != 0 ==>
                ioBits == old(ioBits) && control == old(control) && log == old(log) && data[..] == old(data[..])
      ensures status == old(status) && ports[..] == old(ports[..])
    {
      var bits := Bank(chan);
      var req := data[0];
      if req == ConfigInput {
        ioBits := WithInputs(ioBits, bits);
      } else if req == ConfigOutput {
        ioBits := WithOutputs(ioBits, bits);
      } else if req == ConfigQuery {
        data[1] := if ioBits & bits != 0 then DirectionOutput else DirectionInput;
        return 0;
      } else {
        return -EINVAL;
      }
      DoConfig();
      r := 0;
    }

    /**
      The sample the interrupt handler takes: port A in the low byte and
      port B in the high byte. Handing it to the acquisition buffer is not
      part of this model.
    */
    method InterruptSample() returns (d: bv16)
      requires Valid()
      ensures d == Sample(ports[0], ports[1])
    {
      var a := In(DataPort);
      d := a as bv16;
      var b := In(DataPort + 1);
      d := d | ((b as bv16) << 8);
      assert d == Sample(a, b);
    }
  }
}
