/**
  Register layout of the Intel 8255 programmable peripheral interface as the
  comedi 8255 driver drives it, and the pure derivations the driver makes
  from its direction mask `io_bits`: which direction bank a channel belongs
  to, and which mode-set control word a mask asks for.

  In `io_bits` bit i stands for channel i and 1 means output. Channels 0-7
  are port A, 8-15 port B, 16-19 the low half of port C and 20-23 its high
  half; each of these four banks shares one direction bit of the control
  word, where 1 means input.
*/
module Registers {

  // Offsets of the chip's registers from its base I/O address.
  const DataPort: nat := 0        // port A; ports B and C follow it
  const ControlPort: nat := 3
  // Width of the I/O region one chip occupies.
  const RegionSize: nat := 4

  // Bits of the mode-set control word.
  const ModeSet: bv8 := 0x80
  const PortAInput: bv8 := 0x10
  const PortCHighInput: bv8 := 0x08
  const PortBInput: bv8 := 0x02
  const PortCLowInput: bv8 := 0x01

  // The four direction banks of `io_bits`.
  const BankA: bv32 := 0x00_00ff
  const BankB: bv32 := 0x00_ff00
  const BankCLow: bv32 := 0x0f_0000
  const BankCHigh: bv32 := 0xf0_0000

  predicate IsBank(b: bv32) {
    b == BankA || b == BankB || b == BankCLow || b == BankCHigh
  }

  /** The control-word flag that marks bank `b` as input. */
  function InputFlag(b: bv32): bv8
    requires IsBank(b)
  {
    if b == BankA then PortAInput
    else if b == BankB then PortBInput
    else if b == BankCLow then PortCLowInput
    else PortCHighInput
  }

  /**
    The direction bank of channel `chan`, found as the driver finds it: by
    testing the channel's own bit `1 << chan` against the banks in turn.
    Every channel from 20 up falls into the last bank, including 24-31,
    which the chip does not have.
  */
  function Bank(chan: nat): bv32
    requires chan < 32
  {
    var mask := (1 as bv32) << chan;
    if mask & BankA != 0 then BankA
    else if mask & BankB != 0 then BankB
    else if mask & BankCLow != 0 then BankCLow
    else BankCHigh
  }

  /** Channels 0-7 are bank A, 8-15 bank B, 16-19 the low half of C, the rest its high half. */
  lemma BankOfChannel(chan: nat)
    requires chan < 32
    ensures IsBank(Bank(chan))
    ensures Bank(chan) == if chan < 8 then BankA
                          else if chan < 16 then BankB
                          else if chan < 20 then BankCLow
                          else BankCHigh
  {
  }

  /** A channel's own bit lies in its bank exactly for the 24 real channels. */
  lemma ChannelInOwnBank(chan: nat)
    requires chan < 32
    ensures Bank(chan) & ((1 as bv32) << chan) != 0 <==> chan < 24
  {
  }

  /**
    The mode-set control word for direction mask `io`: the mode-set bit is
    always present, and a bank's input flag is present exactly when no
    channel of that bank is an output. No other bit is ever set.
  */
  function ControlWord(io: bv32): bv8
  {
    ModeSet
    | (if io & BankA == 0 then PortAInput else 0)
    | (if io & BankB == 0 then PortBInput else 0)
    | (if io & BankCLow == 0 then PortCLowInput else 0)
    | (if io & BankCHigh == 0 then PortCHighInput else 0)
  }

  /** The mode-set bit is always present. */
  lemma ControlWordModeSet(io: bv32)
    ensures ControlWord(io) & ModeSet == ModeSet
  {
  }

  /** No bit other than the mode-set bit and the four input flags is ever set. */
  lemma ControlWordNoOtherBits(io: bv32)
    ensures ControlWord(io) & !(ModeSet | PortAInput | PortBInput | PortCLowInput | PortCHighInput) == 0
  {
  }

  lemma FlagA(io: bv32)
    ensures (ControlWord(io) & PortAInput != 0) <==> io & BankA == 0
  {
  }

  lemma FlagB(io: bv32)
    ensures (ControlWord(io) & PortBInput != 0) <==> io & BankB == 0
  {
  }

  lemma FlagCLow(io: bv32)
    ensures (ControlWord(io) & PortCLowInput != 0) <==> io & BankCLow == 0
  {
  }

  lemma FlagCHigh(io: bv32)
    ensures (ControlWord(io) & PortCHighInput != 0) <==> io & BankCHigh == 0
  {
  }

  /**
    A bank's input flag is in the control word exactly when no channel of
    that bank is an output.
  */
  lemma ControlWordFlag(io: bv32, b: bv32)
    requires IsBank(b)
    ensures (ControlWord(io) & InputFlag(b) != 0) <==> io & b == 0
  {
    // One bank at a time: the solver does poorly with all four facts at once.
    if b == BankA {
      FlagA(io);
    } else if b == BankB {
      FlagB(io);
    } else if b == BankCLow {
      FlagCLow(io);
    } else {
      FlagCHigh(io);
    }
  }

  /** `io` after an output request for bank `b`. */
  function WithOutputs(io: bv32, b: bv32): bv32
  {
    io | b
  }

  /** `io` after an input request for bank `b`. */
  function WithInputs(io: bv32, b: bv32): bv32
  {
    io & !b
  }

  /** An output request makes the whole bank output and leaves every other channel alone. */
  lemma WithOutputsMeaning(io: bv32, b: bv32)
    ensures WithOutputs(io, b) & b == b
    ensures WithOutputs(io, b) & !b == io & !b
  {
  }

  /** An input request makes the whole bank input and leaves every other channel alone. */
  lemma WithInputsMeaning(io: bv32, b: bv32)
    ensures WithInputs(io, b) & b == 0
    ensures WithInputs(io, b) & !b == io & !b
  {
  }

  /** Repeating an output request changes nothing. */
  lemma OutputsIdempotent(io: bv32, b: bv32)
    ensures WithOutputs(WithOutputs(io, b), b) == WithOutputs(io, b)
  {
  }

  /** Repeating an input request changes nothing. */
  lemma InputsIdempotent(io: bv32, b: bv32)
    ensures WithInputs(WithInputs(io, b), b) == WithInputs(io, b)
  {
  }

  /**
    After a request for the bank of `chan`, a query of any channel `chan'`
    in that bank reports the requested direction.
  */
  lemma QueryAfterRequest(io: bv32, chan: nat, chan': nat)
    requires chan < 32 && chan' < 32 && Bank(chan') == Bank(chan)
    ensures WithOutputs(io, Bank(chan)) & Bank(chan') != 0
    ensures WithInputs(io, Bank(chan)) & Bank(chan') == 0
  {
    BankOfChannel(chan);
    WithOutputsMeaning(io, Bank(chan));
    WithInputsMeaning(io, Bank(chan));
  }

  /** Distinct banks share no channel. */
  lemma BanksDisjoint(b: bv32, other: bv32)
    requires IsBank(b) && IsBank(other) && b != other
    ensures other & !b == other
  {
  }

  /** Two direction words that agree on a bank give that bank the same input flag. */
  lemma SameBankSameFlag(io: bv32, io': bv32, b: bv32)
    requires IsBank(b) && io' & b == io & b
    ensures (ControlWord(io') & InputFlag(b) != 0) == (ControlWord(io) & InputFlag(b) != 0)
  {
    ControlWordFlag(io', b);
    ControlWordFlag(io, b);
  }

  /** A request for one bank leaves the channels of every other bank as they were. */
  lemma RequestKeepsOtherBanks(io: bv32, b: bv32, other: bv32)
    requires IsBank(b) && IsBank(other) && b != other
    ensures WithOutputs(io, b) & other == io & other
    ensures WithInputs(io, b) & other == io & other
  {
  }

  /** An output request clears the bank's input flag in the control word. */
  lemma OwnFlagAfterOutput(io: bv32, chan: nat)
    requires chan < 32
    ensures ControlWord(WithOutputs(io, Bank(chan))) & InputFlag(Bank(chan)) == 0
  {
    BankOfChannel(chan);
    QueryAfterRequest(io, chan, chan);
    ControlWordFlag(WithOutputs(io, Bank(chan)), Bank(chan));
  }

  /** An input request sets the bank's input flag in the control word. */
  lemma OwnFlagAfterInput(io: bv32, chan: nat)
    requires chan < 32
    ensures ControlWord(WithInputs(io, Bank(chan))) & InputFlag(Bank(chan)) != 0
  {
    BankOfChannel(chan);
    QueryAfterRequest(io, chan, chan);
    ControlWordFlag(WithInputs(io, Bank(chan)), Bank(chan));
  }

  /** An output request leaves the input flags of the other three banks as they were. */
  lemma OtherFlagsAfterOutput(io: bv32, chan: nat, other: bv32)
    requires chan < 32 && IsBank(other) && other != Bank(chan)
    ensures (ControlWord(WithOutputs(io, Bank(chan))) & InputFlag(other) != 0)
            == (ControlWord(io) & InputFlag(other) != 0)
  {
    BankOfChannel(chan);
    RequestKeepsOtherBanks(io, Bank(chan), other);
    SameBankSameFlag(io, WithOutputs(io, Bank(chan)), other);
  }

  /** An input request leaves the input flags of the other three banks as they were. */
  lemma OtherFlagsAfterInput(io: bv32, chan: nat, other: bv32)
    requires chan < 32 && IsBank(other) && other != Bank(chan)
    ensures (ControlWord(WithInputs(io, Bank(chan))) & InputFlag(other) != 0)
            == (ControlWord(io) & InputFlag(other) != 0)
  {
    BankOfChannel(chan);
    RequestKeepsOtherBanks(io, Bank(chan), other);
    SameBankSameFlag(io, WithInputs(io, Bank(chan)), other);
  }
}
