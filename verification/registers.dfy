/** The chip's register map and the serialisation of a channel's phase pair
    into the four consecutive LEDn_ON_L, LEDn_ON_H, LEDn_OFF_L, LEDn_OFF_H
    bytes (or, under the swapped-pair build option, OFF before ON). */
module Registers {
  import opened Bytes
  import opened PhaseCycle

  const Mode1Reg: Byte := 0x00
  const Mode2Reg: Byte := 0x01
  const SubAdr1Reg: Byte := 0x02
  const SubAdr2Reg: Byte := 0x03
  const SubAdr3Reg: Byte := 0x04
  const AllCallReg: Byte := 0x05
  /** First of the per-channel registers, four bytes per channel. */
  const Led0Reg: Byte := 0x06
  const AllLedReg: Byte := 0xFA
  const PrescaleReg: Byte := 0xFE

  const Mode1Restart: Byte := 0x80
  const Mode1ExtClk: Byte := 0x40
  const Mode1AutoInc: Byte := 0x20
  const Mode1Sleep: Byte := 0x10
  const Mode1SubAdr1: Byte := 0x08
  const Mode1SubAdr2: Byte := 0x04
  const Mode1SubAdr3: Byte := 0x02
  const Mode1AllCall: Byte := 0x01

  /** Sent to bus address 0x00 to reset every device on the bus. */
  const SwReset: Byte := 0x06

  /** The register a channel transaction starts at: ALL_LED for the
      all-channels argument, otherwise LED0 and four registers per channel. */
  function ChannelRegister(channel: ChannelArg): (reg: Byte)
  {
    if channel == AllLedChannel then AllLedReg
    else if channel == 0 then Led0Reg
    else ChannelRegister(channel - 1) + 4
  }

  /** The register number of a channel, as an integer. Kept out of the
      function's contract: the conversion between bytes and integers is
      costly in every proof that merely mentions a register. */
  lemma {:induction false} ChannelRegisterValue(channel: ChannelArg)
    ensures channel == AllLedChannel ==> ChannelRegister(channel) == AllLedReg
    ensures channel != AllLedChannel ==> ChannelRegister(channel) as int == Led0Reg as int + 4 * channel
    decreases channel + 1
  {
    if channel > 0 {
      ChannelRegisterValue(channel - 1);
      var prev := ChannelRegister(channel - 1);
      assert (prev + 4) as int == prev as int + 4;
    }
  }

  /** What `RegisterChannel` gives for a register no channel argument starts at. */
  const NoChannel: int := -2

  /** The channel whose registers start at `reg`, if any: the inverse of
      `ChannelRegister`, read off the register map. */
  function RegisterChannel(reg: Byte): (channel: int)
  {
    var offset := reg as int - Led0Reg as int;
    if reg == AllLedReg then AllLedChannel
    else if 0 <= offset && offset % 4 == 0 && offset / 4 < ChannelCount then offset / 4
    else NoChannel
  }

  /** Every channel argument has its own register; nothing else maps there. */
  lemma {:induction false} ChannelRegisterInjective(channel: ChannelArg)
    ensures RegisterChannel(ChannelRegister(channel)) == channel
  {
    ChannelRegisterValue(channel);
    if channel != AllLedChannel {
      assert ChannelRegister(channel) as int != AllLedReg as int;
    }
  }

  /** The four bytes the write path sends for a pair, each value low byte first. */
  function PairBytes(p: PhasePair, swapBegEnd: bool): (bytes: seq<Byte>)
    ensures |bytes| == 4
    ensures Word(bytes[0], bytes[1]) == (if swapBegEnd then p.end else p.begin)
    ensures Word(bytes[2], bytes[3]) == (if swapBegEnd then p.begin else p.end)
  {
    WordOfBytes(p.begin);
    WordOfBytes(p.end);
    if !swapBegEnd then
      [LowByte(p.begin), HighByte(p.begin), LowByte(p.end), HighByte(p.end)]
    else
      [LowByte(p.end), HighByte(p.end), LowByte(p.begin), HighByte(p.begin)]
  }

  /** The read path of `getChannelPWM`: four bytes, in the order the build
      writes them, reassembled into a pair. */
  function ReadPair(bytes: seq<Byte>, swapBegEnd: bool): (p: PhasePair)
    requires |bytes| == 4
  {
    if !swapBegEnd then
      PhasePair(Word(bytes[0], bytes[1]), Word(bytes[2], bytes[3]))
    else
      PhasePair(Word(bytes[2], bytes[3]), Word(bytes[0], bytes[1]))
  }

  /** Swapping the pair order exchanges the two 2-byte halves and nothing else. */
  lemma SwappedPairBytes(p: PhasePair)
    ensures PairBytes(p, true) == PairBytes(p, false)[2..] + PairBytes(p, false)[..2]
  {
  }

  /** Reading back what was written gives the same pair. */
  lemma ReadPairBytes(p: PhasePair, swapBegEnd: bool)
    ensures ReadPair(PairBytes(p, swapBegEnd), swapBegEnd) == p
  {
  }

  /** Writing what was read back gives the same four bytes. */
  lemma PairBytesRead(bytes: seq<Byte>, swapBegEnd: bool)
    requires |bytes| == 4
    ensures PairBytes(ReadPair(bytes, swapBegEnd), swapBegEnd) == bytes
  {
    var w0, w1 := Word(bytes[0], bytes[1]), Word(bytes[2], bytes[3]);
    BytesOfWord(bytes[0], bytes[1]);
    BytesOfWord(bytes[2], bytes[3]);
    var out := [LowByte(w0), HighByte(w0), LowByte(w1), HighByte(w1)];
    assert out == bytes;
    if swapBegEnd {
      assert ReadPair(bytes, swapBegEnd) == PhasePair(w1, w0);
    } else {
      assert ReadPair(bytes, swapBegEnd) == PhasePair(w0, w1);
    }
  }
}
