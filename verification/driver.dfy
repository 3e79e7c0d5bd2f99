/** The `PCA9685` driver object: its settings, its last bus error, and the
    single-transaction operations on it (channel writes and reads, register
    reads and writes, address and frequency configuration, and the
    init / proxy-addresser lifecycle). Every operation returns the driver
    after the call; the bus inside it records what was sent. */
module Driver {
  import opened Bytes
  import opened PhaseCycle
  import opened Registers
  import opened Config
  import opened Transport

  /** Build-time options: `PCA9685_SWAP_PWM_BEG_END_REGS` and
      `PCA9685_I2C_BUFFER_LENGTH`. */
  datatype Build = Build(swapBegEnd: bool, bufferLength: int)

  datatype Pca9685 = Pca9685(
    build: Build,
    i2cAddr: Byte,
    modes: OutputModes,
    phaseBalancer: PhaseBalancer,
    isProxyAddresser: bool,
    lastI2CError: Byte,
    bus: Bus)

  /** A read operation's result: the driver after the call and the value read. */
  datatype Reading<T> = Reading(dev: Pca9685, value: T)

  /** The wrong-byte-count error the driver itself reports. */
  const WrongByteCount: Byte := 4

  /** A freshly constructed driver: every mode undefined, no error. */
  function NewPca9685(build: Build, i2cAddr: Byte, bus: Bus): (d: Pca9685) {
    Pca9685(build, i2cAddr, UndefinedModes, PhaseBalancer.Undefined, false, 0, bus)
  }

  /** Everything but the error code and the bus is as in `d`. */
  ghost predicate SameSettings(d: Pca9685, r: Pca9685) {
    && r.build == d.build
    && r.i2cAddr == d.i2cAddr
    && r.modes == d.modes
    && r.phaseBalancer == d.phaseBalancer
    && r.isProxyAddresser == d.isProxyAddresser
  }

  /** `r`'s trace continues `d`'s. */
  ghost predicate Extends(d: Pca9685, r: Pca9685) {
    |d.bus.trace| <= |r.bus.trace| && r.bus.trace[..|d.bus.trace|] == d.bus.trace
  }

  /** The events the call added. */
  ghost function NewEvents(d: Pca9685, r: Pca9685): (events: seq<Event>)
    requires Extends(d, r)
  {
    r.bus.trace[|d.bus.trace|..]
  }

  /** Two calls in a row add the events of the first, then of the second. */
  lemma ExtendsTransitive(a: Pca9685, b: Pca9685, c: Pca9685)
    requires Extends(a, b) && Extends(b, c)
    ensures Extends(a, c) && NewEvents(a, c) == NewEvents(a, b) + NewEvents(b, c)
  {
    assert c.bus.trace[..|b.bus.trace|][..|a.bus.trace|] == c.bus.trace[..|a.bus.trace|];
  }

  /** Appending one event to a trace that continues `d`'s adds it to the
      events since `d`. */
  lemma AppendEvent(d: Pca9685, m: Pca9685, r: Pca9685, e: Event)
    requires Extends(d, m) && r.bus.trace == m.bus.trace + [e]
    ensures Extends(d, r) && NewEvents(d, r) == NewEvents(d, m) + [e]
  {
    assert r.bus.trace[..|d.bus.trace|] == m.bus.trace[..|d.bus.trace|];
  }

  /** beginTransmission clears the error, endTransmission's result becomes
      the error: after a write transaction the error is its end code. */
  function Transaction(d: Pca9685, data: seq<Byte>): (r: Pca9685)
    ensures SameSettings(d, r) && Extends(d, r)
    ensures NewEvents(d, r) == [Write(d.i2cAddr, data, NextCode(d.bus))]
    ensures r.lastI2CError == NextCode(d.bus)
    ensures r.bus.endCodes == Drop(d.bus.endCodes, 1) && r.bus.replies == d.bus.replies
  {
    d.(bus := Transmit(d.bus, d.i2cAddr, data), lastI2CError := NextCode(d.bus))
  }

  /** `r` is `d` after exactly one write transaction: `reg` followed by the
      four bytes of a pair. */
  ghost predicate WroteOnePair(d: Pca9685, r: Pca9685, reg: Byte)
  {
    && SameSettings(d, r) && Extends(d, r)
    && |NewEvents(d, r)| == 1
    && var e := NewEvents(d, r)[0];
       && e.Write? && e.addr == d.i2cAddr && |e.data| == 5 && e.data[0] == reg
       && e.code == NextCode(d.bus) && r.lastI2CError == e.code
       && r.bus.endCodes == Drop(d.bus.endCodes, 1) && r.bus.replies == d.bus.replies
  }

  /** The pair the last transaction wrote, read the way the chip stores it. */
  ghost function LastPair(r: Pca9685): (p: PhasePair)
    requires |r.bus.trace| > 0 && r.bus.trace[|r.bus.trace| - 1].Write?
    requires |r.bus.trace[|r.bus.trace| - 1].data| == 5
  {
    ReadPair(r.bus.trace[|r.bus.trace| - 1].data[1..], r.build.swapBegEnd)
  }

  /** `setChannelPWM`: an out-of-range channel is ignored; otherwise one
      transaction writes the channel's encoded pair. */
  function SetChannelPWM(d: Pca9685, channel: int, pwmAmount: U16): (r: Pca9685)
    ensures !IsChannel(channel) ==> r == d
    ensures IsChannel(channel) ==>
              && WroteOnePair(d, r, ChannelRegister(channel))
              && LastPair(r) == GetPhaseCycle(d.phaseBalancer, channel, pwmAmount)
              && DecodePhaseCycle(LastPair(r)) == Min(pwmAmount, PwmFull)
  {
    if channel < 0 || channel > 15 then d
    else
      var pair := GetPhaseCycle(d.phaseBalancer, channel, pwmAmount);
      ReadPairBytes(pair, d.build.swapBegEnd);
      DecodeEncode(d.phaseBalancer, channel, pwmAmount);
      Transaction(d, [ChannelRegister(channel)] + PairBytes(pair, d.build.swapBegEnd))
  }

  /** On a valid channel, `setChannelPWM` is the one transaction of the
      channel's register and its encoded pair. */
  lemma SetChannelPWMIsTransaction(d: Pca9685, channel: int, pwmAmount: U16)
    requires IsChannel(channel)
    ensures SetChannelPWM(d, channel, pwmAmount)
         == Transaction(d, [ChannelRegister(channel)]
                           + PairBytes(GetPhaseCycle(d.phaseBalancer, channel, pwmAmount), d.build.swapBegEnd))
  {
  }

  /** `setChannelOn`: the full-ON pair, written directly. */
  function SetChannelOn(d: Pca9685, channel: int): (r: Pca9685)
    ensures !IsChannel(channel) ==> r == d
    ensures IsChannel(channel) ==>
              WroteOnePair(d, r, ChannelRegister(channel)) && DecodePhaseCycle(LastPair(r)) == PwmFull
  {
    if channel < 0 || channel > 15 then d
    else
      ReadPairBytes(PhasePair(PwmFull, 0), d.build.swapBegEnd);
      Transaction(d, [ChannelRegister(channel)] + PairBytes(PhasePair(PwmFull, 0), d.build.swapBegEnd))
  }

  /** `setChannelOff`: the full-OFF pair, written directly. */
  function SetChannelOff(d: Pca9685, channel: int): (r: Pca9685)
    ensures !IsChannel(channel) ==> r == d
    ensures IsChannel(channel) ==>
              WroteOnePair(d, r, ChannelRegister(channel)) && DecodePhaseCycle(LastPair(r)) == 0
  {
    if channel < 0 || channel > 15 then d
    else
      ReadPairBytes(PhasePair(0, PwmFull), d.build.swapBegEnd);
      Transaction(d, [ChannelRegister(channel)] + PairBytes(PhasePair(0, PwmFull), d.build.swapBegEnd))
  }

  /** Turning a channel on or off is the same bus traffic as asking for the
      full or the zero PWM amount, whatever the balancer. */
  lemma OnOffAreFullAndZeroPWM(d: Pca9685, channel: int)
    ensures SetChannelOn(d, channel) == SetChannelPWM(d, channel, PwmFull)
    ensures SetChannelOff(d, channel) == SetChannelPWM(d, channel, 0)
  {
  }

  /** `setAllChannelsPWM`: one transaction to the ALL_LED registers, with no
      phase shift whatever the balancer. */
  function SetAllChannelsPWM(d: Pca9685, pwmAmount: U16): (r: Pca9685)
    ensures WroteOnePair(d, r, AllLedReg)
    ensures LastPair(r) == GetPhaseCycle(d.phaseBalancer, AllLedChannel, pwmAmount)
    ensures LastPair(r).begin % PwmFull == 0
    ensures DecodePhaseCycle(LastPair(r)) == Min(pwmAmount, PwmFull)
  {
    var pair := GetPhaseCycle(d.phaseBalancer, AllLedChannel, pwmAmount);
    ReadPairBytes(pair, d.build.swapBegEnd);
    DecodeEncode(d.phaseBalancer, AllLedChannel, pwmAmount);
    Transaction(d, [ChannelRegister(AllLedChannel)] + PairBytes(pair, d.build.swapBegEnd))
  }

  /** The balancer has no effect on what the ALL_LED write sends. */
  lemma AllChannelsIgnoreBalancer(d: Pca9685, balancer: PhaseBalancer, pwmAmount: U16)
    ensures SetAllChannelsPWM(d.(phaseBalancer := balancer), pwmAmount).bus
         == SetAllChannelsPWM(d, pwmAmount).bus
  {
  }

  /** `getChannelPWM`: a register-address write, then a 4-byte read, decoded.
      An out-of-range channel or a proxy reads 0 without touching the bus; a
      failed address write reads 0 with its error; a reply of the wrong
      length reads 0 with the wrong-byte-count error. */
  function GetChannelPWM(d: Pca9685, channel: int): (r: Reading<int>)
    ensures 0 <= r.value <= PwmFull
    ensures !IsChannel(channel) || d.isProxyAddresser ==> r == Reading(d, 0)
    ensures IsChannel(channel) && !d.isProxyAddresser ==>
              && SameSettings(d, r.dev) && Extends(d, r.dev)
              && var events := NewEvents(d, r.dev);
                 && 1 <= |events| <= 2
                 && events[0] == Write(d.i2cAddr, [ChannelRegister(channel)], NextCode(d.bus))
                 && r.dev.bus.endCodes == Drop(d.bus.endCodes, 1)
                 && (NextCode(d.bus) != 0 ==>
                       && |events| == 1 && r.value == 0 && r.dev.lastI2CError == NextCode(d.bus)
                       && r.dev.bus.replies == d.bus.replies)
                 && (NextCode(d.bus) == 0 ==>
                       && |events| == 2
                       && events[1] == Request(d.i2cAddr, 4, NextReply(d.bus))
                       && r.dev.bus.replies == Drop(d.bus.replies, 1)
                       && (|NextReply(d.bus)| != 4 ==> r.value == 0 && r.dev.lastI2CError == WrongByteCount)
                       && (|NextReply(d.bus)| == 4 ==>
                             && r.dev.lastI2CError == 0
                             && r.value == HighTicks(ReadPair(NextReply(d.bus), d.build.swapBegEnd), PwmFull)))
  {
    if channel < 0 || channel > 15 || d.isProxyAddresser then Reading(d, 0)
    else
      var d1 := Transaction(d, [ChannelRegister(channel)]);
      if d1.lastI2CError != 0 then Reading(d1, 0)
      else
        var reply := NextReply(d1.bus);
        var d2 := d1.(bus := RequestFrom(d1.bus, d1.i2cAddr, 4));
        AppendEvent(d, d1, d2, Request(d.i2cAddr, 4, reply));
        if |reply| != 4 then Reading(d2.(lastI2CError := WrongByteCount), 0)
        else
          var pair := ReadPair(reply, d.build.swapBegEnd);
          DecodeCountsHighTicks(pair);
          Reading(d2, DecodePhaseCycle(pair))
  }

  /** Reading back, from a chip that returns what was last written, the
      channel that `setChannelPWM` just wrote gives the requested amount,
      saturated at full ON. */
  lemma WriteThenReadChannel(d: Pca9685, channel: int, pwmAmount: U16)
    requires IsChannel(channel) && !d.isProxyAddresser
    ensures var w := SetChannelPWM(d, channel, pwmAmount);
            var echo := w.bus.trace[|w.bus.trace| - 1].data[1..];
            GetChannelPWM(w.(bus := w.bus.(endCodes := [0], replies := [echo])), channel).value
              == Min(pwmAmount, PwmFull)
  {
    var w := SetChannelPWM(d, channel, pwmAmount);
    var echo := w.bus.trace[|w.bus.trace| - 1].data[1..];
    DecodeCountsHighTicks(ReadPair(echo, d.build.swapBegEnd));
  }

  /** `writeRegister`: one transaction of the register and its value. */
  function WriteRegister(d: Pca9685, reg: Byte, value: Byte): (r: Pca9685)
    ensures SameSettings(d, r) && Extends(d, r)
    ensures NewEvents(d, r) == [Write(d.i2cAddr, [reg, value], NextCode(d.bus))]
    ensures r.lastI2CError == NextCode(d.bus)
    ensures r.bus.endCodes == Drop(d.bus.endCodes, 1) && r.bus.replies == d.bus.replies
  {
    Transaction(d, [reg, value])
  }

  /** `readRegister`: the same shape as a channel read, for one byte. */
  function ReadRegister(d: Pca9685, reg: Byte): (r: Reading<Byte>)
    ensures SameSettings(d, r.dev) && Extends(d, r.dev) && |NewEvents(d, r.dev)| >= 1
    ensures NewEvents(d, r.dev)[0] == Write(d.i2cAddr, [reg], NextCode(d.bus))
    ensures r.dev.bus.endCodes == Drop(d.bus.endCodes, 1)
    ensures NextCode(d.bus) != 0 ==>
              && |NewEvents(d, r.dev)| == 1 && r.value == 0 && r.dev.lastI2CError == NextCode(d.bus)
              && r.dev.bus.replies == d.bus.replies
    ensures NextCode(d.bus) == 0 ==>
              && NewEvents(d, r.dev) == [Write(d.i2cAddr, [reg], 0), Request(d.i2cAddr, 1, NextReply(d.bus))]
              && r.dev.bus.replies == Drop(d.bus.replies, 1)
              && (|NextReply(d.bus)| == 1 ==> r.value == NextReply(d.bus)[0] && r.dev.lastI2CError == 0)
              && (|NextReply(d.bus)| != 1 ==> r.value == 0 && r.dev.lastI2CError == WrongByteCount)
  {
    var d1 := Transaction(d, [reg]);
    if d1.lastI2CError != 0 then Reading(d1, 0)
    else
      var reply := NextReply(d1.bus);
      var d2 := d1.(bus := RequestFrom(d1.bus, d1.i2cAddr, 1));
      AppendEvent(d, d1, d2, Request(d.i2cAddr, 1, reply));
      if |reply| != 1 then Reading(d2.(lastI2CError := WrongByteCount), 0)
      else Reading(d2, reply[0])
  }

  /** Reading back, from a chip that answers with what was last written,
      the register `writeRegister` just wrote gives the written value, with
      no error. */
  lemma WriteThenReadRegister(d: Pca9685, reg: Byte, value: Byte)
    ensures var w := WriteRegister(d, reg, value);
            var echo := w.bus.trace[|w.bus.trace| - 1].data[1..];
            var rd := ReadRegister(w.(bus := w.bus.(endCodes := [0], replies := [echo])), reg);
            rd.value == value && rd.dev.lastI2CError == 0
  {
  }

  /** `resetDevices`: the software-reset byte sent to the general-call address. */
  function ResetDevices(d: Pca9685): (r: Pca9685)
    ensures SameSettings(d, r) && Extends(d, r)
    ensures NewEvents(d, r) == [Write(0x00, [SwReset], NextCode(d.bus))]
    ensures r.lastI2CError == NextCode(d.bus)
    ensures r.bus.endCodes == Drop(d.bus.endCodes, 1) && r.bus.replies == d.bus.replies
  {
    d.(bus := Transmit(d.bus, 0x00, [SwReset]), lastI2CError := NextCode(d.bus))
  }

  /** `init`: refused on a proxy addresser, whatever the modes. Otherwise
      the unsupported open-drain, high-when-disabled combination is ruled out
      by an assertion, and `init` normalises the module address, stores the
      settings, and writes MODE1 (restart, auto-increment) then MODE2 to the
      normalised address. */
  function Init(d: Pca9685, modes: OutputModes, balancer: PhaseBalancer): (r: Pca9685)
    requires !d.isProxyAddresser ==> SupportedModes(modes)
    ensures d.isProxyAddresser ==> r == d
    ensures !d.isProxyAddresser ==>
              && r.build == d.build && !r.isProxyAddresser
              && r.i2cAddr == ModuleAddress(d.i2cAddr)
              && r.modes == modes && r.phaseBalancer == balancer
              && |d.bus.trace| <= |r.bus.trace| && r.bus.trace[..|d.bus.trace|] == d.bus.trace
              && r.bus.trace[|d.bus.trace|..] ==
                   [Write(r.i2cAddr, [Mode1Reg, Mode1Restart | Mode1AutoInc], CodeAt(d.bus.endCodes, 0)),
                    Write(r.i2cAddr, [Mode2Reg, Mode2Value(modes)], CodeAt(d.bus.endCodes, 1))]
              && r.lastI2CError == CodeAt(d.bus.endCodes, 1)
              && r.bus.endCodes == Drop(d.bus.endCodes, 2) && r.bus.replies == d.bus.replies
  {
    if d.isProxyAddresser then d
    else
      var d1 := d.(i2cAddr := ModuleAddress(d.i2cAddr), modes := modes, phaseBalancer := balancer);
      var d2 := WriteRegister(d1, Mode1Reg, Mode1Restart | Mode1AutoInc);
      WriteRegister(d2, Mode2Reg, Mode2Value(d1.modes))
  }

  /** `initAsProxyAddresser`: refused once a driver mode is set; otherwise
      switches to a proxy address without any bus traffic. */
  function InitAsProxyAddresser(d: Pca9685): (r: Pca9685)
    ensures d.modes.driverMode != DriverMode.Undefined ==> r == d
    ensures d.modes.driverMode == DriverMode.Undefined ==>
              r == d.(i2cAddr := ProxyAddress(d.i2cAddr), isProxyAddresser := true)
  {
    if d.modes.driverMode != DriverMode.Undefined then d
    else d.(i2cAddr := ProxyAddress(d.i2cAddr), isProxyAddresser := true)
  }

  /** The four addresses a module can additionally answer to. */
  datatype AddressSlot = AllCall | Sub1 | Sub2 | Sub3

  function SlotRegister(slot: AddressSlot): (reg: Byte) {
    match slot
    case AllCall => AllCallReg
    case Sub1 => SubAdr1Reg
    case Sub2 => SubAdr2Reg
    case Sub3 => SubAdr3Reg
  }

  function SlotMode1Bit(slot: AddressSlot): (bit: Byte) {
    match slot
    case AllCall => Mode1AllCall
    case Sub1 => Mode1SubAdr1
    case Sub2 => Mode1SubAdr2
    case Sub3 => Mode1SubAdr3
  }

  /** `r` is `m` after exactly one write transaction to MODE1 whose `bit` is
      set exactly when `on`, with every other bit as in `mode1`; the error is
      that transaction's scripted end code. */
  ghost predicate WroteMode1Bit(m: Pca9685, r: Pca9685, bit: Byte, on: bool, mode1: Byte) {
    && SameSettings(m, r) && Extends(m, r) && |NewEvents(m, r)| == 1
    && var e := NewEvents(m, r)[0];
       && e.Write? && e.addr == m.i2cAddr && |e.data| == 2 && e.data[0] == Mode1Reg
       && (e.data[1] & bit != 0 <==> on) && e.data[1] & !bit == mode1 & !bit
       && e.code == NextCode(m.bus) && r.lastI2CError == e.code
       && r.bus.endCodes == Drop(m.bus.endCodes, 1) && r.bus.replies == m.bus.replies
  }

  /** `enableAllCallAddress` and `enableSubNAddress`: refused on a proxy;
      otherwise writes the normalised address into the slot register, reads
      MODE1, then writes MODE1 back with the slot's bit set and the other
      bits as read. Nothing else goes over the bus. */
  function EnableAddress(d: Pca9685, slot: AddressSlot, address: Byte): (r: Pca9685)
    ensures d.isProxyAddresser ==> r == d
    ensures !d.isProxyAddresser ==>
              && SameSettings(d, r) && Extends(d, r)
              && var d1 := WriteRegister(d, SlotRegister(slot), ProxyAddress(address));
                 var rd := ReadRegister(d1, Mode1Reg);
                 && Extends(rd.dev, r)
                 && NewEvents(d, r) == NewEvents(d, d1) + NewEvents(d1, rd.dev) + NewEvents(rd.dev, r)
                 && WroteMode1Bit(rd.dev, r, SlotMode1Bit(slot), true, rd.value)
  {
    if d.isProxyAddresser then d
    else
      var d1 := WriteRegister(d, SlotRegister(slot), ProxyAddress(address));
      var rd := ReadRegister(d1, Mode1Reg);
      var r := WriteRegister(rd.dev, Mode1Reg, rd.value | SlotMode1Bit(slot));
      ExtendsTransitive(d, d1, rd.dev);
      ExtendsTransitive(d, rd.dev, r);
      r
  }

  /** `disableAllCallAddress` and `disableSubNAddress`: refused on a proxy;
      otherwise reads MODE1, then writes it back with the slot's bit clear
      and the other bits as read. Nothing else goes over the bus. */
  function DisableAddress(d: Pca9685, slot: AddressSlot): (r: Pca9685)
    ensures d.isProxyAddresser ==> r == d
    ensures !d.isProxyAddresser ==>
              && SameSettings(d, r) && Extends(d, r)
              && var rd := ReadRegister(d, Mode1Reg);
                 && Extends(rd.dev, r)
                 && NewEvents(d, r) == NewEvents(d, rd.dev) + NewEvents(rd.dev, r)
                 && WroteMode1Bit(rd.dev, r, SlotMode1Bit(slot), false, rd.value)
  {
    if d.isProxyAddresser then d
    else
      var rd := ReadRegister(d, Mode1Reg);
      var r := WriteRegister(rd.dev, Mode1Reg, rd.value & !SlotMode1Bit(slot));
      ExtendsTransitive(d, rd.dev, r);
      r
  }

  /** Starting from bus `from`, `r`'s trace gains exactly three writes:
      MODE1 asleep (SLEEP set, RESTART clear, every other bit as in the value
      `mode1` read before), then `reg`, then MODE1 awake again (SLEEP clear,
      RESTART set) with the other MODE1 bits as last written. The chip only
      accepts PRE_SCALE and EXTCLK changes while its oscillator sleeps. Each
      write ends with the next scripted code, and the error is the last one. */
  ghost predicate SleepWriteWake(r: Pca9685, from: Bus, mode1: Byte, reg: Byte, value: Byte)
  {
    var ev := r.bus.trace;
    && |ev| == |from.trace| + 3 && ev[..|from.trace|] == from.trace
    && r.bus.endCodes == Drop(from.endCodes, 3) && r.bus.replies == from.replies
    && var asleep := ev[|ev| - 3];
       var middle := ev[|ev| - 2];
       var awake := ev[|ev| - 1];
       && asleep.Write? && middle.Write? && awake.Write?
       && asleep.addr == r.i2cAddr && middle.addr == r.i2cAddr && awake.addr == r.i2cAddr
       && |asleep.data| == 2 && asleep.data[0] == Mode1Reg
       && asleep.data[1] & Mode1Sleep != 0 && asleep.data[1] & Mode1Restart == 0
       && asleep.data[1] & !(Mode1Sleep | Mode1Restart) == mode1 & !(Mode1Sleep | Mode1Restart)
       && middle.data == [reg, value]
       && |awake.data| == 2 && awake.data[0] == Mode1Reg
       && awake.data[1] & Mode1Sleep == 0 && awake.data[1] & Mode1Restart != 0
       && awake.data[1] & !(Mode1Sleep | Mode1Restart)
          == (if reg == Mode1Reg then value else asleep.data[1]) & !(Mode1Sleep | Mode1Restart)
       && asleep.code == CodeAt(from.endCodes, 0) && middle.code == CodeAt(from.endCodes, 1)
       && awake.code == CodeAt(from.endCodes, 2) && r.lastI2CError == awake.code
  }

  /** MODE1 with the oscillator put to sleep. */
  function Asleep(mode1: Byte): (asleep: Byte) {
    (mode1 & !Mode1Restart) | Mode1Sleep
  }

  /** MODE1 with the oscillator woken and restarted. */
  function Awake(mode1: Byte): (awake: Byte) {
    (mode1 & !Mode1Sleep) | Mode1Restart
  }

  /** The three writes around a sleeping oscillator, starting from the MODE1
      value `mode1` that was read. */
  function SleepWriteWakeFrom(d: Pca9685, mode1: Byte, reg: Byte, middle: Byte): (r: Pca9685)
    ensures SameSettings(d, r) && Extends(d, r) && |NewEvents(d, r)| == 3
    ensures SleepWriteWake(r, d.bus, mode1, reg, middle)
  {
    var last := if reg == Mode1Reg then middle else Asleep(mode1);
    var d1 := WriteRegister(d, Mode1Reg, Asleep(mode1));
    var d2 := WriteRegister(d1, reg, middle);
    var r := WriteRegister(d2, Mode1Reg, Awake(last));
    ThreeTransactions(d, d1, d2, r, [Mode1Reg, Asleep(mode1)], [reg, middle], [Mode1Reg, Awake(last)]);
    SleepWriteWakeIntro(r, d.bus, reg, mode1, middle);
    r
  }

  /** Three write transactions in a row: the trace gains their three events,
      each with its own scripted end code, and the error is the last code. */
  lemma ThreeTransactions(d: Pca9685, d1: Pca9685, d2: Pca9685, r: Pca9685,
                          data0: seq<Byte>, data1: seq<Byte>, data2: seq<Byte>)
    requires d1 == Transaction(d, data0) && d2 == Transaction(d1, data1) && r == Transaction(d2, data2)
    ensures SameSettings(d, r) && Extends(d, r) && |NewEvents(d, r)| == 3
    ensures r.bus.trace[|r.bus.trace| - 3..] == [Write(d.i2cAddr, data0, CodeAt(d.bus.endCodes, 0)),
                                                 Write(d.i2cAddr, data1, CodeAt(d.bus.endCodes, 1)),
                                                 Write(d.i2cAddr, data2, CodeAt(d.bus.endCodes, 2))]
    ensures r.lastI2CError == CodeAt(d.bus.endCodes, 2)
    ensures r.bus.endCodes == Drop(d.bus.endCodes, 3) && r.bus.replies == d.bus.replies
  {
    var codes := d.bus.endCodes;
    assert NextCode(d1.bus) == CodeAt(codes, 1);
    assert NextCode(d2.bus) == CodeAt(codes, 2);
    AppendEvent(d, d, d1, Write(d.i2cAddr, data0, CodeAt(codes, 0)));
    AppendEvent(d, d1, d2, Write(d.i2cAddr, data1, CodeAt(codes, 1)));
    AppendEvent(d, d2, r, Write(d.i2cAddr, data2, CodeAt(codes, 2)));
  }

  lemma SleepWriteWakeIntro(r: Pca9685, from: Bus, reg: Byte, mode1: Byte, middle: Byte)
    requires var last := if reg == Mode1Reg then middle else Asleep(mode1);
             && |r.bus.trace| == |from.trace| + 3 && r.bus.trace[..|from.trace|] == from.trace
             && r.bus.endCodes == Drop(from.endCodes, 3) && r.bus.replies == from.replies
             && r.bus.trace[|r.bus.trace| - 3..]
                == [Write(r.i2cAddr, [Mode1Reg, Asleep(mode1)], CodeAt(from.endCodes, 0)),
                    Write(r.i2cAddr, [reg, middle], CodeAt(from.endCodes, 1)),
                    Write(r.i2cAddr, [Mode1Reg, Awake(last)], CodeAt(from.endCodes, 2))]
             && r.lastI2CError == CodeAt(from.endCodes, 2)
    ensures SleepWriteWake(r, from, mode1, reg, middle)
  {
    var last := if reg == Mode1Reg then middle else Asleep(mode1);
    SleepWakeBits(mode1, last);
    var n := |r.bus.trace|;
    assert r.bus.trace[n - 3] == r.bus.trace[n - 3..][0];
    assert r.bus.trace[n - 2] == r.bus.trace[n - 3..][1];
    assert r.bus.trace[n - 1] == r.bus.trace[n - 3..][2];
  }

  /** The bit updates around a sleeping oscillator set and clear exactly
      SLEEP and RESTART, and keep every other MODE1 bit. */
  lemma SleepWakeBits(mode1: Byte, last: Byte)
    ensures && Asleep(mode1) & Mode1Sleep != 0 && Asleep(mode1) & Mode1Restart == 0
            && Asleep(mode1) & !(Mode1Sleep | Mode1Restart) == mode1 & !(Mode1Sleep | Mode1Restart)
    ensures && Awake(last) & Mode1Sleep == 0 && Awake(last) & Mode1Restart != 0
            && Awake(last) & !(Mode1Sleep | Mode1Restart) == last & !(Mode1Sleep | Mode1Restart)
  {
  }

  /** `setPWMFrequency`, given the prescaler the frequency formula produced:
      refused for a negative frequency or on a proxy; otherwise the clamped
      prescaler is written while the oscillator sleeps, after MODE1 is read
      and with its other bits kept. */
  function SetPWMFrequency(d: Pca9685, frequencyIsNegative: bool, rawPrescaler: int): (r: Pca9685)
    ensures frequencyIsNegative || d.isProxyAddresser ==> r == d
    ensures !frequencyIsNegative && !d.isProxyAddresser ==>
              && SameSettings(d, r) && Extends(d, r)
              && var rd := ReadRegister(d, Mode1Reg);
                 && Extends(rd.dev, r) && |r.bus.trace| == |rd.dev.bus.trace| + 3
                 && SleepWriteWake(r, rd.dev.bus, rd.value, PrescaleReg, PrescalerClamp(rawPrescaler))
  {
    if frequencyIsNegative || d.isProxyAddresser then d
    else
      var prescale := PrescalerClamp(rawPrescaler);
      var rd := ReadRegister(d, Mode1Reg);
      var r := SleepWriteWakeFrom(rd.dev, rd.value, PrescaleReg, prescale);
      ExtendsTransitive(d, rd.dev, r);
      r
  }

  /** `enableExtClockLine`: EXTCLK is set while the oscillator sleeps,
      after MODE1 is read and with its other bits kept. It has no proxy guard. */
  function EnableExtClockLine(d: Pca9685): (r: Pca9685)
    ensures SameSettings(d, r) && Extends(d, r)
    ensures var rd := ReadRegister(d, Mode1Reg);
            && Extends(rd.dev, r) && |r.bus.trace| == |rd.dev.bus.trace| + 3
            && exists v: Byte ::
                 && v & Mode1ExtClk != 0 && v & Mode1Sleep != 0 && v & Mode1Restart == 0
                 && v & !(Mode1ExtClk | Mode1Sleep | Mode1Restart)
                    == rd.value & !(Mode1ExtClk | Mode1Sleep | Mode1Restart)
                 && SleepWriteWake(r, rd.dev.bus, rd.value, Mode1Reg, v)
  {
    var rd := ReadRegister(d, Mode1Reg);
    var v := Asleep(rd.value) | Mode1ExtClk;
    var r := SleepWriteWakeFrom(rd.dev, rd.value, Mode1Reg, v);
    ExtendsTransitive(d, rd.dev, r);
    assert SleepWriteWake(r, rd.dev.bus, rd.value, Mode1Reg, v);
    r
  }

  /** The lifecycle guard: once a driver is a proxy addresser it stays one,
      `init` leaves it alone, and channel reads, frequency changes and
      address edits neither change it nor touch the bus. */
  lemma ProxyRefusesConfiguration(d: Pca9685, modes: OutputModes, balancer: PhaseBalancer,
                                  channel: int, slot: AddressSlot, address: Byte, rawPrescaler: int)
    requires d.modes.driverMode == DriverMode.Undefined && !d.isProxyAddresser
    ensures var p := InitAsProxyAddresser(d);
            && p.isProxyAddresser && p.bus == d.bus
            && Init(p, modes, balancer) == p
            && GetChannelPWM(p, channel) == Reading(p, 0)
            && SetPWMFrequency(p, false, rawPrescaler) == p
            && EnableAddress(p, slot, address) == p
            && DisableAddress(p, slot) == p
            && InitAsProxyAddresser(p) == p
  {
  }

  /** Once `init` has set a driver mode, the driver can no longer become a
      proxy addresser. */
  lemma InitThenProxyRefused(d: Pca9685, modes: OutputModes, balancer: PhaseBalancer)
    requires !d.isProxyAddresser && SupportedModes(modes)
    requires modes.driverMode != DriverMode.Undefined
    ensures var i := Init(d, modes, balancer);
            InitAsProxyAddresser(i) == i && !i.isProxyAddresser
  {
  }
}
