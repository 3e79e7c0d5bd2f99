/** Device configuration: the output modes assembled into the MODE2 register,
    the normalisation of bus addresses, and the PRE_SCALE clamp. */
module Config {
  import opened Bytes

  datatype DriverMode = OpenDrain | TotemPole | Count | Undefined
  datatype EnabledMode = Normal | Inverted | Count | Undefined
  datatype DisabledMode = Low | High | Floating | Count | Undefined
  datatype UpdateMode = AfterStop | AfterAck | Count | Undefined

  /** The four output-mode settings `init` stores. */
  datatype OutputModes = OutputModes(
    driverMode: DriverMode,
    enabledMode: EnabledMode,
    disabledMode: DisabledMode,
    updateMode: UpdateMode)

  const UndefinedModes := OutputModes(DriverMode.Undefined, EnabledMode.Undefined,
                                      DisabledMode.Undefined, UpdateMode.Undefined)

  /** The one combination `init` refuses to be called with. */
  predicate SupportedModes(m: OutputModes) {
    !(m.driverMode == OpenDrain && m.disabledMode == High)
  }

  const Mode2OutNeTpHigh: Byte := 0x01
  const Mode2OutNeHighZ: Byte := 0x02
  const Mode2OutDrvTotemPole: Byte := 0x04
  const Mode2OchOnAck: Byte := 0x08
  const Mode2Invrt: Byte := 0x10

  /** MODE2 as `getMode2Value` assembles it: one bit per non-default mode,
      and at most one of the two OUTNE bits. */
  function Mode2Value(m: OutputModes): (v: Byte)
    ensures v & !0x1F == 0
    ensures v & 0x03 != 0x03
    ensures (v & Mode2OutDrvTotemPole != 0) <==> m.driverMode == TotemPole
    ensures (v & Mode2Invrt != 0) <==> m.enabledMode == Inverted
    ensures (v & Mode2OutNeTpHigh != 0) <==> m.disabledMode == High
    ensures (v & Mode2OutNeHighZ != 0) <==> m.disabledMode == Floating
    ensures (v & Mode2OchOnAck != 0) <==> m.updateMode == AfterAck
  {
    var v0: Byte := 0x00;
    var v1 := if m.driverMode == TotemPole then v0 | Mode2OutDrvTotemPole else v0;
    var v2 := if m.enabledMode == Inverted then v1 | Mode2Invrt else v1;
    var v3 := if m.disabledMode == High then v2 | Mode2OutNeTpHigh
              else if m.disabledMode == Floating then v2 | Mode2OutNeHighZ
              else v2;
    if m.updateMode == AfterAck then v3 | Mode2OchOnAck else v3
  }

  /** The modes a MODE2 value selects; values the register cannot tell
      apart from the default (`Count`, `Undefined`) read as the default. */
  function Mode2Modes(v: Byte): (modes: OutputModes) {
    OutputModes(
      if v & Mode2OutDrvTotemPole != 0 then TotemPole else OpenDrain,
      if v & Mode2Invrt != 0 then Inverted else Normal,
      if v & Mode2OutNeTpHigh != 0 then High
      else if v & Mode2OutNeHighZ != 0 then Floating
      else Low,
      if v & Mode2OchOnAck != 0 then AfterAck else AfterStop)
  }

  /** A setting with its register-invisible values replaced by the default. */
  function Canonical(m: OutputModes): (c: OutputModes) {
    OutputModes(
      if m.driverMode == TotemPole then TotemPole else OpenDrain,
      if m.enabledMode == Inverted then Inverted else Normal,
      if m.disabledMode.High? || m.disabledMode.Floating? then m.disabledMode else Low,
      if m.updateMode == AfterAck then AfterAck else AfterStop)
  }

  /** MODE2 loses only the distinction between a default mode and the
      `Count` / `Undefined` placeholders. */
  lemma Mode2RoundTrip(m: OutputModes)
    ensures Mode2Modes(Mode2Value(m)) == Canonical(m)
  {
  }

  const BaseModuleAddress: Byte := 0x40
  const BaseModuleAddrMask: Byte := 0x3F
  const BaseProxyAddress: Byte := 0xE0
  const BaseProxyAddrMask: Byte := 0xFE

  /** A module's 7-bit bus address: binary 1 A5 A4 A3 A2 A1 A0. */
  function ModuleAddress(a: Byte): (r: Byte)
    ensures r & 0xC0 == 0x40
    ensures r & 0x3F == a & 0x3F
  {
    BaseModuleAddress | (a & BaseModuleAddrMask)
  }

  /** A proxy, ALLCALL or SUBADR address: binary 1 1 1 A4 A3 A2 A1 0. */
  function ProxyAddress(a: Byte): (r: Byte)
    ensures r & 0xE1 == 0xE0
    ensures r & 0x1E == a & 0x1E
  {
    BaseProxyAddress | (a & BaseProxyAddrMask)
  }

  /** Normalising twice is normalising once, for both address kinds. */
  lemma AddressNormalisationIdempotent(a: Byte)
    ensures ModuleAddress(ModuleAddress(a)) == ModuleAddress(a)
    ensures ProxyAddress(ProxyAddress(a)) == ProxyAddress(a)
  {
  }

  /** The PRE_SCALE value `setPWMFrequency` writes for a prescaler computed
      from the requested frequency: clamped to the chip's range [3, 255]. */
  function PrescalerClamp(raw: int): (v: Byte)
    ensures 3 <= v as int <= 255
    ensures 3 <= raw <= 255 ==> v as int == raw
  {
    var clamped := if raw > 255 then 255 else if raw < 3 then 3 else raw;
    ToByte(clamped)
  }

  /** A larger raw prescaler never gives a smaller register value. */
  lemma PrescalerClampMonotone(raw1: int, raw2: int)
    requires raw1 <= raw2
    ensures PrescalerClamp(raw1) as int <= PrescalerClamp(raw2) as int
  {
  }
}
