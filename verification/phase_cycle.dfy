/** The phase-cycle calculator: the mapping from a requested PWM amount to the
    (ON tick, OFF tick) register pair of a PCA9685 channel, and the inverse
    mapping used when a pair is read back. The register encoding is the one of
    section 7.3.3 of the PCA9685 datasheet: the low 12 bits of each value are a
    tick position in a 4096-tick cycle, and bit 12 is the "full" flag (full ON
    in the begin value, full OFF in the end value, full OFF winning). */
module PhaseCycle {
  import opened Bytes

  /** Bit 12: the full-on / full-off flag, and the number of ticks in a cycle. */
  const PwmFull: int := 0x1000
  /** The 12 tick-position bits. */
  const PwmMask: int := 0x0FFF
  const ChannelCount: int := 16
  /** The sentinel channel that addresses the ALL_LED registers. */
  const AllLedChannel: int := -1
  /** Step between neighbouring channels' windows under linear balancing. */
  const LinearSteps: int := 0x100  // PwmFull / ChannelCount

  /** Every value of the source's phase-balancer enumeration; `Count` and
      `Undefined` are not policies but can be stored, and `Dynamic` is an
      unimplemented placeholder. */
  datatype PhaseBalancer = None | Linear | Dynamic | Count | Undefined

  /** The channel argument the encoder is ever called with: a channel
      number or the ALL_LED sentinel. */
  type ChannelArg = c: int | AllLedChannel <= c < ChannelCount

  predicate IsChannel(channel: int) {
    0 <= channel < ChannelCount
  }

  /** A channel's two 16-bit phase registers: the tick at which the output
      goes high and the tick at which it goes low. */
  datatype PhasePair = PhasePair(begin: U16, end: U16)

  /** `x & PCA9685_PWM_MASK` for a non-negative `x`. */
  function Mask12(x: nat): (ticks: int) {
    x % PwmFull
  }

  /** The pair for one channel, `getPhaseCycle`: a zero amount is full OFF,
      an amount of at least 4096 is full ON, the ALL_LED registers are never
      phase-shifted, and otherwise the balancer decides where the window of
      `pwmAmount` ticks starts. Its properties are stated by
      `PhaseCycleCases`, kept apart so that proofs which only carry encoded
      pairs around do not pay for them. */
  function GetPhaseCycle(balancer: PhaseBalancer, channel: ChannelArg, pwmAmount: U16): (p: PhasePair)
  {
    if pwmAmount == 0 then
      PhasePair(0, PwmFull)
    else if pwmAmount >= PwmFull then
      PhasePair(PwmFull, 0)
    else if channel == AllLedChannel then
      PhasePair(0, Mask12(0 + pwmAmount))
    else
      match balancer
      case Linear =>
        var begin0 := Uint16(Max(0, channel * LinearSteps - pwmAmount / 2));
        var end := Uint16(Min(PwmFull - 1, begin0 + pwmAmount));
        PhasePair(Uint16(end - pwmAmount), end)
      case _ =>
        PhasePair(0, Mask12(0 + pwmAmount))
  }

  /** What `GetPhaseCycle` produces. Full OFF for a zero amount and full ON
      from 4096 up; in between a window of exactly `pwmAmount` ticks inside
      one cycle. Outside linear balancing (and always for ALL_LED) the window
      starts at tick 0. Under `Linear` it covers the channel's step
      `channel * 256`, is centred on it when it fits, starts at tick 0 when
      its first half does not fit before the step, and otherwise ends at tick
      4095 when its second half does not fit after it: it never wraps. */
  lemma PhaseCycleCases(balancer: PhaseBalancer, channel: ChannelArg, pwmAmount: U16)
    ensures var p := GetPhaseCycle(balancer, channel, pwmAmount);
            && (pwmAmount == 0 ==> p == PhasePair(0, PwmFull))
            && (pwmAmount >= PwmFull ==> p == PhasePair(PwmFull, 0))
            && (0 < pwmAmount < PwmFull ==>
                  0 <= p.begin <= p.end <= PwmMask && p.end - p.begin == pwmAmount)
            && (0 < pwmAmount < PwmFull && (channel == AllLedChannel || balancer != Linear) ==>
                  p.begin == 0)
            && (0 < pwmAmount < PwmFull && channel != AllLedChannel && balancer == Linear ==>
                  p.begin <= channel * LinearSteps <= p.end)
            && (0 < pwmAmount < PwmFull && channel != AllLedChannel && balancer == Linear &&
                pwmAmount / 2 <= channel * LinearSteps && channel * LinearSteps + (pwmAmount - pwmAmount / 2) <= PwmMask ==>
                  p.begin == channel * LinearSteps - pwmAmount / 2)
            && (0 < pwmAmount < PwmFull && channel != AllLedChannel && balancer == Linear &&
                pwmAmount / 2 >= channel * LinearSteps ==>
                  p.begin == 0)
            && (0 < pwmAmount < PwmFull && channel != AllLedChannel && balancer == Linear &&
                pwmAmount / 2 <= channel * LinearSteps && channel * LinearSteps + (pwmAmount - pwmAmount / 2) > PwmMask ==>
                  p.end == PwmMask)
  {
  }

  /** The read-back decoder of `getChannelPWM`: full OFF first, then full
      ON, then the window width, with wraparound when the window crosses the
      cycle boundary. */
  function DecodePhaseCycle(p: PhasePair): (pwmAmount: nat)
    ensures pwmAmount <= PwmFull
    ensures p.end >= PwmFull ==> pwmAmount == 0
    ensures p.end < PwmFull && p.begin >= PwmFull ==> pwmAmount == PwmFull
    ensures p.end < PwmFull && p.begin < PwmFull ==> pwmAmount < PwmFull
  {
    if p.end >= PwmFull then 0
    else if p.begin >= PwmFull then PwmFull
    else if p.begin <= p.end then p.end - p.begin
    else (p.end + PwmFull) - p.begin
  }

  /** Whether the output is high at `tick` of a cycle, read off the register
      pair the way the chip does: full OFF overrides everything, full ON
      overrides the ticks, and otherwise the output is high from the begin
      tick up to (not including) the end tick, wrapping at the cycle end. */
  predicate OutputHigh(p: PhasePair, tick: int) {
    if p.end >= PwmFull then false
    else if p.begin >= PwmFull then true
    else if p.begin <= p.end then p.begin <= tick < p.end
    else p.begin <= tick || tick < p.end
  }

  /** The number of ticks in `[0, n)` at which the output is high. */
  function HighTicks(p: PhasePair, n: nat): (count: nat)
    ensures count <= n
  {
    if n == 0 then 0
    else HighTicks(p, n - 1) + (if OutputHigh(p, n - 1) then 1 else 0)
  }

  /** `HighTicks` in closed form, for every prefix of the tick line. */
  lemma {:induction false} HighTicksClosedForm(p: PhasePair, n: nat)
    ensures p.end >= PwmFull ==> HighTicks(p, n) == 0
    ensures p.end < PwmFull && p.begin >= PwmFull ==> HighTicks(p, n) == n
    ensures p.end < PwmFull && p.begin < PwmFull && p.begin <= p.end ==>
              HighTicks(p, n) == Max(0, Min(n, p.end) - p.begin)
    ensures p.end < PwmFull && p.begin < PwmFull && p.begin > p.end ==>
              HighTicks(p, n) == Min(n, p.end) + Max(0, n - p.begin)
  {
    if n > 0 {
      HighTicksClosedForm(p, n - 1);
    }
  }

  /** The decoder returns exactly the number of ticks of one cycle during
      which the chip drives the output high. */
  lemma {:induction false} DecodeCountsHighTicks(p: PhasePair)
    ensures DecodePhaseCycle(p) == HighTicks(p, PwmFull)
  {
    HighTicksClosedForm(p, PwmFull);
  }

  /** Every encoded pair, read the way the chip reads it, keeps the output
      high for one contiguous window of exactly `pwmAmount` ticks (all or none
      of the cycle for the two full encodings). */
  lemma EncodedOutputWindow(balancer: PhaseBalancer, channel: ChannelArg, pwmAmount: U16, tick: int)
    requires 0 <= tick < PwmFull
    ensures var p := GetPhaseCycle(balancer, channel, pwmAmount);
            OutputHigh(p, tick) <==> p.begin % PwmFull <= tick < p.begin % PwmFull + Min(pwmAmount, PwmFull)
  {
    PhaseCycleCases(balancer, channel, pwmAmount);
  }

  /** Decoding an encoded pair gives back the requested amount, saturated at
      full ON, for every channel argument and every balancer. */
  lemma DecodeEncode(balancer: PhaseBalancer, channel: ChannelArg, pwmAmount: U16)
    ensures DecodePhaseCycle(GetPhaseCycle(balancer, channel, pwmAmount)) == Min(pwmAmount, PwmFull)
  {
    PhaseCycleCases(balancer, channel, pwmAmount);
  }

  /** Two amounts within the duty range encode to the same pair only if they
      are equal: the encoding loses nothing. */
  lemma EncodeInjective(balancer: PhaseBalancer, channel: ChannelArg, a: U16, b: U16)
    requires a <= PwmFull && b <= PwmFull
    requires GetPhaseCycle(balancer, channel, a) == GetPhaseCycle(balancer, channel, b)
    ensures a == b
  {
    DecodeEncode(balancer, channel, a);
    DecodeEncode(balancer, channel, b);
  }
}
