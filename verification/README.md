# PCA9685 driver core, modelled in Dafny

A model of the core of the PCA9685-Arduino driver (`src/PCA9685.cpp`). The
PCA9685 is a 16-channel, 12-bit PWM controller on a two-wire (I2C) bus.

The model covers:

- **Phase-cycle calculator.** `getPhaseCycle` turns a requested PWM amount
  into the (ON tick, OFF tick) pair of 16-bit values a channel stores. It
  follows the chosen phase-balancing policy and the chip's bit-12
  "full on" / "full off" flags.
- **Read-back decoder.** This is the decoder inside `getChannelPWM`.
- **Serialisation.** A pair is written as four register bytes, low byte
  first. The `PCA9685_SWAP_PWM_BEG_END_REGS` build option puts OFF before
  ON.
- **Single-transaction operations.** These are `setChannelPWM`,
  `setChannelOn`, `setChannelOff`, `setAllChannelsPWM`, `getChannelPWM`,
  `writeRegister`, `readRegister` and `resetDevices`.
- **Multi-channel write.** `setChannelsPWM` clips the run of channels at
  channel 15. It cuts the run into chunks that fit the bus buffer, and
  stops after the first transaction that fails.
- **Configuration operations.** These are `getMode2Value`, module and proxy
  address normalisation, the `init` / `initAsProxyAddresser` lifecycle,
  the ALLCALL / SUBADR enable and disable operations, and the PRE_SCALE and
  EXTCLK updates made while the oscillator sleeps.
- **Last bus error.** Every transaction's begin clears `_lastI2CError`, and
  its end stores the bus's result code there. A read of the wrong length
  sets error 4.
- **Servo constructors.** The integer part of the `PCA9685_ServoEval`
  constructors: the clamping of the calibration amounts, and the choice
  between a line and a spline.

The bus is modelled by a script. `Transport.Bus` holds three things:

- a trace of finished transactions
- a script of the result codes `endTransmission` will return
- a script of the byte strings `requestFrom` will deliver

Every operation is a pure function or method from a driver record to the
driver record after the call. Its contract says which events it appended
to the trace, what `lastI2CError` became, and how much of each script it
used.

Modules, one per file:

| file | module | contents |
|---|---|---|
| `bytes.dfy` | `Bytes` | `uint8_t` / `uint16_t`, `lowByte`, `highByte` and reassembly |
| `transport.dfy` | `Transport` | bus trace and scripted answers |
| `phase_cycle.dfy` | `PhaseCycle` | encoder, decoder, and the chip's tick-level reading of a pair |
| `registers.dfy` | `Registers` | register map and pair serialisation |
| `config.dfy` | `Config` | MODE2, address normalisation and the prescaler clamp |
| `driver.dfy` | `Driver` | the driver record and its single-transaction operations |
| `batch.dfy` | `ChannelBatch` | `setChannelsPWM` |
| `servo_eval.dfy` | `ServoEval` | servo constructors |

`PhaseCycle.OutputHigh` gives an independent reference for the encoder and
the decoder. It says whether the output is high at a given tick of the
4096-tick cycle, following section 7.3.3 of the PCA9685 datasheet. The chip
tests the full-on and full-off flags as bit 12 of each value, and
`OutputHigh` tests the value against 4096. The two agree on every value an
LEDn register can hold, because bits 13-15 are reserved and read as 0. For a
16-bit pair with any of those bits set, `OutputHigh` gives the decoder's
reading and not necessarily the chip's. `HighTicks` counts those ticks. The decoder is proved to
return that count, and every encoded pair is proved to drive the output
high over one window of the requested width.

## Model

| member | source | states |
|---|---|---|
| Bytes.WordOfBytes | src/PCA9685.cpp:763-767 | Splitting a 16-bit value into `lowByte` and `highByte` and reassembling it (the low byte plus the high byte shifted up by 8) gives the value back. |
| Bytes.BytesOfWord | src/PCA9685.cpp:517-521 | Two bytes read from the bus, reassembled into a 16-bit value and split again, are the same two bytes. |
| PhaseCycle.PhaseCycleCases | src/PCA9685.cpp:695-734 | A zero amount encodes as full OFF (0, 4096), and an amount of at least 4096 as full ON (4096, 0). Otherwise the pair is a window `0 <= begin <= end <= 4095` with `end - begin` equal to the amount. ALL_LED and every non-Linear policy start the window at tick 0. Linear puts the window over the channel's step `channel * 256`. The window is centred on the step when half the amount fits below the step and the other half fits up to tick 4095. It starts at tick 0 when the first half does not fit below the step. Otherwise it ends at tick 4095 when the second half does not fit. |
| PhaseCycle.DecodePhaseCycle | src/PCA9685.cpp:541-558 | The decoded amount is at most 4096. Full OFF (end bit 12) reads as 0 whatever the begin value. Otherwise full ON reads as 4096, and two tick positions read as less than a full cycle. |
| PhaseCycle.DecodeCountsHighTicks | src/PCA9685.cpp:540-558 | For every register pair, including wrapped windows and pairs the encoder never produces, the decoder returns the number of ticks per cycle at which the chip drives the output high. |
| PhaseCycle.HighTicksClosedForm | src/PCA9685.cpp:551-558 | The number of high ticks in every prefix of the cycle, in closed form, for the same-cycle window and for the window that spans the cycle end. |
| PhaseCycle.EncodedOutputWindow | src/PCA9685.cpp:695-734 | Every encoded pair, read the way the chip reads it, holds the output high on exactly one contiguous run of `min(amount, 4096)` ticks, starting at the begin tick. |
| PhaseCycle.DecodeEncode | src/PCA9685.cpp:695-734 | For every policy and channel, decoding the encoded pair gives `min(amount, 4096)`. |
| PhaseCycle.EncodeInjective | src/PCA9685.cpp:695-734 | Two amounts of at most 4096 that encode to the same pair on the same channel under the same policy are equal. |
| Registers.ChannelRegisterValue | src/PCA9685.cpp:736-742 | The first register of channel `c` is `0x06 + 4 * c`. For the ALL_LED argument it is `0xFA`. |
| Registers.ChannelRegisterInjective | src/PCA9685.cpp:736-742 | The register map can be read back: every channel argument has its own first register. |
| Registers.PairBytes | src/PCA9685.cpp:763-773 | Four bytes are written. The first two reassemble to the begin value and the last two to the end value, or the other way round under the swap option. |
| Registers.SwappedPairBytes | src/PCA9685.cpp:763-773 | The swap option exchanges the two 2-byte halves and changes nothing else. |
| Registers.ReadPairBytes | src/PCA9685.cpp:517-527 | Reading the four bytes in the order the same build wrote them gives back the written pair, for both settings of the swap option. |
| Registers.PairBytesRead | src/PCA9685.cpp:517-527 | Writing a pair that was read gives back the same four bytes. The read path loses nothing. |
| Config.Mode2Value | src/PCA9685.cpp:327-350 | The MODE2 value stays within bits 0x1F. It never has both OUTNE bits (0x01 and 0x02). Each bit is set if and only if its mode was chosen: TotemPole, Inverted, High, Floating, AfterAck. |
| Config.Mode2RoundTrip | src/PCA9685.cpp:327-350 | Reading the modes back from the MODE2 value gives the chosen modes. The only loss is that the `Count` and `Undefined` placeholders read as the default mode. |
| Config.ModuleAddress | src/PCA9685.cpp:188 | A normalised module address has the top bits `01`. Its low six bits come from the given address. |
| Config.ProxyAddress | src/PCA9685.cpp:273 | A normalised proxy, ALLCALL or SUBADR address has the top bits `111` and a clear bit 0. Bits 1-4 come from the given address. |
| Config.AddressNormalisationIdempotent | src/PCA9685.cpp:571 | Normalising an address that is already normalised changes nothing, for both address kinds. |
| Config.PrescalerClamp | src/PCA9685.cpp:362-364 | The PRE_SCALE value written is within [3, 255]. A prescaler already in that range is written unchanged. |
| Config.PrescalerClampMonotone | src/PCA9685.cpp:363-364 | A larger computed prescaler never gives a smaller PRE_SCALE value. |
| Driver.Transaction | src/PCA9685.cpp:845-861 | A write transaction appends one event carrying the bus's result code, and leaves that code as the last error. The earlier error is cleared by the begin. Nothing but the bus and the error changes. |
| Driver.SetChannelPWM | src/PCA9685.cpp:415-430 | An out-of-range channel changes nothing. Otherwise exactly one 5-byte transaction goes to the channel's register. The pair it carries reads back as the channel's encoded pair, and decodes to `min(amount, 4096)`. |
| Driver.SetChannelOn | src/PCA9685.cpp:391-401 | An out-of-range channel changes nothing. Otherwise one transaction goes to the channel's register, and its pair decodes to full ON. |
| Driver.SetChannelOff | src/PCA9685.cpp:403-413 | An out-of-range channel changes nothing. Otherwise one transaction goes to the channel's register, and its pair decodes to full OFF. |
| Driver.OnOffAreFullAndZeroPWM | src/PCA9685.cpp:391-413 | `setChannelOn` and `setChannelOff` produce exactly the bus traffic and state of `setChannelPWM` with 4096 and with 0, under every policy. |
| Driver.SetAllChannelsPWM | src/PCA9685.cpp:467-480 | One transaction goes to the ALL_LED registers. It carries the pair `getPhaseCycle` computes for ALL_LED, whose window starts at tick 0 and which decodes to `min(amount, 4096)`. |
| Driver.AllChannelsIgnoreBalancer | src/PCA9685.cpp:706-709 | The policy has no effect on what the ALL_LED write sends. |
| Driver.GetChannelPWM | src/PCA9685.cpp:482-566 | The result is within [0, 4096]. An invalid channel or a proxy reads 0 with no bus traffic and no change. A failed address write reads 0 and keeps that failure's code as the last error. A reply that is not 4 bytes long reads 0 and sets error 4. Otherwise the result is the number of high ticks of the pair read. Past the guard, one end code is used, and one reply exactly when the address write succeeded. |
| Driver.WriteThenReadChannel | src/PCA9685.cpp:482-566 | Reading back the four bytes `setChannelPWM` just wrote gives `min(amount, 4096)`. |
| Driver.WriteRegister | src/PCA9685.cpp:784-800 | One transaction of the register and the value. The last error becomes its result code. |
| Driver.ReadRegister | src/PCA9685.cpp:802-843 | Same cases as `getChannelPWM`, for one byte: a failed address write returns 0 with its error. A 1-byte reply returns that byte with error 0. Any other reply length returns 0 with error 4. One end code is used, and one reply exactly when the address write succeeded. |
| Driver.WriteThenReadRegister | src/PCA9685.cpp:802-843 | Reading back the byte `writeRegister` just wrote, from a chip that answers with it, gives that value and no error. |
| Driver.ResetDevices | src/PCA9685.cpp:161-179 | One transaction sends the software-reset byte 0x06 to bus address 0x00, not to the module's own address. Its result code becomes the last error. One end code is used and no reply. |
| Driver.Init | src/PCA9685.cpp:181-260 | A proxy addresser is left unchanged, whatever the modes. Otherwise the address is normalised and the modes and policy are stored. Then MODE1 (RESTART, AUTOINC) and MODE2 (the modes' value) are written, in that order, to the normalised address. They end with the first two scripted codes, the second becomes the last error, and no reply is used. |
| Driver.InitAsProxyAddresser | src/PCA9685.cpp:270-289 | Refused once a driver mode is set. Otherwise the driver switches to the normalised proxy address without any bus traffic. |
| Driver.EnableAddress | src/PCA9685.cpp:568-630 | Refused on a proxy. Otherwise the events are exactly: the normalised address written to the slot's register, the MODE1 read (`readRegister`), then one MODE1 write with the slot's bit set and every other bit as read. The last error is that write's scripted code. |
| Driver.DisableAddress | src/PCA9685.cpp:632-674 | Refused on a proxy. Otherwise the events are exactly the MODE1 read (`readRegister`), then one MODE1 write with the slot's bit cleared and every other bit as read. The last error is that write's scripted code. |
| Driver.SleepWakeBits | src/PCA9685.cpp:375-379 | Putting the oscillator to sleep sets SLEEP, clears RESTART and keeps every other MODE1 bit. Waking it clears SLEEP, sets RESTART and keeps every other MODE1 bit. |
| Driver.SetPWMFrequency | src/PCA9685.cpp:357-381 | Refused for a negative frequency or on a proxy. Otherwise MODE1 is read, and exactly three writes follow. The first is MODE1 asleep, with SLEEP set, RESTART clear and every other bit as read. Then comes the clamped PRE_SCALE. Last is MODE1 awake, with SLEEP clear, RESTART set and every other bit as read. The writes end with the next three scripted codes, and the last becomes the error. |
| Driver.EnableExtClockLine | src/PCA9685.cpp:676-689 | MODE1 is read, and exactly three writes follow. The first is MODE1 asleep, with every other bit as read. Then comes MODE1 with EXTCLK and SLEEP set, RESTART clear and every other bit as read. Last is MODE1 awake, which keeps EXTCLK and the other bits. The writes end with the next three scripted codes, and the last becomes the error. |
| Driver.ProxyRefusesConfiguration | src/PCA9685.cpp:270-289 | Once a driver is a proxy addresser, it stays one. `init` with any modes (including the combination `init` asserts against), channel reads, frequency changes, address enables and disables, and a second `initAsProxyAddresser` all leave it unchanged, and none touches the bus. |
| Driver.InitThenProxyRefused | src/PCA9685.cpp:270-271 | After `init` has set a driver mode, `initAsProxyAddresser` does nothing. |
| ChannelBatch.ClippedCount | src/PCA9685.cpp:433-434 | The clipped run is `min(numChannels, 16 - begChannel)` channels long. |
| ChannelBatch.ChunkSize | src/PCA9685.cpp:450 | At least one channel fits in a transaction. `k` is the largest count whose register byte plus four bytes per channel fit the buffer: `1 + 4k <= length < 1 + 4(k + 1)`, which is `(length - 1) / 4`. |
| ChannelBatch.ChunkBytes | src/PCA9685.cpp:447-460 | One transaction's bytes: the first channel's register, then the channels' pair bytes in channel order. |
| ChannelBatch.SentTrace | src/PCA9685.cpp:446-464 | After `s` transactions, the trace has gained one write event per frame, in order, each with its own scripted result code. |
| ChannelBatch.SendChunks | src/PCA9685.cpp:446-464 | The loop sends the frames in order. It stops early only directly after a transaction with a nonzero result, and every earlier transaction succeeded. |
| ChannelBatch.SetChannelsPWM | src/PCA9685.cpp:432-465 | A first channel outside 0-15 or a negative count sends nothing and changes nothing. Otherwise the batch's frames are sent in order, stopping after the first failed transaction. |
| ChannelBatch.SetChannelsPWMLayout | src/PCA9685.cpp:446-460 | With `k` channels per transaction, transaction `i` starts at the register of channel `begChannel + i*k`. Its slot `q` reads back as the phase pair of channel `begChannel + i*k + q` at its own amount (`RunPair`). No transaction is longer than the buffer. |
| ChannelBatch.SetChannelsPWMCount | src/PCA9685.cpp:433-450 | With `n = min(numChannels, 16 - begChannel)`, the batch has `ceil(n / k)` transactions. There are none exactly when `n` is 0. |
| ChannelBatch.SetChannelsPWMLengths | src/PCA9685.cpp:433-460 | Transaction `i` is the register byte plus `4 * min(k, n - i*k)` bytes. Every transaction but the last is full, and the last holds the rest of the clipped run of `n`, so nothing is written beyond the run. |
| ChannelBatch.FrameLengths | src/PCA9685.cpp:446-460 | For any run of 4-byte channel units, every transaction holds its register byte and its own channels, `k` of them or the rest of the run. |
| ChannelBatch.SingleChannelBatch | src/PCA9685.cpp:446-464 | A batch of one channel sends exactly the transaction `setChannelPWM` sends for that channel, and leaves the same driver and last error. |
| ServoEval.NewLineServo | src/PCA9685.cpp:1047-1058 | For every input, the minimum is brought into [0, 4096] and the maximum into [clamped minimum, 4096]. Each is kept when it lies in its range, and otherwise becomes the bound it is beyond. Ordered inputs are kept as given. |
| ServoEval.NewServo | src/PCA9685.cpp:1060-1111 | For every input, each amount is brought into the range from the clamped amount before it up to 4096. It is kept when it lies in that range, and otherwise becomes the bound it is beyond. A spline passes through the three clamped amounts, which are unevenly spaced. A line runs between the clamped outer amounts, and the clamped middle amount is their midpoint. For ordered inputs the curve passes through all three amounts when they are unevenly spaced, and through the outer two otherwise. |
| ServoEval.ClampedAmountsUnique | src/PCA9685.cpp:1062-1064 | The clamping determines the three amounts: no two different triples are both the clamped amounts of the same inputs. |
| ServoEval.SplineExactlyWhenUneven | src/PCA9685.cpp:1062-1067 | For every input, the curve runs from the clamped minimum to the clamped maximum. It is a spline if and only if the clamped amounts are unevenly spaced, and a spline's middle amount is the clamped middle. |
| ServoEval.EvenSpacingIsLine | src/PCA9685.cpp:1104-1110 | When the three-amount constructor settles on a line, it is the line the two-amount constructor builds from the outer amounts. |
| ServoEval.RebuildIsIdentity | src/PCA9685.cpp:1063-1067 | Rebuilding from the amounts of an ordered curve gives the same curve. The curve kind is stable. |
| ServoEval.ConstructorsIdempotent | src/PCA9685.cpp:1047-1067 | Every curve either constructor builds can be rebuilt from its own amounts unchanged. |

Where the code and the library's documented design differ, the model
follows the code:

- The phase-balancer enumeration also has `Count` and `Undefined` values.
  A driver that was never initialised holds `Undefined`. The encoder
  treats both like `None`, and so does the model.
- `init` can be called again, and it then overwrites the stored policy and
  modes.
- `enableExtClockLine` has no proxy guard. The other configuration
  operations have one.

## Left out

- I/O is not modelled. The `TwoWire` object, bus speed and the actual
  electrical transfer become the scripted `Transport.Bus`. Its result codes
  and replies are inputs.
- The software-I2C build variant (`PCA9685_USE_SOFTWARE_I2C`) is left out.
  It has no buffer limit, and its manual stop bits are not modelled. The
  model is the hardware `Wire` build.
- Debug output (`PCA9685_ENABLE_DEBUG_OUTPUT`, `printModuleInfo`,
  `checkForErrors`) is left out. It only prints.
- Delays (`_uDelayMicrosFunc(500)`, `_uDelayMicrosFunc(10)`) and
  `setUserDelayFuncs` are left out. Timing is not modelled.
- Driver.SetPWMFrequency: the floating-point formula
  `25000000 / (4096 * f) - 1` is not modelled. The model takes the
  truncated result and whether the frequency is negative as inputs, and
  clamps and writes it as the code does. `setPWMFreqServo` and
  `setPWMFreqLED` only call it with 50 and 60.
- Driver.Init: the C `assert` that refuses OpenDrain with the High disabled
  mode is a precondition. It applies only to a driver that is not a proxy
  addresser, because a proxy returns before the assertion. The balancer-first overload of `init` only
  reorders arguments.
- Driver.ReadRegister and Driver.GetChannelPWM: the bytes drained after a
  wrong-length reply are not modelled. The model records the reply as
  delivered.
- Getters (`getI2CAddress`, `getI2CSpeed`, `getOutputDriverMode`,
  `getLastI2CError` and the others) are left out. They return a field of
  the driver record.
- Memory management and destructors are left out, and so are the
  servo's floating-point spline coefficients.
- `pwmForAngle` and `pwmForSpeed` are left out. They evaluate those
  floating-point coefficients.
- ServoEval.NewLineServo and ServoEval.NewServo: the curve is described by
  the amounts it passes through, not by its coefficients.
- ChannelBatch.SetChannelsPWM: the code computes each channel's pair inside
  the transaction loop. The model encodes the clipped run first and then
  sends it, which gives the same bus traffic. A caller whose array is
  shorter than the clipped run would make the code read past the array.
  The model requires enough amounts.
- ChannelBatch.SetChannelsPWM: the model requires a buffer length of at
  least 5. With a smaller buffer, `(BUFFER_LENGTH - 1) / 4` is 0 and the
  loop never makes progress. It sends register-only transactions until one
  fails, and forever on a bus that never fails.
- ChannelBatch.ClippedCount and ChannelBatch.SetChannelsPWM: `begChannel`
  and `numChannels` are C `int`, which is 16 bits on AVR boards. The sum
  `begChannel + numChannels` overflows, which is undefined behaviour, when
  `numChannels` exceeds `32767 - begChannel`. The model uses unbounded
  integers and clips such a run to `16 - begChannel` channels. It does not
  model what the overflowing code would do.
- The `Dynamic` policy is an unimplemented placeholder in the code. It is
  modelled as what the code does, which is the same as `None`.
