/** `setChannelsPWM`: a run of consecutive channels written with as few
    transactions as the bus buffer allows. The run is clipped to the last
    channel, cut into chunks of at most `(bufferLength - 1) / 4` channels
    (one byte of each transaction is the register address), each chunk is one
    transaction starting at its first channel's register, and the first chunk
    whose transaction fails ends the call. */
module ChannelBatch {
  import opened Bytes
  import opened PhaseCycle
  import opened Registers
  import opened Transport
  import opened Driver

  /** The number of channels written once the run is clipped at channel 15. */
  function ClippedCount(begChannel: int, numChannels: int): (n: int)
    requires IsChannel(begChannel) && numChannels >= 0
    ensures n == Min(numChannels, ChannelCount - begChannel)
  {
    if begChannel + numChannels > 16 then numChannels - ((begChannel + numChannels) - 16)
    else numChannels
  }

  /** Channels per transaction; the register address takes one buffer byte. */
  function ChunkSize(bufferLength: int): (k: int)
    requires bufferLength >= 5
    ensures 1 <= k && 1 + 4 * k <= bufferLength
    ensures bufferLength < 1 + 4 * (k + 1)
  {
    (bufferLength - 1) / 4
  }

  /** The phase pair of each channel of a run starting at `channel`, in
      channel order. */
  function ChannelPairs(balancer: PhaseBalancer, channel: int, amounts: seq<U16>): (pairs: seq<PhasePair>)
    requires 0 <= channel && channel + |amounts| <= ChannelCount
    ensures |pairs| == |amounts|
  {
    seq(|amounts|, i requires 0 <= i < |amounts| => GetPhaseCycle(balancer, channel + i, amounts[i]))
  }

  /** The four register bytes of each pair, in order. */
  function PairUnits(pairs: seq<PhasePair>, swapBegEnd: bool): (units: seq<seq<Byte>>)
    ensures |units| == |pairs|
    decreases |pairs|
  {
    if |pairs| == 0 then []
    else PairUnits(pairs[..|pairs| - 1], swapBegEnd) + [PairBytes(pairs[|pairs| - 1], swapBegEnd)]
  }

  predicate Quads(units: seq<seq<Byte>>) {
    forall i :: 0 <= i < |units| ==> |units[i]| == 4
  }

  /** Unit `j` is pair `j`'s bytes. */
  lemma {:induction false} UnitIs(pairs: seq<PhasePair>, swapBegEnd: bool, j: int)
    requires 0 <= j < |pairs|
    ensures PairUnits(pairs, swapBegEnd)[j] == PairBytes(pairs[j], swapBegEnd)
    decreases |pairs|
  {
    var last := |pairs| - 1;
    if j < last {
      UnitIs(pairs[..last], swapBegEnd, j);
      assert pairs[..last][j] == pairs[j];
    }
  }

  /** Every pair takes four bytes. */
  lemma PairUnitsQuads(pairs: seq<PhasePair>, swapBegEnd: bool)
    ensures Quads(PairUnits(pairs, swapBegEnd))
  {
    forall j | 0 <= j < |pairs|
      ensures |PairUnits(pairs, swapBegEnd)[j]| == 4
    {
      UnitIs(pairs, swapBegEnd, j);
    }
  }

  /** Units `lo` up to (not including) `hi`, laid end to end. */
  function Chunk(units: seq<seq<Byte>>, lo: int, hi: int): (bytes: seq<Byte>)
    requires 0 <= lo <= hi <= |units|
    decreases hi - lo
  {
    if lo == hi then [] else Chunk(units, lo, hi - 1) + units[hi - 1]
  }

  lemma {:induction false} ChunkLength(units: seq<seq<Byte>>, lo: int, hi: int)
    requires 0 <= lo <= hi <= |units| && Quads(units)
    ensures |Chunk(units, lo, hi)| == 4 * (hi - lo)
    decreases hi - lo
  {
    if lo < hi {
      ChunkLength(units, lo, hi - 1);
    }
  }

  /** Unit `lo + q` sits at bytes `4 * q .. 4 * q + 4` of the chunk. */
  lemma {:induction false} ChunkUnit(units: seq<seq<Byte>>, lo: int, hi: int, q: int)
    requires 0 <= lo <= hi <= |units| && Quads(units)
    requires 0 <= q < hi - lo
    ensures |Chunk(units, lo, hi)| == 4 * (hi - lo)
    ensures Chunk(units, lo, hi)[4 * q .. 4 * q + 4] == units[lo + q]
    decreases hi - lo
  {
    ChunkLength(units, lo, hi);
    ChunkLength(units, lo, hi - 1);
    if q < hi - 1 - lo {
      ChunkUnit(units, lo, hi - 1, q);
    }
  }

  /** The number of transactions a run of `n` channels takes at `k`
      channels per transaction. */
  function ChunkCount(k: int, n: int): (count: nat)
    requires k >= 1
    decreases n
  {
    if n <= 0 then 0 else 1 + ChunkCount(k, n - k)
  }

  /** Transaction `i` of a run of `k`-channel chunks: the register byte of
      its first channel, then the units of its channels. */
  function FrameOf(k: int, channel: int, units: seq<seq<Byte>>, i: nat): (frame: seq<Byte>)
    requires k >= 1 && 0 <= channel && channel + |units| <= ChannelCount && ChunkStart(k, i) < |units|
  {
    var start := ChunkStart(k, i);
    [ChannelRegister(channel + start)] + Chunk(units, start, Min(start + k, |units|))
  }

  /** The transactions for a whole run of units starting at `channel`. */
  function Frames(k: int, channel: int, units: seq<seq<Byte>>): (frames: seq<seq<Byte>>)
    requires k >= 1 && 0 <= channel && channel + |units| <= ChannelCount
    ensures |frames| == ChunkCount(k, |units|)
  {
    var count := ChunkCount(k, |units|);
    seq(count, i requires 0 <= i < count =>
      ChunkCountCovers(k, |units|, i);
      FrameOf(k, channel, units, i))
  }

  /** The bytes of slot `q` of a transaction (after the register byte). */
  function FrameChannelBytes(frame: seq<Byte>, q: nat): (bytes: seq<Byte>)
    requires 5 + 4 * q <= |frame|
  {
    frame[1 + 4 * q .. 5 + 4 * q]
  }

  /** The position in the run of transaction `i`'s first channel. */
  function ChunkStart(k: nat, i: nat): (start: nat)
  {
    if i == 0 then 0 else ChunkStart(k, i - 1) + k
  }

  /** Transaction `i` starts `i` whole chunks into the run. */
  lemma {:induction false} ChunkStartIsProduct(k: nat, i: nat)
    ensures ChunkStart(k, i) == i * k
  {
    if i > 0 {
      ChunkStartIsProduct(k, i - 1);
    }
  }

  /** Transaction `i` exists exactly when its first channel is inside the run. */
  lemma {:induction false} ChunkCountCovers(k: int, n: int, i: nat)
    requires k >= 1
    ensures i < ChunkCount(k, n) <==> ChunkStart(k, i) < n
    decreases n
  {
    if n > 0 && i > 0 {
      ChunkCountCovers(k, n - k, i - 1);
      assert ChunkStart(k, i) == ChunkStart(k, i - 1) + k;
    }
  }

  /** Slot `q` of transaction `i` holds unit `ChunkStart(k, i) + q` of a run
      of 4-byte units, and the transaction starts at its slot-0 channel's register. */
  lemma {:induction false} FrameLayout(k: int, channel: int, units: seq<seq<Byte>>, frames: seq<seq<Byte>>, i: nat, q: nat)
    requires k >= 1 && 0 <= channel && channel + |units| <= ChannelCount
    requires Quads(units) && q < k && ChunkStart(k, i) + q < |units|
    requires frames == Frames(k, channel, units)
    ensures && i < |frames|
            && 5 + 4 * q <= |frames[i]| <= 1 + 4 * k
            && frames[i][0] == ChannelRegister(channel + ChunkStart(k, i))
            && FrameChannelBytes(frames[i], q) == units[ChunkStart(k, i) + q]
  {
    var start := ChunkStart(k, i);
    ChunkCountCovers(k, |units|, i);
    SlotOf(frames[i], ChannelRegister(channel + start), k, units, start, Min(start + k, |units|), q);
  }

  /** Every transaction of a run of 4-byte units is its register byte and
      its own channels: `k` of them, or the rest of the run for the last. */
  lemma {:induction false} FrameLengths(k: int, channel: int, units: seq<seq<Byte>>)
    requires k >= 1 && 0 <= channel && channel + |units| <= ChannelCount && Quads(units)
    ensures var frames := Frames(k, channel, units);
            forall i :: 0 <= i < |frames| ==> |frames[i]| == 1 + 4 * Min(k, |units| - ChunkStart(k, i))
  {
    var frames := Frames(k, channel, units);
    forall i | 0 <= i < |frames|
      ensures |frames[i]| == 1 + 4 * Min(k, |units| - ChunkStart(k, i))
    {
      ChunkCountCovers(k, |units|, i);
      var start := ChunkStart(k, i);
      ChunkLength(units, start, Min(start + k, |units|));
    }
  }

  /** Slot `q` of a transaction made of `reg` and at most `k` units `start .. hi`. */
  lemma {:induction false} SlotOf(frame: seq<Byte>, reg: Byte, k: int, units: seq<seq<Byte>>, start: int, hi: int, q: nat)
    requires 0 <= start <= hi <= |units| && hi - start <= k && Quads(units) && q < hi - start
    requires frame == [reg] + Chunk(units, start, hi)
    ensures 5 + 4 * q <= |frame| <= 1 + 4 * k && frame[0] == reg
    ensures FrameChannelBytes(frame, q) == units[start + q]
  {
    ChunkUnit(units, start, hi, q);
    BehindRegister(reg, Chunk(units, start, hi), 4 * q, 4 * q + 4);
  }

  /** Bytes behind a transaction's register byte keep their positions, shifted by one. */
  lemma BehindRegister(reg: Byte, chunk: seq<Byte>, lo: int, hi: int)
    requires 0 <= lo <= hi <= |chunk|
    ensures ([reg] + chunk)[0] == reg
    ensures ([reg] + chunk)[1 + lo .. 1 + hi] == chunk[lo..hi]
  {
  }

  /** The bus state after the first `sent` of `frames` went out as
      transactions, one after another. */
  function Sent(d: Pca9685, frames: seq<seq<Byte>>, sent: nat): (r: Pca9685)
    requires sent <= |frames|
    ensures SameSettings(d, r) && r.bus.replies == d.bus.replies
    ensures |r.bus.trace| == |d.bus.trace| + sent
    ensures r.bus.endCodes == Drop(d.bus.endCodes, sent)
    ensures r.lastI2CError == if sent == 0 then d.lastI2CError else CodeAt(d.bus.endCodes, sent - 1)
    decreases sent
  {
    if sent == 0 then d
    else
      var before := Sent(d, frames, sent - 1);
      Drop2(d.bus.endCodes, sent - 1);
      Transaction(before, frames[sent - 1])
  }

  /** The bus trace after `sent` frames: one write event per frame, in
      order, each carrying its own scripted end code. */
  lemma {:induction false} SentTrace(d: Pca9685, frames: seq<seq<Byte>>, sent: nat)
    requires sent <= |frames|
    ensures Sent(d, frames, sent).bus.trace == d.bus.trace + Writes(d.i2cAddr, frames[..sent], d.bus.endCodes)
  {
    if sent > 0 {
      SentTrace(d, frames, sent - 1);
      var before := Sent(d, frames, sent - 1);
      assert frames[..sent] == frames[..sent - 1] + [frames[sent - 1]];
      WritesSnoc(d.i2cAddr, frames[..sent - 1], frames[sent - 1], d.bus.endCodes);
      Drop2(d.bus.endCodes, sent - 1);
      assert before.bus.trace + NewEvents(before, Sent(d, frames, sent)) == Sent(d, frames, sent).bus.trace;
    }
  }

  lemma WritesSnoc(addr: Byte, frames: seq<seq<Byte>>, data: seq<Byte>, codes: seq<Byte>)
    ensures Writes(addr, frames + [data], codes)
         == Writes(addr, frames, codes) + [Write(addr, data, CodeAt(codes, |frames|))]
  {
  }

  lemma Drop2(codes: seq<Byte>, n: nat)
    ensures Drop(Drop(codes, n), 1) == Drop(codes, n + 1)
    ensures CodeAt(Drop(codes, n), 0) == CodeAt(codes, n)
  {
  }

  /** `r` is `d` after some of `frames` were sent, stopping early only right
      after a transaction that failed. */
  ghost predicate SentFailFast(d: Pca9685, r: Pca9685, frames: seq<seq<Byte>>)
  {
    var sent := |r.bus.trace| - |d.bus.trace|;
    var codes := d.bus.endCodes;
    && 0 <= sent <= |frames|
    && r == Sent(d, frames, sent)
    && (forall i :: 0 <= i < sent - 1 ==> CodeAt(codes, i) == 0)
    && (sent < |frames| ==> sent > 0 && CodeAt(codes, sent - 1) != 0)
  }

  lemma {:induction false} FailFastExit(d: Pca9685, frames: seq<seq<Byte>>, sent: nat)
    requires sent <= |frames|
    requires forall i :: 0 <= i < sent - 1 ==> CodeAt(d.bus.endCodes, i) == 0
    requires sent < |frames| ==> sent > 0 && Sent(d, frames, sent).lastI2CError != 0
    ensures SentFailFast(d, Sent(d, frames, sent), frames)
  {
  }

  /** One pass of the transaction loop: the chunk at `next` goes out as the
      next frame, and `next` moves to the following chunk. */
  method SendStep(d: Pca9685, k: int, begChannel: int, units: seq<seq<Byte>>, ghost sent: nat, next: int,
                  current: Pca9685)
    returns (r: Pca9685, hi: int)
    requires k >= 1 && IsChannel(begChannel) && begChannel + |units| <= ChannelCount
    requires next == Min(ChunkStart(k, sent), |units|) && next < |units|
    requires sent <= |Frames(k, begChannel, units)| && current == Sent(d, Frames(k, begChannel, units), sent)
    ensures sent < |Frames(k, begChannel, units)|
    ensures r == Sent(d, Frames(k, begChannel, units), sent + 1)
    ensures next < hi == Min(ChunkStart(k, sent + 1), |units|)
  {
    hi := Min(next + k, |units|);
    var data := ChunkBytes(begChannel + next, units, next, hi);
    FramesStep(k, begChannel, units, sent, next);
    r := Transaction(current, data);
  }

  /** The inner loop of `setChannelsPWM`: one transaction's bytes, the first
      channel's register followed by each channel's pair bytes in turn. */
  method ChunkBytes(channel: int, units: seq<seq<Byte>>, lo: int, hi: int) returns (data: seq<Byte>)
    requires IsChannel(channel) && 0 <= lo <= hi <= |units|
    ensures data == [ChannelRegister(channel)] + Chunk(units, lo, hi)
  {
    data := [ChannelRegister(channel)];
    var i := lo;
    while i < hi
      invariant lo <= i <= hi
      invariant data == [ChannelRegister(channel)] + Chunk(units, lo, i)
    {
      data := data + units[i];
      i := i + 1;
    }
  }

  /** One step of the transaction loop: while the run is not finished, the
      next frame exists and is the chunk at `next`. */
  lemma FramesStep(k: int, channel: int, units: seq<seq<Byte>>, sent: nat, next: int)
    requires k >= 1 && 0 <= channel && channel + |units| <= ChannelCount
    requires next == Min(ChunkStart(k, sent), |units|) && next < |units|
    ensures sent < |Frames(k, channel, units)|
    ensures Frames(k, channel, units)[sent]
         == [ChannelRegister(channel + next)] + Chunk(units, next, Min(next + k, |units|))
    ensures Min(next + k, |units|) == Min(ChunkStart(k, sent + 1), |units|)
  {
    ChunkCountCovers(k, |units|, sent);
  }

  /** Once the loop has reached the end of the run, every frame was sent. */
  lemma {:induction false} FramesDone(k: int, channel: int, units: seq<seq<Byte>>, sent: nat)
    requires k >= 1 && 0 <= channel && channel + |units| <= ChannelCount
    requires sent <= |Frames(k, channel, units)| && Min(ChunkStart(k, sent), |units|) == |units|
    ensures sent == |Frames(k, channel, units)|
  {
    ChunkCountCovers(k, |units|, sent);
  }

  predicate ValidRun(begChannel: int, numChannels: int) {
    IsChannel(begChannel) && numChannels >= 0
  }

  /** The channel units of a complete `setChannelsPWM` call on `d`: the
      amounts of the clipped run, each encoded for its own channel. */
  function BatchUnits(d: Pca9685, begChannel: int, numChannels: int, pwmAmounts: seq<U16>)
    : (units: seq<seq<Byte>>)
    requires ValidRun(begChannel, numChannels) && ClippedCount(begChannel, numChannels) <= |pwmAmounts|
    ensures |units| == ClippedCount(begChannel, numChannels)
  {
    var n := ClippedCount(begChannel, numChannels);
    PairUnits(ChannelPairs(d.phaseBalancer, begChannel, pwmAmounts[..n]), d.build.swapBegEnd)
  }

  /** The transactions of a complete `setChannelsPWM` call on `d`. */
  function BatchFrames(d: Pca9685, begChannel: int, numChannels: int, pwmAmounts: seq<U16>)
    : (frames: seq<seq<Byte>>)
    requires d.build.bufferLength >= 5 && ValidRun(begChannel, numChannels)
    requires ClippedCount(begChannel, numChannels) <= |pwmAmounts|
  {
    Frames(ChunkSize(d.build.bufferLength), begChannel, BatchUnits(d, begChannel, numChannels, pwmAmounts))
  }

  /** The phase pair `setChannelsPWM` computes for position `j` of a run:
      channel `begChannel + j` driven at `pwmAmounts[j]`. */
  function RunPair(d: Pca9685, begChannel: int, pwmAmounts: seq<U16>, j: int): (p: PhasePair)
    requires 0 <= j < |pwmAmounts| && 0 <= begChannel && begChannel + j < ChannelCount
  {
    GetPhaseCycle(d.phaseBalancer, begChannel + j, pwmAmounts[j])
  }

  /** Unit `j` of a batch reads back as channel `begChannel + j`'s own amount, encoded. */
  lemma BatchUnit(d: Pca9685, begChannel: int, numChannels: int, pwmAmounts: seq<U16>, j: int)
    requires ValidRun(begChannel, numChannels) && ClippedCount(begChannel, numChannels) <= |pwmAmounts|
    requires 0 <= j < ClippedCount(begChannel, numChannels)
    ensures Quads(BatchUnits(d, begChannel, numChannels, pwmAmounts))
    ensures ReadPair(BatchUnits(d, begChannel, numChannels, pwmAmounts)[j], d.build.swapBegEnd)
         == RunPair(d, begChannel, pwmAmounts, j)
  {
    var amounts := pwmAmounts[..ClippedCount(begChannel, numChannels)];
    PairUnitsQuads(ChannelPairs(d.phaseBalancer, begChannel, amounts), d.build.swapBegEnd);
    UnitOf(d.phaseBalancer, d.build.swapBegEnd, begChannel, amounts, j);
    assert amounts[j] == pwmAmounts[j];
  }

  /** `setChannelsPWM`. An invalid first channel or a negative count changes
      nothing; otherwise the clipped run is encoded channel by channel and
      sent chunk by chunk, stopping after the first transaction that reports
      an error. */
  method SetChannelsPWM(d: Pca9685, begChannel: int, numChannels: int, pwmAmounts: seq<U16>) returns (r: Pca9685)
    requires d.build.bufferLength >= 5
    requires ValidRun(begChannel, numChannels) ==> ClippedCount(begChannel, numChannels) <= |pwmAmounts|
    ensures !ValidRun(begChannel, numChannels) ==> r == d
    ensures ValidRun(begChannel, numChannels) ==>
              SentFailFast(d, r, BatchFrames(d, begChannel, numChannels, pwmAmounts))
  {
    if begChannel < 0 || begChannel > 15 || numChannels < 0 {
      r := d;
    } else {
      var units := BatchUnits(d, begChannel, numChannels, pwmAmounts);
      r := SendChunks(d, ChunkSize(d.build.bufferLength), begChannel, units);
    }
  }

  /** The transaction loop of `setChannelsPWM`, for any run of channel units:
      at most `k` channels per transaction, each transaction behind its first
      channel's register, stopping after the first one that fails. */
  method SendChunks(d: Pca9685, k: int, begChannel: int, units: seq<seq<Byte>>) returns (r: Pca9685)
    requires k >= 1 && IsChannel(begChannel) && begChannel + |units| <= ChannelCount
    ensures SentFailFast(d, r, Frames(k, begChannel, units))
  {
    ghost var frames := Frames(k, begChannel, units);
    ghost var sent := 0;
    var next := 0;
    r := d;
    while next < |units|
      invariant 0 <= sent <= |frames| && next == Min(ChunkStart(k, sent), |units|)
      invariant r == Sent(d, frames, sent)
      invariant forall i :: 0 <= i < sent ==> CodeAt(d.bus.endCodes, i) == 0
      decreases |units| - next
    {
      r, next := SendStep(d, k, begChannel, units, sent, next, r);
      sent := sent + 1;
      if r.lastI2CError != 0 {
        FailFastExit(d, frames, sent);
        return;
      }
    }
    FramesDone(k, begChannel, units, sent);
    FailFastExit(d, frames, sent);
  }

  /** What a completed batch writes, channel by channel: with `k` channels
      per transaction, slot `q` of transaction `i` carries channel
      `ChunkStart(k, i) + q` (that is, `i * k + q`) of the clipped run, holding that channel's own amount encoded as its
      phase pair; every transaction starts at the register of its first
      channel and never holds more bytes than the bus buffer (its exact
      length is `SetChannelsPWMLengths`). */
  lemma {:induction false} SetChannelsPWMLayout(d: Pca9685, begChannel: int, numChannels: int, pwmAmounts: seq<U16>,
                             i: nat, q: nat)
    requires d.build.bufferLength >= 5 && ValidRun(begChannel, numChannels)
    requires ClippedCount(begChannel, numChannels) <= |pwmAmounts|
    requires q < ChunkSize(d.build.bufferLength)
    requires ChunkStart(ChunkSize(d.build.bufferLength), i) + q < ClippedCount(begChannel, numChannels)
    ensures var k := ChunkSize(d.build.bufferLength);
            var frames := BatchFrames(d, begChannel, numChannels, pwmAmounts);
            var j := ChunkStart(k, i) + q;
            && i < |frames|
            && 5 + 4 * q <= |frames[i]| <= d.build.bufferLength
            && frames[i][0] == ChannelRegister(begChannel + ChunkStart(k, i))
            && ReadPair(FrameChannelBytes(frames[i], q), d.build.swapBegEnd)
               == RunPair(d, begChannel, pwmAmounts, j)
  {
    var k := ChunkSize(d.build.bufferLength);
    BatchUnit(d, begChannel, numChannels, pwmAmounts, ChunkStart(k, i) + q);
    FrameLayout(k, begChannel, BatchUnits(d, begChannel, numChannels, pwmAmounts),
                BatchFrames(d, begChannel, numChannels, pwmAmounts), i, q);
  }

  /** Each unit of a run reads back as its own channel's encoded pair. */
  lemma UnitOf(balancer: PhaseBalancer, swapBegEnd: bool, channel: int, amounts: seq<U16>, j: int)
    requires 0 <= channel && channel + |amounts| <= ChannelCount
    requires 0 <= j < |amounts|
    ensures |PairUnits(ChannelPairs(balancer, channel, amounts), swapBegEnd)[j]| == 4
    ensures ReadPair(PairUnits(ChannelPairs(balancer, channel, amounts), swapBegEnd)[j], swapBegEnd)
         == GetPhaseCycle(balancer, channel + j, amounts[j])
  {
    var pairs := ChannelPairs(balancer, channel, amounts);
    UnitIs(pairs, swapBegEnd, j);
    ReadsBack(pairs[j], swapBegEnd, PairUnits(pairs, swapBegEnd)[j]);
  }

  lemma ReadsBack(p: PhasePair, swapBegEnd: bool, bytes: seq<Byte>)
    requires bytes == PairBytes(p, swapBegEnd)
    ensures ReadPair(bytes, swapBegEnd) == p
  {
    ReadPairBytes(p, swapBegEnd);
  }

  /** The transactions of a complete batch cover exactly the clipped run,
      `min(numChannels, 16 - begChannel)` channels, in chunks of
      `ChunkSize`; an empty run sends nothing. */
  lemma SetChannelsPWMCount(d: Pca9685, begChannel: int, numChannels: int, pwmAmounts: seq<U16>)
    requires d.build.bufferLength >= 5 && ValidRun(begChannel, numChannels)
    requires ClippedCount(begChannel, numChannels) <= |pwmAmounts|
    ensures var k := ChunkSize(d.build.bufferLength);
            var n := Min(numChannels, ChannelCount - begChannel);
            var count := |BatchFrames(d, begChannel, numChannels, pwmAmounts)|;
            && (n == 0 <==> count == 0)
            && (count > 0 ==> (count - 1) * k < n <= count * k)
  {
    var k := ChunkSize(d.build.bufferLength);
    var n := ClippedCount(begChannel, numChannels);
    var count := |BatchFrames(d, begChannel, numChannels, pwmAmounts)|;
    assert count == ChunkCount(k, n);
    if count > 0 {
      ChunkCountCovers(k, n, count - 1);
      ChunkCountCovers(k, n, count);
      ChunkStartIsProduct(k, count - 1);
      ChunkStartIsProduct(k, count);
    }
  }

  /** Every transaction of a complete batch but the last carries `k`
      channels, and the last carries the rest of the clipped run of
      `min(numChannels, 16 - begChannel)`: no bytes beyond the run. */
  lemma SetChannelsPWMLengths(d: Pca9685, begChannel: int, numChannels: int, pwmAmounts: seq<U16>)
    requires d.build.bufferLength >= 5 && ValidRun(begChannel, numChannels)
    requires ClippedCount(begChannel, numChannels) <= |pwmAmounts|
    ensures var k := ChunkSize(d.build.bufferLength);
            var n := Min(numChannels, ChannelCount - begChannel);
            var frames := BatchFrames(d, begChannel, numChannels, pwmAmounts);
            forall i :: 0 <= i < |frames| ==> |frames[i]| == 1 + 4 * Min(k, n - ChunkStart(k, i))
  {
    var n := ClippedCount(begChannel, numChannels);
    var units := BatchUnits(d, begChannel, numChannels, pwmAmounts);
    PairUnitsQuads(ChannelPairs(d.phaseBalancer, begChannel, pwmAmounts[..n]), d.build.swapBegEnd);
    FrameLengths(ChunkSize(d.build.bufferLength), begChannel, units);
  }

  /** A batch of one channel is the same bus traffic, and leaves the same
      driver, as `setChannelPWM` on that channel. */
  lemma SingleChannelBatch(d: Pca9685, channel: int, pwmAmount: U16)
    requires d.build.bufferLength >= 5 && IsChannel(channel)
    ensures var frames := BatchFrames(d, channel, 1, [pwmAmount]);
            && |frames| == 1
            && Sent(d, frames, 1) == SetChannelPWM(d, channel, pwmAmount)
  {
    var units := BatchUnits(d, channel, 1, [pwmAmount]);
    assert [pwmAmount][..1] == [pwmAmount];
    UnitIs(ChannelPairs(d.phaseBalancer, channel, [pwmAmount]), d.build.swapBegEnd, 0);
    SingleFrameSent(d, ChunkSize(d.build.bufferLength), channel, units);
    SetChannelPWMIsTransaction(d, channel, pwmAmount);
  }

  /** A run of one channel is one transaction: its register, then its unit. */
  lemma {:induction false} SingleFrameSent(d: Pca9685, k: int, channel: int, units: seq<seq<Byte>>)
    requires k >= 1 && IsChannel(channel) && |units| == 1
    ensures Frames(k, channel, units) == [[ChannelRegister(channel)] + units[0]]
    ensures Sent(d, Frames(k, channel, units), 1) == Transaction(d, [ChannelRegister(channel)] + units[0])
  {
    assert ChunkCount(k, 1) == 1 by {
      assert ChunkCount(k, 1 - k) == 0;
    }
    ChunkCountCovers(k, 1, 0);
    assert Chunk(units, 0, 1) == units[0];
  }
}
