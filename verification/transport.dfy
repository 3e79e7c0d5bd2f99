/** The two-wire bus as the driver sees it, reduced to a trace of finished
    transactions plus the answers the bus will give next: the result code of
    each `endTransmission`, and the bytes each `requestFrom` delivers. */
module Transport {
  import opened Bytes

  datatype Event =
      /** beginTransmission(addr), write(data...), endTransmission() == code */
    | Write(addr: Byte, data: seq<Byte>, code: Byte)
      /** requestFrom(addr, count), and the bytes that actually arrived */
    | Request(addr: Byte, count: nat, received: seq<Byte>)

  /** `endCodes` and `replies` are consumed front first; once a script is
      exhausted the bus answers success, and an empty reply. */
  datatype Bus = Bus(trace: seq<Event>, endCodes: seq<Byte>, replies: seq<seq<Byte>>)

  /** The `i`-th scripted end code, counting from the next one. */
  function CodeAt(codes: seq<Byte>, i: nat): (code: Byte) {
    if i < |codes| then codes[i] else 0
  }

  /** The script after `n` entries have been used. */
  function Drop<T>(s: seq<T>, n: nat): (rest: seq<T>) {
    if n <= |s| then s[n..] else []
  }

  function NextCode(bus: Bus): (code: Byte) {
    CodeAt(bus.endCodes, 0)
  }

  function NextReply(bus: Bus): (reply: seq<Byte>) {
    if |bus.replies| > 0 then bus.replies[0] else []
  }

  /** One complete write transaction. */
  function Transmit(bus: Bus, addr: Byte, data: seq<Byte>): (after: Bus) {
    bus.(trace := bus.trace + [Write(addr, data, NextCode(bus))], endCodes := Drop(bus.endCodes, 1))
  }

  /** One `requestFrom`. */
  function RequestFrom(bus: Bus, addr: Byte, count: nat): (after: Bus) {
    bus.(trace := bus.trace + [Request(addr, count, NextReply(bus))], replies := Drop(bus.replies, 1))
  }

  /** The write events for `frames` sent one after another, each ending with
      the next scripted code. */
  function Writes(addr: Byte, frames: seq<seq<Byte>>, codes: seq<Byte>): (events: seq<Event>)
    ensures |events| == |frames|
  {
    seq(|frames|, i requires 0 <= i < |frames| => Write(addr, frames[i], CodeAt(codes, i)))
  }
}
