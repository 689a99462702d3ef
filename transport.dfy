/** Word transport (RACM600.cpp `readCommand` and `writeCommand`): how a
    16-bit register value travels as two bytes, low byte first, and which
    transactions one word read or word write puts on the bus. */
module Transport {
  import opened Registers
  import opened Bus

  /** `(high << 8) | low`: the word read back from two received bytes. */
  function Assemble(low: Byte, high: Byte): Word {
    ((high as Word) << 8) | (low as Word)
  }

  /** The assembled word is the high byte times 256 plus the low byte, and
      its two bytes are the ones it was assembled from. */
  lemma AssembleValue(low: Byte, high: Byte)
    ensures Assemble(low, high) == (high as Word) * 256 + (low as Word)
    ensures LowByte(Assemble(low, high)) == low && HighByte(Assemble(low, high)) == high
  {
  }

  /** Arduino `lowByte`. */
  function LowByte(v: Word): Byte {
    (v & 0xFF) as Byte
  }

  /** Arduino `highByte`. */
  function HighByte(v: Word): Byte {
    (v >> 8) as Byte
  }

  /** The data bytes of a word on the wire, low byte first. */
  function WordBytes(v: Word): (r: seq<Byte>)
    ensures |r| == 2
    ensures Assemble(r[0], r[1]) == v
  {
    [LowByte(v), HighByte(v)]
  }

  /** What `readCommand` makes of the bytes received for its request: the
      word whose low byte came first when at least two arrived, and 0 when
      fewer did. */
  function ReadWord(received: seq<Byte>): Word {
    if |received| >= 2 then Assemble(received[0], received[1]) else 0
  }

  /** The word read is little-endian in the first two bytes received, and 0
      when fewer than two arrived. */
  lemma ReadWordValue(received: seq<Byte>)
    ensures |received| >= 2 ==> ReadWord(received) == (received[1] as Word) * 256 + (received[0] as Word)
    ensures |received| < 2 ==> ReadWord(received) == 0
  {
    if |received| >= 2 {
      AssembleValue(received[0], received[1]);
    }
  }

  /** The bus traffic of one `readCommand(cmd)`: the command byte without a
      stop, then a request for two bytes, both to the same address. */
  function ReadTraffic(address: Byte, cmd: Byte): (t: seq<Txn>)
    ensures |t| == 2
    ensures t[0] == Write(address, [cmd], false)
    ensures t[1] == Request(address, 2)
  {
    [Write(address, [cmd], false), Request(address, 2)]
  }

  /** The bus traffic of one `writeCommand(cmd, value)`: one write, with a stop,
      of the command byte, the low byte and the high byte. */
  function WriteTraffic(address: Byte, cmd: Byte, value: Word): (t: seq<Txn>)
    ensures |t| == 1 && t[0].Write? && t[0].address == address && t[0].stop
    ensures t[0].bytes == [cmd] + WordBytes(value)
  {
    [Write(address, [cmd] + WordBytes(value), true)]
  }

  /** The bytes a word read of `cmd` receives from the device after the
      command byte has selected that register. */
  function Answer(device: Device, address: Byte, cmd: Byte): (r: seq<Byte>)
    ensures |r| <= 2
    ensures address == device.address && |Contents(device, cmd)| >= 2 ==>
              r == Contents(device, cmd)[..2]
    ensures address != device.address ==> r == []
  {
    if address == device.address then Take(Contents(device, cmd), 2) else []
  }

  /** The word `readCommand(cmd)` returns when talking to `device` at `address`. */
  function WordAt(device: Device, address: Byte, cmd: Byte): Word {
    ReadWord(Answer(device, address, cmd))
  }

  /** Splitting a word and assembling its bytes gives the word back. */
  lemma WordRoundTrip(v: Word)
    ensures ReadWord(WordBytes(v)) == v
    ensures Assemble(LowByte(v), HighByte(v)) == v
  {
  }

  /** Assembling two bytes and splitting the word gives the bytes back, so
      the byte order on the wire loses nothing in either direction. */
  lemma BytesRoundTrip(low: Byte, high: Byte)
    ensures WordBytes(Assemble(low, high)) == [low, high]
  {
  }

  /** The data bytes of a word write, fed to a word read's assembly, give
      back the written word. */
  lemma WriteThenReadBytes(address: Byte, cmd: Byte, v: Word)
    ensures ReadWord(WriteTraffic(address, cmd, v)[0].bytes[1..]) == v
  {
    assert WriteTraffic(address, cmd, v)[0].bytes[1..] == WordBytes(v);
    WordRoundTrip(v);
  }

  /** A device that stores what a word write sends to a register (a loopback)
      returns that word to the next word read of the register. */
  lemma LoopbackRoundTrip(device: Device, cmd: Byte, v: Word)
    ensures WordAt(Store(device, cmd, WordBytes(v)), device.address, cmd) == v
  {
    WordRoundTrip(v);
  }

  /** `device` after `register` has been made to hold `bytes`. */
  function Store(device: Device, register: Byte, bytes: seq<Byte>): (d: Device)
    ensures d.address == device.address
    ensures Contents(d, register) == bytes
    ensures forall r :: r != register ==> Contents(d, r) == Contents(device, r)
  {
    device.(registers := r => if r == register then bytes else device.registers(r))
  }

  /** A short read cannot be told from a device that really holds zero. */
  lemma ShortReadLooksLikeZero(device: Device, address: Byte, cmd: Byte)
    requires |Contents(device, cmd)| < 2
    ensures WordAt(device, address, cmd) == 0
    ensures WordAt(Store(device, cmd, [0, 0]), device.address, cmd) == 0
  {
  }
}
