/** The two-wire bus the driver talks through (the Arduino `Wire` object), seen
    as the trace of transactions it carries, with a mock power supply at one
    address that answers read requests. */
module Bus {
  import opened Registers

  datatype Option<T> = None | Some(value: T)

  /** One bus transaction: a write of `bytes` to `address`, ending with a stop
      condition or, when `stop` is false, keeping the bus for a repeated start;
      or a request for `count` bytes from `address`. */
  datatype Txn =
    | Write(address: Byte, bytes: seq<Byte>, stop: bool)
    | Request(address: Byte, count: nat)

  /** A mock device: its bus address and, for each register, the bytes it
      sends when that register is read (none for a register it does not
      implement). */
  datatype Device = Device(address: Byte, registers: Byte -> seq<Byte>)

  function Contents(device: Device, register: Byte): seq<Byte> {
    device.registers(register)
  }

  /** The register the device has been pointed at: the first byte of the most
      recent non-empty write addressed to it. */
  function Selected(trace: seq<Txn>, address: Byte): (r: Option<Byte>)
    ensures r.Some? ==> exists i :: 0 <= i < |trace| && trace[i].Write? &&
                          trace[i].address == address && trace[i].bytes != [] &&
                          trace[i].bytes[0] == r.value
  {
    if trace == [] then None
    else
      var last := trace[|trace| - 1];
      if last.Write? && last.address == address && last.bytes != [] then Some(last.bytes[0])
      else Selected(trace[..|trace| - 1], address)
  }

  /** At most `n` leading bytes of `s`. */
  function Take(s: seq<Byte>, n: nat): (r: seq<Byte>)
    ensures |r| == if |s| <= n then |s| else n
    ensures r <= s
  {
    if |s| <= n then s else s[..n]
  }

  /** The bytes received for a request of `count` bytes from `address` after
      `trace`: nothing unless the device is at that address and has been
      pointed at a register, else at most `count` bytes of that register. */
  function Reply(device: Device, trace: seq<Txn>, address: Byte, count: nat): (r: seq<Byte>)
    ensures |r| <= count
    ensures address != device.address ==> r == []
  {
    if address != device.address then []
    else match Selected(trace, address)
      case None => []
      case Some(register) => Take(Contents(device, register), count)
  }

  /** A write that selects `register` and keeps the bus makes the next
      request read that register, whatever came before. */
  lemma ReplyAfterSelect(device: Device, trace: seq<Txn>, address: Byte, register: Byte, count: nat)
    ensures Reply(device, trace + [Write(address, [register], false)], address, count)
         == if address == device.address then Take(Contents(device, register), count) else []
  {
    var t := trace + [Write(address, [register], false)];
    assert t[..|t| - 1] == trace;
  }

  /** The bus: everything sent over it so far, and the device listening on it. */
  class Wire {
    const device: Device
    var trace: seq<Txn>

    constructor (device: Device)
      ensures this.device == device && trace == []
    {
      this.device := device;
      trace := [];
    }

    /** beginTransmission(address), write(b) for each byte, endTransmission(stop). */
    method Transmit(address: Byte, bytes: seq<Byte>, stop: bool)
      modifies this
      ensures trace == old(trace) + [Write(address, bytes, stop)]
    {
      trace := trace + [Write(address, bytes, stop)];
    }

    /** requestFrom(address, count) followed by reading what is available. */
    method RequestFrom(address: Byte, count: nat) returns (received: seq<Byte>)
      modifies this
      ensures received == Reply(device, old(trace), address, count)
      ensures trace == old(trace) + [Request(address, count)]
    {
      received := Reply(device, trace, address, count);
      trace := trace + [Request(address, count)];
    }
  }
}
