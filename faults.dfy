/** The fault decoder's specification (RACM600.cpp `readFaults` and
    `readDetailedFault`), stated as tables: which status-word bit prints which
    line and which detail register it sends the decoder to, and which bit of
    each detail register prints which line. The driver's chains of `if`
    statements are proved to follow these tables. */
module Faults {
  import opened Registers
  import opened Bus
  import opened Console
  import opened Transport

  /** One bit of a detail register and the line it prints. */
  datatype Flag = Flag(mask: Byte, message: string)

  /** A detail register and the bits of it that the decoder reports. */
  datatype Domain = Domain(register: Byte, flags: seq<Flag>)

  /** Whether a status-word bit sends the decoder to a detail register, and
      the name it prints that register under. */
  datatype Detail = NoDetail | Detail(register: Byte, name: string)

  /** One bit of the status word, the line it prints and its detail register. */
  datatype StatusBit = StatusBit(mask: Word, message: string, detail: Detail)

  const VoutFlags: seq<Flag> := [
    Flag(0x80, " - Output Overvoltage Fault"),
    Flag(0x40, " - Output Overvoltage Warning"),
    Flag(0x10, " - Output Undervoltage Warning"),
    Flag(0x08, " - Output Undervoltage Fault")
  ]
  const IoutFlags: seq<Flag> := [
    Flag(0x80, " - Output Overcurrent Fault"),
    Flag(0x40, " - Critical Constant Current Mode Fault"),
    Flag(0x20, " - Output Overcurrent Warning")
  ]
  const InputFlags: seq<Flag> := [
    Flag(0x80, " - Input Overvoltage Fault"),
    Flag(0x40, " - Input Overvoltage Warning"),
    Flag(0x10, " - Input Undervoltage Warning"),
    Flag(0x08, " - Input Undervoltage Fault")
  ]
  const TemperatureFlags: seq<Flag> := [
    Flag(0x80, " - Overtemperature Fault"),
    Flag(0x40, " - Overtemperature Warning")
  ]
  const CmlFlags: seq<Flag> := [
    Flag(0x80, " - Invalid Command Received"),
    Flag(0x40, " - Invalid Data Received"),
    Flag(0x20, " - Packet Error Check Failed")
  ]

  /** The five detail registers and the bits decoded in each. */
  const Domains: seq<Domain> := [
    Domain(STATUS_VOUT, VoutFlags),
    Domain(STATUS_IOUT, IoutFlags),
    Domain(STATUS_INPUT, InputFlags),
    Domain(STATUS_TEMPERATURE, TemperatureFlags),
    Domain(STATUS_CML, CmlFlags)
  ]

  // The status-word bits in the order the decoder checks them: the fault
  // classes of the low byte, most significant first, then the warnings of
  // the high byte. Bit 0x0400 is not decoded.
  const DeviceBusyText: string := "FAULT: Device Busy"
  const PowerOutputOffText: string := "FAULT: Power Output Off"
  const OutputOvervoltageText: string := "FAULT: Output Overvoltage"
  const OutputOvercurrentText: string := "FAULT: Output Overcurrent"
  const InputUndervoltageText: string := "FAULT: Input Undervoltage"
  const TemperatureFaultText: string := "FAULT: Temperature Fault"
  const CommunicationFaultText: string := "FAULT: Communication Fault (CML)"
  const UnknownFaultText: string := "FAULT: Unknown Fault"
  const OutputVoltageWarningText: string := "WARNING: Output Voltage Issue"
  const OutputCurrentWarningText: string := "WARNING: Output Current or Power Issue"
  const InputVoltageWarningText: string := "WARNING: Input Voltage or Power Issue"
  const ManufacturerWarningText: string := "WARNING: Manufacturer-Specific Issue"
  const PowerGoodLostText: string := "WARNING: Power Good Signal Lost"
  const FanWarningText: string := "WARNING: Fan or Airflow Issue"
  const OtherWarningText: string := "WARNING: Other Status Warning"
  const DeviceBusy: StatusBit := StatusBit(0x0080, DeviceBusyText, NoDetail)
  const PowerOutputOff: StatusBit := StatusBit(0x0040, PowerOutputOffText, NoDetail)
  const OutputOvervoltage: StatusBit := StatusBit(0x0020, OutputOvervoltageText, Detail(STATUS_VOUT, "Output Voltage Fault"))
  const OutputOvercurrent: StatusBit := StatusBit(0x0010, OutputOvercurrentText, Detail(STATUS_IOUT, "Output Current Fault"))
  const InputUndervoltage: StatusBit := StatusBit(0x0008, InputUndervoltageText, Detail(STATUS_INPUT, "Input Fault"))
  const TemperatureFault: StatusBit := StatusBit(0x0004, TemperatureFaultText, Detail(STATUS_TEMPERATURE, "Temperature Fault"))
  const CommunicationFault: StatusBit := StatusBit(0x0002, CommunicationFaultText, Detail(STATUS_CML, "Communication Fault"))
  const UnknownFault: StatusBit := StatusBit(0x0001, UnknownFaultText, NoDetail)
  const OutputVoltageWarning: StatusBit := StatusBit(0x8000, OutputVoltageWarningText, NoDetail)
  const OutputCurrentWarning: StatusBit := StatusBit(0x4000, OutputCurrentWarningText, NoDetail)
  const InputVoltageWarning: StatusBit := StatusBit(0x2000, InputVoltageWarningText, NoDetail)
  const ManufacturerWarning: StatusBit := StatusBit(0x1000, ManufacturerWarningText, NoDetail)
  const PowerGoodLost: StatusBit := StatusBit(0x0800, PowerGoodLostText, NoDetail)
  const FanWarning: StatusBit := StatusBit(0x0200, FanWarningText, NoDetail)
  const OtherWarning: StatusBit := StatusBit(0x0100, OtherWarningText, NoDetail)

  /** The number of status-word bits the decoder checks. */
  const Entries: nat := 15

  /** Entry `k` of the table, in the order the decoder checks the bits. */
  function StatusBitAt(k: nat): StatusBit
    requires k < Entries
  {
    match k
    case 0 => DeviceBusy
    case 1 => PowerOutputOff
    case 2 => OutputOvervoltage
    case 3 => OutputOvercurrent
    case 4 => InputUndervoltage
    case 5 => TemperatureFault
    case 6 => CommunicationFault
    case 7 => UnknownFault
    case 8 => OutputVoltageWarning
    case 9 => OutputCurrentWarning
    case 10 => InputVoltageWarning
    case 11 => ManufacturerWarning
    case 12 => PowerGoodLost
    case 13 => FanWarning
    case _ => OtherWarning
  }

  const FaultStatusPrefix: string := "Fault Status: 0x"
  const NoFaults: string := "No faults detected."
  const DetailsSuffix: string := " Details: 0x"

  // ---------------------------------------------------------------------------
  // Detail stage

  /** The bits decoded for `register`: those of its domain, none for a
      register that is not one of the five detail registers. */
  function FlagsOf(register: Byte): seq<Flag> {
    FlagsIn(Domains, register)
  }

  function FlagsIn(domains: seq<Domain>, register: Byte): seq<Flag> {
    if domains == [] then []
    else if domains[0].register == register then domains[0].flags
    else FlagsIn(domains[1..], register)
  }

  /** Looking a register up in the domain table: each detail register finds
      its own flags. */
  lemma FlagsOfDomains()
    ensures FlagsOf(STATUS_VOUT) == VoutFlags
    ensures FlagsOf(STATUS_IOUT) == IoutFlags
    ensures FlagsOf(STATUS_INPUT) == InputFlags
    ensures FlagsOf(STATUS_TEMPERATURE) == TemperatureFlags
    ensures FlagsOf(STATUS_CML) == CmlFlags
  {
    var d1 := Domains[1..];
    var d2 := d1[1..];
    var d3 := d2[1..];
    var d4 := d3[1..];
    assert d1[0] == Domain(STATUS_IOUT, IoutFlags);
    assert d2[0] == Domain(STATUS_INPUT, InputFlags);
    assert d3[0] == Domain(STATUS_TEMPERATURE, TemperatureFlags);
    assert d4[0] == Domain(STATUS_CML, CmlFlags);
    assert FlagsIn(d1, STATUS_IOUT) == IoutFlags;
    assert FlagsIn(d2, STATUS_INPUT) == InputFlags;
    assert FlagsIn(d1, STATUS_INPUT) == FlagsIn(d2, STATUS_INPUT);
    assert FlagsIn(d3, STATUS_TEMPERATURE) == TemperatureFlags;
    assert FlagsIn(d1, STATUS_TEMPERATURE) == FlagsIn(d3, STATUS_TEMPERATURE);
    assert FlagsIn(d4, STATUS_CML) == CmlFlags;
    assert FlagsIn(d2, STATUS_CML) == FlagsIn(d4, STATUS_CML);
    assert FlagsIn(d1, STATUS_CML) == FlagsIn(d3, STATUS_CML);
  }

  /** Any other register finds no flags. */
  lemma FlagsOfOther(register: Byte)
    requires register !in DetailRegisters
    ensures FlagsOf(register) == []
  {
    var d1 := Domains[1..];
    var d2 := d1[1..];
    var d3 := d2[1..];
    var d4 := d3[1..];
    assert d4[1..] == [];
    assert FlagsIn(d4, register) == [];
    assert FlagsIn(d3, register) == [];
    assert FlagsIn(d2, register) == [];
    assert FlagsIn(d1, register) == [];
  }

  /** The line one flag prints for `value`: its message if its bit is set. */
  function FlagLine(flag: Flag, value: Byte): seq<Line> {
    if value & flag.mask != 0 then [Text(flag.message)] else []
  }

  /** One line for each flag whose bit is set in `value`, in table order. */
  function FlagLines(flags: seq<Flag>, value: Byte): seq<Line> {
    if flags == [] then [] else FlagLine(flags[0], value) + FlagLines(flags[1..], value)
  }

  /** FlagLines spelled out, after some earlier lines, for a table of two,
      three or four flags. */
  lemma FlagLines2(before: seq<Line>, flags: seq<Flag>, value: Byte)
    requires |flags| == 2
    ensures before + FlagLines(flags, value) ==
      before + FlagLine(flags[0], value) + FlagLine(flags[1], value)
  {
    assert FlagLines(flags[1..], value) == FlagLine(flags[1], value) + FlagLines(flags[2..], value);
  }

  lemma FlagLines3(before: seq<Line>, flags: seq<Flag>, value: Byte)
    requires |flags| == 3
    ensures before + FlagLines(flags, value) ==
      before + FlagLine(flags[0], value) + FlagLine(flags[1], value) + FlagLine(flags[2], value)
  {
    FlagLines2(before + FlagLine(flags[0], value), flags[1..], value);
  }

  lemma FlagLines4(before: seq<Line>, flags: seq<Flag>, value: Byte)
    requires |flags| == 4
    ensures before + FlagLines(flags, value) ==
      before + FlagLine(flags[0], value) + FlagLine(flags[1], value)
             + FlagLine(flags[2], value) + FlagLine(flags[3], value)
  {
    FlagLines3(before + FlagLine(flags[0], value), flags[1..], value);
  }

  /** The header line of a detail report followed by its flag lines is the
      whole report. */
  lemma DetailReportSplit(before: seq<Line>, register: Byte, name: string, value: Byte)
    ensures (before + [Hex(name + DetailsSuffix, value as Word)]) + FlagLines(FlagsOf(register), value)
         == before + DetailReport(register, name, value)
  {
  }

  /** The lines `readDetailedFault(register, name)` prints for the byte it read. */
  function DetailReport(register: Byte, name: string, value: Byte): seq<Line> {
    [Hex(name + DetailsSuffix, value as Word)] + FlagLines(FlagsOf(register), value)
  }

  /** The byte `readDetailedFault` decodes: the word read from the register,
      truncated to its low byte as the assignment to `uint8_t` does. */
  function DetailValue(device: Device, address: Byte, register: Byte): Byte {
    LowByte(WordAt(device, address, register))
  }

  // ---------------------------------------------------------------------------
  // Classification stage

  /** The lines one status-word bit contributes. */
  function BitLines(bit: StatusBit, status: Word, device: Device, address: Byte): seq<Line> {
    if status & bit.mask == 0 then [] else [Text(bit.message)] + DetailLines(bit.detail, device, address)
  }

  /** The lines of the detail read a status-word bit triggers, if any. */
  function DetailLines(detail: Detail, device: Device, address: Byte): seq<Line> {
    match detail
    case NoDetail => []
    case Detail(register, name) => DetailReport(register, name, DetailValue(device, address, register))
  }

  /** The lines the first `k` entries of the status-bit table contribute. */
  function Decode(status: Word, device: Device, address: Byte, k: nat): seq<Line>
    requires k <= Entries
  {
    if k == 0 then []
    else Decode(status, device, address, k - 1) + BitLines(StatusBitAt(k - 1), status, device, address)
  }

  /** Everything `readFaults` prints for the status word it read. */
  function FaultReport(status: Word, device: Device, address: Byte): seq<Line> {
    [Hex(FaultStatusPrefix, status)] +
    if status == 0 then [Text(NoFaults)] else Decode(status, device, address, Entries)
  }

  /** The detail registers the first `k` table entries have read, in order. */
  function Reads(status: Word, k: nat): seq<Byte>
    requires k <= Entries
  {
    if k == 0 then []
    else Reads(status, k - 1) + BitReads(StatusBitAt(k - 1), status)
  }

  /** The detail register one status-word bit sends the decoder to, if any. */
  function BitReads(bit: StatusBit, status: Word): seq<Byte> {
    if status & bit.mask != 0 && bit.detail.Detail? then [bit.detail.register] else []
  }

  /** The detail registers `readFaults` reads for the status word it read. */
  function DetailReads(status: Word): seq<Byte> {
    Reads(status, Entries)
  }

  /** One word read of each register of `registers`, in order. */
  function ReadsTraffic(address: Byte, registers: seq<Byte>): seq<Txn> {
    if registers == [] then []
    else ReadTraffic(address, registers[0]) + ReadsTraffic(address, registers[1..])
  }

  /** The detail reads the first `k` table entries make, as bus traffic. */
  function Traffic(status: Word, address: Byte, k: nat): seq<Txn>
    requires k <= Entries
  {
    if k == 0 then []
    else Traffic(status, address, k - 1) + BitTraffic(StatusBitAt(k - 1), status, address)
  }

  /** The word read of the detail register one status-word bit asks for, if any. */
  function BitTraffic(bit: StatusBit, status: Word, address: Byte): seq<Txn> {
    if status & bit.mask != 0 && bit.detail.Detail? then ReadTraffic(address, bit.detail.register) else []
  }

  /** All bus traffic of `readFaults`: the status word read, then the detail reads. */
  function FaultTraffic(address: Byte, status: Word): seq<Txn> {
    ReadTraffic(address, STATUS_WORD) + Traffic(status, address, Entries)
  }

  /** The traffic of two runs of detail reads is the traffic of each in turn. */
  lemma {:induction false} ReadsTrafficAppend(address: Byte, a: seq<Byte>, b: seq<Byte>)
    ensures ReadsTraffic(address, a + b) == ReadsTraffic(address, a) + ReadsTraffic(address, b)
  {
    if a == [] {
      assert a + b == b;
    } else {
      assert (a + b)[0] == a[0];
      assert (a + b)[1..] == a[1..] + b;
      ReadsTrafficAppend(address, a[1..], b);
    }
  }

  /** The detail traffic is one word read of each register of the detail
      read list, in order. */
  lemma {:induction false} TrafficIsReads(status: Word, address: Byte, k: nat)
    requires k <= Entries
    ensures Traffic(status, address, k) == ReadsTraffic(address, Reads(status, k))
  {
    if k > 0 {
      var bit := StatusBitAt(k - 1);
      TrafficIsReads(status, address, k - 1);
      BitTrafficIsReads(bit, status, address);
      TrafficAppendStep(address, Traffic(status, address, k - 1), Reads(status, k - 1),
                        BitTraffic(bit, status, address), BitReads(bit, status));
    }
  }

  lemma TrafficAppendStep(address: Byte, earlier: seq<Txn>, done: seq<Byte>, more: seq<Txn>, next: seq<Byte>)
    requires earlier == ReadsTraffic(address, done) && more == ReadsTraffic(address, next)
    ensures earlier + more == ReadsTraffic(address, done + next)
  {
    ReadsTrafficAppend(address, done, next);
  }

  lemma BitTrafficIsReads(bit: StatusBit, status: Word, address: Byte)
    ensures BitTraffic(bit, status, address) == ReadsTraffic(address, BitReads(bit, status))
  {
    if status & bit.mask != 0 && bit.detail.Detail? {
      assert ReadsTraffic(address, [bit.detail.register]) == ReadTraffic(address, bit.detail.register);
    }
  }

  /** The warning bits, entries 8 to 15 of the table, read no detail register. */
  lemma {:induction false} WarningsReadNothing(status: Word, k: nat)
    requires 7 <= k <= Entries
    ensures Reads(status, k) == Reads(status, 7)
  {
    if k > 7 {
      WarningsReadNothing(status, k - 1);
      assert StatusBitAt(k - 1).detail == NoDetail;
    }
  }

  /** A status word with none of the five fault-class bits 0x3E set reads no
      detail register. */
  lemma {:induction false} NoClassNoReads(status: Word, k: nat)
    requires k <= Entries
    requires status & 0x003E == 0
    ensures Reads(status, k) == []
  {
    if k > 0 {
      NoClassNoReads(status, k - 1);
      ClassBits();
    }
  }

  /** Only the five fault-class bits of the table have a detail register. */
  lemma ClassBits()
    ensures forall i :: 0 <= i < Entries && StatusBitAt(i).detail.Detail? ==>
      StatusBitAt(i).mask & 0x003E == StatusBitAt(i).mask
  {
  }

  // ---------------------------------------------------------------------------
  // The decoder one statement at a time

  /** The console after the status-word bit `bit` has been decoded onto the
      lines `out`: unchanged if the bit is clear, else its line, and then the
      report of its detail register if it has one. */
  function BitOnto(out: seq<Line>, bit: StatusBit, status: Word, device: Device, address: Byte): seq<Line> {
    if status & bit.mask == 0 then out
    else if bit.detail.NoDetail? then out + [Text(bit.message)]
    else out + [Text(bit.message)]
           + DetailReport(bit.detail.register, bit.detail.name, DetailValue(device, address, bit.detail.register))
  }

  /** The bus trace after the status-word bit `bit` has been decoded: one word
      read of its detail register appended if the bit is set and has one. */
  function ReadOnto(trace: seq<Txn>, bit: StatusBit, status: Word, address: Byte): seq<Txn> {
    if status & bit.mask != 0 && bit.detail.Detail? then trace + ReadTraffic(address, bit.detail.register)
    else trace
  }

  /** Decoding one bit onto some lines appends exactly that bit's lines. */
  lemma BitOntoLines(out: seq<Line>, bit: StatusBit, status: Word, device: Device, address: Byte)
    ensures BitOnto(out, bit, status, device, address) == out + BitLines(bit, status, device, address)
  {
    if status & bit.mask == 0 {
      assert out + [] == out;
    }
  }

  /** Decoding entry `k` of the table after the first `k` entries. */
  lemma DecodeOnto(before: seq<Line>, status: Word, device: Device, address: Byte, k: nat, bit: StatusBit)
    requires k < Entries && StatusBitAt(k) == bit
    ensures before + Decode(status, device, address, k + 1) ==
            BitOnto(before + Decode(status, device, address, k), bit, status, device, address)
  {
    var done := Decode(status, device, address, k);
    BitOntoLines(before + done, bit, status, device, address);
    assert before + (done + BitLines(bit, status, device, address)) ==
           (before + done) + BitLines(bit, status, device, address);
  }

  /** The detail traffic of entry `k` after that of the first `k` entries. */
  lemma TrafficOnto(earlier: seq<Txn>, status: Word, address: Byte, k: nat, bit: StatusBit)
    requires k < Entries && StatusBitAt(k) == bit
    ensures earlier + Traffic(status, address, k + 1) ==
            ReadOnto(earlier + Traffic(status, address, k), bit, status, address)
  {
    var done := Traffic(status, address, k);
    if status & bit.mask != 0 && bit.detail.Detail? {
      assert earlier + (done + ReadTraffic(address, bit.detail.register)) ==
             (earlier + done) + ReadTraffic(address, bit.detail.register);
    } else {
      assert done + [] == done;
    }
  }

  /** The entries of the table by name. */
  lemma StatusBitsNamed()
    ensures Entries == 15
    ensures StatusBitAt(0) == DeviceBusy
    ensures StatusBitAt(1) == PowerOutputOff
    ensures StatusBitAt(2) == OutputOvervoltage
    ensures StatusBitAt(3) == OutputOvercurrent
    ensures StatusBitAt(4) == InputUndervoltage
    ensures StatusBitAt(5) == TemperatureFault
    ensures StatusBitAt(6) == CommunicationFault
    ensures StatusBitAt(7) == UnknownFault
    ensures StatusBitAt(8) == OutputVoltageWarning
    ensures StatusBitAt(9) == OutputCurrentWarning
    ensures StatusBitAt(10) == InputVoltageWarning
    ensures StatusBitAt(11) == ManufacturerWarning
    ensures StatusBitAt(12) == PowerGoodLost
    ensures StatusBitAt(13) == FanWarning
    ensures StatusBitAt(14) == OtherWarning
  {
  }

  /** A nonzero status word's report, spelled out as the decoder's fifteen
      checks in turn. */
  lemma ReportSpelled(before: seq<Line>, status: Word, device: Device, address: Byte)
    requires status != 0
    ensures before + FaultReport(status, device, address) ==
      BitOnto(BitOnto(BitOnto(BitOnto(BitOnto(BitOnto(BitOnto(BitOnto(BitOnto(BitOnto(BitOnto(BitOnto(BitOnto(BitOnto(BitOnto(before + [Hex(FaultStatusPrefix, status)]
        , DeviceBusy, status, device, address)
        , PowerOutputOff, status, device, address)
        , OutputOvervoltage, status, device, address)
        , OutputOvercurrent, status, device, address)
        , InputUndervoltage, status, device, address)
        , TemperatureFault, status, device, address)
        , CommunicationFault, status, device, address)
        , UnknownFault, status, device, address)
        , OutputVoltageWarning, status, device, address)
        , OutputCurrentWarning, status, device, address)
        , InputVoltageWarning, status, device, address)
        , ManufacturerWarning, status, device, address)
        , PowerGoodLost, status, device, address)
        , FanWarning, status, device, address)
        , OtherWarning, status, device, address)
  {
    StatusBitsNamed();
    var header := before + [Hex(FaultStatusPrefix, status)];
    assert before + FaultReport(status, device, address) == header + Decode(status, device, address, 15);
    assert header + Decode(status, device, address, 0) == header;
    DecodeOnto(header, status, device, address, 0, DeviceBusy);
    DecodeOnto(header, status, device, address, 1, PowerOutputOff);
    DecodeOnto(header, status, device, address, 2, OutputOvervoltage);
    DecodeOnto(header, status, device, address, 3, OutputOvercurrent);
    DecodeOnto(header, status, device, address, 4, InputUndervoltage);
    DecodeOnto(header, status, device, address, 5, TemperatureFault);
    DecodeOnto(header, status, device, address, 6, CommunicationFault);
    DecodeOnto(header, status, device, address, 7, UnknownFault);
    DecodeOnto(header, status, device, address, 8, OutputVoltageWarning);
    DecodeOnto(header, status, device, address, 9, OutputCurrentWarning);
    DecodeOnto(header, status, device, address, 10, InputVoltageWarning);
    DecodeOnto(header, status, device, address, 11, ManufacturerWarning);
    DecodeOnto(header, status, device, address, 12, PowerGoodLost);
    DecodeOnto(header, status, device, address, 13, FanWarning);
    DecodeOnto(header, status, device, address, 14, OtherWarning);
  }

  /** The bus traffic of a status word, spelled out as the status-word read
      and then the five fault-class checks in turn. */
  lemma TrafficSpelled(before: seq<Txn>, status: Word, address: Byte)
    ensures before + FaultTraffic(address, status) ==
      ReadOnto(ReadOnto(ReadOnto(ReadOnto(ReadOnto(before + ReadTraffic(address, STATUS_WORD)
        , OutputOvervoltage, status, address)
        , OutputOvercurrent, status, address)
        , InputUndervoltage, status, address)
        , TemperatureFault, status, address)
        , CommunicationFault, status, address)
  {
    StatusBitsNamed();
    var start := before + ReadTraffic(address, STATUS_WORD);
    assert before + FaultTraffic(address, status) == start + Traffic(status, address, 15);
    assert start + Traffic(status, address, 0) == start;
    TrafficOnto(start, status, address, 0, DeviceBusy);
    TrafficOnto(start, status, address, 1, PowerOutputOff);
    TrafficOnto(start, status, address, 2, OutputOvervoltage);
    TrafficOnto(start, status, address, 3, OutputOvercurrent);
    TrafficOnto(start, status, address, 4, InputUndervoltage);
    TrafficOnto(start, status, address, 5, TemperatureFault);
    TrafficOnto(start, status, address, 6, CommunicationFault);
    TrafficOnto(start, status, address, 7, UnknownFault);
    TrafficOnto(start, status, address, 8, OutputVoltageWarning);
    TrafficOnto(start, status, address, 9, OutputCurrentWarning);
    TrafficOnto(start, status, address, 10, InputVoltageWarning);
    TrafficOnto(start, status, address, 11, ManufacturerWarning);
    TrafficOnto(start, status, address, 12, PowerGoodLost);
    TrafficOnto(start, status, address, 13, FanWarning);
    TrafficOnto(start, status, address, 14, OtherWarning);
  }

  /** A zero status word prints the status line and "No faults detected." only. */
  lemma QuietReport(before: seq<Line>, device: Device, address: Byte)
    ensures before + FaultReport(0, device, address) ==
            before + [Hex(FaultStatusPrefix, 0)] + [Text(NoFaults)]
  {
  }

  /** A zero status word reads nothing but the status word. */
  lemma QuietTraffic(before: seq<Txn>, address: Byte)
    ensures before + FaultTraffic(address, 0) == before + ReadTraffic(address, STATUS_WORD)
  {
    NoClassNoReads(0, Entries);
    TrafficIsReads(0, address, Entries);
    assert ReadTraffic(address, STATUS_WORD) + [] == ReadTraffic(address, STATUS_WORD);
  }
}
