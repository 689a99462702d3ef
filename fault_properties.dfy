/** What the fault decoder promises, proved about its specification: which
    detail registers a status word makes it read and in which order, which
    bits stay silent, and what the detail stage prints. */
module FaultProperties {
  import opened Registers
  import opened Bus
  import opened Console
  import opened Transport
  import opened Faults

  /** `[register]` if `c`, else nothing. */
  function When(c: bool, register: Byte): seq<Byte> {
    if c then [register] else []
  }

  // ---------------------------------------------------------------------------
  // Which detail registers are read

  /** The first two table entries read nothing. */
  lemma LeadingEntriesReadNothing(status: Word)
    ensures Reads(status, 2) == []
  {
    assert Reads(status, 1) == [];
  }

  /** The detail reads of a status word, spelled out: STATUS_VOUT if bit 0x20
      is set, then STATUS_IOUT if 0x10 is, then STATUS_INPUT for 0x08,
      STATUS_TEMPERATURE for 0x04 and STATUS_CML for 0x02, and nothing else. */
  lemma DetailReadsInOrder(status: Word)
    ensures DetailReads(status) ==
      When(status & 0x0020 != 0, STATUS_VOUT) + When(status & 0x0010 != 0, STATUS_IOUT) +
      When(status & 0x0008 != 0, STATUS_INPUT) + When(status & 0x0004 != 0, STATUS_TEMPERATURE) +
      When(status & 0x0002 != 0, STATUS_CML)
  {
    WarningsReadNothing(status, Entries);
    LeadingEntriesReadNothing(status);
    assert Reads(status, 3) == When(status & 0x0020 != 0, STATUS_VOUT);
    assert Reads(status, 4) == Reads(status, 3) + When(status & 0x0010 != 0, STATUS_IOUT);
    assert Reads(status, 5) == Reads(status, 4) + When(status & 0x0008 != 0, STATUS_INPUT);
    assert Reads(status, 6) == Reads(status, 5) + When(status & 0x0004 != 0, STATUS_TEMPERATURE);
    assert Reads(status, 7) == Reads(status, 6) + When(status & 0x0002 != 0, STATUS_CML);
  }

  /** A detail register is read exactly when its fault-class bit is set:
      0x20 for STATUS_VOUT, 0x10 for STATUS_IOUT, 0x08 for STATUS_INPUT,
      0x04 for STATUS_TEMPERATURE and 0x02 for STATUS_CML; no other
      register is ever read. */
  lemma DetailReadIff(status: Word, register: Byte)
    ensures register in DetailReads(status) <==>
      (register == STATUS_VOUT && status & 0x0020 != 0) ||
      (register == STATUS_IOUT && status & 0x0010 != 0) ||
      (register == STATUS_INPUT && status & 0x0008 != 0) ||
      (register == STATUS_TEMPERATURE && status & 0x0004 != 0) ||
      (register == STATUS_CML && status & 0x0002 != 0)
  {
    DetailReadsInOrder(status);
  }

  /** Five optional registers in increasing order of code form an increasing run. */
  lemma WhenIncreasing(c1: bool, c2: bool, c3: bool, c4: bool, c5: bool)
    ensures StrictlyIncreasing(When(c1, STATUS_VOUT) + When(c2, STATUS_IOUT) + When(c3, STATUS_INPUT) +
                               When(c4, STATUS_TEMPERATURE) + When(c5, STATUS_CML))
  {
  }

  /** The detail registers are read in increasing order of code, that is from
      the most significant class bit to the least, each at most once. */
  lemma DetailReadsIncreasing(status: Word)
    ensures StrictlyIncreasing(DetailReads(status))
    ensures |DetailReads(status)| <= 5
  {
    DetailReadsInOrder(status);
    WhenIncreasing(status & 0x0020 != 0, status & 0x0010 != 0, status & 0x0008 != 0,
                   status & 0x0004 != 0, status & 0x0002 != 0);
  }

  /** Only the five fault-class bits 0x3E decide the detail reads: bits 0x80,
      0x40 and 0x01 and every warning bit of the high byte trigger none. */
  lemma DetailReadsClassBitsOnly(s1: Word, s2: Word)
    requires s1 & 0x003E == s2 & 0x003E
    ensures DetailReads(s1) == DetailReads(s2)
  {
    DetailReadsInOrder(s1);
    DetailReadsInOrder(s2);
    ClassBitOf(s1, s2, 0x0020);
    ClassBitOf(s1, s2, 0x0010);
    ClassBitOf(s1, s2, 0x0008);
    ClassBitOf(s1, s2, 0x0004);
    ClassBitOf(s1, s2, 0x0002);
  }

  lemma ClassBitOf(s1: Word, s2: Word, bit: Word)
    requires s1 & 0x003E == s2 & 0x003E
    requires bit & 0x003E == bit
    ensures (s1 & bit != 0) == (s2 & bit != 0)
  {
    assert s1 & bit == (s1 & 0x003E) & bit;
    assert s2 & bit == (s2 & 0x003E) & bit;
  }

  // ---------------------------------------------------------------------------
  // What the status word prints

  /** A status-word bit's lines depend on the status word only through that bit. */
  lemma BitLinesAgree(bit: StatusBit, s1: Word, s2: Word, device: Device, address: Byte)
    requires s1 & bit.mask == s2 & bit.mask
    ensures BitLines(bit, s1, device, address) == BitLines(bit, s2, device, address)
  {
    if s1 & bit.mask == 0 {
      assert s2 & bit.mask == 0;
    } else {
      assert s2 & bit.mask != 0;
    }
  }

  /** Two status words that agree on the bits of the first `k` entries print
      the same lines for them. */
  lemma {:induction false} DecodeAgree(s1: Word, s2: Word, device: Device, address: Byte, k: nat)
    requires k <= Entries
    requires forall i :: 0 <= i < k ==> s1 & StatusBitAt(i).mask == s2 & StatusBitAt(i).mask
    ensures Decode(s1, device, address, k) == Decode(s2, device, address, k)
  {
    if k > 0 {
      DecodeAgree(s1, s2, device, address, k - 1);
      BitLinesAgree(StatusBitAt(k - 1), s1, s2, device, address);
    }
  }

  /** No entry of the table checks bit 0x0400. */
  lemma MasksAvoidReservedBit()
    ensures forall i :: 0 <= i < Entries ==> StatusBitAt(i).mask & 0x0400 == 0
  {
  }

  lemma SetReservedBit(status: Word, mask: Word)
    requires mask & 0x0400 == 0
    ensures (status | 0x0400) & mask == status & mask
  {
  }

  /** Bit 0x0400 of the status word is never checked: the table's lines for a
      status word are the same with it set. */
  lemma ReservedBitIgnored(status: Word, device: Device, address: Byte)
    ensures Decode(status | 0x0400, device, address, Entries) == Decode(status, device, address, Entries)
  {
    MasksAvoidReservedBit();
    forall i | 0 <= i < Entries
      ensures (status | 0x0400) & StatusBitAt(i).mask == status & StatusBitAt(i).mask
    {
      SetReservedBit(status, StatusBitAt(i).mask);
    }
    DecodeAgree(status | 0x0400, status, device, address, Entries);
  }

  /** So setting bit 0x0400 in a nonzero status word changes nothing that
      `readFaults` prints after the status line. */
  lemma ReservedBitSilent(status: Word, device: Device, address: Byte)
    requires status != 0
    ensures FaultReport(status | 0x0400, device, address) ==
            [Hex(FaultStatusPrefix, status | 0x0400)] + FaultReport(status, device, address)[1..]
  {
    ReservedBitIgnored(status, device, address);
  }

  /** With no bit set, no table entry prints anything. */
  lemma {:induction false} ClearWordPrintsNothing(device: Device, address: Byte, k: nat)
    requires k <= Entries
    ensures Decode(0, device, address, k) == []
  {
    if k > 0 {
      ClearWordPrintsNothing(device, address, k - 1);
    }
  }

  /** A status word with only bit 0x0400 set prints its status line and
      nothing else, not even "No faults detected.". */
  lemma ReservedBitAlone(device: Device, address: Byte)
    ensures FaultReport(0x0400, device, address) == [Hex(FaultStatusPrefix, 0x0400)]
  {
    ReservedBitIgnored(0, device, address);
    ClearWordPrintsNothing(device, address, Entries);
  }

  // ---------------------------------------------------------------------------
  // What a detail register prints

  /** The message of every flag whose bit is set in the byte is printed. */
  lemma {:induction false} SetFlagsPrinted(flags: seq<Flag>, value: Byte, i: nat)
    requires i < |flags| && value & flags[i].mask != 0
    ensures Text(flags[i].message) in FlagLines(flags, value)
  {
    if i > 0 {
      assert flags[1..][i - 1] == flags[i];
      SetFlagsPrinted(flags[1..], value, i - 1);
    }
  }

  /** Every line printed is the message of a flag whose bit is set. */
  lemma {:induction false} OnlySetFlagsPrinted(flags: seq<Flag>, value: Byte, line: Line)
    requires line in FlagLines(flags, value)
    ensures exists i :: 0 <= i < |flags| && value & flags[i].mask != 0 && line == Text(flags[i].message)
  {
    var rest := flags[1..];
    if value & flags[0].mask != 0 && line == Text(flags[0].message) {
      assert 0 < |flags|;
    } else {
      assert line !in FlagLine(flags[0], value);
      assert FlagLines(flags, value) == FlagLine(flags[0], value) + FlagLines(rest, value);
      OnlySetFlagsPrinted(rest, value, line);
      var i :| 0 <= i < |rest| && value & rest[i].mask != 0 && line == Text(rest[i].message);
      assert rest[i] == flags[i + 1];
    }
  }

  /** A detail byte prints at most one line per flag of its table. */
  lemma {:induction false} FlagLinesBounded(flags: seq<Flag>, value: Byte)
    ensures |FlagLines(flags, value)| <= |flags|
  {
    if flags != [] {
      FlagLinesBounded(flags[1..], value);
    }
  }

  /** Every flag of the table checks a bit inside `keep`. */
  predicate Within(flags: seq<Flag>, keep: Byte) {
    flags == [] || (flags[0].mask & keep == flags[0].mask && Within(flags[1..], keep))
  }

  /** Bits outside the table's flags print nothing: clearing the bits
      outside `keep` changes none of the flag lines, when every flag's bit
      is inside `keep`. */
  lemma {:induction false} MaskAgree(flags: seq<Flag>, value: Byte, keep: Byte)
    requires Within(flags, keep)
    ensures FlagLines(flags, value) == FlagLines(flags, value & keep)
  {
    if flags != [] {
      MaskedBit(value, keep, flags[0].mask);
      MaskAgree(flags[1..], value, keep);
    }
  }

  lemma MaskedBit(v: Byte, keep: Byte, mask: Byte)
    requires mask & keep == mask
    ensures (v & keep) & mask == v & mask
  {
  }

  /** Each domain decodes only the bits of its table: 0xD8 for STATUS_VOUT
      and STATUS_INPUT, 0xE0 for STATUS_IOUT and STATUS_CML, 0xC0 for
      STATUS_TEMPERATURE. */
  lemma DomainMasks(value: Byte)
    ensures FlagLines(VoutFlags, value) == FlagLines(VoutFlags, value & 0xD8)
    ensures FlagLines(IoutFlags, value) == FlagLines(IoutFlags, value & 0xE0)
    ensures FlagLines(InputFlags, value) == FlagLines(InputFlags, value & 0xD8)
    ensures FlagLines(TemperatureFlags, value) == FlagLines(TemperatureFlags, value & 0xC0)
    ensures FlagLines(CmlFlags, value) == FlagLines(CmlFlags, value & 0xE0)
  {
    MaskAgree(VoutFlags, value, 0xD8);
    MaskAgree(IoutFlags, value, 0xE0);
    MaskAgree(InputFlags, value, 0xD8);
    MaskAgree(TemperatureFlags, value, 0xC0);
    MaskAgree(CmlFlags, value, 0xE0);
  }

  /** A register that is not one of the five detail registers prints only
      its header line. */
  lemma UnknownRegisterReport(register: Byte, name: string, value: Byte)
    requires register !in DetailRegisters
    ensures DetailReport(register, name, value) == [Hex(name + DetailsSuffix, value as Word)]
  {
    FlagsOfOther(register);
  }

  /** The detail byte is the low byte of the word read; the high byte is lost. */
  lemma DetailValueIsLowByte(device: Device, address: Byte, register: Byte)
    ensures DetailValue(device, address, register) as Word == WordAt(device, address, register) & 0xFF
  {
  }

  // ---------------------------------------------------------------------------
  // Worked cases

  /** An output overvoltage alone prints the status line, the fault line and
      the report of STATUS_VOUT, ... */
  lemma OvervoltageLines(device: Device, address: Byte)
    ensures FaultReport(0x0020, device, address) ==
      [Hex(FaultStatusPrefix, 0x0020), Text(OutputOvervoltageText)] +
      DetailReport(STATUS_VOUT, "Output Voltage Fault", DetailValue(device, address, STATUS_VOUT))
  {
    var lines := DetailReport(STATUS_VOUT, "Output Voltage Fault", DetailValue(device, address, STATUS_VOUT));
    assert Decode(0x0020, device, address, 2) == [] by {
      assert Decode(0x0020, device, address, 1) == [];
    }
    assert Decode(0x0020, device, address, 3) == [Text(OutputOvervoltageText)] + lines;
    OvervoltageCheckedOnce();
    TailSilent(0x0020, device, address, 3, Entries);
  }

  /** No entry after the third checks bit 0x0020. */
  lemma OvervoltageCheckedOnce()
    ensures forall i :: 3 <= i < Entries ==> 0x0020 & StatusBitAt(i).mask == 0
  {
  }

  /** ... after reading just the status word and STATUS_VOUT. */
  lemma OvervoltageTraffic(address: Byte)
    ensures FaultTraffic(address, 0x0020) == ReadTraffic(address, STATUS_WORD) + ReadTraffic(address, STATUS_VOUT)
  {
    DetailReadsInOrder(0x0020);
    TrafficIsReads(0x0020, address, Entries);
    assert ReadsTraffic(address, [STATUS_VOUT]) == ReadTraffic(address, STATUS_VOUT);
  }

  /** Entries `k` to `n` print nothing for a status word none of whose bits they check. */
  lemma {:induction false} TailSilent(status: Word, device: Device, address: Byte, k: nat, n: nat)
    requires k <= n <= Entries
    requires forall i :: k <= i < n ==> status & StatusBitAt(i).mask == 0
    ensures Decode(status, device, address, n) == Decode(status, device, address, k)
  {
    if n > k {
      TailSilent(status, device, address, k, n - 1);
      assert status & StatusBitAt(n - 1).mask == 0;
    }
  }

  /** STATUS_VOUT reading 0x88: the header and the overvoltage and
      undervoltage fault lines, nothing for the other bits. */
  lemma VoutOverAndUnder(name: string)
    ensures DetailReport(STATUS_VOUT, name, 0x88) ==
      [Hex(name + DetailsSuffix, 0x88), Text(" - Output Overvoltage Fault"), Text(" - Output Undervoltage Fault")]
  {
    FlagsOfDomains();
    FlagLines4([Hex(name + DetailsSuffix, 0x88)], VoutFlags, 0x88);
  }
}
