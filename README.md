# RACM600 power-supply driver, modelled in Dafny

This project models the Arduino driver for the Recom RACM600-SL power supply.
The supply is controlled over PMBus on a two-wire (I2C) bus. The driver is one
class, `RACM600`. It holds the supply's bus address, which defaults to 0x27. It
offers these operations:

- a generic word read (`readCommand`) and a generic word write (`writeCommand`);
- three control commands: output on, output off and clear faults;
- five measurement accessors;
- a two-level fault decoder (`readFaults` and `readDetailedFault`).

The decoder reads STATUS_WORD and prints it. For each status bit that is set,
it prints one line. For each of the five fault classes whose bit is set, it
reads that class's detail register (0x7A to 0x7E) and prints one line for each
flag set in the register's low byte.

The model has these parts:

- `Registers` (registers.dfy): the register map. It holds the command codes as
  `bv8` constants and the default address. It proves that the codes are ordered,
  that no two are equal, and that the detail and measurement registers are runs
  of consecutive codes.
- `Bus` (bus.dfy): the bus as a `Wire` object whose state is the trace of
  transactions sent over it. A transaction is a write of bytes, with or without
  a stop condition, or a request for a number of bytes. A mock `Device` at one
  address answers requests from the register most recently selected by a write.
- `Console` (console.dfy): the serial console as a `Serial` object whose state
  is the sequence of lines printed. A line is plain text, or a prefix followed
  by a number printed in hexadecimal.
- `Transport` (transport.dfy): word assembly, low byte first, and the bus
  traffic of one word read and one word write, with their round trips.
- `Faults` (faults.dfy): the decoder's specification, as tables.
  - `StatusBitAt` lists the fifteen status-word bits in the order the code checks
    them, each with its line and its detail register, if it has one.
  - `Domains` lists each detail register with its flags.
  - `FaultReport` gives the lines `readFaults` prints, and `FaultTraffic` the
    bus traffic it produces.
- `FaultProperties` (fault_properties.dfy): what the decoder promises, proved
  about those specification functions. It covers:
  - which detail registers are read, when, and in which order;
  - which bits stay silent;
  - what each detail register prints.
- `Driver` (driver.dfy): the `RACM600` class. Its methods issue the bus and
  console calls step by step, as the C++ does. Each is proved to produce exactly
  the trace and the lines given by the specification functions.

## Model

| member | source | states |
|---|---|---|
| Registers.CommandsDistinct | RACM600.h:28-68 | the 39 command codes are in strictly increasing order, so no two are equal |
| Registers.StandardIncreasing | RACM600.h:28-40 | the thirteen standard commands from PAGE to STATUS_WORD are in increasing order of code |
| Registers.StatusAndReadIncreasing | RACM600.h:41-56 | the sixteen status and measurement commands from STATUS_VOUT to PMBUS_REVISION are in increasing order of code |
| Registers.ManufacturerIncreasing | RACM600.h:59-68 | the ten manufacturer commands from MFR_VIN_MIN on are in increasing order of code |
| Registers.DetailRegistersConsecutive | RACM600.h:41-45 | STATUS_VOUT to STATUS_CML are the five consecutive, distinct codes 0x7A to 0x7E, so at most one domain block of the detail decoder matches any register |
| Registers.MeasurementRegistersConsecutive | RACM600.h:50-54 | READ_VOUT to READ_TEMPERATURE_3 are the five consecutive, distinct codes 0x8B to 0x8F |
| Bus.Selected | RACM600.cpp:30-32 | a register selected after a trace was written to that address as the first byte of some write in the trace |
| Bus.Take | RACM600.cpp:34-35 | a request receives a prefix of the register's bytes, of at most the requested length |
| Bus.Reply | RACM600.cpp:34-35 | a request never receives more bytes than it asked for, and receives none from an address where no device listens |
| Bus.ReplyAfterSelect | RACM600.cpp:30-34 | a write of the command byte without a stop makes the next request read that register, whatever came before |
| Bus.Wire.constructor | RACM600.cpp:30-34 | the bus starts with an empty trace and the given device |
| Bus.Wire.Transmit | RACM600.cpp:30-32 | beginTransmission, write and endTransmission append exactly one write transaction with the given bytes and stop flag |
| Bus.Wire.RequestFrom | RACM600.cpp:34-37 | a request appends one request transaction and returns the device's reply to the trace before it |
| Console.Serial.constructor | RACM600.cpp:109-110 | the console starts with no lines |
| Console.Serial.PrintLine | RACM600.cpp:109-110 | printing appends exactly one line and changes no earlier line |
| Transport.AssembleValue | RACM600.cpp:36-38 | `(high << 8) \| low` is high * 256 + low, and splitting it gives back both bytes |
| Transport.WordBytes | RACM600.cpp:47-48 | a word goes on the wire as two bytes, low byte then high byte, which assemble back to the word |
| Transport.ReadWordValue | RACM600.cpp:35-40 | with at least two bytes received, the word read is second * 256 + first; with fewer, it is 0 |
| Transport.ReadTraffic | RACM600.cpp:30-34 | a word read is one write of the command byte alone without a stop, then one request for two bytes, both to the same address |
| Transport.WriteTraffic | RACM600.cpp:44-49 | a word write is one write, ending with a stop, of the command byte, the low byte and the high byte |
| Transport.Answer | RACM600.cpp:34-37 | a word read receives the register's first two bytes from the device at its address, nothing from any other address, and never more than two bytes |
| Transport.WordRoundTrip | RACM600.cpp:36-38 | splitting any 16-bit word into its two bytes and assembling them gives the word back |
| Transport.BytesRoundTrip | RACM600.cpp:36-38 | assembling two bytes and splitting the word gives the two bytes back |
| Transport.WriteThenReadBytes | RACM600.cpp:44-49 | the two data bytes `writeCommand(cmd, v)` sends, fed through `readCommand`'s assembly, give back v for every v |
| Transport.LoopbackRoundTrip | RACM600.cpp:44-49 | a device that stores a word write's data bytes returns the written word to the next word read of that register |
| Transport.Store | RACM600.cpp:44-49 | storing bytes in a register changes that register only |
| Transport.ShortReadLooksLikeZero | RACM600.cpp:35-40 | a register answering fewer than two bytes reads as 0, as does a register that really holds zero |
| Faults.FlagsOfDomains | RACM600.cpp:163-192 | each of the five detail registers looks up its own flag table: four flags for STATUS_VOUT and STATUS_INPUT, three for STATUS_IOUT and STATUS_CML, two for STATUS_TEMPERATURE |
| Faults.FlagsOfOther | RACM600.cpp:163-192 | a register other than the five detail registers matches no domain block and decodes no flag |
| Faults.StatusBitsNamed | RACM600.cpp:118-149 | the decoder checks fifteen status-word bits, in the order the code checks them, each with its message and its detail register |
| Faults.ClassBits | RACM600.cpp:120-138 | only the five fault-class bits inside 0x3E have a detail register |
| Faults.TrafficIsReads | RACM600.cpp:120-139 | the detail-read traffic is exactly one word read of each register in the detail-read list, in order |
| Faults.WarningsReadNothing | RACM600.cpp:140-149 | the unknown-fault bit and the warning bits add no detail read |
| Faults.NoClassNoReads | RACM600.cpp:118-149 | a status word with no fault-class bit set reads no detail register |
| Faults.ReportSpelled | RACM600.cpp:109-149 | for a nonzero status word, the report is the status line followed by the fifteen bit checks in turn, each adding its line and its detail report only when its bit is set |
| Faults.TrafficSpelled | RACM600.cpp:107-138 | the bus traffic is the status-word read followed by the five fault-class checks in turn, each adding one detail read only when its bit is set |
| Faults.QuietReport | RACM600.cpp:109-115 | a zero status word prints the status line and "No faults detected." and nothing else |
| Faults.QuietTraffic | RACM600.cpp:107-115 | a zero status word reads the status word and no detail register |
| FaultProperties.LeadingEntriesReadNothing | RACM600.cpp:118-119 | the busy and output-off bits read no detail register |
| FaultProperties.DetailReadsInOrder | RACM600.cpp:118-149 | the detail reads are, in this order, STATUS_VOUT if bit 0x20 is set, STATUS_IOUT if 0x10 is, STATUS_INPUT for 0x08, STATUS_TEMPERATURE for 0x04 and STATUS_CML for 0x02, and nothing else |
| FaultProperties.DetailReadIff | RACM600.cpp:120-138 | a register is read if and only if it is one of the five detail registers and its class bit is set |
| FaultProperties.WhenIncreasing | RACM600.cpp:120-138 | any selection of the five detail registers, taken in the code's order, is increasing |
| FaultProperties.DetailReadsIncreasing | RACM600.cpp:120-138 | the detail registers are read from the most significant class bit to the least, each at most once, at most five reads in all |
| FaultProperties.DetailReadsClassBitsOnly | RACM600.cpp:118-149 | two status words that agree on the class bits 0x3E read the same detail registers, so bits 0x80, 0x40 and 0x01 and every warning bit read nothing |
| FaultProperties.BitLinesAgree | RACM600.cpp:118-149 | what one status-word check prints depends on the status word only through that check's bit |
| FaultProperties.DecodeAgree | RACM600.cpp:118-149 | two status words that agree on every checked bit print the same lines after the status line |
| FaultProperties.MasksAvoidReservedBit | RACM600.cpp:118-149 | no check of the decoder looks at bit 0x0400 |
| FaultProperties.ReservedBitIgnored | RACM600.cpp:118-149 | setting bit 0x0400 changes none of the lines the bit checks print |
| FaultProperties.ReservedBitSilent | RACM600.cpp:109-149 | for a nonzero status word, setting bit 0x0400 changes only the printed status value |
| FaultProperties.ClearWordPrintsNothing | RACM600.cpp:118-149 | with no bit set, no bit check prints anything |
| FaultProperties.ReservedBitAlone | RACM600.cpp:109-149 | a status word of 0x0400 prints its status line and nothing else, not even "No faults detected." |
| FaultProperties.SetFlagsPrinted | RACM600.cpp:163-192 | every flag whose bit is set in the detail byte has its message printed |
| FaultProperties.OnlySetFlagsPrinted | RACM600.cpp:163-192 | every flag line printed is the message of a flag whose bit is set in the detail byte |
| FaultProperties.FlagLinesBounded | RACM600.cpp:163-192 | a detail byte prints at most one line per flag of its table |
| FaultProperties.MaskAgree | RACM600.cpp:163-192 | bits outside a table's flags print nothing: clearing them leaves the flag lines unchanged |
| FaultProperties.DomainMasks | RACM600.cpp:163-192 | each domain decodes only its own bits: 0xD8 for VOUT and INPUT, 0xE0 for IOUT and CML, 0xC0 for TEMPERATURE |
| FaultProperties.UnknownRegisterReport | RACM600.cpp:159-192 | a register other than the five detail registers prints only its header line |
| FaultProperties.DetailValueIsLowByte | RACM600.cpp:157 | the detail byte decoded is the low byte of the word read, and the high byte is lost |
| FaultProperties.OvervoltageLines | RACM600.cpp:109-152 | a status word of 0x0020 prints the status line, "FAULT: Output Overvoltage" and the STATUS_VOUT report, and nothing else |
| FaultProperties.OvervoltageCheckedOnce | RACM600.cpp:118-149 | bit 0x0020 is checked by the overvoltage check alone, none of the later ones |
| FaultProperties.OvervoltageTraffic | RACM600.cpp:107-123 | a status word of 0x0020 reads STATUS_WORD and then STATUS_VOUT, and nothing else |
| FaultProperties.TailSilent | RACM600.cpp:118-149 | checks of bits that are clear print nothing |
| FaultProperties.VoutOverAndUnder | RACM600.cpp:163-168 | STATUS_VOUT reading 0x88 prints its header, the overvoltage-fault line and the undervoltage-fault line, and nothing for its other bits |
| Driver.RACM600.constructor | RACM600.cpp:20-22 | the driver stores the given address unchanged, 0x27 when none is given |
| Driver.RACM600.ReadCommand | RACM600.cpp:29-41 | a word read adds exactly the select-then-request traffic to the bus and returns the low-byte-first word the device answered, or 0 on a short read |
| Driver.RACM600.WriteCommand | RACM600.cpp:44-50 | a word write adds one write of the command, low and high bytes, with a stop, and nothing else |
| Driver.RACM600.EnableOutput | RACM600.cpp:53-58 | adds exactly one write of [0x01, 0x80] with a stop and reads nothing |
| Driver.RACM600.DisableOutput | RACM600.cpp:61-66 | adds exactly one write of [0x01, 0x00] with a stop and reads nothing |
| Driver.RACM600.ClearFaults | RACM600.cpp:69-73 | adds exactly one write of [0x03] with a stop and reads nothing |
| Driver.RACM600.ReadVoltage | RACM600.cpp:76-79 | one word read of 0x8B and no other traffic; the result is the raw word over 100 |
| Driver.RACM600.ReadCurrent | RACM600.cpp:82-85 | one word read of 0x8C and no other traffic; the result is the raw word over 100 |
| Driver.RACM600.ReadAmbientTemperature | RACM600.cpp:88-91 | one word read of 0x8D and no other traffic; the result is the raw word |
| Driver.RACM600.ReadACINPUTTemperature | RACM600.cpp:94-97 | one word read of 0x8E and no other traffic; the result is the raw word |
| Driver.RACM600.ReadDCOUTPUTTemperature | RACM600.cpp:100-103 | one word read of 0x8F and no other traffic; the result is the raw word |
| Driver.RACM600.ReadDetailedFault | RACM600.cpp:156-193 | reads the register once and prints its header, then one line per set flag of that register's table, from the low byte of the word read |
| Driver.RACM600.ReadFaults | RACM600.cpp:106-152 | returns the status word it read, unchanged, on both paths; its bus traffic is the status-word read and then the detail reads of the set class bits; its lines are the full fault report |
| Driver.RACM600.ReportBit | RACM600.cpp:118-149 | one check of a bit without a detail register: its line if the bit is set, nothing otherwise, and no bus traffic |
| Driver.RACM600.ReportClass | RACM600.cpp:120-138 | one fault-class check: its line and the detail report if the bit is set, one detail read on the bus in that case only |
| Driver.RACM600.PrintVoutFlags | RACM600.cpp:163-168 | prints exactly the STATUS_VOUT flag lines of the byte |
| Driver.RACM600.PrintIoutFlags | RACM600.cpp:170-174 | prints exactly the STATUS_IOUT flag lines of the byte |
| Driver.RACM600.PrintInputFlags | RACM600.cpp:176-181 | prints exactly the STATUS_INPUT flag lines of the byte |
| Driver.RACM600.PrintTemperatureFlags | RACM600.cpp:183-186 | prints exactly the STATUS_TEMPERATURE flag lines of the byte |
| Driver.RACM600.PrintCmlFlags | RACM600.cpp:188-192 | prints exactly the STATUS_CML flag lines of the byte |

## Left out

- `begin()` (RACM600.cpp:24-26) only calls `Wire.begin()`, which is hardware set-up. The model's bus is ready once constructed.
- The global `Wire` and `Serial` objects are passed to the constructor instead of being global.
- Hardware-level bus behaviour is not modelled: bus errors, NACKs, stalls, clock stretching and the Wire buffer limits. The code neither observes nor reports them. A short read is modelled as it is observed, returning 0.
- What the supply does with the bytes written to it is not modelled. Its answers are whatever the mock device's registers hold.
- Driver.RACM600.ReadVoltage: `raw * 0.01` is taken as the exact real raw / 100. Floating-point rounding is not modelled.
- Driver.RACM600.ReadCurrent: the same idealisation, the exact real raw / 100.
- Driver.RACM600.ReadAmbientTemperature: the conversion of the raw word to `float` is taken as exact. The same holds for ReadACINPUTTemperature and ReadDCOUTPUTTemperature.
- The hexadecimal digits of `Serial.println(x, HEX)` are not modelled. That line is a `Hex(prefix, value)` entry holding the number itself.
- `Serial.print(prefix)` followed by `Serial.println(value, HEX)` is modelled as one printed line.
- `readDCOUTPUTTemperature` has a malformed parameter list at RACM600.cpp:100. It is modelled as parameterless, as declared at RACM600.h:86, and its body reads the literal 0x8F.
- The method names follow the source (`ReadACINPUTTemperature`, `ReadDCOUTPUTTemperature`).
- `ReportBit`, `ReportClass` and the five `Print*Flags` methods split the bodies of `readFaults` and `readDetailedFault` into steps. They run the same checks in the same order and add no behaviour.
- The status bits are labelled as the code labels them. In the PMBus STATUS_WORD layout, the fan bit is 0x0400, 0x0200 is "other" and 0x0100 is "unknown". The model keeps the source's labels for 0x0200 and 0x0100, and its silence on 0x0400 (see `FaultProperties.ReservedBitAlone`). This is not claimed as a defect, because the PMBus standard's text is not part of this model.
- Concurrency is not modelled. The code has none.
