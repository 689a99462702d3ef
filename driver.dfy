/** The RACM600 driver class (RACM600.h, RACM600.cpp): one handle per power
    supply, holding its bus address, talking through the bus and printing
    fault diagnostics on the console. */
module Driver {
  import opened Registers
  import opened Bus
  import opened Console
  import opened Transport
  import opened Faults

  class RACM600 {
    const address: Byte
    const wire: Wire
    const serial: Serial

    /** `RACM600(uint8_t i2c_address = RACM600_DEFAULT_ADDR)`; the global
        `Wire` and `Serial` objects are passed in. */
    constructor (wire: Wire, serial: Serial, i2cAddress: Byte := DEFAULT_ADDR)
      ensures address == i2cAddress
      ensures this.wire == wire && this.serial == serial
    {
      address := i2cAddress;
      this.wire := wire;
      this.serial := serial;
    }

    /** Generic word read: select `cmd` keeping the bus, request two bytes,
        assemble them low byte first, or give 0 when fewer than two arrive. */
    method ReadCommand(cmd: Byte) returns (r: Word)
      modifies wire
      ensures wire.trace == old(wire.trace) + ReadTraffic(address, cmd)
      ensures r == WordAt(wire.device, address, cmd)
    {
      wire.Transmit(address, [cmd], false);
      ReplyAfterSelect(wire.device, old(wire.trace), address, cmd, 2);
      var received := wire.RequestFrom(address, 2);
      if |received| >= 2 {
        var low := received[0];
        var high := received[1];
        return Assemble(low, high);
      }
      return 0;
    }

    /** Generic word write: the command byte, the low byte, the high byte, stop. */
    method WriteCommand(cmd: Byte, value: Word)
      modifies wire
      ensures wire.trace == old(wire.trace) + WriteTraffic(address, cmd, value)
    {
      wire.Transmit(address, [cmd, LowByte(value), HighByte(value)], true);
      assert [cmd] + WordBytes(value) == [cmd, LowByte(value), HighByte(value)];
    }

    /** Writes 0x80 (bit 7, output on) to OPERATION. */
    method EnableOutput()
      modifies wire
      ensures wire.trace == old(wire.trace) + [Write(address, [0x01, 0x80], true)]
    {
      wire.Transmit(address, [OPERATION, 0x80], true);
    }

    /** Writes 0x00 (bit 7 clear, output off) to OPERATION. */
    method DisableOutput()
      modifies wire
      ensures wire.trace == old(wire.trace) + [Write(address, [0x01, 0x00], true)]
    {
      wire.Transmit(address, [OPERATION, 0x00], true);
    }

    /** Sends the CLEAR_FAULTS command byte alone. */
    method ClearFaults()
      modifies wire
      ensures wire.trace == old(wire.trace) + [Write(address, [0x03], true)]
    {
      wire.Transmit(address, [CLEAR_FAULTS], true);
    }

    /** Output voltage in volts: READ_VOUT scaled by 0.01 (taken as exact). */
    method ReadVoltage() returns (volts: real)
      modifies wire
      ensures wire.trace == old(wire.trace) + ReadTraffic(address, 0x8B)
      ensures volts == WordAt(wire.device, address, 0x8B) as int as real / 100.0
    {
      var raw := ReadCommand(READ_VOUT);
      volts := raw as int as real * 0.01;
    }

    /** Output current in amperes: READ_IOUT scaled by 0.01 (taken as exact). */
    method ReadCurrent() returns (amperes: real)
      modifies wire
      ensures wire.trace == old(wire.trace) + ReadTraffic(address, 0x8C)
      ensures amperes == WordAt(wire.device, address, 0x8C) as int as real / 100.0
    {
      var raw := ReadCommand(READ_IOUT);
      amperes := raw as int as real * 0.01;
    }

    /** Ambient temperature: READ_TEMPERATURE_1 taken as degrees Celsius. */
    method ReadAmbientTemperature() returns (celsius: real)
      modifies wire
      ensures wire.trace == old(wire.trace) + ReadTraffic(address, 0x8D)
      ensures celsius == WordAt(wire.device, address, 0x8D) as int as real
    {
      var raw := ReadCommand(READ_TEMPERATURE_1);
      celsius := raw as int as real;
    }

    /** Power factor correction stage temperature: READ_TEMPERATURE_2 as degrees Celsius. */
    method ReadACINPUTTemperature() returns (celsius: real)
      modifies wire
      ensures wire.trace == old(wire.trace) + ReadTraffic(address, 0x8E)
      ensures celsius == WordAt(wire.device, address, 0x8E) as int as real
    {
      var raw := ReadCommand(READ_TEMPERATURE_2);
      celsius := raw as int as real;
    }

    /** Resonant converter stage temperature: register 0x8F, written as a
        literal in the source, as degrees Celsius. */
    method ReadDCOUTPUTTemperature() returns (celsius: real)
      modifies wire
      ensures wire.trace == old(wire.trace) + ReadTraffic(address, READ_TEMPERATURE_3)
      ensures celsius == WordAt(wire.device, address, READ_TEMPERATURE_3) as int as real
    {
      var raw := ReadCommand(0x8F);
      celsius := raw as int as real;
    }

    /** Reads one detail register and prints one line per decoded bit set in
        its low byte. */
    method ReadDetailedFault(faultRegister: Byte, faultType: string)
      modifies wire, serial
      ensures wire.trace == old(wire.trace) + ReadTraffic(address, faultRegister)
      ensures serial.lines == old(serial.lines) +
                DetailReport(faultRegister, faultType, DetailValue(wire.device, address, faultRegister))
    {
      var word := ReadCommand(faultRegister);
      var faultStatus := LowByte(word);  // the implicit narrowing to uint8_t

      serial.PrintLine(Hex(faultType + DetailsSuffix, faultStatus as Word));
      ghost var header := serial.lines;
      FlagsOfDomains();
      if faultRegister == STATUS_VOUT { PrintVoutFlags(faultStatus); }
      if faultRegister == STATUS_IOUT { PrintIoutFlags(faultStatus); }
      if faultRegister == STATUS_INPUT { PrintInputFlags(faultStatus); }
      if faultRegister == STATUS_TEMPERATURE { PrintTemperatureFlags(faultStatus); }
      if faultRegister == STATUS_CML { PrintCmlFlags(faultStatus); }
      if faultRegister !in DetailRegisters { FlagsOfOther(faultRegister); }
      assert serial.lines == header + FlagLines(FlagsOf(faultRegister), faultStatus);
      DetailReportSplit(old(serial.lines), faultRegister, faultType, faultStatus);
    }

    /** Reads STATUS_WORD and prints it; then, unless it is zero, prints one
        line per status bit set and reads and decodes the detail register
        behind each fault class it reports. Returns the word read. */
    method ReadFaults() returns (status: Word)
      modifies wire, serial
      ensures status == WordAt(wire.device, address, STATUS_WORD)
      ensures wire.trace == old(wire.trace) + FaultTraffic(address, status)
      ensures serial.lines == old(serial.lines) + FaultReport(status, wire.device, address)
    {
      status := ReadCommand(STATUS_WORD);
      serial.PrintLine(Hex("Fault Status: 0x", status));

      if status == 0 {
        serial.PrintLine(Text("No faults detected."));
        QuietReport(old(serial.lines), wire.device, address);
        QuietTraffic(old(wire.trace), address);
        return status;
      }

      // Check each fault and print messages
      ReportBit(status, 0x0080, "FAULT: Device Busy");
      ReportBit(status, 0x0040, "FAULT: Power Output Off");
      ReportClass(status, 0x0020, "FAULT: Output Overvoltage", STATUS_VOUT, "Output Voltage Fault");
      ReportClass(status, 0x0010, "FAULT: Output Overcurrent", STATUS_IOUT, "Output Current Fault");
      ReportClass(status, 0x0008, "FAULT: Input Undervoltage", STATUS_INPUT, "Input Fault");
      ReportClass(status, 0x0004, "FAULT: Temperature Fault", STATUS_TEMPERATURE, "Temperature Fault");
      ReportClass(status, 0x0002, "FAULT: Communication Fault (CML)", STATUS_CML, "Communication Fault");
      ReportBit(status, 0x0001, "FAULT: Unknown Fault");

      // Warnings
      ReportBit(status, 0x8000, "WARNING: Output Voltage Issue");
      ReportBit(status, 0x4000, "WARNING: Output Current or Power Issue");
      ReportBit(status, 0x2000, "WARNING: Input Voltage or Power Issue");
      ReportBit(status, 0x1000, "WARNING: Manufacturer-Specific Issue");
      ReportBit(status, 0x0800, "WARNING: Power Good Signal Lost");
      ReportBit(status, 0x0200, "WARNING: Fan or Airflow Issue");
      ReportBit(status, 0x0100, "WARNING: Other Status Warning");

      ReportSpelled(old(serial.lines), status, wire.device, address);
      TrafficSpelled(old(wire.trace), status, address);
    }

    /** One check of `readFaults` for a bit without a detail register: its
        line, if the bit is set. */
    method ReportBit(status: Word, mask: Word, message: string)
      modifies serial
      ensures serial.lines == BitOnto(old(serial.lines), StatusBit(mask, message, NoDetail), status, wire.device, address)
    {
      if status & mask != 0 {
        serial.PrintLine(Text(message));
      }
    }

    /** One check of `readFaults` for a fault class: its line and the decoded
        detail register, if the bit is set. */
    method ReportClass(status: Word, mask: Word, message: string, register: Byte, name: string)
      modifies wire, serial
      ensures serial.lines == BitOnto(old(serial.lines), StatusBit(mask, message, Detail(register, name)), status, wire.device, address)
      ensures wire.trace == ReadOnto(old(wire.trace), StatusBit(mask, message, Detail(register, name)), status, address)
    {
      if status & mask != 0 {
        serial.PrintLine(Text(message));
        ReadDetailedFault(register, name);
      }
    }

    /** The STATUS_VOUT block of `readDetailedFault`: one line per output voltage flag set. */
    method PrintVoutFlags(faultStatus: Byte)
      modifies serial
      ensures serial.lines == old(serial.lines) + FlagLines(VoutFlags, faultStatus)
    {
      if faultStatus & 0x80 != 0 { serial.PrintLine(Text(" - Output Overvoltage Fault")); }
      assert serial.lines == old(serial.lines) + FlagLine(VoutFlags[0], faultStatus);
      if faultStatus & 0x40 != 0 { serial.PrintLine(Text(" - Output Overvoltage Warning")); }
      assert serial.lines == old(serial.lines) + FlagLine(VoutFlags[0], faultStatus) + FlagLine(VoutFlags[1], faultStatus);
      if faultStatus & 0x10 != 0 { serial.PrintLine(Text(" - Output Undervoltage Warning")); }
      assert serial.lines == old(serial.lines) + FlagLine(VoutFlags[0], faultStatus) + FlagLine(VoutFlags[1], faultStatus) + FlagLine(VoutFlags[2], faultStatus);
      if faultStatus & 0x08 != 0 { serial.PrintLine(Text(" - Output Undervoltage Fault")); }
      FlagLines4(old(serial.lines), VoutFlags, faultStatus);
    }

    /** The STATUS_IOUT block of `readDetailedFault`: one line per output current flag set. */
    method PrintIoutFlags(faultStatus: Byte)
      modifies serial
      ensures serial.lines == old(serial.lines) + FlagLines(IoutFlags, faultStatus)
    {
      if faultStatus & 0x80 != 0 { serial.PrintLine(Text(" - Output Overcurrent Fault")); }
      assert serial.lines == old(serial.lines) + FlagLine(IoutFlags[0], faultStatus);
      if faultStatus & 0x40 != 0 { serial.PrintLine(Text(" - Critical Constant Current Mode Fault")); }
      assert serial.lines == old(serial.lines) + FlagLine(IoutFlags[0], faultStatus) + FlagLine(IoutFlags[1], faultStatus);
      if faultStatus & 0x20 != 0 { serial.PrintLine(Text(" - Output Overcurrent Warning")); }
      FlagLines3(old(serial.lines), IoutFlags, faultStatus);
    }

    /** The STATUS_INPUT block of `readDetailedFault`: one line per input flag set. */
    method PrintInputFlags(faultStatus: Byte)
      modifies serial
      ensures serial.lines == old(serial.lines) + FlagLines(InputFlags, faultStatus)
    {
      if faultStatus & 0x80 != 0 { serial.PrintLine(Text(" - Input Overvoltage Fault")); }
      assert serial.lines == old(serial.lines) + FlagLine(InputFlags[0], faultStatus);
      if faultStatus & 0x40 != 0 { serial.PrintLine(Text(" - Input Overvoltage Warning")); }
      assert serial.lines == old(serial.lines) + FlagLine(InputFlags[0], faultStatus) + FlagLine(InputFlags[1], faultStatus);
      if faultStatus & 0x10 != 0 { serial.PrintLine(Text(" - Input Undervoltage Warning")); }
      assert serial.lines == old(serial.lines) + FlagLine(InputFlags[0], faultStatus) + FlagLine(InputFlags[1], faultStatus) + FlagLine(InputFlags[2], faultStatus);
      if faultStatus & 0x08 != 0 { serial.PrintLine(Text(" - Input Undervoltage Fault")); }
      FlagLines4(old(serial.lines), InputFlags, faultStatus);
    }

    /** The STATUS_TEMPERATURE block of `readDetailedFault`: one line per temperature flag set. */
    method PrintTemperatureFlags(faultStatus: Byte)
      modifies serial
      ensures serial.lines == old(serial.lines) + FlagLines(TemperatureFlags, faultStatus)
    {
      if faultStatus & 0x80 != 0 { serial.PrintLine(Text(" - Overtemperature Fault")); }
      assert serial.lines == old(serial.lines) + FlagLine(TemperatureFlags[0], faultStatus);
      if faultStatus & 0x40 != 0 { serial.PrintLine(Text(" - Overtemperature Warning")); }
      FlagLines2(old(serial.lines), TemperatureFlags, faultStatus);
    }

    /** The STATUS_CML block of `readDetailedFault`: one line per communication flag set. */
    method PrintCmlFlags(faultStatus: Byte)
      modifies serial
      ensures serial.lines == old(serial.lines) + FlagLines(CmlFlags, faultStatus)
    {
      if faultStatus & 0x80 != 0 { serial.PrintLine(Text(" - Invalid Command Received")); }
      assert serial.lines == old(serial.lines) + FlagLine(CmlFlags[0], faultStatus);
      if faultStatus & 0x40 != 0 { serial.PrintLine(Text(" - Invalid Data Received")); }
      assert serial.lines == old(serial.lines) + FlagLine(CmlFlags[0], faultStatus) + FlagLine(CmlFlags[1], faultStatus);
      if faultStatus & 0x20 != 0 { serial.PrintLine(Text(" - Packet Error Check Failed")); }
      FlagLines3(old(serial.lines), CmlFlags, faultStatus);
    }
  }
}
