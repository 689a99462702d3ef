/** The RACM600 register map: the bus address the driver uses by default and
    the PMBus and manufacturer-specific command codes (RACM600.h). Every code
    is one byte on the wire, so each constant is a `bv8`. */
module Registers {

  type Byte = bv8
  type Word = bv16

  /** Address of the power supply on the two-wire bus when none is given. */
  const DEFAULT_ADDR: Byte := 0x27

  // Standard PMBus commands
  const PAGE: Byte := 0x00
  const OPERATION: Byte := 0x01
  const CLEAR_FAULTS: Byte := 0x03
  const CAPABILITY: Byte := 0x19
  const QUERY: Byte := 0x1A
  const VOUT_MODE: Byte := 0x20
  const VOUT_OV_FAULT_LIMIT: Byte := 0x40
  const IOUT_OC_FAULT_LIMIT: Byte := 0x46
  const IOUT_OC_WARN_LIMIT: Byte := 0x4A
  const OT_FAULT_LIMIT: Byte := 0x4F
  const OT_WARN_LIMIT: Byte := 0x51
  const STATUS_BYTE: Byte := 0x78
  const STATUS_WORD: Byte := 0x79
  const STATUS_VOUT: Byte := 0x7A
  const STATUS_IOUT: Byte := 0x7B
  const STATUS_INPUT: Byte := 0x7C
  const STATUS_TEMPERATURE: Byte := 0x7D
  const STATUS_CML: Byte := 0x7E
  const STATUS_OTHER: Byte := 0x7F
  const STATUS_MFR_SPECIFIC: Byte := 0x80
  const READ_VIN: Byte := 0x88
  const READ_VCAP: Byte := 0x8A
  const READ_VOUT: Byte := 0x8B
  const READ_IOUT: Byte := 0x8C
  const READ_TEMPERATURE_1: Byte := 0x8D
  const READ_TEMPERATURE_2: Byte := 0x8E
  const READ_TEMPERATURE_3: Byte := 0x8F
  const READ_POUT: Byte := 0x96
  const PMBUS_REVISION: Byte := 0x98

  // Manufacturer-specific commands
  const MFR_VIN_MIN: Byte := 0xA0
  const MFR_VIN_MAX: Byte := 0xA1
  const MFR_IIN_MAX: Byte := 0xA2
  const MFR_PIN_MAX: Byte := 0xA3
  const MFR_VOUT_MIN: Byte := 0xA4
  const MFR_VOUT_MAX: Byte := 0xA5
  const MFR_IOUT_MAX: Byte := 0xA6
  const MFR_POUT_MAX: Byte := 0xA7
  const MFR_TAMBIENT_MAX: Byte := 0xA8
  const MFR_TAMBIENT_MIN: Byte := 0xA9

  /** The standard PMBus commands of the register map, in declaration order. */
  const StandardCommands: seq<Byte> := [
    PAGE, OPERATION, CLEAR_FAULTS, CAPABILITY, QUERY, VOUT_MODE,
    VOUT_OV_FAULT_LIMIT, IOUT_OC_FAULT_LIMIT, IOUT_OC_WARN_LIMIT,
    OT_FAULT_LIMIT, OT_WARN_LIMIT, STATUS_BYTE, STATUS_WORD
  ]
  const StatusAndReadCommands: seq<Byte> := [
    STATUS_VOUT, STATUS_IOUT, STATUS_INPUT, STATUS_TEMPERATURE, STATUS_CML,
    STATUS_OTHER, STATUS_MFR_SPECIFIC, READ_VIN, READ_VCAP, READ_VOUT,
    READ_IOUT, READ_TEMPERATURE_1, READ_TEMPERATURE_2, READ_TEMPERATURE_3,
    READ_POUT, PMBUS_REVISION
  ]
  /** The manufacturer-specific commands, in declaration order. */
  const ManufacturerCommands: seq<Byte> := [
    MFR_VIN_MIN, MFR_VIN_MAX, MFR_IIN_MAX, MFR_PIN_MAX, MFR_VOUT_MIN,
    MFR_VOUT_MAX, MFR_IOUT_MAX, MFR_POUT_MAX, MFR_TAMBIENT_MAX, MFR_TAMBIENT_MIN
  ]

  /** Every command code of the register map, in declaration order. */
  const Commands: seq<Byte> := StandardCommands + StatusAndReadCommands + ManufacturerCommands

  /** The sequence is in strictly increasing order of code. */
  predicate StrictlyIncreasing(s: seq<Byte>) {
    forall i, j :: 0 <= i < j < |s| ==> s[i] < s[j]
  }

  /** The five detail status registers, one per fault domain. */
  const DetailRegisters: seq<Byte> :=
    [STATUS_VOUT, STATUS_IOUT, STATUS_INPUT, STATUS_TEMPERATURE, STATUS_CML]

  /** The five measurement registers read by the accessors. */
  const MeasurementRegisters: seq<Byte> :=
    [READ_VOUT, READ_IOUT, READ_TEMPERATURE_1, READ_TEMPERATURE_2, READ_TEMPERATURE_3]

  /** Each adjacent pair of the sequence is one code apart. */
  predicate Consecutive(s: seq<Byte>) {
    forall i :: 0 <= i < |s| - 1 ==> s[i + 1] as int == s[i] as int + 1
  }

  /** The register map is ordered by code, hence no two commands share a code. */
  lemma CommandsDistinct()
    ensures |Commands| == 39
    ensures StrictlyIncreasing(Commands)
    ensures forall i, j :: 0 <= i < j < |Commands| ==> Commands[i] != Commands[j]
  {
    var front := StandardCommands + StatusAndReadCommands;
    StandardIncreasing();
    StatusAndReadIncreasing();
    ManufacturerIncreasing();
    IncreasingConcat(StandardCommands, StatusAndReadCommands);
    assert front[|front| - 1] == StatusAndReadCommands[15];
    IncreasingConcat(front, ManufacturerCommands);
  }

  /** Each of the three runs of the register map is ordered by code. */
  lemma StandardIncreasing()
    ensures |StandardCommands| == 13 && StandardCommands[12] == STATUS_WORD
    ensures StrictlyIncreasing(StandardCommands)
  {
    StepwiseIncreasing(StandardCommands);
  }

  lemma StatusAndReadIncreasing()
    ensures |StatusAndReadCommands| == 16
    ensures StatusAndReadCommands[0] == STATUS_VOUT && StatusAndReadCommands[15] == PMBUS_REVISION
    ensures StrictlyIncreasing(StatusAndReadCommands)
  {
    StepwiseIncreasing(StatusAndReadCommands);
  }

  lemma ManufacturerIncreasing()
    ensures |ManufacturerCommands| == 10 && ManufacturerCommands[0] == MFR_VIN_MIN
    ensures StrictlyIncreasing(ManufacturerCommands)
  {
    StepwiseIncreasing(ManufacturerCommands);
  }

  /** Two increasing runs, the second starting above the end of the first, join into one. */
  lemma IncreasingConcat(a: seq<Byte>, b: seq<Byte>)
    requires StrictlyIncreasing(a) && StrictlyIncreasing(b)
    requires a != [] && b != [] && a[|a| - 1] < b[0]
    ensures StrictlyIncreasing(a + b)
  {
    forall i, j | 0 <= i < j < |a + b| ensures (a + b)[i] < (a + b)[j] {
      if i < |a| && j >= |a| {
        assert (a + b)[i] <= a[|a| - 1];
        assert b[0] <= (a + b)[j];
      }
    }
  }

  /** A sequence whose neighbours increase is strictly increasing. */
  lemma {:induction false} StepwiseIncreasing(s: seq<Byte>)
    requires forall i :: 0 <= i < |s| - 1 ==> s[i] < s[i + 1]
    ensures StrictlyIncreasing(s)
  {
    if |s| > 1 {
      StepwiseIncreasing(s[1..]);
      forall i, j | 0 <= i < j < |s| ensures s[i] < s[j] {
        if i > 0 {
          assert s[i] == s[1..][i - 1] && s[j] == s[1..][j - 1];
        } else if j > 1 {
          assert s[1] == s[1..][0] && s[j] == s[1..][j - 1];
        }
      }
    }
  }

  /** The five detail registers are the consecutive codes 0x7A to 0x7E. */
  lemma DetailRegistersConsecutive()
    ensures Consecutive(DetailRegisters)
    ensures DetailRegisters[0] == 0x7A && DetailRegisters[4] == 0x7E
    ensures StrictlyIncreasing(DetailRegisters)
  {
    StepwiseIncreasing(DetailRegisters);
  }

  /** The five measurement registers are the consecutive codes 0x8B to 0x8F. */
  lemma MeasurementRegistersConsecutive()
    ensures Consecutive(MeasurementRegisters)
    ensures MeasurementRegisters[0] == 0x8B && MeasurementRegisters[4] == 0x8F
    ensures StrictlyIncreasing(MeasurementRegisters)
  {
    StepwiseIncreasing(MeasurementRegisters);
  }
}
