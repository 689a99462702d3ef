/** The serial console the fault decoder writes to (the Arduino `Serial`
    object), seen as the sequence of lines it has printed. */
module Console {
  import opened Registers

  /** A printed line: plain text, or a prefix followed by a number printed in
      hexadecimal (`Serial.print(prefix); Serial.println(value, HEX)`), whose
      digits are not modelled. */
  datatype Line = Text(text: string) | Hex(prefix: string, value: Word)

  class Serial {
    var lines: seq<Line>

    constructor ()
      ensures lines == []
    {
      lines := [];
    }

    method PrintLine(line: Line)
      modifies this
      ensures lines == old(lines) + [line]
    {
      lines := lines + [line];
    }
  }
}
