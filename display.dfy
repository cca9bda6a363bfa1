/** The memory-mapped display of the CISC-16-A simulator.
    Writes that land in the VGA window are turned into a report: the address,
    the character the value stands for, and the value itself. Printing the
    report is left to the caller; the model keeps the reports as data. */
module Display {

  /** First and last address of the VGA window (inclusive). */
  const VGA_BASE: int := 0x8000
  const VGA_LAST: int := 0x8FFF

  predicate InVga(address: int) {
    VGA_BASE <= address <= VGA_LAST
  }

  /** Printable ASCII, space through tilde. */
  predicate Printable(value: int) {
    32 <= value <= 126
  }

  /** The character shown for a value: itself when printable, '.' otherwise. */
  function VgaChar(value: int): (c: char)
    ensures Printable(c as int)
    ensures Printable(value) ==> c as int == value
    ensures !Printable(value) ==> c == '.'
  {
    if Printable(value) then value as char else '.'
  }

  /** One forwarded VGA write, as handle_vga_write would render it. */
  datatype Report = Report(address: int, ch: char, value: int)

  /** The report of a write of `value` at `address`: the raw value and the
      character it maps to. */
  function VgaReport(address: int, value: int): Report {
    Report(address, VgaChar(value), value)
  }

  /** A value is shown as itself exactly when it is printable; every other
      value collapses onto '.', which is itself printable. */
  lemma VgaCharShowsItselfIffPrintable(value: int)
    ensures VgaChar(value) as int == value <==> Printable(value)
  {
  }
}
