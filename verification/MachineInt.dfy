/** Conversions between the machine's integer widths. */
module MachineInt {
  /** A 64-bit number converted to a 32-bit int. */
  function ToInt(w: nat): int {
    var m := w % 0x1_0000_0000;
    if m < 0x8000_0000 then m else m - 0x1_0000_0000
  }
}
