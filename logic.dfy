/**
 * The subset of IEEE 1164 `std_logic` values that the generated HDL relies on:
 * the two driven levels and one value standing for every other level
 * ('U', 'X', 'Z', 'W', '-', 'L', 'H'). This is an approximation: it is exact
 * for the generated code's `= '0'` / `= '1'` comparisons, but IEEE 1164
 * `NOT`, `AND`, `XOR` and `rising_edge` read the weak levels 'L' and 'H' as
 * '0' and '1', which this model does not.
 */
module Logic {

  datatype Bit = Zero | One | Unknown

  predicate IsBinary(b: Bit) {
    b != Unknown
  }

  function FromBool(b: bool): (r: Bit)
    ensures IsBinary(r)
    ensures r == One <==> b
  {
    if b then One else Zero
  }

  /** VHDL `NOT` / Verilog `~` on one bit. */
  function Not(a: Bit): (r: Bit)
    ensures IsBinary(a) <==> IsBinary(r)
    ensures IsBinary(a) ==> r != a
  {
    match a
    case Zero => One
    case One => Zero
    case Unknown => Unknown
  }

  /** VHDL `AND` / Verilog `&`: a driven '0' on either side dominates. */
  function And(a: Bit, b: Bit): (r: Bit)
    ensures r == One <==> a == One && b == One
    ensures r == Zero <==> a == Zero || b == Zero
  {
    if a == Zero || b == Zero then Zero
    else if a == One && b == One then One
    else Unknown
  }

  /** VHDL `XOR` / Verilog `^`: any indeterminate input makes the result indeterminate. */
  function Xor(a: Bit, b: Bit): (r: Bit)
    ensures IsBinary(r) <==> IsBinary(a) && IsBinary(b)
    ensures IsBinary(r) ==> (r == One <==> a != b)
  {
    if a == Unknown || b == Unknown then Unknown else FromBool(a != b)
  }
}
