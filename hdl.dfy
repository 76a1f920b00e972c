/**
 * Vocabulary shared by the generators: the target dialect (the global
 * `HDL.isVHDL()` switch, made an explicit value), port directions and the
 * width of a declared signal.
 */
module Hdl {

  datatype Dialect = VHDL | Verilog

  datatype Option<T> = None | Some(value: T)

  datatype Direction = Input | Output

  /** A width given either as a number of bits or by the id of a generic/parameter. */
  datatype Width = Fixed(bits: nat) | ByParameter(id: int)

  /** A declared port: direction, width and the component pin it stands for. */
  datatype PortDecl = PortDecl(direction: Direction, width: Width, pin: nat)

  function Pow2(n: nat): (r: nat)
    ensures r >= 1
  {
    if n == 0 then 1 else 2 * Pow2(n - 1)
  }

  /**
   * `to_unsigned(v, n)` in VHDL and an n-bit assignment in Verilog keep the
   * low n bits of a value.
   */
  function Truncate(v: nat, n: nat): (r: nat)
    ensures r < Pow2(n)
    ensures v < Pow2(n) ==> r == v
  {
    ModBounds(v, Pow2(n));
    v % Pow2(n)
  }

  lemma ModBounds(v: nat, m: nat)
    requires m >= 1
    ensures 0 <= v % m < m
    ensures v < m ==> v % m == v
  {
  }
}
