# Clock divider and 7474 generator of the FPGA back end, modelled in Dafny

This project models two HDL generators of the logisim-evolution FPGA back end, together with the hardware their output describes.

* **The clock component** (`ClockHDLGeneratorFactory`). It emits one clock divider per clock source. The divider drives a 5-bit clock bus with a fixed layout: bit 0 is the derived clock, bit 1 the inverted derived clock, bit 2 the positive-edge tick, bit 3 the negative-edge tick and bit 4 the raw `GlobalClock`. The model covers:
  * the bus constants;
  * the declared generics, wires, registers and ports;
  * the port map and the clock-tree net name;
  * the divider itself, as a synchronous machine that takes one step per rising edge of `GlobalClock`. Its state is the down-counter `s_counter_reg`, the `Phase`-long shift register `s_derived_clock_reg` and the `s_buf_regs`/`s_output_regs` pipeline. `ClockDivider.Next` specifies one edge on values. `ClockDivider.Divider` holds the same registers in arrays and updates them in place; its shift is the emitted `FOR n IN Phase-1 DOWNTO 1` loop.
* **The 7474 dual D flip-flop** (`Ttl7474HDLGenerator`). The model covers:
  * the declared inputs, outputs and wires;
  * the port map. Each of the two units resolves its clock to one of three cases: unconnected, gated, or clock bus. The remaining ten pins map to fixed component pins;
  * the warnings for unconnected clocks;
  * the flip-flop behaviour that the emitted VHDL describes;
  * the supported targets.

Modules: `Logic` (a three-valued `std_logic`), `Decimal` (Java's decimal rendering of an `int`), `Hdl` (dialect, widths, truncation), `ClockGenerator`, `ClockDivider` and `Ttl7474`.

The dialect (`HDL.isVHDL()`) is an explicit `Dialect` argument. Netlist queries are abstract inputs: connectivity, clock-source id, clock-tree name, net name and net map. `FPGA_CLOCK`, `FPGA_TICK` and `CLOCK_TREE_NAME` belong to framework classes that are not part of this model, so they are parameters (`FrameworkNames`). The severe-warning reporter becomes a returned list of `Warning` values.

Behaviour reproduced as the code has it:

* The Verilog branch assigns `s_output_regs[1]` to itself (ClockHDLGeneratorFactory.java:116). In Verilog the inverted-clock bit therefore never changes; it stays 0 from the initial block onward, on every ticking edge (`VerilogInvertedBitStaysZero`) and on every edge without a tick (`VerilogInvertedBitHeld`). The inverted-clock property is proved for VHDL only. Only bit 1 holds itself in Verilog; bit 3 is computed in both dialects.
* The 7474 body drives `Q2`/`nQ2` from `state1`, and its preset branch fires on `nPRE = '1'`. Both are modelled as written (`OutputsIgnoreSecondUnit`, `FlipFlop`).
* VHDL normalisation also zeroes the counter (ClockHDLGeneratorFactory.java:174-175), besides setting the shift register to all ones.

## Model

| member | source | states |
|---|---|---|
| ClockGenerator.BusIndicesPartitionBus | src/main/java/com/cburch/logisim/std/wiring/ClockHDLGeneratorFactory.java:29-34 | the five bus indices are distinct and lie inside the 5-bit bus; `ClockBus` is declared 5 wide; the output register is 4 wide, one per non-global index |
| ClockGenerator.ClockBusValue | src/main/java/com/cburch/logisim/std/wiring/ClockHDLGeneratorFactory.java:95-110 | `GlobalClock & s_output_regs`: bit 4 is the global clock and bits 0-3 are the output registers, at the derived/inverted/positive/negative indices |
| ClockGenerator.Parameters | src/main/java/com/cburch/logisim/std/wiring/ClockHDLGeneratorFactory.java:46-50 | the four generics HighTicks, LowTicks, Phase and NrOfBits, with their ids and resolution rules |
| ClockGenerator.Wires | src/main/java/com/cburch/logisim/std/wiring/ClockHDLGeneratorFactory.java:51-53 | the two declared wires |
| ClockGenerator.Registers | src/main/java/com/cburch/logisim/std/wiring/ClockHDLGeneratorFactory.java:54-57 | the four declared registers |
| ClockGenerator.Ports | src/main/java/com/cburch/logisim/std/wiring/ClockHDLGeneratorFactory.java:58-61 | the ports GlobalClock, ClockTick and ClockBus |
| ClockGenerator.WidthsReferToDeclaredParameters | src/main/java/com/cburch/logisim/std/wiring/ClockHDLGeneratorFactory.java:46-57 | every wire or register whose width is given by a generic id refers to a declared generic |
| ClockDivider.DeclaredWidthsMatch | src/main/java/com/cburch/logisim/std/wiring/ClockHDLGeneratorFactory.java:51-61 | the resolved widths of the declared registers, of `s_counter_next` and of `ClockBus` equal the sizes of the modelled state, and the counter fits its declared width |
| ClockGenerator.GetClockNetName | src/main/java/com/cburch/logisim/std/wiring/ClockHDLGeneratorFactory.java:75-82 | empty for a negative source id; otherwise the clock-tree name followed by digits that parse back to the id |
| ClockGenerator.ClockNetNamesDistinct | src/main/java/com/cburch/logisim/std/wiring/ClockHDLGeneratorFactory.java:75-82 | distinct non-negative source ids give distinct clock-tree names |
| ClockGenerator.GetPortMap | src/main/java/com/cburch/logisim/std/wiring/ClockHDLGeneratorFactory.java:64-73 | empty for a non-component; otherwise its keys are exactly the declared ports, with the FPGA clock, the FPGA tick and `"s_" + clock net name`; the bus is `"s_"` when there is no source |
| ClockGenerator.PortMapBusesDistinct | src/main/java/com/cburch/logisim/std/wiring/ClockHDLGeneratorFactory.java:65-82 | clock components with different sources drive differently named buses |
| Decimal.NatToString | src/main/java/com/cburch/logisim/std/wiring/ClockHDLGeneratorFactory.java:79 | Java's decimal rendering of a non-negative int: non-empty, all digits, no leading zero |
| Decimal.ParseNatToString | src/main/java/com/cburch/logisim/std/wiring/ClockHDLGeneratorFactory.java:79 | parsing the rendering gives back the number |
| Decimal.NatToStringInjective | src/main/java/com/cburch/logisim/std/wiring/ClockHDLGeneratorFactory.java:79 | distinct numbers render differently |
| Decimal.UnitDigits | src/main/java/com/cburch/logisim/std/ttl/Ttl7474HDLGenerator.java:128 | the unit numbers 1 and 2 and the bus indices render as single digits |
| Decimal.TrailingDigitsAfter | src/main/java/com/cburch/logisim/std/ttl/Ttl7474HDLGenerator.java:125-128 | a number appended after text ending in a non-digit can be read back from the end |
| Logic.Not | src/main/java/com/cburch/logisim/std/wiring/ClockHDLGeneratorFactory.java:100 | `NOT` flips a driven bit and keeps an indeterminate one indeterminate |
| Logic.And | src/main/java/com/cburch/logisim/std/wiring/ClockHDLGeneratorFactory.java:103-104 | `AND` is '1' exactly when both inputs are '1', and '0' exactly when either is '0' |
| Logic.Xor | src/main/java/com/cburch/logisim/std/wiring/ClockHDLGeneratorFactory.java:165 | `XOR` is driven exactly when both inputs are, and is then '1' exactly when they differ |
| Logic.FromBool | src/main/java/com/cburch/logisim/std/wiring/ClockHDLGeneratorFactory.java:125 | a condition as a driven bit, '1' exactly when it holds |
| Hdl.Truncate | src/main/java/com/cburch/logisim/std/wiring/ClockHDLGeneratorFactory.java:128-130 | `to_unsigned(v, NrOfBits)` keeps the value within the width, and keeps it unchanged when it fits |
| ClockDivider.Tap | src/main/java/com/cburch/logisim/std/wiring/ClockHDLGeneratorFactory.java:99-113 | `s_derived_clock_reg(Phase-1)` is the oldest bit of the shift register; with Phase 1 in Verilog it is driven; `TapDelay` gives its value as bit 0 delayed by Phase-1 edges |
| ClockDivider.NeedsNormalisation | src/main/java/com/cburch/logisim/std/wiring/ClockHDLGeneratorFactory.java:159-174 | the guard of the VHDL processes: never true in Verilog, and true only when bit 0 is indeterminate |
| ClockDivider.CounterNext | src/main/java/com/cburch/logisim/std/wiring/ClockHDLGeneratorFactory.java:125-139 | `s_counter_next` stays within the counter's width |
| ClockDivider.NextOutputs | src/main/java/com/cburch/logisim/std/wiring/ClockHDLGeneratorFactory.java:99-118 | the new output registers fill the 4 non-global bus bits; the two edge ticks are never both '1' |
| ClockDivider.Next | src/main/java/com/cburch/logisim/std/wiring/ClockHDLGeneratorFactory.java:93-203 | one rising edge keeps the register shapes and the counter's width, keeps bit 0 driven in Verilog, and never raises both edge ticks |
| ClockDivider.PowerUp | src/main/java/com/cburch/logisim/std/wiring/ClockHDLGeneratorFactory.java:142-150 | the power-up state has the declared shapes (Verilog: as the initial block sets it) |
| ClockDivider.Run | src/main/java/com/cburch/logisim/std/wiring/ClockHDLGeneratorFactory.java:154-203 | any number of ticking edges keeps the state well-shaped |
| ClockDivider.CounterOnTick | src/main/java/com/cburch/logisim/std/wiring/ClockHDLGeneratorFactory.java:125-139 | on a tick the counter decrements when non-zero; at zero it reloads LowTicks-1 when bit 0 is 1 and HighTicks-1 otherwise, with no truncation |
| ClockDivider.ShiftOnTick | src/main/java/com/cburch/logisim/std/wiring/ClockHDLGeneratorFactory.java:161-165 | on a tick bit 0 becomes bit0 XOR counter-is-zero, and bit n becomes the old bit n-1 for 1 <= n < Phase |
| ClockDivider.HoldWithoutTick | src/main/java/com/cburch/logisim/std/wiring/ClockHDLGeneratorFactory.java:161-178 | without a tick the counter and the shift register keep their values; the buffer and output registers still update |
| ClockDivider.Normalisation | src/main/java/com/cburch/logisim/std/wiring/ClockHDLGeneratorFactory.java:159-175 | VHDL: an indeterminate bit 0 forces the shift register to all '1' and the counter to 0, whatever ClockTick is |
| ClockDivider.VhdlPowerUpNormalises | src/main/java/com/cburch/logisim/std/wiring/ClockHDLGeneratorFactory.java:155-180 | VHDL: after the first edge from power-up the shift register is all '1' and the counter is 0 |
| ClockDivider.BufferStage | src/main/java/com/cburch/logisim/std/wiring/ClockHDLGeneratorFactory.java:96-106 | two edges after the tap is sampled, the derived bit equals it and (VHDL) the inverted bit is its complement; the positive tick is '1' exactly on a 0-to-1 change of the tap and the negative tick exactly on a 1-to-0 change |
| ClockDivider.TicksLastOneCycle | src/main/java/com/cburch/logisim/std/wiring/ClockHDLGeneratorFactory.java:99-104 | an edge tick that is '1' after one edge is '0' after the next |
| ClockDivider.VerilogInvertedBitHeld | src/main/java/com/cburch/logisim/std/wiring/ClockHDLGeneratorFactory.java:116 | Verilog: the inverted-clock output register never changes |
| ClockDivider.VerilogInvertedBitStaysZero | src/main/java/com/cburch/logisim/std/wiring/ClockHDLGeneratorFactory.java:111-149 | Verilog: from the initial block, the inverted-clock output register stays 0 on every ticking edge |
| ClockDivider.OrbitStep | src/main/java/com/cburch/logisim/std/wiring/ClockHDLGeneratorFactory.java:125-165 | one ticking edge moves the counter and bit 0 from one cycle position to the next |
| ClockDivider.RunOrbit | src/main/java/com/cburch/logisim/std/wiring/ClockHDLGeneratorFactory.java:125-165 | after k ticking edges the counter and bit 0 are k positions further on around the cycle |
| ClockDivider.AdvancePeriod | src/main/java/com/cburch/logisim/std/wiring/ClockHDLGeneratorFactory.java:125-130 | HighTicks + LowTicks positions bring the cycle back to where it started |
| ClockDivider.DutyCycle | src/main/java/com/cburch/logisim/std/wiring/ClockHDLGeneratorFactory.java:125-165 | from counter 0 and bit 0 low, bit 0 is 1 for exactly the first HighTicks ticks and 0 for the next LowTicks; after HighTicks + LowTicks ticks the counter and bit 0 are back |
| ClockDivider.DutyCycleAt | src/main/java/com/cburch/logisim/std/wiring/ClockHDLGeneratorFactory.java:125-165 | from counter 0 and bit 0 low, edge k of the first period leaves bit 0 at 1 iff k <= HighTicks |
| ClockDivider.Periodic | src/main/java/com/cburch/logisim/std/wiring/ClockHDLGeneratorFactory.java:125-165 | on the cycle, the counter and bit 0 repeat with period HighTicks + LowTicks |
| ClockDivider.PowerUpOnOrbit | src/main/java/com/cburch/logisim/std/wiring/ClockHDLGeneratorFactory.java:143-175 | the Verilog initial state is on the cycle; the VHDL state after its first edge is on the cycle too |
| ClockDivider.RunShifts | src/main/java/com/cburch/logisim/std/wiring/ClockHDLGeneratorFactory.java:162-165 | on the cycle, bit n after an edge is bit n-1 before it |
| ClockDivider.ShiftDelay | src/main/java/com/cburch/logisim/std/wiring/ClockHDLGeneratorFactory.java:162-165 | bit n of the shift register is bit 0 delayed by n edges; before n edges have passed it holds the initial contents shifted up |
| ClockDivider.History | src/main/java/com/cburch/logisim/std/wiring/ClockHDLGeneratorFactory.java:161-165 | the shift-register contents after 0, 1, ..., k edges, one entry per edge count |
| ClockDivider.DelayLine | src/main/java/com/cburch/logisim/std/wiring/ClockHDLGeneratorFactory.java:161-165 | in a register history where each bit above 0 takes its lower neighbour's previous value, bit n is bit 0 delayed by n steps, or an initial bit shifted up before n steps have passed |
| ClockDivider.TapDelay | src/main/java/com/cburch/logisim/std/wiring/ClockHDLGeneratorFactory.java:99-165 | the tap at Phase-1 is bit 0 delayed by Phase-1 edges |
| ClockDivider.ExampleThreeTwo | src/main/java/com/cburch/logisim/std/wiring/ClockHDLGeneratorFactory.java:125-165 | HighTicks 3, LowTicks 2, Phase 1: the derived clock reads 1,1,1,0,0 and then repeats |
| ClockDivider.Divider.Bus | src/main/java/com/cburch/logisim/std/wiring/ClockHDLGeneratorFactory.java:95 | the object's `ClockBus` is the bus layout applied to its output registers |
| ClockDivider.Divider.constructor | src/main/java/com/cburch/logisim/std/wiring/ClockHDLGeneratorFactory.java:143-149 | fresh registers holding the power-up state |
| ClockDivider.Divider.Step | src/main/java/com/cburch/logisim/std/wiring/ClockHDLGeneratorFactory.java:93-203 | one rising edge done in place; the new register contents are exactly `Next` of the old ones |
| ClockDivider.Divider.UpdateOutputs | src/main/java/com/cburch/logisim/std/wiring/ClockHDLGeneratorFactory.java:96-120 | process `makeOutputs`: the buffer samples the tap and its complement, and the output registers take `NextOutputs` of the old state |
| ClockDivider.Divider.FillOnes | src/main/java/com/cburch/logisim/std/wiring/ClockHDLGeneratorFactory.java:159-160 | `(OTHERS => '1')` on the shift register |
| ClockDivider.Divider.ShiftIn | src/main/java/com/cburch/logisim/std/wiring/ClockHDLGeneratorFactory.java:161-165 | the shift loop: the register becomes the new bit 0 followed by the old bits 0..Phase-2 |
| Ttl7474.InputList | src/main/java/com/cburch/logisim/std/ttl/Ttl7474HDLGenerator.java:50-63 | the ten one-bit inputs |
| Ttl7474.OutputList | src/main/java/com/cburch/logisim/std/ttl/Ttl7474HDLGenerator.java:65-73 | the four one-bit outputs |
| Ttl7474.WireList | src/main/java/com/cburch/logisim/std/ttl/Ttl7474HDLGenerator.java:75-83 | the four one-bit wires |
| Ttl7474.InputCount | src/main/java/com/cburch/logisim/std/ttl/Ttl7474HDLGenerator.java:50-63 | there are exactly 10 inputs |
| Ttl7474.OutputCount | src/main/java/com/cburch/logisim/std/ttl/Ttl7474HDLGenerator.java:65-73 | there are exactly 4 outputs |
| Ttl7474.DeclarationsDisjoint | src/main/java/com/cburch/logisim/std/ttl/Ttl7474HDLGenerator.java:50-83 | inputs, outputs and wires have pairwise disjoint names |
| Ttl7474.ClockKey | src/main/java/com/cburch/logisim/std/ttl/Ttl7474HDLGenerator.java:136-156 | `"CLK" + (i + 1)`: the prefix `CLK` followed by the unit number's decimal digits |
| Ttl7474.TickKey | src/main/java/com/cburch/logisim/std/ttl/Ttl7474HDLGenerator.java:136-156 | `"tick" + (i + 1)`: the prefix `tick` followed by the unit number's decimal digits |
| Ttl7474.UnitKeys | src/main/java/com/cburch/logisim/std/ttl/Ttl7474HDLGenerator.java:136-156 | `"CLK" + (i + 1)` and `"tick" + (i + 1)` are CLK1/tick1 and CLK2/tick2 |
| Ttl7474.Classify | src/main/java/com/cburch/logisim/std/ttl/Ttl7474HDLGenerator.java:120-134 | exactly one case per clock pin: unconnected iff the pin is not connected (whatever its clock-net name); gated iff connected with an empty clock-net name; clock bus otherwise |
| Ttl7474.ResolveUnitClock | src/main/java/com/cburch/logisim/std/ttl/Ttl7474HDLGenerator.java:135-157 | every constant it produces is a driven level |
| Ttl7474.UnconnectedDisables | src/main/java/com/cburch/logisim/std/ttl/Ttl7474HDLGenerator.java:123-137 | an unconnected pin gives CLK '0' and tick '0', even when its clock-net name is empty |
| Ttl7474.GatedUsesNet | src/main/java/com/cburch/logisim/std/ttl/Ttl7474HDLGenerator.java:131-142 | a connected pin with an empty clock-net name gives CLK = its net name and tick '1'; no bus bit is referenced |
| Ttl7474.GlobalBusSelects | src/main/java/com/cburch/logisim/std/ttl/Ttl7474HDLGenerator.java:143-157 | a connected pin with clock-net name N gives CLK = N(4); tick is '1' when a global clock connection is required and N(2) otherwise, a different bus bit from CLK |
| Ttl7474.Render | src/main/java/com/cburch/logisim/std/ttl/Ttl7474HDLGenerator.java:136-156 | a constant renders as a quoted character, `'1'` exactly for a high level; a net as its name; a bus bit as the bus name followed by a bracketed index |
| Ttl7474.RenderBusBitIndex | src/main/java/com/cburch/logisim/std/ttl/Ttl7474HDLGenerator.java:147-156 | the digits between the brackets of a rendered bus bit parse back to the bit index |
| Ttl7474.UnitClockOf | src/main/java/com/cburch/logisim/std/ttl/Ttl7474HDLGenerator.java:122-157 | a unit's CLK/tick from its own clock pin: '0'/'0' when unconnected, its net and '1' when the clock-net name is empty, otherwise CLK is bit 4 of the named bus and tick is '1' when a global clock connection is required, bit 2 of the bus otherwise |
| Ttl7474.BusBitsRenderDistinct | src/main/java/com/cburch/logisim/std/ttl/Ttl7474HDLGenerator.java:147-156 | selecting different bits of one bus gives different texts |
| Ttl7474.Message | src/main/java/com/cburch/logisim/std/ttl/Ttl7474HDLGenerator.java:124-128 | the warning text starts with the fixed prefix, carries the circuit name after it, and ends in digits that parse back to the unit number |
| Ttl7474.MessageInjective | src/main/java/com/cburch/logisim/std/ttl/Ttl7474HDLGenerator.java:124-128 | the warning text determines the circuit name and the unit number |
| Ttl7474.UnitWarnings | src/main/java/com/cburch/logisim/std/ttl/Ttl7474HDLGenerator.java:123-130 | a unit raises at most one warning, exactly when its clock resolves to the disabled constants, and that warning names the circuit and the unit |
| Ttl7474.WarningsUpTo | src/main/java/com/cburch/logisim/std/ttl/Ttl7474HDLGenerator.java:119-130 | the first n units raise at most n warnings |
| Ttl7474.WarningCount | src/main/java/com/cburch/logisim/std/ttl/Ttl7474HDLGenerator.java:119-158 | the number of warnings equals the number of unconnected clock pins, at most 2; each names the circuit and an unconnected unit |
| Ttl7474.PinAssignment | src/main/java/com/cburch/logisim/std/ttl/Ttl7474HDLGenerator.java:159-168 | the ten non-clock ports with fixed pins nCLR1 0, D1 1, nPRE1 3, Q1 4, nQ1 5, nCLR2 11, D2 10, nPRE2 8, Q2 7, nQ2 6 |
| Ttl7474.PinAssignmentInjective | src/main/java/com/cburch/logisim/std/ttl/Ttl7474HDLGenerator.java:159-168 | no two ports share a pin; exactly the clear and preset inputs are requested with floating pins not tied to ground |
| Ttl7474.PinEntries | src/main/java/com/cburch/logisim/std/ttl/Ttl7474HDLGenerator.java:159-168 | one net-map entry per pin request |
| Ttl7474.PortKeysComplete | src/main/java/com/cburch/logisim/std/ttl/Ttl7474HDLGenerator.java:115-170 | the clock keys and the pin keys are disjoint, and together they are exactly the declared inputs and outputs |
| Ttl7474.GetPortMap | src/main/java/com/cburch/logisim/std/ttl/Ttl7474HDLGenerator.java:115-170 | empty map and no warnings for a non-component; otherwise the keys are exactly the 10 inputs and 4 outputs, each unit's CLK/tick comes from its own clock pin alone, every other port gets its fixed pin's net map, and the warnings are the per-unit warnings in unit order |
| Ttl7474.ResolveUnit | src/main/java/com/cburch/logisim/std/ttl/Ttl7474HDLGenerator.java:120-157 | one pass of the loop: unit i + 1's CLK and tick are its clock resolution and its warnings are that unit's warnings |
| Ttl7474.ClockEntries | src/main/java/com/cburch/logisim/std/ttl/Ttl7474HDLGenerator.java:119-158 | the entries the loop has written after n units: its keys are exactly CLK1, tick1, ..., CLKn, tickn |
| Ttl7474.ClockEntriesValues | src/main/java/com/cburch/logisim/std/ttl/Ttl7474HDLGenerator.java:119-158 | in those entries each unit's CLK and tick keys hold the rendering of that unit's own clock resolution |
| Ttl7474.ResolveClocks | src/main/java/com/cburch/logisim/std/ttl/Ttl7474HDLGenerator.java:119-158 | the loop over the two units: the map it builds is the entries of both units, and the warnings are the per-unit warnings in unit order |
| Ttl7474.UnitKeysDistinct | src/main/java/com/cburch/logisim/std/ttl/Ttl7474HDLGenerator.java:136-156 | a unit's CLK and tick keys differ from each other and from the earlier unit's keys |
| Ttl7474.NextValue | src/main/java/com/cburch/logisim/std/ttl/Ttl7474HDLGenerator.java:93-94 | `nexti` is D when tick is '1' and the held state otherwise |
| Ttl7474.RisingEdge | src/main/java/com/cburch/logisim/std/ttl/Ttl7474HDLGenerator.java:100-108 | `rising_edge` of the clock: when it holds, both levels are driven ('0' or '1') and differ; it never holds between equal levels |
| Ttl7474.FlipFlop | src/main/java/com/cburch/logisim/std/ttl/Ttl7474HDLGenerator.java:93-110 | clear ('0') wins; then preset ('1', as written); then a rising clock edge loads D when tick is '1'; otherwise the state holds |
| Ttl7474.OutputsOf | src/main/java/com/cburch/logisim/std/ttl/Ttl7474HDLGenerator.java:88-91 | as written, Q1 and Q2 both equal `state1`, and each inverted output is the complement of its true output |
| Ttl7474.OutputsIgnoreSecondUnit | src/main/java/com/cburch/logisim/std/ttl/Ttl7474HDLGenerator.java:88-91 | as written, all four outputs follow `state1`; `state2` is never visible |
| Ttl7474.UnconnectedUnitIgnoresData | src/main/java/com/cburch/logisim/std/ttl/Ttl7474HDLGenerator.java:93-137 | a unit with an unconnected clock never loads D: only clear and preset change it |
| Ttl7474.GatedUnitCapturesOnEdge | src/main/java/com/cburch/logisim/std/ttl/Ttl7474HDLGenerator.java:93-142 | a gated unit (tick tied to '1') loads D on every rising edge of its net |
| Ttl7474.Device.constructor | src/main/java/com/cburch/logisim/std/ttl/Ttl7474HDLGenerator.java:76-83 | the state wires start indeterminate |
| Ttl7474.Device.Evaluate | src/main/java/com/cburch/logisim/std/ttl/Ttl7474HDLGenerator.java:96-110 | processes `ff1` and `ff2`: each state takes `FlipFlop` of its own old value, inputs and clock edge |
| Ttl7474.Device.Pins | src/main/java/com/cburch/logisim/std/ttl/Ttl7474HDLGenerator.java:88-91 | the device's pins, as written: Q1 and Q2 are `state1`, nQ1 and nQ2 are its complement |
| Ttl7474.HDLTargetSupported | src/main/java/com/cburch/logisim/std/ttl/Ttl7474HDLGenerator.java:181-186 | false without attributes; otherwise true iff the variant has no VCC/GND pins and the dialect is VHDL |

## Left out

- Text layout: the emitted HDL characters, indentation, remark blocks and `LineBuffer` template substitution. The model gives the semantics the text describes. Port-map values are kept as plain strings.
- `getComponentStringIdentifier` and `GetSubDir` return constants with no behaviour.
- The `MAP_LN2` width rule lives in `HDLParameters`, which is not part of this model. `NrOfBits` is given, and `WellFormed` requires both reload values to fit in it. `HDLParameters` also decides how the trailing `1` in the Phase registration is applied. It is kept as an `offset` in the declaration and not interpreted; the divider takes `Phase >= 1` as given.
- The netlist, `NetlistComponent`, `Reporter` and the inherited helpers (`GetNetMap`, `GetNetName`, `GetClockNetName` of the 7474, `getClockSourceId`, `ClockPinIndex`) are external. They are abstract inputs. `GetNetMap` is taken to contribute only the key it is asked for.
- Timing: delta cycles, glitches and process scheduling are not modelled. The divider takes one synchronous step per `GlobalClock` rising edge. The 7474 processes are evaluated once per event, with a flag for a rising clock edge.
- `std_logic` has nine values; they are collapsed here to '0', '1' and one indeterminate value. `ClockTick` is a boolean (`ClockTick = '1'`).
- Verilog X-propagation through the counter's comparison is not modelled. In Verilog the model requires a driven bit 0, which the initial block provides and every edge preserves.
- The Verilog shift loop runs upwards with non-blocking assignments. The in-place model uses the VHDL loop's downward order, which gives the same result.
- Sorted (`TreeMap`) order of the declaration and port maps is a rendering concern. Dafny maps are unordered.
- A clock-pin index array shorter than two would make the source throw. `GetPortMap` requires two entries.
- ClockDivider.Periodic: the period is stated for the counter and bit 0. The other bits follow from `ShiftDelay`, `TapDelay` and `BufferStage` rather than from one full-state periodicity lemma.
