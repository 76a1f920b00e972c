/**
 * The HDL generator of the 7474 dual D flip-flop: its declared ports and
 * wires, the per-unit clock resolution of its port map, the fixed pin
 * assignment, the flip-flop behaviour its VHDL body describes, and the
 * targets it supports.
 *
 * The netlist queries the generator makes (whether a pin is connected, the
 * clock-tree name and net name of a pin, the net map of a pin) are inherited
 * helpers outside this model; they are abstract functions in `ComponentInfo`.
 * The severe-warning sink is replaced by a returned list of warnings.
 */
module Ttl7474 {
  import opened Logic
  import opened Decimal
  import opened Hdl
  import ClockGenerator

  const NrOfUnits: nat := 2

  // ---------------------------------------------------------------------
  // Declarations.

  function InputList(): (r: map<string, nat>)
    ensures r.Keys == {"nCLR1", "D1", "CLK1", "tick1", "nPRE1", "nCLR2", "D2", "CLK2", "tick2", "nPRE2"}
    ensures forall name :: name in r ==> r[name] == 1
  {
    map["nCLR1" := 1, "D1" := 1, "CLK1" := 1, "tick1" := 1, "nPRE1" := 1,
        "nCLR2" := 1, "D2" := 1, "CLK2" := 1, "tick2" := 1, "nPRE2" := 1]
  }

  function OutputList(): (r: map<string, nat>)
    ensures r.Keys == {"Q1", "nQ1", "Q2", "nQ2"}
    ensures forall name :: name in r ==> r[name] == 1
  {
    map["Q1" := 1, "nQ1" := 1, "Q2" := 1, "nQ2" := 1]
  }

  function WireList(): (r: map<string, nat>)
    ensures r.Keys == {"state1", "state2", "next1", "next2"}
    ensures forall name :: name in r ==> r[name] == 1
  {
    map["state1" := 1, "state2" := 1, "next1" := 1, "next2" := 1]
  }

  /** The component has ten one-bit inputs ... */
  lemma InputCount()
    ensures |InputList()| == 10
  {
  }

  /** ... and four one-bit outputs. */
  lemma OutputCount()
    ensures |OutputList()| == 4
  {
  }

  /** Inputs, outputs and internal wires have pairwise distinct names. */
  lemma DeclarationsDisjoint()
    ensures InputList().Keys !! OutputList().Keys
    ensures InputList().Keys !! WireList().Keys
    ensures OutputList().Keys !! WireList().Keys
  {
  }

  /** `"CLK" + (i + 1)` and `"tick" + (i + 1)` for the unit numbered `u`. */
  function ClockKey(u: nat): (r: string)
    ensures |r| > 3 && r[..3] == "CLK" && AllDigits(r[3..])
  {
    "CLK" + NatToString(u)
  }

  function TickKey(u: nat): (r: string)
    ensures |r| > 4 && r[..4] == "tick" && AllDigits(r[4..])
  {
    "tick" + NatToString(u)
  }

  lemma UnitKeys()
    ensures ClockKey(1) == "CLK1" && TickKey(1) == "tick1"
    ensures ClockKey(2) == "CLK2" && TickKey(2) == "tick2"
  {
    UnitDigits();
  }

  // ---------------------------------------------------------------------
  // Netlist view.

  datatype Netlist = Netlist(circuitName: string, requiresGlobalClockConnection: bool)

  /**
   * What the port map learns about the component from the netlist: the pin
   * index of each unit's clock, and per pin whether it is connected, its
   * clock-tree name (empty when it is not driven by a clock bus), its net
   * name, and the expression its net map gives for a port name (with the
   * flag saying whether a floating pin is tied to ground).
   */
  datatype ComponentInfo = ComponentInfo(
    clockPins: seq<nat>,
    endIsConnected: nat -> bool,
    clockNetName: nat -> string,
    netName: nat -> string,
    netMap: (string, bool, nat) -> string)

  datatype MapInfo = NetlistComponent(info: ComponentInfo) | OtherObject

  // ---------------------------------------------------------------------
  // Clock resolution of one unit.

  datatype ClockKind = Unconnected | Gated | GlobalBus

  /** The `hasClock` / `gatedClock` flags of one loop iteration, as one case. */
  function Classify(connected: bool, clockNetName: string): (k: ClockKind)
    ensures k == Unconnected <==> !connected
    ensures k == Gated <==> connected && clockNetName == ""
    ensures k == GlobalBus <==> connected && clockNetName != ""
  {
    if !connected then Unconnected
    else if clockNetName == "" then Gated
    else GlobalBus
  }

  /** A port-map value: a constant level, a net, or one bit of a clock bus. */
  datatype Expr = Const(level: Bit) | Net(name: string) | BusBit(bus: string, index: nat)

  /** The text of an expression: `'0'`, `'1'`, the net name, or `bus(index)`. */
  function Render(e: Expr): (r: string)
    requires e.Const? ==> IsBinary(e.level)
    ensures e.Const? ==> |r| == 3 && r[0] == '\'' && r[2] == '\'' && (r[1] == '1' <==> e.level == One)
    ensures e.Net? ==> r == e.name
    ensures e.BusBit? ==> |r| >= |e.bus| + 3 && r[..|e.bus|] == e.bus && r[|e.bus|] == '(' && r[|r| - 1] == ')'
  {
    match e
    case Const(b) => if b == One then "'1'" else "'0'"
    case Net(n) => n
    case BusBit(n, i) => n + "(" + NatToString(i) + ")"
  }

  /** The bit index can be read back from between the brackets of a rendered bus bit. */
  lemma RenderBusBitIndex(bus: string, i: nat)
    ensures var r := Render(BusBit(bus, i));
      AllDigits(r[|bus| + 1..|r| - 1]) && ParseDigits(r[|bus| + 1..|r| - 1]) == i
  {
    var r := Render(BusBit(bus, i));
    assert r[|bus| + 1..|r| - 1] == NatToString(i);
    ParseNatToString(i);
  }

  /** Selecting two different bits of the same bus gives two different texts. */
  lemma BusBitsRenderDistinct(bus: string, i: nat, j: nat)
    requires i != j
    ensures Render(BusBit(bus, i)) != Render(BusBit(bus, j))
  {
    var ri, rj := Render(BusBit(bus, i)), Render(BusBit(bus, j));
    if ri == rj {
      var di, dj := NatToString(i), NatToString(j);
      assert ri[|bus| + 1..|ri| - 1] == di;
      assert rj[|bus| + 1..|rj| - 1] == dj;
      NatToStringInjective(i, j);
      assert false;
    }
  }

  datatype UnitClock = UnitClock(clk: Expr, tick: Expr)

  /** The `CLKi` and `ticki` values of one unit, from that unit's clock pin alone. */
  function ResolveUnitClock(connected: bool, clockNetName: string, netName: string, requiresGlobal: bool): (r: UnitClock)
    ensures r.clk.Const? ==> IsBinary(r.clk.level)
    ensures r.tick.Const? ==> IsBinary(r.tick.level)
  {
    match Classify(connected, clockNetName)
    case Unconnected => UnitClock(Const(Zero), Const(Zero))
    case Gated => UnitClock(Net(netName), Const(One))
    case GlobalBus =>
      UnitClock(BusBit(clockNetName, ClockGenerator.GlobalClockIndex),
                if requiresGlobal then Const(One) else BusBit(clockNetName, ClockGenerator.PositiveEdgeTickIndex))
  }

  /** An unconnected clock pin disables the unit, whatever its clock-tree name. */
  lemma UnconnectedDisables(clockNetName: string, netName: string, requiresGlobal: bool)
    ensures ResolveUnitClock(false, clockNetName, netName, requiresGlobal) == UnitClock(Const(Zero), Const(Zero))
  {
  }

  /** A gated clock is wired straight to its net, every edge valid, no clock-bus bit referenced. */
  lemma GatedUsesNet(netName: string, requiresGlobal: bool)
    ensures var r := ResolveUnitClock(true, "", netName, requiresGlobal);
      r.clk == Net(netName) && r.tick == Const(One) && !r.clk.BusBit? && !r.tick.BusBit?
  {
  }

  /**
   * On a clock bus the unit is clocked by the bus's raw clock bit, and its
   * tick is the bus's positive-edge bit unless the design requires a global
   * clock connection, in which case every edge is valid.
   */
  lemma GlobalBusSelects(clockNetName: string, netName: string, requiresGlobal: bool)
    requires clockNetName != ""
    ensures var r := ResolveUnitClock(true, clockNetName, netName, requiresGlobal);
      && r.clk == BusBit(clockNetName, ClockGenerator.GlobalClockIndex)
      && (requiresGlobal ==> r.tick == Const(One))
      && (!requiresGlobal ==> r.tick == BusBit(clockNetName, ClockGenerator.PositiveEdgeTickIndex))
      && (!requiresGlobal ==> Render(r.clk) != Render(r.tick))
  {
    BusBitsRenderDistinct(clockNetName, ClockGenerator.GlobalClockIndex, ClockGenerator.PositiveEdgeTickIndex);
  }

  /** The clock resolution of unit `u`, numbered from 1. */
  function UnitClockOf(nets: Netlist, info: ComponentInfo, u: nat): (r: UnitClock)
    requires 1 <= u <= NrOfUnits <= |info.clockPins|
    ensures var pin := info.clockPins[u - 1];
      && (!info.endIsConnected(pin) ==> r == UnitClock(Const(Zero), Const(Zero)))
      && (info.endIsConnected(pin) && info.clockNetName(pin) == "" ==>
            r == UnitClock(Net(info.netName(pin)), Const(One)))
      && (info.endIsConnected(pin) && info.clockNetName(pin) != "" ==>
            && r.clk == BusBit(info.clockNetName(pin), ClockGenerator.GlobalClockIndex)
            && r.tick == if nets.requiresGlobalClockConnection then Const(One)
                         else BusBit(info.clockNetName(pin), ClockGenerator.PositiveEdgeTickIndex))
  {
    var pin := info.clockPins[u - 1];
    ResolveUnitClock(info.endIsConnected(pin), info.clockNetName(pin), info.netName(pin),
                     nets.requiresGlobalClockConnection)
  }

  /** The severe warning for a unit without a clock connection. */
  datatype Warning = NoClockConnection(circuit: string, unit: nat)

  const MessagePrefix: string := "Component \"TTL7474\" in circuit \""
  const MessageMiddle: string := "\" has no clock connection for dff"

  function Message(w: Warning): (r: string)
    ensures |r| > |MessagePrefix| + |w.circuit| + |MessageMiddle|
    ensures r[..|MessagePrefix|] == MessagePrefix
    ensures r[|MessagePrefix|..|MessagePrefix| + |w.circuit|] == w.circuit
    ensures AllDigits(r[|MessagePrefix| + |w.circuit| + |MessageMiddle|..])
    ensures ParseDigits(r[|MessagePrefix| + |w.circuit| + |MessageMiddle|..]) == w.unit
  {
    var t := MessagePrefix + w.circuit + MessageMiddle + NatToString(w.unit);
    ParseNatToString(w.unit);
    assert t[|MessagePrefix| + |w.circuit| + |MessageMiddle|..] == NatToString(w.unit);
    assert t[|MessagePrefix|..|MessagePrefix| + |w.circuit|] == w.circuit;
    t
  }

  /** The message text identifies the circuit and the unit: different warnings never read alike. */
  lemma MessageInjective(w1: Warning, w2: Warning)
    requires Message(w1) == Message(w2)
    ensures w1 == w2
  {
    var d1, d2 := NatToString(w1.unit), NatToString(w2.unit);
    var h1, h2 := MessagePrefix + w1.circuit + MessageMiddle, MessagePrefix + w2.circuit + MessageMiddle;
    var m := Message(w1);
    assert m == h1 + d1 && m == h2 + d2;
    TrailingDigitsAfter(h1, d1);
    TrailingDigitsAfter(h2, d2);
    assert |h1| == |h2|;
    assert d1 == m[|h1|..] == d2;
    NatToStringInjective(w1.unit, w2.unit);
    assert h1 == m[..|h1|] == h2;
    assert w1.circuit == h1[|MessagePrefix|..|h1| - |MessageMiddle|] == h2[|MessagePrefix|..|h2| - |MessageMiddle|] == w2.circuit;
  }

  /** The warnings unit `u` raises: one exactly when its clock pin is unconnected. */
  function UnitWarnings(nets: Netlist, info: ComponentInfo, u: nat): (r: seq<Warning>)
    requires 1 <= u <= NrOfUnits <= |info.clockPins|
    ensures |r| <= 1
    ensures |r| == 1 <==> UnitClockOf(nets, info, u) == UnitClock(Const(Zero), Const(Zero))
    ensures forall w :: w in r ==> w == NoClockConnection(nets.circuitName, u)
  {
    if info.endIsConnected(info.clockPins[u - 1]) then [] else [NoClockConnection(nets.circuitName, u)]
  }

  /** The warnings of units `1..n`, in unit order. */
  function WarningsUpTo(nets: Netlist, info: ComponentInfo, n: nat): (r: seq<Warning>)
    requires n <= NrOfUnits <= |info.clockPins|
    ensures |r| <= n
  {
    if n == 0 then [] else WarningsUpTo(nets, info, n - 1) + UnitWarnings(nets, info, n)
  }

  function UnitKeysUpTo(n: nat): set<string> {
    if n == 0 then {} else UnitKeysUpTo(n - 1) + {ClockKey(n), TickKey(n)}
  }

  /** The `CLKi`/`ticki` entries the loop has written once it has handled the first `n` units. */
  function ClockEntries(nets: Netlist, info: ComponentInfo, n: nat): (r: map<string, string>)
    requires n <= NrOfUnits <= |info.clockPins|
    ensures r.Keys == UnitKeysUpTo(n)
  {
    if n == 0 then map[]
    else
      var uc := UnitClockOf(nets, info, n);
      ClockEntries(nets, info, n - 1)[ClockKey(n) := Render(uc.clk)][TickKey(n) := Render(uc.tick)]
  }

  /** Each unit's entries hold the rendering of that unit's own clock resolution. */
  lemma {:induction false} ClockEntriesValues(nets: Netlist, info: ComponentInfo, n: nat)
    requires n <= NrOfUnits <= |info.clockPins|
    ensures forall u :: 1 <= u <= n ==>
      && ClockKey(u) in ClockEntries(nets, info, n) && TickKey(u) in ClockEntries(nets, info, n)
      && ClockEntries(nets, info, n)[ClockKey(u)] == Render(UnitClockOf(nets, info, u).clk)
      && ClockEntries(nets, info, n)[TickKey(u)] == Render(UnitClockOf(nets, info, u).tick)
  {
    if n > 0 {
      ClockEntriesValues(nets, info, n - 1);
      UnitKeysDistinct(n);
    }
  }

  /** The number of unconnected clock pins among the two units. */
  function UnconnectedCount(info: ComponentInfo): nat
    requires NrOfUnits <= |info.clockPins|
  {
    (if info.endIsConnected(info.clockPins[0]) then 0 else 1)
      + (if info.endIsConnected(info.clockPins[1]) then 0 else 1)
  }

  /** One warning per unconnected clock pin, so at most two, each naming the circuit and its unit. */
  lemma WarningCount(nets: Netlist, info: ComponentInfo)
    requires NrOfUnits <= |info.clockPins|
    ensures |WarningsUpTo(nets, info, NrOfUnits)| == UnconnectedCount(info) <= 2
    ensures forall w :: w in WarningsUpTo(nets, info, NrOfUnits) ==>
      w.circuit == nets.circuitName && 1 <= w.unit <= NrOfUnits &&
      !info.endIsConnected(info.clockPins[w.unit - 1])
  {
    var w1, w2 := UnitWarnings(nets, info, 1), UnitWarnings(nets, info, 2);
    assert WarningsUpTo(nets, info, NrOfUnits) == w1 + w2;
  }

  // ---------------------------------------------------------------------
  // Fixed pin assignment of the remaining ports.

  /** A `GetNetMap` request: component pin and whether a floating pin is tied to ground. */
  datatype PinRequest = PinRequest(pin: nat, floatingToGround: bool)

  function PinAssignment(): (r: map<string, PinRequest>)
    ensures r.Keys == {"nCLR1", "D1", "nPRE1", "Q1", "nQ1", "nCLR2", "D2", "nPRE2", "Q2", "nQ2"}
  {
    map[
      "nCLR1" := PinRequest(0, false), "D1" := PinRequest(1, true), "nPRE1" := PinRequest(3, false),
      "Q1" := PinRequest(4, true), "nQ1" := PinRequest(5, true),
      "nCLR2" := PinRequest(11, false), "D2" := PinRequest(10, true), "nPRE2" := PinRequest(8, false),
      "Q2" := PinRequest(7, true), "nQ2" := PinRequest(6, true)
    ]
  }

  /** The pin assignment is one-to-one, and the active-low controls float high. */
  lemma PinAssignmentInjective()
    ensures forall a, b :: a in PinAssignment() && b in PinAssignment() && a != b ==>
      PinAssignment()[a].pin != PinAssignment()[b].pin
    ensures forall a :: a in PinAssignment() ==>
      (PinAssignment()[a].floatingToGround <==> a !in {"nCLR1", "nPRE1", "nCLR2", "nPRE2"})
  {
  }

  // ---------------------------------------------------------------------
  // The port map.

  /** The `putAll(GetNetMap(...))` entries, one key per pin request. */
  function PinEntries(info: ComponentInfo): (r: map<string, string>)
    ensures r.Keys == PinAssignment().Keys
  {
    map name | name in PinAssignment() ::
      info.netMap(name, PinAssignment()[name].floatingToGround, PinAssignment()[name].pin)
  }

  /** The clock entries and the pin entries together are exactly the declared ports. */
  lemma PortKeysComplete()
    ensures UnitKeysUpTo(NrOfUnits) !! PinAssignment().Keys
    ensures UnitKeysUpTo(NrOfUnits) + PinAssignment().Keys == InputList().Keys + OutputList().Keys
  {
    UnitKeys();
    assert UnitKeysUpTo(NrOfUnits) == {"CLK1", "tick1", "CLK2", "tick2"};
  }

  method GetPortMap(nets: Netlist, mapInfo: MapInfo) returns (portMap: map<string, string>, warnings: seq<Warning>)
    requires mapInfo.NetlistComponent? ==> NrOfUnits <= |mapInfo.info.clockPins|
    ensures mapInfo.OtherObject? ==> portMap == map[] && warnings == []
    ensures mapInfo.NetlistComponent? ==> portMap.Keys == InputList().Keys + OutputList().Keys
    ensures mapInfo.NetlistComponent? ==> forall u :: 1 <= u <= NrOfUnits ==>
      && ClockKey(u) in portMap && TickKey(u) in portMap
      && portMap[ClockKey(u)] == Render(UnitClockOf(nets, mapInfo.info, u).clk)
      && portMap[TickKey(u)] == Render(UnitClockOf(nets, mapInfo.info, u).tick)
    ensures mapInfo.NetlistComponent? ==> forall name :: name in PinAssignment() ==>
      && name in portMap
      && portMap[name] == mapInfo.info.netMap(name, PinAssignment()[name].floatingToGround, PinAssignment()[name].pin)
    ensures mapInfo.NetlistComponent? ==> warnings == WarningsUpTo(nets, mapInfo.info, NrOfUnits)
  {
    if mapInfo.OtherObject? {
      return map[], [];
    }
    var info := mapInfo.info;
    portMap, warnings := ResolveClocks(nets, info);
    ClockEntriesValues(nets, info, NrOfUnits);
    PortKeysComplete();
    portMap := portMap + PinEntries(info);
    assert forall u :: 1 <= u <= NrOfUnits ==> ClockKey(u) in UnitKeysUpTo(NrOfUnits) && TickKey(u) in UnitKeysUpTo(NrOfUnits) by {
      UnitKeys();
    }
  }

  /**
   * One iteration of the loop, for the unit at index `i`: the `hasClock` and
   * `gatedClock` flags, the warning for an unconnected pin, and the unit's
   * clock and tick.
   */
  method ResolveUnit(nets: Netlist, info: ComponentInfo, i: nat) returns (clk: Expr, tick: Expr, unitWarnings: seq<Warning>)
    requires i < NrOfUnits <= |info.clockPins|
    ensures UnitClock(clk, tick) == UnitClockOf(nets, info, i + 1)
    ensures unitWarnings == UnitWarnings(nets, info, i + 1)
  {
    var gatedClock := false;
    var hasClock := true;
    unitWarnings := [];
    var clockPinIndex := info.clockPins[i];
    if !info.endIsConnected(clockPinIndex) {
      unitWarnings := [NoClockConnection(nets.circuitName, i + 1)];
      hasClock := false;
    }
    var clockNetName := info.clockNetName(clockPinIndex);
    if clockNetName == "" {
      gatedClock := true;
    }
    if !hasClock {
      clk, tick := Const(Zero), Const(Zero);
    } else if gatedClock {
      clk, tick := Net(info.netName(clockPinIndex)), Const(One);
    } else {
      tick := if nets.requiresGlobalClockConnection then Const(One)
              else BusBit(clockNetName, ClockGenerator.PositiveEdgeTickIndex);
      clk := BusBit(clockNetName, ClockGenerator.GlobalClockIndex);
    }
  }

  /** The loop over the units: clock and tick entries plus the warnings, unit by unit. */
  method ResolveClocks(nets: Netlist, info: ComponentInfo) returns (portMap: map<string, string>, warnings: seq<Warning>)
    requires NrOfUnits <= |info.clockPins|
    ensures portMap == ClockEntries(nets, info, NrOfUnits)
    ensures warnings == WarningsUpTo(nets, info, NrOfUnits)
  {
    portMap := map[];
    warnings := [];
    var i := 0;
    while i < NrOfUnits
      invariant 0 <= i <= NrOfUnits
      invariant portMap == ClockEntries(nets, info, i)
      invariant warnings == WarningsUpTo(nets, info, i)
    {
      var clk, tick, unitWarnings := ResolveUnit(nets, info, i);
      warnings := warnings + unitWarnings;
      portMap := portMap[ClockKey(i + 1) := Render(clk)][TickKey(i + 1) := Render(tick)];
      i := i + 1;
    }
  }

  /** The clock keys of unit `u` are new to the map built for the units before it. */
  lemma UnitKeysDistinct(u: nat)
    requires 1 <= u <= NrOfUnits
    ensures ClockKey(u) != TickKey(u)
    ensures ClockKey(u) !in UnitKeysUpTo(u - 1) && TickKey(u) !in UnitKeysUpTo(u - 1)
  {
    UnitKeys();
    assert "CLK1"[0] != "tick1"[0];
    assert "CLK2"[0] != "tick2"[0];
    assert "CLK2"[3] != "CLK1"[3] && "tick2"[4] != "tick1"[4];
  }

  // ---------------------------------------------------------------------
  // The flip-flops described by the generated VHDL body.

  /** The inputs of one unit as its process sees them. */
  datatype UnitInputs = UnitInputs(nClr: Bit, d: Bit, nPre: Bit, tick: Bit)

  /** `rising_edge(CLK)`: the clock changed from '0' to '1'. */
  predicate RisingEdge(previous: Bit, current: Bit)
    ensures RisingEdge(previous, current) ==> IsBinary(previous) && IsBinary(current) && previous != current
    ensures previous == current ==> !RisingEdge(previous, current)
  {
    previous == Zero && current == One
  }

  /** `nexti <= Di WHEN ticki='1' ELSE statei`. */
  function NextValue(state: Bit, inp: UnitInputs): (r: Bit)
    ensures r == inp.d || r == state
    ensures inp.tick == One ==> r == inp.d
    ensures inp.tick != One ==> r == state
  {
    if inp.tick == One then inp.d else state
  }

  /** One evaluation of process `ffi`: clear, then preset (active on '1', as written), then the clock edge. */
  function FlipFlop(state: Bit, inp: UnitInputs, rising: bool): (r: Bit)
    ensures inp.nClr == Zero ==> r == Zero
    ensures inp.nClr != Zero && inp.nPre == One ==> r == One
    ensures inp.nClr != Zero && inp.nPre != One && rising && inp.tick == One ==> r == inp.d
    ensures inp.nClr != Zero && inp.nPre != One && !(rising && inp.tick == One) ==> r == state
  {
    if inp.nClr == Zero then Zero
    else if inp.nPre == One then One
    else if rising then NextValue(state, inp)
    else state
  }

  datatype Outputs = Outputs(q1: Bit, nq1: Bit, q2: Bit, nq2: Bit)

  /** `Q1 <= state1; nQ1 <= NOT(state1); Q2 <= state1; nQ2 <= NOT(state1);` as written. */
  function OutputsOf(state1: Bit, state2: Bit): (r: Outputs)
    ensures r.q1 == state1 && r.q2 == state1
    ensures r.nq1 == Not(r.q1) && r.nq2 == Not(r.q2)
  {
    Outputs(state1, Not(state1), state1, Not(state1))
  }

  /** As written, every output follows the first flip-flop: the second one's state is never visible. */
  lemma OutputsIgnoreSecondUnit(state1: Bit, state2: Bit, other: Bit)
    ensures OutputsOf(state1, state2) == OutputsOf(state1, other)
    ensures OutputsOf(state1, state2).q2 == state1
  {
  }

  /**
   * A unit whose clock pin is unconnected gets the constants '0' for its
   * clock and tick, so it never captures D: only clear and preset move it.
   */
  lemma UnconnectedUnitIgnoresData(state: Bit, inp: UnitInputs, clockNetName: string, netName: string, requiresGlobal: bool)
    ensures var r := ResolveUnitClock(false, clockNetName, netName, requiresGlobal);
      && r.clk.Const? && r.tick.Const?
      && FlipFlop(state, inp.(tick := r.tick.level), RisingEdge(r.clk.level, r.clk.level)) ==
           if inp.nClr == Zero then Zero else if inp.nPre == One then One else state
  {
  }

  /** A gated unit has its tick tied to '1', so every rising edge of its net captures D. */
  lemma GatedUnitCapturesOnEdge(state: Bit, inp: UnitInputs, netName: string, requiresGlobal: bool)
    requires inp.nClr != Zero && inp.nPre != One
    ensures var r := ResolveUnitClock(true, "", netName, requiresGlobal);
      r.tick.Const? && FlipFlop(state, inp.(tick := r.tick.level), true) == inp.d
  {
  }

  /** The two flip-flops of the device, updated in place by their processes. */
  class Device {
    var state1: Bit
    var state2: Bit

    constructor ()
      ensures state1 == Unknown && state2 == Unknown
    {
      state1, state2 := Unknown, Unknown;
    }

    /** Both processes evaluated once; each unit reads only its own inputs and clock. */
    method Evaluate(in1: UnitInputs, clk1Before: Bit, clk1: Bit, in2: UnitInputs, clk2Before: Bit, clk2: Bit)
      modifies this
      ensures state1 == FlipFlop(old(state1), in1, RisingEdge(clk1Before, clk1))
      ensures state2 == FlipFlop(old(state2), in2, RisingEdge(clk2Before, clk2))
    {
      state1 := FlipFlop(state1, in1, RisingEdge(clk1Before, clk1));
      state2 := FlipFlop(state2, in2, RisingEdge(clk2Before, clk2));
    }

    function Pins(): (r: Outputs)
      reads this
      ensures r.q1 == state1 && r.nq1 == Not(state1)
      ensures r.q2 == state1 && r.nq2 == Not(state1)
    {
      OutputsOf(state1, state2)
    }
  }

  // ---------------------------------------------------------------------
  // Supported targets.

  datatype TtlAttributes = TtlAttributes(vccGnd: bool)

  /** Only the VHDL dialect, and only the variant without power pins, can be generated. */
  function HDLTargetSupported(attrs: Option<TtlAttributes>, dialect: Dialect): (r: bool)
    ensures r <==> attrs.Some? && !attrs.value.vccGnd && dialect == VHDL
  {
    match attrs
    case None => false
    case Some(a) => !a.vccGnd && dialect == VHDL
  }
}
