/**
 * The clock component's HDL generator: the clock-bus index protocol every
 * consumer relies on, the generics, wires, registers and ports it declares,
 * and the port map used to instantiate one clock divider per clock source.
 *
 * `FPGA_CLOCK`, `FPGA_TICK` and `CLOCK_TREE_NAME` are defined by framework
 * classes that are not part of this model; they are carried in
 * `FrameworkNames`.
 */
module ClockGenerator {
  import opened Logic
  import opened Decimal
  import opened Hdl

  // Layout of the clock bus: one shared set of constants for every consumer.
  const NrOfClockBits: nat := 5
  const DerivedClockIndex: nat := 0
  const InvertedDerivedClockIndex: nat := 1
  const PositiveEdgeTickIndex: nat := 2
  const NegativeEdgeTickIndex: nat := 3
  const GlobalClockIndex: nat := 4

  // Generic ids; a negative width refers to the generic with that id.
  const HighTickId: int := -1
  const LowTickId: int := -2
  const PhaseId: int := -3
  const NrOfBitsId: int := -4

  datatype ClockAttribute = AttrHigh | AttrLow | AttrPhase

  /**
   * How a generic obtains its value: from an integer attribute, recorded with
   * the extra integer argument of its registration (0 for the four-argument
   * form; this model does not interpret it), or as the number of bits needed
   * for the larger of two attributes.
   */
  datatype ParamRule =
    | IntAttribute(attr: ClockAttribute, offset: int)
    | Ln2(first: ClockAttribute, second: ClockAttribute)

  datatype ParamDecl = ParamDecl(id: int, rule: ParamRule)

  /** The resolved values of the four generics of one clock divider. */
  datatype ClockParams = ClockParams(highTicks: nat, lowTicks: nat, phase: nat, nrOfBits: nat)

  datatype FrameworkNames = FrameworkNames(fpgaClock: string, fpgaTick: string, clockTreeName: string)

  /** What `getPortMap` receives: a netlist component, with the id the netlist gives its clock source, or anything else. */
  datatype MapInfo = NetlistComponent(clockSourceId: int) | OtherObject

  function Parameters(): (r: map<string, ParamDecl>)
    ensures r.Keys == {"HighTicks", "LowTicks", "Phase", "NrOfBits"}
  {
    map[
      "HighTicks" := ParamDecl(HighTickId, IntAttribute(AttrHigh, 0)),
      "LowTicks" := ParamDecl(LowTickId, IntAttribute(AttrLow, 0)),
      "Phase" := ParamDecl(PhaseId, IntAttribute(AttrPhase, 1)),
      "NrOfBits" := ParamDecl(NrOfBitsId, Ln2(AttrHigh, AttrLow))
    ]
  }

  function Wires(): (r: map<string, Width>)
    ensures r.Keys == {"s_counter_next", "s_counter_is_zero"}
  {
    map["s_counter_next" := ByParameter(NrOfBitsId), "s_counter_is_zero" := Fixed(1)]
  }

  function Registers(): (r: map<string, Width>)
    ensures r.Keys == {"s_output_regs", "s_buf_regs", "s_counter_reg", "s_derived_clock_reg"}
  {
    map[
      "s_output_regs" := Fixed(NrOfClockBits - 1),
      "s_buf_regs" := Fixed(2),
      "s_counter_reg" := ByParameter(NrOfBitsId),
      "s_derived_clock_reg" := ByParameter(PhaseId)
    ]
  }

  function Ports(): (r: map<string, PortDecl>)
    ensures r.Keys == {"GlobalClock", "ClockTick", "ClockBus"}
  {
    map[
      "GlobalClock" := PortDecl(Input, Fixed(1), 0),
      "ClockTick" := PortDecl(Input, Fixed(1), 1),
      "ClockBus" := PortDecl(Output, Fixed(NrOfClockBits), 2)
    ]
  }

  /** The value of the generic with the given id (0 for an id that names no generic). */
  function ParameterValue(p: ClockParams, id: int): (r: int)
  {
    if id == HighTickId then p.highTicks
    else if id == LowTickId then p.lowTicks
    else if id == PhaseId then p.phase
    else if id == NrOfBitsId then p.nrOfBits
    else 0
  }

  function ResolveWidth(w: Width, p: ClockParams): nat
  {
    match w
    case Fixed(n) => n
    case ByParameter(id) => if ParameterValue(p, id) >= 0 then ParameterValue(p, id) as nat else 0
  }

  /** Every generic referred to by a declared width is one the component declares. */
  lemma WidthsReferToDeclaredParameters()
    ensures forall name :: name in Wires() && Wires()[name].ByParameter? ==>
      exists q :: q in Parameters() && Parameters()[q].id == Wires()[name].id
    ensures forall name :: name in Registers() && Registers()[name].ByParameter? ==>
      exists q :: q in Parameters() && Parameters()[q].id == Registers()[name].id
  {
    assert Parameters()["NrOfBits"].id == NrOfBitsId;
    assert Parameters()["Phase"].id == PhaseId;
  }

  /** The name of the clock tree of a clock source id; empty when the netlist knows no source. */
  function GetClockNetName(clockTreeName: string, clockNetId: int): (r: string)
    ensures clockNetId < 0 ==> r == ""
    ensures clockNetId >= 0 ==> |r| > |clockTreeName| && r[..|clockTreeName|] == clockTreeName
    ensures clockNetId >= 0 ==> AllDigits(r[|clockTreeName|..])
    ensures clockNetId >= 0 ==> ParseDigits(r[|clockTreeName|..]) == clockNetId
  {
    if clockNetId >= 0 then
      ParseNatToString(clockNetId as nat);
      assert (clockTreeName + NatToString(clockNetId as nat))[|clockTreeName|..] == NatToString(clockNetId as nat);
      clockTreeName + NatToString(clockNetId as nat)
    else ""
  }

  /** Distinct clock sources get distinct clock-tree names, so their buses never collide. */
  lemma ClockNetNamesDistinct(clockTreeName: string, a: int, b: int)
    requires 0 <= a && 0 <= b && a != b
    ensures GetClockNetName(clockTreeName, a) != GetClockNetName(clockTreeName, b)
  {
  }

  function GetPortMap(info: MapInfo, names: FrameworkNames): (r: map<string, string>)
    ensures info.OtherObject? ==> r == map[]
    ensures info.NetlistComponent? ==> r.Keys == Ports().Keys
    ensures info.NetlistComponent? ==>
      && r["GlobalClock"] == names.fpgaClock
      && r["ClockTick"] == names.fpgaTick
      && r["ClockBus"] == "s_" + GetClockNetName(names.clockTreeName, info.clockSourceId)
    ensures info.NetlistComponent? && info.clockSourceId < 0 ==> r["ClockBus"] == "s_"
  {
    match info
    case OtherObject => map[]
    case NetlistComponent(id) =>
      map[
        "GlobalClock" := names.fpgaClock,
        "ClockTick" := names.fpgaTick,
        "ClockBus" := "s_" + GetClockNetName(names.clockTreeName, id)
      ]
  }

  /** Two clock components with different sources drive differently named buses. */
  lemma PortMapBusesDistinct(names: FrameworkNames, a: int, b: int)
    requires 0 <= a && 0 <= b && a != b
    ensures GetPortMap(NetlistComponent(a), names)["ClockBus"] != GetPortMap(NetlistComponent(b), names)["ClockBus"]
  {
    ClockNetNamesDistinct(names.clockTreeName, a, b);
    var na, nb := GetClockNetName(names.clockTreeName, a), GetClockNetName(names.clockTreeName, b);
    assert ("s_" + na)[2..] == na && ("s_" + nb)[2..] == nb;
  }

  /**
   * `GlobalClock & s_output_regs` (VHDL) / `{GlobalClock,s_output_regs}`
   * (Verilog), with vectors indexed by bit number: bit 0 is element 0.
   */
  function ClockBusValue(globalClock: Bit, outputRegs: seq<Bit>): (r: seq<Bit>)
    requires |outputRegs| == NrOfClockBits - 1
    ensures |r| == NrOfClockBits
    ensures r[GlobalClockIndex] == globalClock
    ensures r[DerivedClockIndex] == outputRegs[DerivedClockIndex]
    ensures r[InvertedDerivedClockIndex] == outputRegs[InvertedDerivedClockIndex]
    ensures r[PositiveEdgeTickIndex] == outputRegs[PositiveEdgeTickIndex]
    ensures r[NegativeEdgeTickIndex] == outputRegs[NegativeEdgeTickIndex]
  {
    outputRegs + [globalClock]
  }

  /** The five bus indices are distinct and cover exactly the bus width. */
  lemma BusIndicesPartitionBus()
    ensures |{DerivedClockIndex, InvertedDerivedClockIndex, PositiveEdgeTickIndex,
              NegativeEdgeTickIndex, GlobalClockIndex}| == NrOfClockBits
    ensures DerivedClockIndex < NrOfClockBits && InvertedDerivedClockIndex < NrOfClockBits
    ensures PositiveEdgeTickIndex < NrOfClockBits && NegativeEdgeTickIndex < NrOfClockBits
    ensures GlobalClockIndex < NrOfClockBits
    ensures Ports()["ClockBus"].width == Fixed(NrOfClockBits)
    ensures Registers()["s_output_regs"] == Fixed(GlobalClockIndex)
  {
  }
}
