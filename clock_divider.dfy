/**
 * The clock divider that the clock component's generator emits, as a
 * synchronous machine taking one step per rising edge of `GlobalClock`.
 * Every right-hand side reads the register values from before the edge.
 *
 * State: the `NrOfBits`-wide down-counter `s_counter_reg`, the `Phase`-long
 * shift register `s_derived_clock_reg`, the two buffer registers
 * `s_buf_regs` and the four output registers `s_output_regs`.
 *
 * `Next` specifies one edge on values; the class `Divider` performs it in
 * place on arrays, with the shift written as the emitted FOR loop.
 */
module ClockDivider {
  import opened Logic
  import opened Hdl
  import opened ClockGenerator

  datatype Config = Config(params: ClockParams, dialect: Dialect)

  datatype State = State(counter: nat, derived: seq<Bit>, buf: seq<Bit>, out: seq<Bit>)

  /**
   * What the divider assumes of its generics: at least one tick high and one
   * low, a `Phase` of at least one, and a counter wide enough for both reload
   * values.
   */
  predicate WellFormed(c: Config) {
    && c.params.highTicks >= 1
    && c.params.lowTicks >= 1
    && c.params.phase >= 1
    && c.params.highTicks - 1 < Pow2(c.params.nrOfBits)
    && c.params.lowTicks - 1 < Pow2(c.params.nrOfBits)
  }

  /**
   * Register shapes as declared, the counter within its width and, for
   * Verilog, whose initial block zeroes the shift register, a driven bit 0.
   */
  predicate Shaped(c: Config, s: State) {
    && |s.derived| == c.params.phase
    && |s.buf| == 2
    && |s.out| == NrOfClockBits - 1
    && s.counter < Pow2(c.params.nrOfBits)
    && |s.derived| >= 1
    && (c.dialect == Verilog ==> IsBinary(s.derived[0]))
  }

  /** `s_derived_clock_reg(Phase - 1)`: the delayed derived clock. */
  function Tap(c: Config, s: State): (r: Bit)
    requires WellFormed(c) && Shaped(c, s)
    ensures r == s.derived[|s.derived| - 1]
    ensures c.dialect == Verilog && c.params.phase == 1 ==> IsBinary(r)
  {
    s.derived[c.params.phase - 1]
  }

  /** `s_counter_next`: count down, and at zero reload for the half-period about to start. */
  function CounterNext(c: Config, s: State): (r: nat)
    requires WellFormed(c) && Shaped(c, s)
    ensures r < Pow2(c.params.nrOfBits)
  {
    if s.counter != 0 then s.counter - 1
    else if s.derived[0] == One then Truncate(c.params.lowTicks - 1, c.params.nrOfBits)
    else Truncate(c.params.highTicks - 1, c.params.nrOfBits)
  }

  /** The simulation-only guard of the VHDL processes: bit 0 is neither '0' nor '1'. */
  predicate NeedsNormalisation(c: Config, s: State)
    requires Shaped(c, s)
    ensures c.dialect == Verilog ==> !NeedsNormalisation(c, s)
    ensures NeedsNormalisation(c, s) ==> s.derived[0] == Unknown
  {
    c.dialect == VHDL && !IsBinary(s.derived[0])
  }

  /** The output registers after an edge, indexed by clock-bus bit. */
  function NextOutputs(c: Config, s: State): (r: seq<Bit>)
    requires WellFormed(c) && Shaped(c, s)
    ensures |r| == NrOfClockBits - 1
    ensures !(r[PositiveEdgeTickIndex] == One && r[NegativeEdgeTickIndex] == One)
  {
    var tap := Tap(c, s);
    [ s.buf[0],
      if c.dialect == VHDL then s.buf[1] else s.out[1],
      And(Not(s.buf[0]), tap),
      if c.dialect == VHDL then And(s.buf[0], Not(tap)) else And(Not(tap), s.buf[0]) ]
  }

  /** One rising edge of `GlobalClock`, with `ClockTick` sampled as `tick`. */
  function Next(c: Config, s: State, tick: bool): (r: State)
    requires WellFormed(c) && Shaped(c, s)
    ensures Shaped(c, r)
    ensures !(r.out[PositiveEdgeTickIndex] == One && r.out[NegativeEdgeTickIndex] == One)
  {
    var tap := Tap(c, s);
    var buf := [tap, Not(tap)];
    var out := NextOutputs(c, s);
    if NeedsNormalisation(c, s) then
      State(0, seq(c.params.phase, _ => One), buf, out)
    else if tick then
      State(CounterNext(c, s),
            [Xor(s.derived[0], FromBool(s.counter == 0))] + s.derived[..c.params.phase - 1],
            buf, out)
    else
      State(s.counter, s.derived, buf, out)
  }

  /**
   * Register contents at power-up. Verilog: the `initial` block zeroes the
   * output registers, the shift register and the counter; it leaves the
   * buffer registers undriven. VHDL: no initial values are given, so every
   * register starts indeterminate (the counter's value is immaterial, since
   * the first edge forces it to zero).
   */
  function PowerUp(c: Config): (r: State)
    requires WellFormed(c)
    ensures Shaped(c, r)
  {
    match c.dialect
    case Verilog => State(0, seq(c.params.phase, _ => Zero), [Unknown, Unknown], seq(NrOfClockBits - 1, _ => Zero))
    case VHDL => State(0, seq(c.params.phase, _ => Unknown), [Unknown, Unknown], seq(NrOfClockBits - 1, _ => Unknown))
  }

  /** `k` edges with `ClockTick` high on every one of them. */
  function Run(c: Config, s: State, k: nat): (r: State)
    requires WellFormed(c) && Shaped(c, s)
    ensures Shaped(c, r)
  {
    if k == 0 then s else Next(c, Run(c, s, k - 1), true)
  }

  // ---------------------------------------------------------------------
  // One edge: counter, shift register, normalisation.

  /** With a tick the counter counts down, and at zero reloads `LowTicks-1` after a high half-period, `HighTicks-1` after a low one. */
  lemma CounterOnTick(c: Config, s: State)
    requires WellFormed(c) && Shaped(c, s) && !NeedsNormalisation(c, s)
    ensures Next(c, s, true).counter ==
      if s.counter != 0 then s.counter - 1
      else if s.derived[0] == One then c.params.lowTicks - 1
      else c.params.highTicks - 1
  {
  }

  /** With a tick bit 0 toggles exactly when the counter is zero, and every other bit takes its lower neighbour's old value. */
  lemma ShiftOnTick(c: Config, s: State)
    requires WellFormed(c) && Shaped(c, s) && !NeedsNormalisation(c, s)
    ensures IsBinary(Next(c, s, true).derived[0])
    ensures Next(c, s, true).derived[0] == One <==> (s.derived[0] == One) != (s.counter == 0)
    ensures forall n :: 1 <= n < c.params.phase ==> Next(c, s, true).derived[n] == s.derived[n - 1]
  {
  }

  /** Without a tick the counter and the shift register keep their values; only the buffer and output registers move. */
  lemma HoldWithoutTick(c: Config, s: State)
    requires WellFormed(c) && Shaped(c, s) && !NeedsNormalisation(c, s)
    ensures Next(c, s, false).counter == s.counter
    ensures Next(c, s, false).derived == s.derived
    ensures Next(c, s, false).buf == [Tap(c, s), Not(Tap(c, s))]
    ensures Next(c, s, false).out == Next(c, s, true).out
  {
  }

  /** VHDL: an indeterminate bit 0 forces the shift register to all ones and the counter to zero, whether or not there is a tick. */
  lemma Normalisation(c: Config, s: State, tick: bool)
    requires WellFormed(c) && Shaped(c, s) && NeedsNormalisation(c, s)
    ensures Next(c, s, tick).counter == 0
    ensures forall n :: 0 <= n < c.params.phase ==> Next(c, s, tick).derived[n] == One
  {
  }

  /** VHDL power-up: after the first edge the divider is at counter zero with the derived clock high. */
  lemma VhdlPowerUpNormalises(c: Config, tick: bool)
    requires WellFormed(c) && c.dialect == VHDL
    ensures Next(c, PowerUp(c), tick).counter == 0
    ensures forall n :: 0 <= n < c.params.phase ==> Next(c, PowerUp(c), tick).derived[n] == One
  {
    Normalisation(c, PowerUp(c), tick);
  }

  // ---------------------------------------------------------------------
  // Buffer stage and edge ticks.

  /**
   * Two edges after the tap is sampled it appears on the derived-clock bit,
   * and (VHDL) its complement on the inverted bit; the positive and negative
   * edge ticks fire exactly on a 0-to-1 and a 1-to-0 change of the tap.
   */
  lemma BufferStage(c: Config, s: State, t1: bool, t2: bool)
    requires WellFormed(c) && Shaped(c, s)
    ensures var s1 := Next(c, s, t1); var s2 := Next(c, s1, t2);
      && s2.out[DerivedClockIndex] == Tap(c, s)
      && (c.dialect == VHDL ==> s2.out[InvertedDerivedClockIndex] == Not(Tap(c, s)))
      && (s2.out[PositiveEdgeTickIndex] == One <==> Tap(c, s) == Zero && Tap(c, s1) == One)
      && (s2.out[NegativeEdgeTickIndex] == One <==> Tap(c, s) == One && Tap(c, s1) == Zero)
  {
  }

  /** An edge tick is never high on two consecutive edges. */
  lemma TicksLastOneCycle(c: Config, s: State, t1: bool, t2: bool)
    requires WellFormed(c) && Shaped(c, s)
    ensures Next(c, s, t1).out[PositiveEdgeTickIndex] == One ==>
      Next(c, Next(c, s, t1), t2).out[PositiveEdgeTickIndex] == Zero
    ensures Next(c, s, t1).out[NegativeEdgeTickIndex] == One ==>
      Next(c, Next(c, s, t1), t2).out[NegativeEdgeTickIndex] == Zero
  {
  }

  /** Verilog, as written, assigns `s_output_regs[1]` to itself: the inverted-clock bit never changes. */
  lemma VerilogInvertedBitHeld(c: Config, s: State, tick: bool)
    requires WellFormed(c) && Shaped(c, s) && c.dialect == Verilog
    ensures Next(c, s, tick).out[InvertedDerivedClockIndex] == s.out[InvertedDerivedClockIndex]
  {
  }

  /**
   * Hence from the Verilog initial block the inverted-clock bit of the bus
   * stays 0 on every ticking edge; edges without a tick hold it by
   * `VerilogInvertedBitHeld`.
   */
  lemma {:induction false} VerilogInvertedBitStaysZero(c: Config, k: nat)
    requires WellFormed(c) && c.dialect == Verilog
    ensures Run(c, PowerUp(c), k).out[InvertedDerivedClockIndex] == Zero
  {
    if k > 0 {
      VerilogInvertedBitStaysZero(c, k - 1);
      VerilogInvertedBitHeld(c, Run(c, PowerUp(c), k - 1), true);
    }
  }

  // ---------------------------------------------------------------------
  // The divider's period.

  function Period(c: Config): nat {
    c.params.highTicks + c.params.lowTicks
  }

  /** The counter and bit 0 of the shift register: the part of the state that determines the rest. */
  function Core(s: State): (nat, Bit)
    requires |s.derived| >= 1
  {
    (s.counter, s.derived[0])
  }

  /**
   * Position `p` of the divider's cycle: the first `HighTicks` positions have
   * bit 0 high with the counter running down to zero, the remaining
   * `LowTicks` positions have it low.
   */
  function Orbit(c: Config, p: nat): (r: (nat, Bit))
    requires WellFormed(c) && p < Period(c)
    ensures IsBinary(r.1)
    ensures r.1 == One <==> p < c.params.highTicks
  {
    if p < c.params.highTicks then (c.params.highTicks - 1 - p, One)
    else (Period(c) - 1 - p, Zero)
  }

  /** The position after `p` on the cycle. */
  function NextPos(c: Config, p: nat): (r: nat)
    requires WellFormed(c) && p < Period(c)
    ensures r < Period(c)
  {
    if p + 1 == Period(c) then 0 else p + 1
  }

  /** The position `k` edges after `p`. */
  function Advance(c: Config, p: nat, k: nat): (r: nat)
    requires WellFormed(c) && p < Period(c)
    ensures r < Period(c)
  {
    if k == 0 then p else NextPos(c, Advance(c, p, k - 1))
  }

  lemma OrbitStep(c: Config, s: State, p: nat)
    requires WellFormed(c) && Shaped(c, s) && p < Period(c) && Core(s) == Orbit(c, p)
    ensures Core(Next(c, s, true)) == Orbit(c, NextPos(c, p))
  {
    var h, P := c.params.highTicks, Period(c);
    CounterOnTick(c, s);
    ShiftOnTick(c, s);
    if p < h - 1 {
      assert Orbit(c, NextPos(c, p)) == (h - 2 - p, One);
    } else if p == h - 1 {
      assert Orbit(c, NextPos(c, p)) == (c.params.lowTicks - 1, Zero);
    } else if p < P - 1 {
      assert Orbit(c, NextPos(c, p)) == (P - 2 - p, Zero);
    } else {
      assert Orbit(c, NextPos(c, p)) == (h - 1, One);
    }
  }

  /** Ticking on every edge walks the cycle: after `k` edges the divider is `k` positions further on. */
  lemma {:induction false} RunOrbit(c: Config, s: State, p: nat, k: nat)
    requires WellFormed(c) && Shaped(c, s) && p < Period(c) && Core(s) == Orbit(c, p)
    ensures Core(Run(c, s, k)) == Orbit(c, Advance(c, p, k))
  {
    if k > 0 {
      RunOrbit(c, s, p, k - 1);
      OrbitStep(c, Run(c, s, k - 1), Advance(c, p, k - 1));
    }
  }

  lemma {:induction false} AdvanceCompose(c: Config, p: nat, a: nat, b: nat)
    requires WellFormed(c) && p < Period(c)
    ensures Advance(c, p, a + b) == Advance(c, Advance(c, p, a), b)
  {
    if b > 0 {
      AdvanceCompose(c, p, a, b - 1);
    }
  }

  /** Before wrapping around, advancing is plain addition. */
  lemma {:induction false} AdvanceNoWrap(c: Config, p: nat, k: nat)
    requires WellFormed(c) && p + k < Period(c)
    ensures Advance(c, p, k) == p + k
  {
    if k > 0 {
      AdvanceNoWrap(c, p, k - 1);
    }
  }

  /** A whole period brings every position back to itself. */
  lemma AdvancePeriod(c: Config, p: nat)
    requires WellFormed(c) && p < Period(c)
    ensures Advance(c, p, Period(c)) == p
  {
    var P := Period(c);
    AdvanceNoWrap(c, p, P - 1 - p);
    assert Advance(c, p, P - p) == 0;
    AdvanceCompose(c, p, P - p, p);
    AdvanceNoWrap(c, 0, p);
  }

  /**
   * From counter zero with the derived clock low (the Verilog initial state),
   * bit 0 is high for the first `HighTicks` ticks and low for the next
   * `LowTicks`, after which the counter and bit 0 are back where they started.
   */
  lemma DutyCycle(c: Config, s: State)
    requires WellFormed(c) && Shaped(c, s) && s.counter == 0 && s.derived[0] == Zero
    ensures forall k :: 1 <= k <= Period(c) ==>
      Run(c, s, k).derived[0] == if k <= c.params.highTicks then One else Zero
    ensures Core(Run(c, s, Period(c))) == Core(s)
  {
    var P := Period(c);
    forall k | 1 <= k <= P
      ensures Run(c, s, k).derived[0] == if k <= c.params.highTicks then One else Zero
    {
      DutyCycleAt(c, s, k);
    }
    assert Core(s) == Orbit(c, P - 1);
    RunOrbit(c, s, P - 1, P);
    AdvancePeriod(c, P - 1);
  }

  /** Edge `k` of the first period from counter zero with bit 0 low: high for the first `HighTicks` edges, then low. */
  lemma DutyCycleAt(c: Config, s: State, k: nat)
    requires WellFormed(c) && Shaped(c, s) && s.counter == 0 && s.derived[0] == Zero
    requires 1 <= k <= Period(c)
    ensures Run(c, s, k).derived[0] == if k <= c.params.highTicks then One else Zero
  {
    var P := Period(c);
    assert Core(s) == Orbit(c, P - 1);
    RunOrbit(c, s, P - 1, k);
    AdvanceCompose(c, P - 1, 1, k - 1);
    AdvanceNoWrap(c, 0, k - 1);
  }

  /** Once on the cycle, the counter and bit 0 repeat with period `HighTicks + LowTicks`. */
  lemma Periodic(c: Config, s: State, p: nat, k: nat)
    requires WellFormed(c) && Shaped(c, s) && p < Period(c) && Core(s) == Orbit(c, p)
    ensures Core(Run(c, s, k + Period(c))) == Core(Run(c, s, k))
  {
    RunOrbit(c, s, p, k);
    RunOrbit(c, s, p, k + Period(c));
    AdvanceCompose(c, p, k, Period(c));
    AdvancePeriod(c, Advance(c, p, k));
  }

  /** Both power-up states reach the cycle: Verilog at once, VHDL after its first edge. */
  lemma PowerUpOnOrbit(c: Config)
    requires WellFormed(c)
    ensures c.dialect == Verilog ==> Core(PowerUp(c)) == Orbit(c, Period(c) - 1)
    ensures c.dialect == VHDL ==> Core(Next(c, PowerUp(c), true)) == Orbit(c, c.params.highTicks - 1)
  {
  }

  /** On the cycle every edge ticks without normalisation, so bit `n` takes bit `n-1`'s previous value. */
  lemma RunShifts(c: Config, s: State, p: nat, k: nat, n: nat)
    requires WellFormed(c) && Shaped(c, s) && p < Period(c) && Core(s) == Orbit(c, p)
    requires 1 <= n < c.params.phase && k >= 1
    ensures Run(c, s, k).derived[n] == Run(c, s, k - 1).derived[n - 1]
  {
    var prev := Run(c, s, k - 1);
    RunOrbit(c, s, p, k - 1);
    ShiftOnTick(c, prev);
  }

  lemma ShiftDelay(c: Config, s: State, p: nat, k: nat, n: nat)
    requires WellFormed(c) && Shaped(c, s) && p < Period(c) && Core(s) == Orbit(c, p)
    requires n < c.params.phase
    ensures Run(c, s, k).derived[n] == if n <= k then Run(c, s, k - n).derived[0] else s.derived[n - k]
  {
    var h := History(c, s, k);
    forall i, m {:trigger h[i][m]} | 1 <= i < |h| && 1 <= m < c.params.phase
      ensures h[i][m] == h[i - 1][m - 1]
    {
      RunShifts(c, s, p, i, m);
    }
    DelayLine(h, c.params.phase, k, n);
  }

  /** The shift-register contents after 0, 1, ..., `k` edges. */
  function History(c: Config, s: State, k: nat): (h: seq<seq<Bit>>)
    requires WellFormed(c) && Shaped(c, s)
    ensures |h| == k + 1
    ensures forall i :: 0 <= i <= k ==> h[i] == Run(c, s, i).derived
  {
    if k == 0 then [s.derived] else History(c, s, k - 1) + [Run(c, s, k).derived]
  }

  /**
   * In a history of `w`-bit registers where every bit above 0 takes its lower
   * neighbour's previous value, bit `n` is bit 0 delayed by `n` steps, or an
   * initial bit shifted up while fewer than `n` steps have passed.
   */
  lemma {:induction false} DelayLine(h: seq<seq<Bit>>, w: nat, k: nat, n: nat)
    requires k < |h| && n < w
    requires forall i :: 0 <= i < |h| ==> |h[i]| == w
    requires forall i, m {:trigger h[i][m]} :: 1 <= i < |h| && 1 <= m < w ==> h[i][m] == h[i - 1][m - 1]
    ensures h[k][n] == if n <= k then h[k - n][0] else h[0][n - k]
  {
    if k > 0 && n > 0 {
      DelayLine(h, w, k - 1, n - 1);
    }
  }

  /** The tap at `Phase-1` is bit 0 delayed by `Phase-1` edges. */
  lemma TapDelay(c: Config, s: State, p: nat, k: nat)
    requires WellFormed(c) && Shaped(c, s) && p < Period(c) && Core(s) == Orbit(c, p)
    requires k >= c.params.phase - 1
    ensures Tap(c, Run(c, s, k)) == Run(c, s, k - (c.params.phase - 1)).derived[0]
  {
    ShiftDelay(c, s, p, k, c.params.phase - 1);
  }

  /** HighTicks 3, LowTicks 2, Phase 1 from the Verilog initial state: the clock reads 1,1,1,0,0 and repeats. */
  lemma ExampleThreeTwo(s: State)
    requires s == PowerUp(Config(ClockParams(3, 2, 1, 2), Verilog))
    ensures var c := Config(ClockParams(3, 2, 1, 2), Verilog);
      && [Run(c, s, 1).derived[0], Run(c, s, 2).derived[0], Run(c, s, 3).derived[0],
          Run(c, s, 4).derived[0], Run(c, s, 5).derived[0]] == [One, One, One, Zero, Zero]
      && Core(Run(c, s, 5)) == Core(s)
  {
    DutyCycle(Config(ClockParams(3, 2, 1, 2), Verilog), s);
  }

  /** The declared register and wire widths are the widths of the modelled state. */
  lemma DeclaredWidthsMatch(c: Config, s: State)
    requires WellFormed(c) && Shaped(c, s)
    ensures ResolveWidth(Registers()["s_derived_clock_reg"], c.params) == |s.derived|
    ensures ResolveWidth(Registers()["s_buf_regs"], c.params) == |s.buf|
    ensures ResolveWidth(Registers()["s_output_regs"], c.params) == |s.out|
    ensures s.counter < Pow2(ResolveWidth(Registers()["s_counter_reg"], c.params))
    ensures ResolveWidth(Wires()["s_counter_next"], c.params) == ResolveWidth(Registers()["s_counter_reg"], c.params)
    ensures ResolveWidth(Ports()["ClockBus"].width, c.params) == |ClockBusValue(Zero, s.out)|
  {
  }

  // ---------------------------------------------------------------------
  // The divider as it runs: registers held in arrays, updated in place.

  class Divider {
    const config: Config
    var counter: nat
    const derived: array<Bit>
    const buf: array<Bit>
    const outputRegs: array<Bit>

    ghost predicate Valid()
      reads this, derived, buf, outputRegs
    {
      && WellFormed(config)
      && derived != buf && derived != outputRegs && buf != outputRegs
      && Shaped(config, Snapshot())
    }

    /** The register contents as a value of the specification. */
    function Snapshot(): State
      reads this, derived, buf, outputRegs
    {
      State(counter, derived[..], buf[..], outputRegs[..])
    }

    /** `ClockBus`, given the current level of `GlobalClock`. */
    function Bus(globalClock: Bit): (r: seq<Bit>)
      requires Valid()
      reads this, derived, buf, outputRegs
      ensures r == ClockBusValue(globalClock, Snapshot().out)
    {
      ClockBusValue(globalClock, outputRegs[..])
    }

    constructor (params: ClockParams, dialect: Dialect)
      requires WellFormed(Config(params, dialect))
      ensures Valid() && config == Config(params, dialect)
      ensures Snapshot() == PowerUp(config)
      ensures fresh(derived) && fresh(buf) && fresh(outputRegs)
    {
      config := Config(params, dialect);
      counter := 0;
      var init := if dialect == Verilog then Zero else Unknown;
      derived := new Bit[params.phase](_ => init);
      buf := new Bit[2](_ => Unknown);
      outputRegs := new Bit[NrOfClockBits - 1](_ => init);
    }

    /** One rising edge of `GlobalClock`; `clockTick` is the level of `ClockTick` at that edge. */
    method Step(clockTick: bool)
      requires Valid()
      modifies this, derived, buf, outputRegs
      ensures Valid()
      ensures Snapshot() == Next(config, old(Snapshot()), clockTick)
    {
      ghost var s := Snapshot();
      var phase := config.params.phase;
      var d0 := derived[0];
      var isZero := counter == 0;
      UpdateOutputs();
      if config.dialect == VHDL && !IsBinary(d0) {
        // For simulation only: an indeterminate derived clock is forced high.
        FillOnes();
        counter := 0;
      } else if clockTick {
        var next :=
          if !isZero then counter - 1
          else if d0 == One then Truncate(config.params.lowTicks - 1, config.params.nrOfBits)
          else Truncate(config.params.highTicks - 1, config.params.nrOfBits);
        ShiftIn(Xor(d0, FromBool(isZero)));
        counter := next;
      }
      assert buf[..] == Next(config, s, clockTick).buf;
    }

    /** Process `makeOutputs`: the buffer registers sample the tap, the output registers the buffer. */
    method UpdateOutputs()
      requires Valid()
      modifies buf, outputRegs
      ensures Valid()
      ensures buf[..] == [Tap(config, old(Snapshot())), Not(Tap(config, old(Snapshot())))]
      ensures outputRegs[..] == NextOutputs(config, old(Snapshot()))
    {
      ghost var s := Snapshot();
      var tap := derived[config.params.phase - 1];
      var b0, b1 := buf[0], buf[1];
      outputRegs[DerivedClockIndex] := b0;
      if config.dialect == VHDL {
        outputRegs[InvertedDerivedClockIndex] := b1;
      }
      outputRegs[PositiveEdgeTickIndex] := And(Not(b0), tap);
      outputRegs[NegativeEdgeTickIndex] :=
        if config.dialect == VHDL then And(b0, Not(tap)) else And(Not(tap), b0);
      buf[0] := tap;
      buf[1] := Not(tap);
      assert outputRegs[..] == NextOutputs(config, s);
    }

    /** The normalising branch of process `makeDerivedClock`: `(OTHERS => '1')`. */
    method FillOnes()
      requires Valid()
      modifies derived
      ensures Valid()
      ensures derived[..] == seq(config.params.phase, _ => One)
    {
      var n := 0;
      while n < derived.Length
        invariant 0 <= n <= derived.Length
        invariant forall j :: 0 <= j < n ==> derived[j] == One
      {
        derived[n] := One;
        n := n + 1;
      }
    }

    /** The ticking branch of process `makeDerivedClock`: every bit moves up one place and `b` enters at bit 0. */
    method ShiftIn(b: Bit)
      requires Valid()
      requires config.dialect == Verilog ==> IsBinary(b)
      modifies derived
      ensures Valid()
      ensures derived[..] == [b] + old(derived[..])[..derived.Length - 1]
    {
      ghost var d := derived[..];
      // FOR n IN Phase-1 DOWNTO 1: running downwards, each read sees the old value.
      var n := derived.Length - 1;
      while n >= 1
        invariant 0 <= n <= derived.Length - 1
        invariant forall j :: n < j < derived.Length ==> derived[j] == d[j - 1]
        invariant forall j :: 0 <= j <= n ==> derived[j] == d[j]
      {
        derived[n] := derived[n - 1];
        n := n - 1;
      }
      derived[0] := b;
      assert derived[..] == [b] + d[..derived.Length - 1];
    }
  }
}
