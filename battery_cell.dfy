/** Model of the GUNNS electrical battery cell link (GunnsElectBatteryCell): one cell of a
    battery, with an internal resistance, a capacity in amp-hours and a state of charge (SOC)
    that is integrated from the current drawn through it. Two malfunctions, open circuit and
    short circuit, override the cell's behaviour. Doubles are modelled as exact reals. */
module ElectBatteryCell {

  /** The C constant DBL_EPSILON: the machine epsilon of an IEEE-754 double, 2^-52. */
  const DblEpsilon: real := 1.0 / 4503599627370496.0

  /** Capacity is given in amp-hours and time steps in seconds. */
  const SecondsPerHour: real := 3600.0

  /** Configuration data: internal resistance (ohm) and maximum capacity (amp-hour).
      Default construction gives all zeros; copy construction is value copy. */
  datatype ConfigData = ConfigData(resistance: real := 0.0, maxCapacity: real := 0.0)

  /** Input data: the two malfunction flags and the initial state of charge. */
  datatype InputData = InputData(malfOpenCircuit: bool := false,
                                 malfShortCircuit: bool := false,
                                 soc: real := 0.0)

  /** The reasons initialization is refused (each raises an initialization error in the cell). */
  datatype InitError = EmptyName | NegativeResistance | NonPositiveCapacity | SocOutOfRange

  datatype Outcome = Pass | Fail(error: InitError)

  /** The validation rule that error `e` reports is broken by these arguments. */
  predicate Violates(e: InitError, config: ConfigData, input: InputData, name: string)
  {
    match e
    case EmptyName => name == ""
    case NegativeResistance => config.resistance < 0.0
    case NonPositiveCapacity => config.maxCapacity <= 0.0
    case SocOutOfRange => !(0.0 <= input.soc <= 1.0)
  }

  /** The checks `initialize` makes of its arguments, in order: name, resistance, capacity, SOC. */
  function Validate(config: ConfigData, input: InputData, name: string): (o: Outcome)
    ensures o.Pass? <==> forall e: InitError :: !Violates(e, config, input, name)
    ensures o.Fail? ==> Violates(o.error, config, input, name)
    ensures name == "" ==> o == Fail(EmptyName)
  {
    var o := if name == "" then Fail(EmptyName)
      else if config.resistance < 0.0 then Fail(NegativeResistance)
      else if config.maxCapacity <= 0.0 then Fail(NonPositiveCapacity)
      else if !(0.0 <= input.soc <= 1.0) then Fail(SocOutOfRange)
      else Pass;
    assert o.Fail? ==> Violates(o.error, config, input, name);
    o
  }

  /** The distance between two reals on the number line. */
  function Distance(a: real, b: real): (r: real)
    ensures r >= 0.0
  {
    if a < b then b - a else a - b
  }

  /** Limits a state of charge to [0, 1]: the nearest point of [0, 1]. */
  function LimitSoc(x: real): (r: real)
    ensures 0.0 <= r <= 1.0
    ensures forall y: real :: 0.0 <= y <= 1.0 ==> Distance(r, x) <= Distance(y, x)
    ensures 0.0 <= x <= 1.0 ==> r == x
  {
    if x < 0.0 then 0.0 else if x > 1.0 then 1.0 else x
  }

  /** The fraction of `maxCapacity` that `current` amps drawn for `dt` seconds consume. */
  function SocDrawn(current: real, dt: real, maxCapacity: real): real
    requires maxCapacity > 0.0
  {
    current * dt / maxCapacity / SecondsPerHour
  }

  lemma DrawnSign(current: real, dt: real, maxCapacity: real)
    requires maxCapacity > 0.0
    ensures current * dt >= 0.0 ==> SocDrawn(current, dt, maxCapacity) >= 0.0
    ensures current * dt <= 0.0 ==> SocDrawn(current, dt, maxCapacity) <= 0.0
  {
  }

  /** The stored SOC after one `updateSoc(current, dt)` call on a cell in the given state. */
  function UpdatedSoc(soc: real, maxCapacity: real, malfOpen: bool, malfShort: bool,
                      current: real, dt: real): (r: real)
    ensures 0.0 <= soc <= 1.0 ==> 0.0 <= r <= 1.0
    ensures malfShort ==> r == 0.0
    ensures malfOpen && !malfShort ==> r == soc
    ensures !malfOpen && !malfShort && maxCapacity <= 0.0 ==> r == 0.0
    ensures (!malfOpen && !malfShort && maxCapacity > 0.0
             && 0.0 <= soc - SocDrawn(current, dt, maxCapacity) <= 1.0)
            ==> r == soc - SocDrawn(current, dt, maxCapacity)
    ensures (!malfOpen && !malfShort && maxCapacity > 0.0
             && soc - SocDrawn(current, dt, maxCapacity) >= 1.0) ==> r == 1.0
    ensures (!malfOpen && !malfShort && maxCapacity > 0.0
             && soc - SocDrawn(current, dt, maxCapacity) <= 0.0) ==> r == 0.0
    ensures (!malfOpen && !malfShort && maxCapacity > 0.0 && 0.0 <= soc <= 1.0
             && current * dt >= 0.0) ==> r <= soc
    ensures (!malfOpen && !malfShort && maxCapacity > 0.0 && 0.0 <= soc <= 1.0
             && current * dt <= 0.0) ==> r >= soc
  {
    if malfShort then 0.0
    else if malfOpen then soc
    else if maxCapacity > 0.0 then
      DrawnSign(current, dt, maxCapacity);
      LimitSoc(soc - SocDrawn(current, dt, maxCapacity))
    else 0.0
  }

  /** Drawing a current and then the reverse current for the same time restores the SOC, as
      long as neither update is clamped. */
  lemma ChargeRoundTrip(soc: real, maxCapacity: real, current: real, dt: real)
    requires maxCapacity > 0.0
    requires 0.0 <= soc <= 1.0
    requires 0.0 <= soc - SocDrawn(current, dt, maxCapacity) <= 1.0
    ensures UpdatedSoc(UpdatedSoc(soc, maxCapacity, false, false, current, dt),
                       maxCapacity, false, false, -current, dt) == soc
  {
    var d := SocDrawn(current, dt, maxCapacity);
    assert SocDrawn(-current, dt, maxCapacity) == -d;
  }

  /** One call of `updateSoc(current, dt)`. */
  datatype Step = Step(current: real, dt: real)

  /** The stored SOC after a run of updates with the malfunction flags held fixed. */
  function SocAfterSteps(soc: real, maxCapacity: real, malfOpen: bool, malfShort: bool,
                         steps: seq<Step>): (r: real)
    ensures 0.0 <= soc <= 1.0 ==> 0.0 <= r <= 1.0
    decreases |steps|
  {
    if steps == [] then soc
    else
      SocAfterSteps(UpdatedSoc(soc, maxCapacity, malfOpen, malfShort, steps[0].current, steps[0].dt),
                    maxCapacity, malfOpen, malfShort, steps[1..])
  }

  /** While the open-circuit malfunction is active alone, no run of updates changes the SOC. */
  lemma {:induction false} OpenCircuitHoldsSoc(soc: real, maxCapacity: real, steps: seq<Step>)
    ensures SocAfterSteps(soc, maxCapacity, true, false, steps) == soc
    decreases |steps|
  {
    if steps != [] {
      OpenCircuitHoldsSoc(soc, maxCapacity, steps[1..]);
    }
  }

  /** While the short-circuit malfunction is active (whatever the open-circuit flag), any
      non-empty run of updates drains the cell. */
  lemma {:induction false} ShortCircuitDrains(soc: real, maxCapacity: real, malfOpen: bool,
                                              steps: seq<Step>)
    requires steps != []
    ensures SocAfterSteps(soc, maxCapacity, malfOpen, true, steps) == 0.0
    decreases |steps|
  {
    if |steps| > 1 {
      ShortCircuitDrains(0.0, maxCapacity, malfOpen, steps[1..]);
    }
  }

  /** The SOC drawn by a whole run of updates (coulomb count over the capacity). */
  function TotalDrawn(maxCapacity: real, steps: seq<Step>): real
    requires maxCapacity > 0.0
    decreases |steps|
  {
    if steps == [] then 0.0
    else SocDrawn(steps[0].current, steps[0].dt, maxCapacity) + TotalDrawn(maxCapacity, steps[1..])
  }

  /** No update of the run starting from `soc` leaves [0, 1] before clamping. */
  predicate NeverClamped(soc: real, maxCapacity: real, steps: seq<Step>)
    requires maxCapacity > 0.0
    decreases |steps|
  {
    steps == [] ||
    (var next := soc - SocDrawn(steps[0].current, steps[0].dt, maxCapacity);
     0.0 <= next <= 1.0 && NeverClamped(next, maxCapacity, steps[1..]))
  }

  /** Coulomb counting: without malfunctions and without clamping, a run of updates lowers the
      SOC by exactly the total SOC drawn. */
  lemma {:induction false} CoulombCounting(soc: real, maxCapacity: real, steps: seq<Step>)
    requires maxCapacity > 0.0
    requires NeverClamped(soc, maxCapacity, steps)
    ensures SocAfterSteps(soc, maxCapacity, false, false, steps)
            == soc - TotalDrawn(maxCapacity, steps)
    decreases |steps|
  {
    if steps != [] {
      var d := SocDrawn(steps[0].current, steps[0].dt, maxCapacity);
      CoulombCounting(soc - d, maxCapacity, steps[1..]);
    }
  }

  /** A run whose net charge is zero and that is never clamped returns to its starting SOC. */
  lemma NetZeroChargeRestoresSoc(soc: real, maxCapacity: real, steps: seq<Step>)
    requires maxCapacity > 0.0
    requires NeverClamped(soc, maxCapacity, steps)
    requires TotalDrawn(maxCapacity, steps) == 0.0
    ensures SocAfterSteps(soc, maxCapacity, false, false, steps) == soc
  {
    CoulombCounting(soc, maxCapacity, steps);
  }

  /** The SOC/VOC table the unit tests build: breakpoints (0, 0) and (1, 1) on [0, 1], which
      interpolates to the identity there. */
  function TestSocVocTable(soc: real): real
  {
    soc
  }

  class Cell {
    var malfOpenCircuit: bool
    var malfShortCircuit: bool
    var resistance: real
    var maxCapacity: real
    var soc: real
    var name: string

    /** Default construction: all-zero, all-false state and no name. */
    constructor ()
      ensures !malfOpenCircuit && !malfShortCircuit
      ensures resistance == 0.0 && maxCapacity == 0.0 && soc == 0.0 && name == ""
    {
      malfOpenCircuit := false;
      malfShortCircuit := false;
      resistance := 0.0;
      maxCapacity := 0.0;
      soc := 0.0;
      name := "";
    }

    /** The state every successful initialization establishes. */
    ghost predicate Valid()
      reads this
    {
      name != "" && resistance >= 0.0 && maxCapacity > 0.0 && 0.0 <= soc <= 1.0
    }

    /** Validates the arguments; on success copies them into the cell unchanged, on failure
        leaves the cell as it was. */
    method Initialize(config: ConfigData, input: InputData, cellName: string) returns (o: Outcome)
      modifies this
      ensures o == Validate(config, input, cellName)
      ensures o.Pass? ==> Valid()
      ensures o.Pass? ==> resistance == config.resistance && maxCapacity == config.maxCapacity
      ensures o.Pass? ==> malfOpenCircuit == input.malfOpenCircuit
                          && malfShortCircuit == input.malfShortCircuit
      ensures o.Pass? ==> soc == input.soc && name == cellName
      ensures o.Fail? ==> unchanged(this)
    {
      o := Validate(config, input, cellName);
      if o.Pass? {
        name := cellName;
        resistance := config.resistance;
        maxCapacity := config.maxCapacity;
        malfOpenCircuit := input.malfOpenCircuit;
        malfShortCircuit := input.malfShortCircuit;
        soc := input.soc;
      }
    }

    /** Integrates the SOC over one time step: the short circuit drains the cell, the open
        circuit holds it, otherwise the drawn charge is subtracted and the result limited to
        [0, 1], with a capacity that is not positive giving an empty cell. */
    method UpdateSoc(current: real, dt: real)
      modifies this`soc
      ensures soc == UpdatedSoc(old(soc), maxCapacity, malfOpenCircuit, malfShortCircuit, current, dt)
      ensures old(Valid()) ==> Valid()
    {
      if malfShortCircuit {
        soc := 0.0;
      } else if !malfOpenCircuit {
        if maxCapacity > 0.0 {
          soc := soc - SocDrawn(current, dt, maxCapacity);
        } else {
          soc := 0.0;
        }
        soc := LimitSoc(soc);
      }
    }

    /** Sets the open-circuit malfunction; called with no argument it resets it. */
    method SetMalfOpenCircuit(flag: bool := false)
      modifies this`malfOpenCircuit
      ensures malfOpenCircuit == flag
      ensures old(Valid()) ==> Valid()
    {
      malfOpenCircuit := flag;
    }

    /** Sets the short-circuit malfunction; called with no argument it resets it. */
    method SetMalfShortCircuit(flag: bool := false)
      modifies this`malfShortCircuit
      ensures malfShortCircuit == flag
      ensures old(Valid()) ==> Valid()
    {
      malfShortCircuit := flag;
    }

    /** The SOC the cell presents: none while either malfunction is active. */
    function EffectiveSoc(): (r: real)
      reads this
      ensures malfOpenCircuit || malfShortCircuit ==> r == 0.0
      ensures !malfOpenCircuit && !malfShortCircuit ==> r == soc
      ensures 0.0 <= soc <= 1.0 ==> 0.0 <= r <= 1.0
    {
      if malfOpenCircuit || malfShortCircuit then 0.0 else soc
    }

    /** The resistance the cell presents: DBL_EPSILON when shorted (the short circuit wins),
        1/DBL_EPSILON when open, otherwise the configured resistance. */
    function EffectiveResistance(): (r: real)
      reads this
      ensures malfShortCircuit ==> r == DblEpsilon
      ensures malfOpenCircuit && !malfShortCircuit ==> r == 1.0 / DblEpsilon
      ensures !malfOpenCircuit && !malfShortCircuit ==> r == resistance
      ensures resistance >= 0.0 ==> r >= 0.0
      ensures malfOpenCircuit || malfShortCircuit ==> r > 0.0
    {
      if malfShortCircuit then DblEpsilon
      else if malfOpenCircuit then 1.0 / DblEpsilon
      else resistance
    }

    /** The open-circuit voltage the cell presents: the table's value at the stored SOC, or
        none while either malfunction is active. */
    function EffectiveVoltage(socVocTable: real -> real): (r: real)
      reads this
      ensures malfOpenCircuit || malfShortCircuit ==> r == 0.0
      ensures !malfOpenCircuit && !malfShortCircuit ==> r == socVocTable(soc)
    {
      if malfOpenCircuit || malfShortCircuit then 0.0 else socVocTable(soc)
    }
  }

  /** The voltage is the table applied to the effective SOC, for any table that gives no
      voltage at zero charge. */
  lemma VoltageFollowsEffectiveSoc(c: Cell, socVocTable: real -> real)
    requires socVocTable(0.0) == 0.0
    ensures c.EffectiveVoltage(socVocTable) == socVocTable(c.EffectiveSoc())
  {
  }

  // Client scenarios: the observations of each unit test, derived from the contracts above.

  /** A default-constructed cell has both malfunctions off and an all-zero state. */
  method DefaultConstructionScenario() returns (c: Cell)
    ensures !c.malfOpenCircuit && !c.malfShortCircuit
    ensures c.resistance == 0.0 && c.maxCapacity == 0.0 && c.soc == 0.0
  {
    c := new Cell();
  }

  /** Default, nominal and copied configuration and input data. */
  method ConfigAndInputScenario() returns (config: ConfigData, input: InputData)
    ensures config == ConfigData(0.1, 32.0) && input == InputData(true, true, 1.0)
  {
    config := ConfigData(0.1, 32.0);
    var defaultConfig := ConfigData();
    assert defaultConfig.resistance == 0.0 && defaultConfig.maxCapacity == 0.0;
    var copyConfig := config;
    assert copyConfig.resistance == 0.1 && copyConfig.maxCapacity == 32.0;
    input := InputData(true, true, 1.0);
    var defaultInput := InputData();
    assert !defaultInput.malfOpenCircuit && !defaultInput.malfShortCircuit && defaultInput.soc == 0.0;
    var copyInput := input;
    assert copyInput.malfOpenCircuit && copyInput.malfShortCircuit && copyInput.soc == 1.0;
  }

  /** Each invalid argument makes initialization fail; the nominal arguments pass. */
  method InitializationScenario() returns (c: Cell)
    ensures c.Valid() && c.name == "tArticle" && c.malfOpenCircuit && c.malfShortCircuit
  {
    var config := ConfigData(0.1, 32.0);
    var input := InputData(false, false, 0.9);
    c := new Cell();
    var o := c.Initialize(config, input, "");
    assert o.Fail?;
    o := c.Initialize(config.(resistance := -DblEpsilon), input, "tArticle");
    assert o.Fail?;
    o := c.Initialize(config.(maxCapacity := 0.0), input, "tArticle");
    assert o.Fail?;
    o := c.Initialize(config, input.(soc := -DblEpsilon), "tArticle");
    assert o.Fail?;
    o := c.Initialize(config, input.(soc := 1.0 + DblEpsilon), "tArticle");
    assert o.Fail?;
    o := c.Initialize(config, input.(malfOpenCircuit := true, malfShortCircuit := true), "tArticle");
    assert o.Pass?;
    assert c.resistance == 0.1 && c.maxCapacity == 32.0 && c.soc == 0.9;
  }

  /** Nominal updates: discharge, recharge, both limits and the zero-capacity guard. */
  method UpdateScenario() returns (c: Cell)
    ensures c.soc == 0.0 && c.EffectiveSoc() == 0.0 && c.EffectiveResistance() == 0.1
    ensures c.EffectiveVoltage(TestSocVocTable) == 0.0
  {
    c := new Cell();
    var o := c.Initialize(ConfigData(0.1, 32.0), InputData(false, false, 0.9), "tArticle");
    assert o.Pass?;
    var dt := 0.1;
    c.UpdateSoc(100.0, dt);
    var expectedSoc := 0.9 - 100.0 * dt / 32.0 / 3600.0;
    assert c.soc == expectedSoc && c.EffectiveSoc() == expectedSoc;
    assert c.EffectiveResistance() == 0.1 && c.EffectiveVoltage(TestSocVocTable) == expectedSoc;
    c.UpdateSoc(-100.0, dt);
    assert c.soc == 0.9 && c.EffectiveSoc() == 0.9;
    assert c.EffectiveResistance() == 0.1 && c.EffectiveVoltage(TestSocVocTable) == 0.9;
    c.UpdateSoc(-1.0e15, dt);
    assert c.soc == 1.0 && c.EffectiveSoc() == 1.0;
    assert c.EffectiveResistance() == 0.1 && c.EffectiveVoltage(TestSocVocTable) == 1.0;
    c.UpdateSoc(1.0e15, dt);
    assert c.soc == 0.0 && c.EffectiveSoc() == 0.0;
    assert c.EffectiveResistance() == 0.1 && c.EffectiveVoltage(TestSocVocTable) == 0.0;
    c.maxCapacity := 0.0;
    c.soc := 1.0;
    c.UpdateSoc(1.0e15, dt);
  }

  /** The open-circuit malfunction holds the SOC, presents no SOC or voltage and a very large
      resistance, and is reset by the argument-less setter. */
  method MalfOpenScenario() returns (c: Cell)
    ensures c.soc == 0.9 && !c.malfOpenCircuit
  {
    c := new Cell();
    var o := c.Initialize(ConfigData(0.1, 32.0), InputData(false, false, 0.9), "tArticle");
    assert o.Pass?;
    c.SetMalfOpenCircuit(true);
    assert c.malfOpenCircuit;
    c.UpdateSoc(100.0, 0.1);
    assert c.soc == 0.9 && c.EffectiveSoc() == 0.0;
    assert c.EffectiveResistance() == 1.0 / DblEpsilon && c.EffectiveVoltage(TestSocVocTable) == 0.0;
    c.UpdateSoc(-100.0, 0.1);
    assert c.soc == 0.9 && c.EffectiveSoc() == 0.0;
    assert c.EffectiveResistance() == 1.0 / DblEpsilon && c.EffectiveVoltage(TestSocVocTable) == 0.0;
    c.SetMalfOpenCircuit();
  }

  /** The short-circuit malfunction drains the cell and presents a very small resistance; the
      argument-less setter resets it. */
  method MalfShortScenario() returns (c: Cell)
    ensures c.soc == 0.0 && !c.malfShortCircuit
  {
    c := new Cell();
    var o := c.Initialize(ConfigData(0.1, 32.0), InputData(false, false, 0.9), "tArticle");
    assert o.Pass?;
    c.SetMalfShortCircuit(true);
    assert c.malfShortCircuit;
    c.UpdateSoc(100.0, 0.1);
    assert c.soc == 0.0 && c.EffectiveSoc() == 0.0;
    assert c.EffectiveResistance() == DblEpsilon && c.EffectiveVoltage(TestSocVocTable) == 0.0;
    c.SetMalfShortCircuit();
  }

  /** With both malfunctions active the short circuit wins. */
  method MalfBothScenario() returns (c: Cell)
    ensures c.soc == 0.0 && c.EffectiveSoc() == 0.0 && c.EffectiveResistance() == DblEpsilon
    ensures c.EffectiveVoltage(TestSocVocTable) == 0.0
  {
    c := new Cell();
    var o := c.Initialize(ConfigData(0.1, 32.0), InputData(false, false, 0.9), "tArticle");
    assert o.Pass?;
    c.SetMalfOpenCircuit(true);
    c.SetMalfShortCircuit(true);
    c.UpdateSoc(100.0, 0.1);
  }
}
