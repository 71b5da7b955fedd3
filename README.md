# GUNNS electrical battery cell — Dafny model

A model of `GunnsElectBatteryCell`, the battery cell link of the GUNNS nodal network
solver, and proofs about it. A cell has:

- configuration data: an internal resistance and a maximum capacity in amp-hours;
- input data: the open-circuit and short-circuit malfunction flags and an initial state of
  charge (SOC).

`initialize` validates these and copies them into the cell. `updateSoc(current, dt)`
integrates the SOC as `soc - current*dt/maxCapacity/3600`, limits it to [0, 1], and guards
against a zero capacity. The malfunctions override this: the short circuit drains the cell
and the open circuit holds the SOC. The cell also has three read-only accessors: the effective
SOC, the effective resistance and the effective open-circuit voltage (read through an
SOC-to-voltage table). Each depends on the malfunction flags.

The cell's implementation file is not part of this model. Its behaviour is taken from its
unit test, `aspects/electrical/Batt/test/UtGunnsElectBatteryCell.cpp`. Each of its nine tests
is covered by a client method here, which asserts the test's observations of the cell and
has them proved from the model's definitions:

- `ConfigAndInputScenario`: `testConfig` and `testInput`;
- `DefaultConstructionScenario`: `testDefaultConstruction`;
- `InitializationScenario`: `testNominalInitialization` and `testInitializationExceptions`;
- `UpdateScenario`: `testUpdate`;
- `MalfOpenScenario`: `testUpdateMalfOpen`;
- `MalfShortScenario`: `testUpdateMalfShort`;
- `MalfBothScenario`: `testUpdateMalfBoth`.

Modelling choices:

- Doubles are exact `real`s.
- `DBL_EPSILON` is the constant `DblEpsilon` = 2^-52.
- The 3600 in the integration is `SecondsPerHour`.
- The SOC-to-voltage table (`TsLinearInterpolator`, a foreign class) is a parameter of type
  `real -> real`. The tests build it from breakpoints (0, 0) and (1, 1), which is the
  identity on [0, 1]: `TestSocVocTable`.
- Initialization errors are an `Outcome` value (`Pass` or `Fail(reason)`), not an exception.
- Configuration and input data are datatypes whose constructor arguments have the
  defaults of the C++ default constructors. Copy construction is value copy.
- A run of several `updateSoc` calls with the malfunction flags held fixed is
  `SocAfterSteps`.

Decisions where the test leaves the behaviour open:

- The test fixes only that a capacity of exactly 0 rejects initialization, and that
  `updateSoc` with a capacity of 0, from a full cell with a forward current, gives SOC 0.
  The model gives SOC 0 for every capacity that is not positive and for either sign of
  current; saturating at 1 for a reverse current would meet the test too.
- The test checks the validation rules one at a time. The model checks them in the test's
  order: name, resistance, capacity, SOC.
- The test never looks at the cell after a failed `initialize`. The model validates first
  and then leaves the cell unchanged on failure.
- `Cell.EffectiveSoc`: the test reads the effective SOC under the short circuit alone only
  after `updateSoc` has already set the stored SOC to 0, and under both malfunctions the
  open circuit already gives 0. The model returns 0 under either malfunction, whatever the
  stored SOC. The alternative, 0 only under the open circuit and the stored SOC under the
  short circuit alone, meets the test too.
- `Cell.EffectiveVoltage`: the test checks the voltage under a malfunction only with its
  identity table, where table(0) = 0. There, "0 V under a malfunction" and "the table at
  the effective SOC (which is 0)" agree. The model returns 0 V under a malfunction whatever
  the table. The alternative, `table(EffectiveSoc())`, differs for a table with
  table(0) != 0. `VoltageFollowsEffectiveSoc` proves the two agree when table(0) = 0.

## Model

| member | source | states |
|---|---|---|
| ElectBatteryCell.Validate | aspects/electrical/Batt/test/UtGunnsElectBatteryCell.cpp:187-212 | initialization passes exactly when no rule is broken (non-empty name, resistance >= 0, capacity > 0, SOC in [0, 1]); a failure names a rule the arguments really break; an empty name is reported first |
| ElectBatteryCell.LimitSoc | aspects/electrical/Batt/test/UtGunnsElectBatteryCell.cpp:243-257 | the result lies in [0, 1] and is the point of [0, 1] nearest its argument, so a value already in range is left unchanged |
| ElectBatteryCell.DrawnSign | aspects/electrical/Batt/test/UtGunnsElectBatteryCell.cpp:224-241 | forward current (current*dt >= 0) draws a non-negative fraction of the capacity, reverse current a non-positive one |
| ElectBatteryCell.UpdatedSoc | aspects/electrical/Batt/test/UtGunnsElectBatteryCell.cpp:224-266 | one update keeps an in-range SOC in [0, 1]; the short circuit gives 0 whatever the open-circuit flag; the open circuit alone holds the SOC; a capacity that is not positive gives 0; otherwise the result is soc - current*dt/maxCapacity/3600 when that lies in [0, 1], exactly 1 when it reaches 1 or more and exactly 0 when it reaches 0 or less; forward current never raises the SOC and reverse current never lowers it |
| ElectBatteryCell.ChargeRoundTrip | aspects/electrical/Batt/test/UtGunnsElectBatteryCell.cpp:224-241 | an update with current I followed by one with -I over the same dt restores the SOC when the first is not clamped |
| ElectBatteryCell.SocAfterSteps | aspects/electrical/Batt/test/UtGunnsElectBatteryCell.cpp:243-257 | any run of updates that starts in [0, 1] stays in [0, 1], even for currents of 1e15 either way |
| ElectBatteryCell.OpenCircuitHoldsSoc | aspects/electrical/Batt/test/UtGunnsElectBatteryCell.cpp:285-302 | while only the open-circuit malfunction is active, no run of updates changes the stored SOC, whatever the currents |
| ElectBatteryCell.ShortCircuitDrains | aspects/electrical/Batt/test/UtGunnsElectBatteryCell.cpp:325-333 | while the short-circuit malfunction is active, any non-empty run of updates leaves SOC 0, also with the open circuit active |
| ElectBatteryCell.CoulombCounting | aspects/electrical/Batt/test/UtGunnsElectBatteryCell.cpp:224-241 | with no malfunction and no clamping, a run of updates lowers the SOC by exactly the total charge drawn over the capacity |
| ElectBatteryCell.NetZeroChargeRestoresSoc | aspects/electrical/Batt/test/UtGunnsElectBatteryCell.cpp:235-241 | a run with zero net charge that is never clamped returns to its starting SOC |
| ElectBatteryCell.VoltageFollowsEffectiveSoc | aspects/electrical/Batt/test/UtGunnsElectBatteryCell.cpp:292-294 | for any table that gives 0 V at SOC 0, the effective voltage is the table applied to the effective SOC |
| ElectBatteryCell.Cell.constructor | aspects/electrical/Batt/test/UtGunnsElectBatteryCell.cpp:145-157 | a default-constructed cell has both malfunctions off and zero resistance, capacity and SOC |
| ElectBatteryCell.Cell.Initialize | aspects/electrical/Batt/test/UtGunnsElectBatteryCell.cpp:162-212 | the outcome is the validation result; on success the cell holds the configured resistance and capacity, both malfunction flags, the SOC and the name unchanged and is in its valid state; on failure nothing changes |
| ElectBatteryCell.Cell.UpdateSoc | aspects/electrical/Batt/test/UtGunnsElectBatteryCell.cpp:217-266 | the new stored SOC is the single-update result for the old SOC and the current flags and capacity; a valid cell stays valid |
| ElectBatteryCell.Cell.SetMalfOpenCircuit | aspects/electrical/Batt/test/UtGunnsElectBatteryCell.cpp:281-283 | sets the open-circuit flag to the argument, which defaults to false (reset, lines 305-306); nothing else changes |
| ElectBatteryCell.Cell.SetMalfShortCircuit | aspects/electrical/Batt/test/UtGunnsElectBatteryCell.cpp:321-323 | sets the short-circuit flag to the argument, which defaults to false (reset, lines 336-337); nothing else changes |
| ElectBatteryCell.Cell.EffectiveSoc | aspects/electrical/Batt/test/UtGunnsElectBatteryCell.cpp:292 | 0 while either malfunction is active, otherwise the stored SOC; in [0, 1] whenever the stored SOC is |
| ElectBatteryCell.Cell.EffectiveResistance | aspects/electrical/Batt/test/UtGunnsElectBatteryCell.cpp:289-293 | DBL_EPSILON when shorted (also when open), 1/DBL_EPSILON when only open, otherwise the configured resistance; never negative for a valid cell and strictly positive under a malfunction |
| ElectBatteryCell.Cell.EffectiveVoltage | aspects/electrical/Batt/test/UtGunnsElectBatteryCell.cpp:233 | 0 while either malfunction is active, otherwise the table's value at the stored SOC |
| ElectBatteryCell.ConfigAndInputScenario | aspects/electrical/Batt/test/UtGunnsElectBatteryCell.cpp:93-140 | nominal, default and copied configuration and input data hold the values given, zeros and false, and the originals' values |
| ElectBatteryCell.DefaultConstructionScenario | aspects/electrical/Batt/test/UtGunnsElectBatteryCell.cpp:145-157 | a freshly constructed cell has both malfunction flags false and zero resistance, capacity and SOC |
| ElectBatteryCell.InitializationScenario | aspects/electrical/Batt/test/UtGunnsElectBatteryCell.cpp:162-212 | each of the five invalid argument sets is refused, and the nominal set with both malfunctions is accepted and copied |
| ElectBatteryCell.UpdateScenario | aspects/electrical/Batt/test/UtGunnsElectBatteryCell.cpp:217-269 | the test's sequence of nominal updates gives its expected stored SOC, effective SOC, effective resistance and voltage after each of the five updates, ending at SOC 0 from the zero-capacity guard |
| ElectBatteryCell.MalfOpenScenario | aspects/electrical/Batt/test/UtGunnsElectBatteryCell.cpp:274-309 | with the open circuit, the SOC stays at 0.9 for both current directions, and the effective SOC, voltage and resistance are 0, 0 and 1/DBL_EPSILON; the reset clears the flag |
| ElectBatteryCell.MalfShortScenario | aspects/electrical/Batt/test/UtGunnsElectBatteryCell.cpp:314-340 | with the short circuit, the SOC goes to 0, and the effective SOC, voltage and resistance are 0, 0 and DBL_EPSILON; the reset clears the flag |
| ElectBatteryCell.MalfBothScenario | aspects/electrical/Batt/test/UtGunnsElectBatteryCell.cpp:345-367 | with both malfunctions, the short-circuit outcome wins: SOC 0, resistance DBL_EPSILON, voltage 0 |

## Left out

- Floating-point rounding: the model uses exact reals, so the test's DBL_EPSILON tolerances
  become exact equalities.
- The `TsLinearInterpolator` implementation is a foreign library. The table is an arbitrary
  function, and the tests' table is the identity.
- Health-and-status messages and the exception mechanism: initialization failure is an
  `Outcome` value.
- The nodal network solver (assembly, linear solve, minor-step convergence, islands): its
  source is not part of this model. The same holds for the generated network wiring, the
  exception classes, the test runner and the integration-test scripts.
- Copy construction of configuration and input data has no member of its own. Datatypes are
  values, so a copy always equals its original; `ConfigAndInputScenario` shows this.
