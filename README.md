# Variable capacitor and variable inductor: a Dafny model

circuitjs1 has two reactive elements whose value depends on a voltage: the
variable capacitor and the variable inductor. Each has a third post, the
modulation post. Its voltage, `volts[2]`, sets the capacitance or inductance.
Each element holds five calibration fields:

- a low parameter at `voltageLow`;
- a high parameter at `voltageHigh`;
- the two voltages themselves;
- a `clampVoltage` flag.

This model covers what the two elements do with those fields:

- the interpolator (`interpCapacitance`, `interpInductance`);
- the per-step update `startIteration`, which rescales `volts[2]` so that the
  stored energy `½·P·v²` stays the same when the parameter `P` changes;
- the property-editor setter `setEditValue`, which clamps values into ranges;
- the blocked public setter `setCapacitance` / `setInductance`;
- the five fields that `dump` writes and the tokenizer constructor reads back.

The two source files are near-duplicates. The shared arithmetic sits in module
`Modulation` (`modulation.dfy`). Two thin classes use it, each with its own
fields, edit-field indices and bounds:

- `VariableCapacitor.VariableCapacitorElm` (`variable_capacitor.dfy`): fields
  4–8, capacitance in (0, 1] F, non-positive input becomes 1e-12;
- `VariableInductor.VariableInductorElm` (`variable_inductor.dfy`): fields 3–7,
  inductance in (0, 10] H, non-positive input becomes 1e-2.

Modelling choices:

- Doubles are `real`.
- `Math.pow(v, 2)` is `v * v`.
- `Math.sqrt` is a parameter of `StartIteration`. It must satisfy `IsSquareRoot`:
  for every `x >= 0` it returns `r >= 0` with `r * r == x`.
- The inherited capacitance (inductance) is the plain field `capacitance`
  (`inductance`). `super.getCapacitance` reads it and `super.setCapacitance`
  assigns it.
- `volts` is an `array<real>` of length 3, one entry per post.
- The base-class hooks `super.startIteration()` and `super.setEditValue(n, ei)`
  change none of the modelled fields.
- A dump is a sequence of abstract tokens: a `Number` stands for the text of a
  double and a `Word` for any other text. `new Double(t)` fails on a `Word`.
  `new Boolean(t)` is true exactly when `t` spells "true" in any letter case.
  A missing token fails as the tokenizer does.

Two facts about the code shape the model:

- Both elements rescale `volts[2]`, the modulation-post voltage that also feeds
  the interpolator. Neither rescales an inductor current or a capacitor's
  terminal voltage.
- The clamp is an `if … else if`. It gives the endpoint values only when
  `voltageLow < voltageHigh`. With a reversed range, every input gives exactly
  `paramLow` or `paramHigh`, and clamping twice is not the same as clamping
  once. `Modulation.Clamp` and `Modulation.InterpolateBounds` state the
  reversed case.

## Model

| member | source | states |
|---|---|---|
| Modulation.Clamp | src/com/lushprojects/circuitjs1/client/VariableCapacitorElm.java:96-102 | the clamped voltage lies in [lo, hi] when lo <= hi; an in-range voltage is kept; a voltage below lo becomes lo; one at or above lo and above hi becomes hi; the result is always v, lo or hi |
| Modulation.Abs | src/com/lushprojects/circuitjs1/client/VariableCapacitorElm.java:103-105 | the result is non-negative and is v or -v |
| Modulation.PolicyVoltage | src/com/lushprojects/circuitjs1/client/VariableCapacitorElm.java:96-105 | with the clamp on and an ordered range, the voltage used lies in [voltageLow, voltageHigh]; with the clamp off it is non-negative and is v or -v |
| Modulation.Line | src/com/lushprojects/circuitjs1/client/VariableCapacitorElm.java:108 | no contract of its own; defined as the straight line through (voltageLow, paramLow) and (voltageHigh, paramHigh); its properties are LineAtEndpoints and LineMonotone |
| Modulation.Interpolate | src/com/lushprojects/circuitjs1/client/VariableCapacitorElm.java:96-108 | no contract of its own; defined as Line applied to PolicyVoltage; its properties are InterpolateBounds, InterpolateClamped, InterpolateFacts, InterpolateMonotone and InterpolateSymmetric |
| Modulation.LineAtEndpoints | src/com/lushprojects/circuitjs1/client/VariableCapacitorElm.java:107-108 | the linear formula gives exactly paramLow at voltageLow and paramHigh at voltageHigh |
| Modulation.LineMonotone | src/com/lushprojects/circuitjs1/client/VariableInductorElm.java:102-103 | on an ordered voltage range the linear formula rises with x when paramLow <= paramHigh and falls when paramHigh <= paramLow |
| Modulation.InterpolateBounds | src/com/lushprojects/circuitjs1/client/VariableCapacitorElm.java:96-108 | with the clamp on, the interpolated value lies between paramLow and paramHigh; with a reversed voltage range it is exactly one of them |
| Modulation.InterpolateClamped | src/com/lushprojects/circuitjs1/client/VariableInductorElm.java:91-103 | with the clamp on and voltageLow < voltageHigh, inputs at or below voltageLow give paramLow, inputs at or above voltageHigh give paramHigh, and clamping the input first changes nothing |
| Modulation.InterpolateFacts | src/com/lushprojects/circuitjs1/client/VariableCapacitorElm.java:94-109 | with the clamp on, the result lies between the two parameters, and with an ordered range it equals them at and beyond the endpoints; with the clamp off, v and -v give the same result |
| Modulation.ClampIdempotent | src/com/lushprojects/circuitjs1/client/VariableInductorElm.java:91-97 | on an ordered range, clamping twice is clamping once |
| Modulation.InterpolateMonotone | src/com/lushprojects/circuitjs1/client/VariableCapacitorElm.java:108 | with the clamp on and voltageLow < voltageHigh, the interpolated value is non-increasing in v when paramHigh <= paramLow and non-decreasing when paramLow <= paramHigh |
| Modulation.InterpolateSymmetric | src/com/lushprojects/circuitjs1/client/VariableInductorElm.java:98-103 | with the clamp off, v and -v give the same value |
| Modulation.Energy | src/com/lushprojects/circuitjs1/client/VariableCapacitorElm.java:113 | the stored energy is non-negative when the parameter is, and zero when the state is zero |
| Modulation.RescalePreservesEnergy | src/com/lushprojects/circuitjs1/client/VariableInductorElm.java:108-115 | for any non-zero pNew, a state rescaled to a square root of 2e/pNew stores the same energy e under pNew |
| Modulation.ClampSetting | src/com/lushprojects/circuitjs1/client/VariableCapacitorElm.java:144-147 | an edited parameter lands in (0, max]; an in-range value is kept, a non-positive one becomes min, a larger one becomes max |
| Modulation.ClampVoltageSetting | src/com/lushprojects/circuitjs1/client/VariableCapacitorElm.java:148-151 | an edited modulation voltage lands in [-1000, 1000]; an in-range value is kept, out-of-range values become the nearer bound |
| Modulation.ParseBoolean | src/com/lushprojects/circuitjs1/client/VariableCapacitorElm.java:39 | a token reads as true exactly when it is a word spelling "true" in any letter case |
| Modulation.BooleanText | src/com/lushprojects/circuitjs1/client/VariableCapacitorElm.java:45 | the text dump writes for a boolean reads back as the same boolean |
| Modulation.DumpFields | src/com/lushprojects/circuitjs1/client/VariableCapacitorElm.java:45 | dump appends exactly five tokens |
| Modulation.ReadNumber | src/com/lushprojects/circuitjs1/client/VariableCapacitorElm.java:35 | reading a double succeeds exactly when the token at the tokenizer position exists and is a number, returns its value and the next position, and otherwise reports a missing token or a number format error |
| Modulation.ReadBoolean | src/com/lushprojects/circuitjs1/client/VariableInductorElm.java:39 | reading a boolean succeeds exactly when a token is left, returns it read as a boolean and the next position, and otherwise reports a missing token |
| Modulation.ReadFields | src/com/lushprojects/circuitjs1/client/VariableCapacitorElm.java:35-39 | reading the five fields succeeds exactly when five tokens are left and the first four are numbers; the calibration is paramLow, paramHigh, voltageLow, voltageHigh from the first four tokens and the clamp flag from the fifth; the remaining tokens are left; a failure is a number format error if one of the first four tokens present is a word, and a missing token otherwise |
| Modulation.DumpReadRoundTrip | src/com/lushprojects/circuitjs1/client/VariableCapacitorElm.java:35-45 | reading back the dumped fields gives the same calibration and leaves whatever follows untouched |
| VariableCapacitor.CapacitanceSetting | src/com/lushprojects/circuitjs1/client/VariableCapacitorElm.java:144-147 | an edited capacitance lands in (0, 1]: values <= 0 become 1e-12, values > 1 become 1, others are kept |
| VariableCapacitor.VariableCapacitorElm.constructor | src/com/lushprojects/circuitjs1/client/VariableCapacitorElm.java:23-32 | a new element has the default calibration (100 uF at 0 V, 1 uF at 10 V, clamped) and three zero post voltages |
| VariableCapacitor.VariableCapacitorElm.Restore | src/com/lushprojects/circuitjs1/client/VariableCapacitorElm.java:33-41 | the element built by the tokenizer constructor holds exactly the calibration it read |
| VariableCapacitor.VariableCapacitorElm.Load | src/com/lushprojects/circuitjs1/client/VariableCapacitorElm.java:33-41 | the tokenizer constructor succeeds exactly when the five fields read, fails with the read error otherwise, and on success holds the read calibration and three zero post voltages |
| VariableCapacitor.VariableCapacitorElm.DumpTokens | src/com/lushprojects/circuitjs1/client/VariableCapacitorElm.java:44-46 | the tokens dump appends are read back by the tokenizer constructor as this element's own calibration |
| VariableCapacitor.VariableCapacitorElm.InterpCapacitance | src/com/lushprojects/circuitjs1/client/VariableCapacitorElm.java:94-109 | with the clamp on, the capacitance lies between capacitanceLow and capacitanceHigh; with voltageLow < voltageHigh it equals them at and beyond the endpoints; with the clamp off it is the same for v and -v |
| VariableCapacitor.VariableCapacitorElm.InterpCapacitanceNonIncreasing | src/com/lushprojects/circuitjs1/client/VariableCapacitorElm.java:108 | with the clamp on, voltageLow < voltageHigh and capacitanceHigh <= capacitanceLow, a higher modulation voltage never gives a larger capacitance |
| VariableCapacitor.VariableCapacitorElm.StartIteration | src/com/lushprojects/circuitjs1/client/VariableCapacitorElm.java:111-123 | the new capacitance is the interpolation of the old volts[2]; the new volts[2] is non-negative and stores the same energy under the new capacitance as the old one did under the old; the other posts are unchanged |
| VariableCapacitor.VariableCapacitorElm.SetEditValue | src/com/lushprojects/circuitjs1/client/VariableCapacitorElm.java:143-155 | field 4 or 5 takes the clamped capacitance, 6 or 7 the clamped voltage, 8 the checkbox; every other field is unchanged |
| VariableCapacitor.VariableCapacitorElm.SetCapacitance | src/com/lushprojects/circuitjs1/client/VariableCapacitorElm.java:158-161 | always fails with the unsupported-operation message and changes nothing |
| VariableInductor.InductanceSetting | src/com/lushprojects/circuitjs1/client/VariableInductorElm.java:139-142 | an edited inductance lands in (0, 10]: values <= 0 become 1e-2, values > 10 become 10, others are kept |
| VariableInductor.DefaultClampedExample | src/com/lushprojects/circuitjs1/client/VariableInductorElm.java:23-27 | the default calibration gives 10 H at -3 V and 100 mH at 15 V |
| VariableInductor.DefaultMidpointExample | src/com/lushprojects/circuitjs1/client/VariableInductorElm.java:103 | the default calibration gives 5.05 H at 5 V |
| VariableInductor.RescaleExample | src/com/lushprojects/circuitjs1/client/VariableInductorElm.java:108-115 | a state of 2 under 10 H stores 20 units of energy; 20 is the rescaled state under 100 mH, and it stores the same energy, as an instance of RescalePreservesEnergy |
| VariableInductor.VariableInductorElm.constructor | src/com/lushprojects/circuitjs1/client/VariableInductorElm.java:23-32 | a new element has the default calibration (10 H at 0 V, 100 mH at 10 V, clamped) and three zero post voltages |
| VariableInductor.VariableInductorElm.Restore | src/com/lushprojects/circuitjs1/client/VariableInductorElm.java:33-41 | the element built by the tokenizer constructor holds exactly the calibration it read |
| VariableInductor.VariableInductorElm.Load | src/com/lushprojects/circuitjs1/client/VariableInductorElm.java:33-41 | the tokenizer constructor succeeds exactly when the five fields read, fails with the read error otherwise, and on success holds the read calibration and three zero post voltages |
| VariableInductor.VariableInductorElm.DumpTokens | src/com/lushprojects/circuitjs1/client/VariableInductorElm.java:44-46 | the tokens dump appends are read back by the tokenizer constructor as this element's own calibration |
| VariableInductor.VariableInductorElm.InterpInductance | src/com/lushprojects/circuitjs1/client/VariableInductorElm.java:89-104 | with the clamp on, the inductance lies between inductanceLow and inductanceHigh; with voltageLow < voltageHigh it equals them at and beyond the endpoints; with the clamp off it is the same for v and -v |
| VariableInductor.VariableInductorElm.InterpInductanceNonIncreasing | src/com/lushprojects/circuitjs1/client/VariableInductorElm.java:103 | with the clamp on, voltageLow < voltageHigh and inductanceHigh <= inductanceLow, a higher modulation voltage never gives a larger inductance |
| VariableInductor.VariableInductorElm.StartIteration | src/com/lushprojects/circuitjs1/client/VariableInductorElm.java:106-118 | the new inductance is the interpolation of the old volts[2]; the new volts[2] is non-negative and stores the same energy under the new inductance as the old one did under the old; the other posts are unchanged |
| VariableInductor.VariableInductorElm.SetEditValue | src/com/lushprojects/circuitjs1/client/VariableInductorElm.java:138-150 | field 3 or 4 takes the clamped inductance, 5 or 6 the clamped voltage, 7 the checkbox; every other field is unchanged |
| VariableInductor.VariableInductorElm.SetInductance | src/com/lushprojects/circuitjs1/client/VariableInductorElm.java:153-156 | always fails with the unsupported-operation message and changes nothing |

## Left out

- Drawing and geometry (`setPoints`, `draw`, `getPost`, `getPostCount`, arrows), `getInfo` text, `getShortcut` and `getDumpType`: these are user interface and depend on base-class helpers that are not part of this model.
- `getEditInfo`: it only builds editor widgets. Its modulation-voltage range [-1000, 1000] is the one `SetEditValue` enforces. For the parameters it shows a lower bound of 1e-12 F or 1e-2 H. `setEditValue` does not enforce that bound: it replaces only non-positive input with that value, keeps any smaller positive value, and so enforces (0, 1] F or (0, 10] H.
- `TestWireElm.java`: it is rendering plus a constant dump suffix, with no logic to model.
- The base classes `CapacitorElm`, `InductorElm` and `CircuitElm` are not part of this model. Their own dump tokens, their tokenizer constructor (modelled as the `baseCapacitance` / `baseInductance` parameter), their `startIteration` and their `setEditValue` fields are left out.
- Interpolate, StartIteration: require `voltageHigh != voltageLow`, because IEEE-754 infinities and NaN from the unguarded division are not modelled.
- StartIteration: requires the interpolated parameter to be non-zero and 2e divided by it to be non-negative. These are exactly the steps where the source divides by zero or takes the square root of a negative number, giving infinity or NaN, which are not modelled. A negative parameter is covered: when the old energy has the same sign as the new parameter (or is zero), the root is finite and the energy is kept. Java's sqrt(-0.0) = -0.0 equals 0 as a real.
- StartIteration: does not compute `Math.sqrt`. It takes a square-root function as a parameter, because Dafny cannot construct a real square root.
- Java's formatting of doubles as text and its parsing of texts such as "NaN" or "Infinity": tokens are abstract numbers and words.
- Floating-point rounding: all arithmetic is exact over `real`, so the energy equality holds exactly rather than within rounding error.
