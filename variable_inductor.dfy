/** An inductor whose inductance follows the voltage on a third, modulation
    post. */
module VariableInductor {
  import opened Modulation

  /** The editor clamps an inductance (H) into (0, 10]; a non-positive input
      becomes MinInductance. */
  const MinInductance: real := 0.01
  const MaxInductance: real := 10.0

  /** The settings a new element starts from: 10 H at 0 V, 100 mH at 10 V. */
  const DefaultCalibration: Calibration := Calibration(10.0, 0.1, 0.0, 10.0, true)

  const SetInductanceRefused: string :=
    "Inductance may not be manually set for a Variable Inductor as inductance is set dynamically via the modulation voltage input."

  /** The editor's clamp for edit fields 3 and 4. */
  function InductanceSetting(value: real): (c: real)
    ensures 0.0 < c <= MaxInductance
    ensures 0.0 < value <= MaxInductance ==> c == value
    ensures value <= 0.0 ==> c == MinInductance
    ensures value > MaxInductance ==> c == MaxInductance
  {
    ClampSetting(value, MinInductance, MaxInductance)
  }

  /** The default calibration outside its voltage range gives the endpoint
      inductances. */
  lemma DefaultClampedExample()
    ensures Interpolate(DefaultCalibration, -3.0) == 10.0
    ensures Interpolate(DefaultCalibration, 15.0) == 0.1
  {
    InterpolateClamped(DefaultCalibration, -3.0);
    InterpolateClamped(DefaultCalibration, 15.0);
  }

  /** The default calibration halfway along its voltage range. */
  lemma DefaultMidpointExample()
    ensures Interpolate(DefaultCalibration, 5.0) == 5.05
  {
  }

  /** One rescaling step from 10 H to 100 mH: a state of 2 stores 20 units of
      energy, and 20 is the square root of 2e/pNew, so it keeps that energy. */
  lemma RescaleExample()
    ensures Energy(10.0, 2.0) == 20.0
    ensures Energy(0.1, 20.0) == Energy(10.0, 2.0)
  {
    assert 20.0 * 20.0 == 2.0 * Energy(10.0, 2.0) / 0.1;
    RescalePreservesEnergy(10.0, 2.0, 0.1, 20.0);
  }

  class VariableInductorElm {
    var inductanceLow: real
    var inductanceHigh: real
    var voltageLow: real
    var voltageHigh: real
    var clampVoltage: bool
    /** The live inductance held by the base inductor element. */
    var inductance: real
    /** The voltages of the three posts; volts[2] is the modulation post. */
    var volts: array<real>

    ghost predicate Valid()
      reads this
    {
      volts.Length == 3
    }

    /** The five calibration fields as one value. */
    function Settings(): Calibration
      reads this
    {
      Calibration(inductanceLow, inductanceHigh, voltageLow, voltageHigh, clampVoltage)
    }

    /** A new element with the default calibration; the base element provides
        the initial inductance and zero post voltages. */
    constructor (baseInductance: real)
      ensures Valid() && fresh(volts)
      ensures Settings() == DefaultCalibration
      ensures inductance == baseInductance && volts[..] == [0.0, 0.0, 0.0]
    {
      inductanceLow, inductanceHigh := 10.0, 0.1;
      voltageLow, voltageHigh := 0.0, 10.0;
      clampVoltage := true;
      inductance := baseInductance;
      volts := new real[3](_ => 0.0);
    }

    /** An element with the given calibration, as the tokenizer constructor
        leaves it once the five fields are read. */
    constructor Restore(baseInductance: real, cal: Calibration)
      ensures Valid() && fresh(volts)
      ensures Settings() == cal && inductance == baseInductance
      ensures volts[..] == [0.0, 0.0, 0.0]
    {
      inductanceLow, inductanceHigh := cal.paramLow, cal.paramHigh;
      voltageLow, voltageHigh := cal.voltageLow, cal.voltageHigh;
      clampVoltage := cal.clamp;
      inductance := baseInductance;
      volts := new real[3](_ => 0.0);
    }

    /** The tokenizer constructor: reads the five fields after the base
        element's tokens, or fails as its parsing does. */
    static method Load(baseInductance: real, st: seq<Token>) returns (r: Result<VariableInductorElm>)
      ensures r.Ok? <==> ReadFields(st).Ok?
      ensures r.Err? ==> r.error == ReadFields(st).error
      ensures r.Ok? ==> (fresh(r.value) && fresh(r.value.volts) && r.value.Valid() &&
                         r.value.Settings() == ReadFields(st).value.0 &&
                         r.value.volts[..] == [0.0, 0.0, 0.0] &&
                         r.value.inductance == baseInductance)
    {
      var fields := ReadFields(st);
      if fields.Err? {
        return Err(fields.error);
      }
      var e := new VariableInductorElm.Restore(baseInductance, fields.value.0);
      return Ok(e);
    }

    /** The five tokens dump appends to the base element's dump; the tokenizer
        constructor reads them back unchanged. */
    function DumpTokens(): (tokens: seq<Token>)
      reads this
      ensures ReadFields(tokens) == Ok((Settings(), []))
    {
      DumpReadRoundTrip(Settings(), []);
      assert DumpFields(Settings()) + [] == DumpFields(Settings());
      DumpFields(Settings())
    }

    /** The inductance for a modulation voltage v. */
    function InterpInductance(v: real): (c: real)
      reads this
      requires voltageHigh != voltageLow
      ensures clampVoltage ==> Between(c, inductanceLow, inductanceHigh)
      ensures clampVoltage && voltageLow < voltageHigh && v <= voltageLow ==> c == inductanceLow
      ensures clampVoltage && voltageLow < voltageHigh && v >= voltageHigh ==> c == inductanceHigh
      ensures !clampVoltage ==> c == Interpolate(Settings(), -v)
    {
      InterpolateFacts(Settings(), v);
      Interpolate(Settings(), v)
    }

    /** With the clamp on and inductanceHigh <= inductanceLow, a higher
        modulation voltage never gives a larger inductance. */
    lemma InterpInductanceNonIncreasing(v1: real, v2: real)
      requires clampVoltage && voltageLow < voltageHigh && inductanceHigh <= inductanceLow
      requires v1 <= v2
      ensures InterpInductance(v2) <= InterpInductance(v1)
    {
      InterpolateMonotone(Settings(), v1, v2);
    }

    /** One simulation step's update: the inductance follows the modulation
        voltage and volts[2] is rescaled so that the stored energy is kept.
        sqrt stands for Math.sqrt. */
    method StartIteration(sqrt: real -> real)
      requires Valid() && IsSquareRoot(sqrt)
      requires voltageHigh != voltageLow
      requires InterpInductance(volts[2]) != 0.0
      requires 2.0 * Energy(inductance, volts[2]) / InterpInductance(volts[2]) >= 0.0
      modifies this`inductance, volts
      ensures Valid()
      ensures inductance == old(InterpInductance(volts[2]))
      ensures volts[2] >= 0.0
      ensures Energy(inductance, volts[2]) == old(Energy(inductance, volts[2]))
      ensures volts[0] == old(volts[0]) && volts[1] == old(volts[1])
    {
      ghost var v0 := volts[2];
      ghost var c0 := inductance;
      var e := 0.5 * inductance * (volts[2] * volts[2]);
      inductance := InterpInductance(volts[2]);
      assert e == Energy(c0, v0);
      var v := sqrt(2.0 * e / inductance);
      volts[2] := v;
      RescalePreservesEnergy(c0, v0, inductance, v);
      // super.startIteration() works on base-element state this model leaves out
    }

    /** The property editor's setter: fields 3-6 are clamped into range, 7 is
        the clamp checkbox; every other field is left as it was. */
    method SetEditValue(n: int, ei: EditInfo)
      modifies this`inductanceLow, this`inductanceHigh, this`voltageLow,
               this`voltageHigh, this`clampVoltage
      ensures inductanceLow == if n == 3 then InductanceSetting(ei.value) else old(inductanceLow)
      ensures inductanceHigh == if n == 4 then InductanceSetting(ei.value) else old(inductanceHigh)
      ensures voltageLow == if n == 5 then ClampVoltageSetting(ei.value) else old(voltageLow)
      ensures voltageHigh == if n == 6 then ClampVoltageSetting(ei.value) else old(voltageHigh)
      ensures clampVoltage == if n == 7 then ei.checkbox else old(clampVoltage)
    {
      if n == 3 {
        inductanceLow := if ei.value > 0.0 then (if ei.value > 10.0 then 10.0 else ei.value) else 0.01;
      }
      if n == 4 {
        inductanceHigh := if ei.value > 0.0 then (if ei.value > 10.0 then 10.0 else ei.value) else 0.01;
      }
      if n == 5 {
        voltageLow := if ei.value > 1000.0 then 1000.0 else if ei.value < -1000.0 then -1000.0 else ei.value;
      }
      if n == 6 {
        voltageHigh := if ei.value > 1000.0 then 1000.0 else if ei.value < -1000.0 then -1000.0 else ei.value;
      }
      if n == 7 {
        clampVoltage := ei.checkbox;
      }
      // super.setEditValue(n, ei) handles the base element's own fields
    }

    /** The public inductance setter is blocked: it always fails and, having
        no modifies clause, changes nothing. */
    method SetInductance(c: real) returns (r: Outcome)
      ensures r == Fail(SetInductanceRefused)
    {
      r := Fail(SetInductanceRefused);
    }
  }
}
