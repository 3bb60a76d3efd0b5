/** A capacitor whose capacitance follows the voltage on a third, modulation
    post. */
module VariableCapacitor {
  import opened Modulation

  /** The editor clamps a capacitance (F) into (0, 1]; a non-positive input
      becomes MinCapacitance. */
  const MinCapacitance: real := 0.000000000001
  const MaxCapacitance: real := 1.0

  /** The settings a new element starts from: 100 uF at 0 V, 1 uF at 10 V. */
  const DefaultCalibration: Calibration := Calibration(0.0001, 0.000001, 0.0, 10.0, true)

  const SetCapacitanceRefused: string :=
    "Capacitance may not be manually set for a Variable Capacitor as capacitance is set dynamically via the modulation voltage input."

  /** The editor's clamp for edit fields 4 and 5. */
  function CapacitanceSetting(value: real): (c: real)
    ensures 0.0 < c <= MaxCapacitance
    ensures 0.0 < value <= MaxCapacitance ==> c == value
    ensures value <= 0.0 ==> c == MinCapacitance
    ensures value > MaxCapacitance ==> c == MaxCapacitance
  {
    ClampSetting(value, MinCapacitance, MaxCapacitance)
  }

  class VariableCapacitorElm {
    var capacitanceLow: real
    var capacitanceHigh: real
    var voltageLow: real
    var voltageHigh: real
    var clampVoltage: bool
    /** The live capacitance held by the base capacitor element. */
    var capacitance: real
    /** The voltages of the three posts; volts[2] is the modulation post. */
    var volts: array<real>

    ghost predicate Valid()
      reads this
    {
      volts.Length == 3
    }

    /** The five calibration fields as one value. */
    function Settings(): Calibration
      reads this
    {
      Calibration(capacitanceLow, capacitanceHigh, voltageLow, voltageHigh, clampVoltage)
    }

    /** A new element with the default calibration; the base element provides
        the initial capacitance and zero post voltages. */
    constructor (baseCapacitance: real)
      ensures Valid() && fresh(volts)
      ensures Settings() == DefaultCalibration
      ensures capacitance == baseCapacitance && volts[..] == [0.0, 0.0, 0.0]
    {
      capacitanceLow, capacitanceHigh := 0.0001, 0.000001;
      voltageLow, voltageHigh := 0.0, 10.0;
      clampVoltage := true;
      capacitance := baseCapacitance;
      volts := new real[3](_ => 0.0);
    }

    /** An element with the given calibration, as the tokenizer constructor
        leaves it once the five fields are read. */
    constructor Restore(baseCapacitance: real, cal: Calibration)
      ensures Valid() && fresh(volts)
      ensures Settings() == cal && capacitance == baseCapacitance
      ensures volts[..] == [0.0, 0.0, 0.0]
    {
      capacitanceLow, capacitanceHigh := cal.paramLow, cal.paramHigh;
      voltageLow, voltageHigh := cal.voltageLow, cal.voltageHigh;
      clampVoltage := cal.clamp;
      capacitance := baseCapacitance;
      volts := new real[3](_ => 0.0);
    }

    /** The tokenizer constructor: reads the five fields after the base
        element's tokens, or fails as its parsing does. */
    static method Load(baseCapacitance: real, st: seq<Token>) returns (r: Result<VariableCapacitorElm>)
      ensures r.Ok? <==> ReadFields(st).Ok?
      ensures r.Err? ==> r.error == ReadFields(st).error
      ensures r.Ok? ==> (fresh(r.value) && fresh(r.value.volts) && r.value.Valid() &&
                         r.value.Settings() == ReadFields(st).value.0 &&
                         r.value.volts[..] == [0.0, 0.0, 0.0] &&
                         r.value.capacitance == baseCapacitance)
    {
      var fields := ReadFields(st);
      if fields.Err? {
        return Err(fields.error);
      }
      var e := new VariableCapacitorElm.Restore(baseCapacitance, fields.value.0);
      return Ok(e);
    }

    /** The five tokens dump appends to the base element's dump; the tokenizer
        constructor reads them back unchanged. */
    function DumpTokens(): (tokens: seq<Token>)
      reads this
      ensures ReadFields(tokens) == Ok((Settings(), []))
    {
      DumpReadRoundTrip(Settings(), []);
      assert DumpFields(Settings()) + [] == DumpFields(Settings());
      DumpFields(Settings())
    }

    /** The capacitance for a modulation voltage v. */
    function InterpCapacitance(v: real): (c: real)
      reads this
      requires voltageHigh != voltageLow
      ensures clampVoltage ==> Between(c, capacitanceLow, capacitanceHigh)
      ensures clampVoltage && voltageLow < voltageHigh && v <= voltageLow ==> c == capacitanceLow
      ensures clampVoltage && voltageLow < voltageHigh && v >= voltageHigh ==> c == capacitanceHigh
      ensures !clampVoltage ==> c == Interpolate(Settings(), -v)
    {
      InterpolateFacts(Settings(), v);
      Interpolate(Settings(), v)
    }

    /** With the clamp on and capacitanceHigh <= capacitanceLow, a higher
        modulation voltage never gives a larger capacitance. */
    lemma InterpCapacitanceNonIncreasing(v1: real, v2: real)
      requires clampVoltage && voltageLow < voltageHigh && capacitanceHigh <= capacitanceLow
      requires v1 <= v2
      ensures InterpCapacitance(v2) <= InterpCapacitance(v1)
    {
      InterpolateMonotone(Settings(), v1, v2);
    }

    /** One simulation step's update: the capacitance follows the modulation
        voltage and volts[2] is rescaled so that the stored energy is kept.
        sqrt stands for Math.sqrt. */
    method StartIteration(sqrt: real -> real)
      requires Valid() && IsSquareRoot(sqrt)
      requires voltageHigh != voltageLow
      requires InterpCapacitance(volts[2]) != 0.0
      requires 2.0 * Energy(capacitance, volts[2]) / InterpCapacitance(volts[2]) >= 0.0
      modifies this`capacitance, volts
      ensures Valid()
      ensures capacitance == old(InterpCapacitance(volts[2]))
      ensures volts[2] >= 0.0
      ensures Energy(capacitance, volts[2]) == old(Energy(capacitance, volts[2]))
      ensures volts[0] == old(volts[0]) && volts[1] == old(volts[1])
    {
      ghost var v0 := volts[2];
      ghost var c0 := capacitance;
      var e := 0.5 * capacitance * (volts[2] * volts[2]);
      capacitance := InterpCapacitance(volts[2]);
      assert e == Energy(c0, v0);
      var v := sqrt(2.0 * e / capacitance);
      volts[2] := v;
      RescalePreservesEnergy(c0, v0, capacitance, v);
      // super.startIteration() works on base-element state this model leaves out
    }

    /** The property editor's setter: fields 4-7 are clamped into range, 8 is
        the clamp checkbox; every other field is left as it was. */
    method SetEditValue(n: int, ei: EditInfo)
      modifies this`capacitanceLow, this`capacitanceHigh, this`voltageLow,
               this`voltageHigh, this`clampVoltage
      ensures capacitanceLow == if n == 4 then CapacitanceSetting(ei.value) else old(capacitanceLow)
      ensures capacitanceHigh == if n == 5 then CapacitanceSetting(ei.value) else old(capacitanceHigh)
      ensures voltageLow == if n == 6 then ClampVoltageSetting(ei.value) else old(voltageLow)
      ensures voltageHigh == if n == 7 then ClampVoltageSetting(ei.value) else old(voltageHigh)
      ensures clampVoltage == if n == 8 then ei.checkbox else old(clampVoltage)
    {
      if n == 4 {
        capacitanceLow := if ei.value > 0.0 then (if ei.value > 1.0 then 1.0 else ei.value) else 0.000000000001;
      }
      if n == 5 {
        capacitanceHigh := if ei.value > 0.0 then (if ei.value > 1.0 then 1.0 else ei.value) else 0.000000000001;
      }
      if n == 6 {
        voltageLow := if ei.value > 1000.0 then 1000.0 else if ei.value < -1000.0 then -1000.0 else ei.value;
      }
      if n == 7 {
        voltageHigh := if ei.value > 1000.0 then 1000.0 else if ei.value < -1000.0 then -1000.0 else ei.value;
      }
      if n == 8 {
        clampVoltage := ei.checkbox;
      }
      // super.setEditValue(n, ei) handles the base element's own fields
    }

    /** The public capacitance setter is blocked: it always fails and, having
        no modifies clause, changes nothing. */
    method SetCapacitance(c: real) returns (r: Outcome)
      ensures r == Fail(SetCapacitanceRefused)
    {
      r := Fail(SetCapacitanceRefused);
    }
  }
}
