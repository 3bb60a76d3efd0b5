/** The logic shared by the variable capacitor and the variable inductor: the
    voltage-to-parameter interpolator, the energy-continuity rescaling, the
    property-editor clamp and the five calibration fields of the save format.
    A "parameter" is the capacitance (F) or the inductance (H). */
module Modulation {

  /** The five calibration fields of one element, in the order the element
      writes them to its dump. */
  datatype Calibration = Calibration(
    paramLow: real,     // parameter when the modulation voltage is voltageLow
    paramHigh: real,    // parameter when the modulation voltage is voltageHigh
    voltageLow: real,
    voltageHigh: real,
    clamp: bool)        // clamp the modulation voltage to [voltageLow, voltageHigh]

  /** x lies between a and b, whichever of the two is larger. */
  predicate Between(x: real, a: real, b: real) {
    (a <= x <= b) || (b <= x <= a)
  }

  /** The clamp of the interpolator: below lo gives lo, else above hi gives hi.
      When lo > hi the else-if makes every input land on lo or on hi. */
  function Clamp(v: real, lo: real, hi: real): (r: real)
    ensures lo <= hi ==> lo <= r <= hi
    ensures lo <= v <= hi ==> r == v
    ensures v < lo ==> r == lo
    ensures lo <= v && v > hi ==> r == hi
    ensures r == v || r == lo || r == hi
  {
    if v < lo then lo else if v > hi then hi else v
  }

  function Abs(v: real): (r: real)
    ensures r >= 0.0 && (r == v || r == -v)
  {
    if v < 0.0 then -v else v
  }

  /** The voltage the linear formula is applied to, after the boundary policy. */
  function PolicyVoltage(c: Calibration, v: real): (x: real)
    ensures c.clamp && c.voltageLow <= c.voltageHigh ==> c.voltageLow <= x <= c.voltageHigh
    ensures !c.clamp ==> x >= 0.0 && (x == v || x == -v)
  {
    if c.clamp then Clamp(v, c.voltageLow, c.voltageHigh) else Abs(v)
  }

  /** The straight line through (voltageLow, paramLow) and (voltageHigh, paramHigh). */
  function Line(c: Calibration, x: real): real
    requires c.voltageHigh != c.voltageLow
  {
    c.paramLow + (x - c.voltageLow) * (c.paramHigh - c.paramLow) / (c.voltageHigh - c.voltageLow)
  }

  /** The interpolated parameter for modulation voltage v. */
  function Interpolate(c: Calibration, v: real): real
    requires c.voltageHigh != c.voltageLow
  {
    Line(c, PolicyVoltage(c, v))
  }

  lemma LineAtEndpoints(c: Calibration)
    requires c.voltageHigh != c.voltageLow
    ensures Line(c, c.voltageLow) == c.paramLow
    ensures Line(c, c.voltageHigh) == c.paramHigh
  {
    var d, k := c.voltageHigh - c.voltageLow, c.paramHigh - c.paramLow;
    assert d * k / d == k;
  }

  /** The line rises with x when paramLow <= paramHigh and falls otherwise. */
  lemma LineMonotone(c: Calibration, x1: real, x2: real)
    requires c.voltageLow < c.voltageHigh && x1 <= x2
    ensures c.paramLow <= c.paramHigh ==> Line(c, x1) <= Line(c, x2)
    ensures c.paramHigh <= c.paramLow ==> Line(c, x2) <= Line(c, x1)
  {
    var d, k := c.voltageHigh - c.voltageLow, c.paramHigh - c.paramLow;
    var a1, a2 := x1 - c.voltageLow, x2 - c.voltageLow;
    assert Line(c, x2) - Line(c, x1) == (a2 * k - a1 * k) / d;
    assert a2 * k - a1 * k == (x2 - x1) * k;
    if k >= 0.0 {
      assert (x2 - x1) * k >= 0.0;
    } else {
      assert (x2 - x1) * k <= 0.0;
    }
  }

  /** With the clamp on, the result lies between paramLow and paramHigh; with a
      reversed voltage range it is exactly one of the two. */
  lemma InterpolateBounds(c: Calibration, v: real)
    requires c.clamp && c.voltageHigh != c.voltageLow
    ensures Between(Interpolate(c, v), c.paramLow, c.paramHigh)
    ensures c.voltageHigh < c.voltageLow ==>
      Interpolate(c, v) == c.paramLow || Interpolate(c, v) == c.paramHigh
  {
    LineAtEndpoints(c);
    var x := PolicyVoltage(c, v);
    if c.voltageLow < c.voltageHigh {
      LineMonotone(c, c.voltageLow, x);
      LineMonotone(c, x, c.voltageHigh);
    } else {
      assert x == c.voltageLow || x == c.voltageHigh;
    }
  }

  /** With the clamp on and voltageLow < voltageHigh, the endpoints give the
      calibrated parameters exactly, and inputs outside the range give the value
      of the nearer endpoint. */
  lemma InterpolateClamped(c: Calibration, v: real)
    requires c.clamp && c.voltageLow < c.voltageHigh
    ensures v <= c.voltageLow ==> Interpolate(c, v) == c.paramLow
    ensures v >= c.voltageHigh ==> Interpolate(c, v) == c.paramHigh
    ensures Interpolate(c, Clamp(v, c.voltageLow, c.voltageHigh)) == Interpolate(c, v)
  {
    LineAtEndpoints(c);
  }

  /** What the element-level interpolators promise, gathered in one place:
      the bounds and endpoint values with the clamp on, the symmetry with it
      off. */
  lemma InterpolateFacts(c: Calibration, v: real)
    requires c.voltageHigh != c.voltageLow
    ensures c.clamp ==> Between(Interpolate(c, v), c.paramLow, c.paramHigh)
    ensures c.clamp && c.voltageLow < c.voltageHigh && v <= c.voltageLow ==>
      Interpolate(c, v) == c.paramLow
    ensures c.clamp && c.voltageLow < c.voltageHigh && v >= c.voltageHigh ==>
      Interpolate(c, v) == c.paramHigh
    ensures !c.clamp ==> Interpolate(c, v) == Interpolate(c, -v)
  {
    if c.clamp {
      InterpolateBounds(c, v);
      if c.voltageLow < c.voltageHigh {
        InterpolateClamped(c, v);
      }
    } else {
      InterpolateSymmetric(c, v);
    }
  }

  /** On an ordered range the clamp is idempotent. */
  lemma ClampIdempotent(v: real, lo: real, hi: real)
    requires lo <= hi
    ensures Clamp(Clamp(v, lo, hi), lo, hi) == Clamp(v, lo, hi)
  {
  }

  /** With the clamp on and an ordered range the interpolation is monotone:
      non-increasing when paramHigh <= paramLow, non-decreasing otherwise. */
  lemma InterpolateMonotone(c: Calibration, v1: real, v2: real)
    requires c.clamp && c.voltageLow < c.voltageHigh && v1 <= v2
    ensures c.paramHigh <= c.paramLow ==> Interpolate(c, v2) <= Interpolate(c, v1)
    ensures c.paramLow <= c.paramHigh ==> Interpolate(c, v1) <= Interpolate(c, v2)
  {
    LineMonotone(c, PolicyVoltage(c, v1), PolicyVoltage(c, v2));
  }

  /** With the clamp off, the sign of the modulation voltage does not matter. */
  lemma InterpolateSymmetric(c: Calibration, v: real)
    requires !c.clamp && c.voltageHigh != c.voltageLow
    ensures Interpolate(c, v) == Interpolate(c, -v)
  {
  }

  /** The energy stored in an element with parameter p and state s. */
  function Energy(p: real, s: real): (e: real)
    ensures p >= 0.0 ==> e >= 0.0
    ensures s == 0.0 ==> e == 0.0
  {
    0.5 * p * (s * s)
  }

  /** A function that agrees with Math.sqrt on every non-negative real. */
  ghost predicate IsSquareRoot(sqrt: real -> real) {
    forall x: real :: x >= 0.0 ==> sqrt(x) >= 0.0 && sqrt(x) * sqrt(x) == x
  }

  /** Rescaling the state to sqrt(2e/pNew) keeps the stored energy e. */
  lemma RescalePreservesEnergy(pOld: real, s: real, pNew: real, root: real)
    requires pNew != 0.0
    requires root * root == 2.0 * Energy(pOld, s) / pNew
    ensures Energy(pNew, root) == Energy(pOld, s)
  {
    var e := Energy(pOld, s);
    assert pNew * (2.0 * e / pNew) == 2.0 * e;
  }

  /** The clamp the property editor applies to a parameter: a non-positive value
      becomes min, a value above max becomes max. */
  function ClampSetting(value: real, min: real, max: real): (r: real)
    requires 0.0 < min <= max
    ensures 0.0 < r <= max
    ensures 0.0 < value <= max ==> r == value
    ensures value <= 0.0 ==> r == min
    ensures value > max ==> r == max
  {
    if value > 0.0 then (if value > max then max else value) else min
  }

  /** The editor's range for a modulation voltage (V). */
  const MaxModulationVoltage: real := 1000.0

  /** The clamp the property editor applies to a modulation voltage. */
  function ClampVoltageSetting(value: real): (r: real)
    ensures -MaxModulationVoltage <= r <= MaxModulationVoltage
    ensures -MaxModulationVoltage <= value <= MaxModulationVoltage ==> r == value
    ensures value > MaxModulationVoltage ==> r == MaxModulationVoltage
    ensures value < -MaxModulationVoltage ==> r == -MaxModulationVoltage
  {
    if value > MaxModulationVoltage then MaxModulationVoltage
    else if value < -MaxModulationVoltage then -MaxModulationVoltage
    else value
  }

  /** What the property editor hands to setEditValue: a number, or the state of
      a checkbox. */
  datatype EditInfo = EditInfo(value: real, checkbox: bool)

  /** The outcome of a setter that may refuse. */
  datatype Outcome = Pass | Fail(message: string)

  // ---------------------------------------------------------------------------
  // Save format

  /** One whitespace-separated token of a dump line: the text of a double, or
      any other word. */
  datatype Token = Number(value: real) | Word(text: string)

  /** NoSuchElementException from the tokenizer, NumberFormatException from
      parsing a double. */
  datatype ReadError = MissingToken | NotANumber

  datatype Result<T> = Ok(value: T) | Err(error: ReadError) {
    predicate IsFailure() { Err? }
    function PropagateFailure<U>(): Result<U> requires Err? { Err(error) }
    function Extract(): T requires Ok? { value }
  }

  function LowerAscii(ch: char): char {
    if 'A' <= ch <= 'Z' then (ch as int + 32) as char else ch
  }

  /** new Boolean(s): true exactly when s equals "true" ignoring case. */
  function ParseBoolean(t: Token): (b: bool)
    ensures b <==> (t.Word? && |t.text| == 4 &&
                    forall i :: 0 <= i < 4 ==> LowerAscii(t.text[i]) == "true"[i])
  {
    match t
    case Number(_) => false
    case Word(w) =>
      |w| == 4 && LowerAscii(w[0]) == 't' && LowerAscii(w[1]) == 'r' &&
      LowerAscii(w[2]) == 'u' && LowerAscii(w[3]) == 'e'
  }

  /** How string concatenation writes a boolean; new Boolean reads it back. */
  function BooleanText(b: bool): (text: string)
    ensures ParseBoolean(Word(text)) == b
  {
    if b then "true" else "false"
  }

  /** The five tokens an element appends to its base-class dump. */
  function DumpFields(c: Calibration): (tokens: seq<Token>)
    ensures |tokens| == 5
  {
    [Number(c.paramLow), Number(c.paramHigh), Number(c.voltageLow),
     Number(c.voltageHigh), Word(BooleanText(c.clamp))]
  }

  /** new Double(st.nextToken()) with the tokenizer at position pos: the token
      there, which must be a number, and the position after it. */
  function ReadNumber(st: seq<Token>, pos: nat): (r: Result<(real, nat)>)
    ensures r.Ok? <==> pos < |st| && st[pos].Number?
    ensures r.Ok? ==> r.value == (st[pos].value, pos + 1)
    ensures r.Err? ==> r.error == if pos >= |st| then MissingToken else NotANumber
  {
    if pos >= |st| then Err(MissingToken)
    else if st[pos].Word? then Err(NotANumber)
    else Ok((st[pos].value, pos + 1))
  }

  /** new Boolean(st.nextToken()) with the tokenizer at position pos. */
  function ReadBoolean(st: seq<Token>, pos: nat): (r: Result<(bool, nat)>)
    ensures r.Ok? <==> pos < |st|
    ensures r.Ok? ==> r.value == (ParseBoolean(st[pos]), pos + 1)
    ensures r.Err? ==> r.error == MissingToken
  {
    if pos >= |st| then Err(MissingToken) else Ok((ParseBoolean(st[pos]), pos + 1))
  }

  /** What the tokenizer constructor reads after the base class has read its
      own tokens: four doubles and a boolean, in dump order. The first token
      that is missing or not a number decides the error. */
  function ReadFields(st: seq<Token>): (r: Result<(Calibration, seq<Token>)>)
    ensures r.Ok? <==> |st| >= 5 && forall i :: 0 <= i < 4 ==> st[i].Number?
    ensures r.Ok? ==> r.value.0 == Calibration(st[0].value, st[1].value, st[2].value,
                                               st[3].value, ParseBoolean(st[4]))
    ensures r.Ok? ==> r.value.1 == st[5..]
    ensures r.Err? ==> r.error == if forall i :: 0 <= i < |st| && i < 4 ==> st[i].Number?
                                  then MissingToken else NotANumber
  {
    var low :- ReadNumber(st, 0);
    var high :- ReadNumber(st, low.1);
    var vLow :- ReadNumber(st, high.1);
    var vHigh :- ReadNumber(st, vLow.1);
    var clamp :- ReadBoolean(st, vHigh.1);
    Ok((Calibration(low.0, high.0, vLow.0, vHigh.0, clamp.0), st[clamp.1..]))
  }

  /** Reading back a dump gives the same calibration and leaves what follows. */
  lemma DumpReadRoundTrip(c: Calibration, rest: seq<Token>)
    ensures ReadFields(DumpFields(c) + rest) == Ok((c, rest))
  {
    var st := DumpFields(c) + rest;
    assert st[5..] == rest;
  }
}
