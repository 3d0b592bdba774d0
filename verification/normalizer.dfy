/** The choropleth value normaliser of docs/src/utils/normalizer.ts.

    `createNormalizer` scans the features once for the least and greatest
    valid value of one column and returns a closure. The closure is modelled
    as the datatype `Normalizer` (what it captured) and the pure function
    `Normalize` (what it does when called). The four non-linear stretch
    curves are a parameter of type `Curve`; the linear curve, the clamp to
    [0, 1] and the rescale into [boundaryEpsilon, 1 - boundaryEpsilon] are
    modelled exactly. Numbers are `real`; NaN is `None`. */
module Normalizer {
  import opened Common

  datatype Mode = Linear | Log | Sqrt | Exp | Arctan

  /** The options object; a field is `Undefined` / `None` when omitted. */
  datatype Options = Options(
    mode: Value,
    epsilon: Option<real>,
    boundaryEpsilon: Value,
    expBase: Option<real>)

  const DefaultEpsilon: real := 0.0000000001
  const DefaultBoundaryEpsilon: real := 0.00001
  const DefaultExpBase: real := 2.0

  /** The closure `createNormalizer` returns, by what it captured. */
  datatype Normalizer =
    | AlwaysNaN     // `() => NaN`
    | AlwaysHalf    // `() => 0.5`
    | Stretch(mode: Mode, min: real, max: real, epsilon: real, boundaryEpsilon: real, expBase: real)

  /** The log, sqrt, exp and arctan quotients: given the mode,
      `value - min`, `max - min`, epsilon and expBase, what
      `Math.log/sqrt/pow/atan` yield for the quotient of lines 96-107, or
      None where it is NaN. A quotient of +Infinity or -Infinity is stood
      for by any real at or beyond the clamp bound it reaches. */
  type Curve = (Mode, real, real, real, real) -> Option<real>

  /** The column argument passes `!column || typeof column !== 'string'`. */
  predicate ValidColumn(column: Value) {
    column.Str? && column.s != ""
  }

  /** Lines 32-37: the mode in effect; an unknown mode falls back to linear. */
  function SelectMode(mode: Value): (m: Mode)
    ensures mode.Str? && mode.s == "log" ==> m == Log
    ensures mode.Str? && mode.s == "sqrt" ==> m == Sqrt
    ensures mode.Str? && mode.s == "exp" ==> m == Exp
    ensures mode.Str? && mode.s == "arctan" ==> m == Arctan
    ensures m == Linear <==> !(mode.Str? && mode.s in {"log", "sqrt", "exp", "arctan"})
  {
    match mode
    case Undefined => Linear
    case Str(s) =>
      if s == "log" then Log
      else if s == "sqrt" then Sqrt
      else if s == "exp" then Exp
      else if s == "arctan" then Arctan
      else Linear
    case _ => Linear
  }

  /** Lines 40-43 as written: `typeof b !== 'number' || b <= 0 || b >= 0.5`.
      None stands for NaN, which is a number and fails both comparisons, so
      the guard keeps it. */
  function BoundaryEpsilonAsWritten(b: Value): (r: Option<real>)
    ensures b.Num? && 0.0 < b.x < 0.5 ==> r == Some(b.x)
    ensures r.None? <==> b.NaN?
  {
    match b
    case Undefined => Some(DefaultBoundaryEpsilon)
    case Num(x) => if x <= 0.0 || x >= 0.5 then Some(DefaultBoundaryEpsilon) else Some(x)
    case NaN => None
    case _ => Some(DefaultBoundaryEpsilon)
  }

  /** The guard lets NaN through: every stretched output would then be NaN. */
  lemma NaNBoundaryEpsilonKept()
    ensures BoundaryEpsilonAsWritten(NaN).None?
  {
  }

  /** Lines 40-43 as intended: anything but a number strictly between 0 and
      0.5 is replaced by 1e-5. */
  function CheckedBoundaryEpsilon(b: Value): (r: real)
    ensures 0.0 < r < 0.5
    ensures b.Num? && 0.0 < b.x < 0.5 ==> r == b.x
    ensures !(b.Num? && 0.0 < b.x < 0.5) ==> r == DefaultBoundaryEpsilon
  {
    if b.Num? && 0.0 < b.x < 0.5 then b.x else DefaultBoundaryEpsilon
  }

  /** The corrected guard agrees with the written one wherever that one
      yields a number. */
  lemma CheckedAgreesWithWritten(b: Value)
    requires BoundaryEpsilonAsWritten(b).Some?
    ensures CheckedBoundaryEpsilon(b) == BoundaryEpsilonAsWritten(b).value
  {
  }

  /** Lines 72-81: the domain shift for the curves that need positive input. */
  function ShiftDomain(mode: Mode, min: real, max: real, epsilon: real): (b: (real, real))
    ensures mode in {Log, Sqrt, Exp} && min < 0.0 ==> b.0 == epsilon && b.1 - b.0 == max - min
    ensures mode == Log && min == 0.0 ==> b == (epsilon, max)
    ensures mode in {Linear, Arctan} || min > 0.0 || (min == 0.0 && mode != Log) ==> b == (min, max)
  {
    if mode in {Log, Sqrt, Exp} then
      if min < 0.0 then
        var shift := -min + epsilon;
        (min + shift, max + shift)
      else if min == 0.0 && mode == Log then (epsilon, max)
      else (min, max)
    else (min, max)
  }

  /** The valid values of the column: `properties[column]` of every feature
      that has properties, when it is a number other than NaN. */
  function ValidValues(data: seq<Feature>, column: string): seq<real> {
    Numbers(ColumnOf(data, column))
  }

  /** What `createNormalizer(data, column, options)` returns; `data` is None
      when it is not an array. */
  function Build(data: Option<seq<Feature>>, column: Value, options: Options): (n: Normalizer)
    ensures n.Stretch? ==> 0.0 < n.boundaryEpsilon < 0.5
    ensures n.Stretch? && n.mode in {Linear, Arctan} ==> n.min < n.max
  {
    if data.None? || !ValidColumn(column) then AlwaysNaN
    else
      var vals := ValidValues(data.value, column.s);
      if vals == [] then AlwaysNaN
      else if Least(vals) == Greatest(vals) then AlwaysHalf
      else
        var mode := SelectMode(options.mode);
        var epsilon := options.epsilon.GetOr(DefaultEpsilon);
        var bounds := ShiftDomain(mode, Least(vals), Greatest(vals), epsilon);
        Stretch(mode, bounds.0, bounds.1, epsilon,
                CheckedBoundaryEpsilon(options.boundaryEpsilon),
                options.expBase.GetOr(DefaultExpBase))
  }

  /** Lines 8-84: validate, scan once for min and max, handle the degenerate
      cases and shift the domain. */
  method CreateNormalizer(data: Option<seq<Feature>>, column: Value, options: Options)
    returns (n: Normalizer)
    ensures n == Build(data, column, options)
  {
    if data.None? || !ValidColumn(column) {
      return AlwaysNaN;
    }
    var features, col := data.value, column.s;
    var mode := SelectMode(options.mode);
    var boundaryEpsilon := CheckedBoundaryEpsilon(options.boundaryEpsilon);
    var epsilon := options.epsilon.GetOr(DefaultEpsilon);

    // min and max stand for Infinity and -Infinity until hasValidValue
    var min, max := 0.0, 0.0;
    var hasValidValue := false;
    for i := 0 to |features|
      invariant hasValidValue <==> ValidValues(features[..i], col) != []
      invariant hasValidValue ==> min == Least(ValidValues(features[..i], col))
      invariant hasValidValue ==> max == Greatest(ValidValues(features[..i], col))
    {
      assert features[..i + 1][..i] == features[..i];
      if features[i].properties.None? {
        continue;
      }
      var value := PropertyOf(features[i], col);
      if value.Num? {
        min := if !hasValidValue || value.x < min then value.x else min;
        max := if !hasValidValue || value.x > max then value.x else max;
        hasValidValue := true;
      }
    }
    assert features[..|features|] == features;

    if !hasValidValue {
      return AlwaysNaN;
    }
    if min == max {
      return AlwaysHalf;
    }
    var bounds := ShiftDomain(mode, min, max, epsilon);
    n := Stretch(mode, bounds.0, bounds.1, epsilon, boundaryEpsilon,
                 options.expBase.GetOr(DefaultExpBase));
  }

  /** Line 112: `Math.max(0, Math.min(1, t))`. */
  function Clamp01(t: real): (c: real)
    ensures 0.0 <= c <= 1.0
    ensures 0.0 <= t <= 1.0 ==> c == t
  {
    if t < 0.0 then 0.0 else if t > 1.0 then 1.0 else t
  }

  /** Line 113: the affine map of [0, 1] onto [be, 1 - be]. */
  function Rescale(be: real, c: real): (r: real)
    ensures c == 0.0 ==> r == be
    ensures c == 1.0 ==> r == 1.0 - be
    ensures 0.0 < be < 0.5 && 0.0 <= c <= 1.0 ==> be <= r <= 1.0 - be
  {
    var k := 1.0 - 2.0 * be;
    ProductNonneg(k, c);
    ProductNonneg(k, 1.0 - c);
    be + k * c
  }

  lemma ProductNonneg(a: real, b: real)
    ensures a >= 0.0 && b >= 0.0 ==> a * b >= 0.0
  {
  }

  /** The closure of lines 86-114 (or of line 28, 63 or 68) applied to
      `value`; None is NaN. A linear stretch captured `range = max - min`,
      which is never zero there. */
  function Normalize(n: Normalizer, value: Value, curve: Curve): (r: Option<real>)
    requires n.Stretch? && n.mode == Linear ==> n.min != n.max
    ensures n.AlwaysNaN? || (n.Stretch? && !value.Num?) ==> r.None?
    ensures n.AlwaysHalf? ==> r == Some(0.5)
    ensures n.Stretch? && 0.0 < n.boundaryEpsilon < 0.5 && r.Some? ==>
      n.boundaryEpsilon <= r.value <= 1.0 - n.boundaryEpsilon
  {
    match n
    case AlwaysNaN => None
    case AlwaysHalf => Some(0.5)
    case Stretch(mode, min, max, epsilon, be, expBase) =>
      if !value.Num? then None
      else
        var raw := if mode == Linear then Some((value.x - min) / (max - min))
                   else curve(mode, value.x - min, max - min, epsilon, expBase);
        match raw
        case None => None
        case Some(t) => Some(Rescale(be, Clamp01(t)))
  }

  /** The rescale maps [0, 1] into [be, 1 - be], monotonically. */
  lemma RescaleBounds(be: real, c: real, d: real)
    requires 0.0 < be < 0.5 && 0.0 <= c <= d <= 1.0
    ensures be <= Rescale(be, c) <= Rescale(be, d) <= 1.0 - be
  {
    ProductNonneg(1.0 - 2.0 * be, d - c);
  }

  /** Lines 27-29: data that is not an array, or a column that is empty or
      not a string, gives a normaliser that returns NaN for every argument. */
  lemma InvalidInputGivesNaN(data: Option<seq<Feature>>, column: Value, options: Options,
                             value: Value, curve: Curve)
    requires data.None? || !ValidColumn(column)
    ensures Normalize(Build(data, column, options), value, curve) == None
  {
  }

  /** Lines 32-37: an unknown mode behaves exactly as 'linear'. */
  lemma UnknownModeIsLinear(data: Option<seq<Feature>>, column: Value, options: Options)
    requires !(options.mode.Str? && options.mode.s in {"linear", "log", "sqrt", "exp", "arctan"})
    ensures Build(data, column, options) == Build(data, column, options.(mode := Str("linear")))
  {
  }

  /** Lines 46-69: a stretched normaliser comes from a scan whose min and
      max are the least and greatest valid value of the column, attained by
      some feature and distinct; features without properties and values
      that are not numbers take no part. Without a shift (lines 72-81) the
      normaliser keeps them as they are. */
  lemma {:induction false} ScanFindsExtremes(data: seq<Feature>, column: string, options: Options)
    requires Build(Some(data), Str(column), options).Stretch?
    ensures var n := Build(Some(data), Str(column), options);
      var vals := ValidValues(data, column);
      && vals != []
      && Least(vals) < Greatest(vals)
      && (forall i :: 0 <= i < |data| && PropertyOf(data[i], column).Num? ==>
            Least(vals) <= PropertyOf(data[i], column).x <= Greatest(vals))
      && (n.mode in {Linear, Arctan} ==> n.min == Least(vals) && n.max == Greatest(vals))
      && (exists i :: 0 <= i < |data| && PropertyOf(data[i], column) == Num(Least(vals)))
      && (exists i :: 0 <= i < |data| && PropertyOf(data[i], column) == Num(Greatest(vals)))
  {
    var vals := ValidValues(data, column);
    var col := ColumnOf(data, column);
    forall i | 0 <= i < |data| && PropertyOf(data[i], column).Num?
      ensures PropertyOf(data[i], column).x in vals
    {
      ColumnOfAt(data, column, i);
      assert col[i] in col;
    }
    assert Num(Least(vals)) in col;
    assert Num(Greatest(vals)) in col;
    var lo :| 0 <= lo < |col| && col[lo] == Num(Least(vals));
    var hi :| 0 <= hi < |col| && col[hi] == Num(Greatest(vals));
    ColumnOfAt(data, column, lo);
    ColumnOfAt(data, column, hi);
  }

  /** Lines 62-69: no valid value gives NaN for every argument; all valid
      values equal gives exactly 0.5 for every argument, numbers or not. */
  lemma DegenerateCases(data: seq<Feature>, column: string, options: Options,
                        value: Value, curve: Curve)
    ensures ValidValues(data, column) == [] ==>
      Normalize(Build(Some(data), Str(column), options), value, curve) == None
    ensures column != "" && ValidValues(data, column) != [] &&
            Least(ValidValues(data, column)) == Greatest(ValidValues(data, column)) ==>
      Normalize(Build(Some(data), Str(column), options), value, curve) == Some(0.5)
  {
  }

  /** Lines 87-89: a non-number or NaN argument yields NaN. */
  lemma NonNumberGivesNaN(n: Normalizer, value: Value, curve: Curve)
    requires n.Stretch? && !value.Num?
    requires n.mode == Linear ==> n.min != n.max
    ensures Normalize(n, value, curve) == None
  {
  }

  /** Lines 112-113: whatever the curve yields, a stretched normaliser's
      numeric output lies in [boundaryEpsilon, 1 - boundaryEpsilon]; in linear
      mode every number gives a number. */
  lemma StretchInRange(n: Normalizer, value: Value, curve: Curve)
    requires n.Stretch? && 0.0 < n.boundaryEpsilon < 0.5
    requires n.mode == Linear ==> n.min != n.max
    ensures Normalize(n, value, curve).Some? ==>
      n.boundaryEpsilon <= Normalize(n, value, curve).value <= 1.0 - n.boundaryEpsilon
    ensures n.mode == Linear && value.Num? ==> Normalize(n, value, curve).Some?
  {
    if Normalize(n, value, curve).Some? {
      var t := if n.mode == Linear then (value.x - n.min) / (n.max - n.min)
               else curve(n.mode, value.x - n.min, n.max - n.min, n.epsilon, n.expBase).value;
      RescaleBounds(n.boundaryEpsilon, Clamp01(t), Clamp01(t));
    }
  }

  /** Lines 112-113: for every argument, every mode and every curve, a
      numeric output lies in [boundaryEpsilon, 1 - boundaryEpsilon]; in
      linear mode every number gives a number. */
  lemma OutputInRange(data: Option<seq<Feature>>, column: Value, options: Options,
                      value: Value, curve: Curve)
    ensures var n := Build(data, column, options);
      var be := CheckedBoundaryEpsilon(options.boundaryEpsilon);
      Normalize(n, value, curve).Some? ==>
        be <= Normalize(n, value, curve).value <= 1.0 - be
    ensures var n := Build(data, column, options);
      n.Stretch? && n.mode == Linear && value.Num? ==> Normalize(n, value, curve).Some?
  {
    var n := Build(data, column, options);
    if n.Stretch? {
      assert n.boundaryEpsilon == CheckedBoundaryEpsilon(options.boundaryEpsilon);
      StretchInRange(n, value, curve);
    }
  }

  /** Lines 93-94 with 112-113: a linear stretch maps its min to
      boundaryEpsilon, its max to 1 - boundaryEpsilon, and is non-decreasing. */
  lemma LinearStretch(n: Normalizer, x: real, y: real, curve: Curve)
    requires n.Stretch? && n.mode == Linear && n.min < n.max
    requires 0.0 < n.boundaryEpsilon < 0.5 && x <= y
    ensures Normalize(n, Num(n.min), curve) == Some(n.boundaryEpsilon)
    ensures Normalize(n, Num(n.max), curve) == Some(1.0 - n.boundaryEpsilon)
    ensures Normalize(n, Num(x), curve).value <= Normalize(n, Num(y), curve).value
  {
    AffineUnit(n.min, n.max, x, y);
    RescaleBounds(n.boundaryEpsilon, Clamp01((x - n.min) / (n.max - n.min)), Clamp01((y - n.min) / (n.max - n.min)));
  }

  /** Lines 93-94 with 112-113: in linear mode the least valid value maps to
      boundaryEpsilon, the greatest to 1 - boundaryEpsilon, and the map is
      non-decreasing. */
  lemma LinearEndpointsAndMonotone(data: seq<Feature>, column: string, options: Options,
                                   x: real, y: real, curve: Curve)
    requires SelectMode(options.mode) == Linear
    requires Build(Some(data), Str(column), options).Stretch?
    requires x <= y
    ensures var n := Build(Some(data), Str(column), options);
      var vals := ValidValues(data, column);
      var be := CheckedBoundaryEpsilon(options.boundaryEpsilon);
      && Normalize(n, Num(Least(vals)), curve) == Some(be)
      && Normalize(n, Num(Greatest(vals)), curve) == Some(1.0 - be)
      && Normalize(n, Num(x), curve).value <= Normalize(n, Num(y), curve).value
  {
    var n := Build(Some(data), Str(column), options);
    ScanFindsExtremes(data, column, options);
    LinearStretch(n, x, y, curve);
  }

  /** Line 93: the linear map sends min to 0, max to 1 and keeps order. */
  lemma AffineUnit(min: real, max: real, x: real, y: real)
    requires min < max && x <= y
    ensures (min - min) / (max - min) == 0.0
    ensures (max - min) / (max - min) == 1.0
    ensures (x - min) / (max - min) <= (y - min) / (max - min)
  {
    var d := max - min;
    assert (y - min) / d - (x - min) / d == (y - x) / d;
  }
}
