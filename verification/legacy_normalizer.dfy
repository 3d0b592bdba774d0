/** The older linear-only normaliser of docs/src/layouts/utils.js (its
    `createNormalizer`, lines 7-33). Unlike the one in normalizer.ts it does
    not validate its input, does not skip features without properties, lets
    a NaN in the data poison its running minimum and maximum, and does not
    clamp. */
module LegacyNormalizer {
  import opened Common

  /** Reading `properties[column]` of a feature whose properties are missing. */
  datatype Error = TypeError

  datatype Result<T> = Ok(value: T) | Throws(error: Error)

  /** The closure the legacy factory returns. */
  datatype LegacyNormalizer =
    | AlwaysNaN            // the closure over min = Infinity/NaN: NaN for every argument
    | AlwaysHalf           // `() => 0.5`
    | Affine(min: real, max: real)

  /** The running pair (min, max) of lines 9-19: (Infinity, -Infinity)
      before any number, (NaN, NaN) once a NaN was met, finite otherwise. */
  datatype Scan = Unset | Poisoned | Seen(min: real, max: real)

  /** The pair the scan holds after the values `vs`: `typeof v === 'number'`
      admits NaN, and `Math.min`/`Math.max` with NaN give NaN from then on. */
  function Summary(vs: seq<Value>): Scan {
    if NaN in vs then Poisoned
    else if Numbers(vs) == [] then Unset
    else Seen(Least(Numbers(vs)), Greatest(Numbers(vs)))
  }

  /** One step of the scan: how the pair moves when one more value is read. */
  lemma SummaryStep(vs: seq<Value>, v: Value)
    ensures Summary(vs + [v]) ==
      if v.NaN? then Poisoned
      else if !v.Num? then Summary(vs)
      else match Summary(vs)
        case Unset => Seen(v.x, v.x)
        case Poisoned => Poisoned
        case Seen(lo, hi) => Seen(if v.x < lo then v.x else lo, if v.x > hi then v.x else hi)
  {
    var ws := vs + [v];
    assert ws[..|ws| - 1] == vs;
    assert NaN in ws <==> NaN in vs || v.NaN?;
    if v.Num? {
      var ns := Numbers(ws);
      assert ns == Numbers(vs) + [v.x];
      if Numbers(vs) != [] {
        assert ns[..|ns| - 1] == Numbers(vs);
      }
    } else {
      assert Numbers(ws) == Numbers(vs);
    }
  }

  /** What `createNormalizer(data, column)` of utils.js does. */
  function Build(data: seq<Feature>, column: string): (r: Result<LegacyNormalizer>)
    ensures r.Throws? <==> exists i :: 0 <= i < |data| && data[i].properties.None?
    ensures r.Ok? && r.value.Affine? ==> r.value.min < r.value.max
  {
    if exists i :: 0 <= i < |data| && data[i].properties.None? then Throws(TypeError)
    else
      match Summary(ColumnOf(data, column))
      case Unset => Ok(AlwaysNaN)
      case Poisoned => Ok(AlwaysNaN)
      case Seen(lo, hi) => if lo == hi then Ok(AlwaysHalf) else Ok(Affine(lo, hi))
  }

  /** Lines 7-33: one pass for min and max, then the closure. */
  method CreateLegacyNormalizer(data: seq<Feature>, column: string)
    returns (r: Result<LegacyNormalizer>)
    ensures r == Build(data, column)
  {
    var scan := Unset;
    for i := 0 to |data|
      invariant forall j :: 0 <= j < i ==> data[j].properties.Some?
      invariant scan == Summary(ColumnOf(data[..i], column))
    {
      assert data[..i + 1][..i] == data[..i];
      if data[i].properties.None? {
        return Throws(TypeError);
      }
      var value := PropertyOf(data[i], column);
      SummaryStep(ColumnOf(data[..i], column), value);
      if value.NaN? {
        scan := Poisoned;
      } else if value.Num? {
        scan := match scan
          case Unset => Seen(value.x, value.x)
          case Poisoned => Poisoned
          case Seen(lo, hi) =>
            Seen(if value.x < lo then value.x else lo, if value.x > hi then value.x else hi);
      }
    }
    assert data[..|data|] == data;
    match scan
    case Unset => r := Ok(AlwaysNaN);
    case Poisoned => r := Ok(AlwaysNaN);
    case Seen(lo, hi) =>
      if lo == hi {
        r := Ok(AlwaysHalf);
      } else {
        r := Ok(Affine(lo, hi));
      }
  }

  /** The closure of lines 29-32 (or 23); None is NaN. */
  function Normalize(n: LegacyNormalizer, value: Value): (r: Option<real>)
    requires n.Affine? ==> n.min != n.max
    ensures n.AlwaysHalf? ==> r == Some(0.5)
    ensures !n.AlwaysHalf? && !value.Num? ==> r.None?
    ensures n.Affine? && value.Num? ==> r.Some? && r.value * (n.max - n.min) == value.x - n.min
  {
    match n
    case AlwaysNaN => None
    case AlwaysHalf => Some(0.5)
    case Affine(min, max) => if value.Num? then Some((value.x - min) / (max - min)) else None
  }

  /** Lines 12-19: an affine normaliser's min and max are the least and the
      greatest of the column's values whose type is number, with no NaN
      among them; every feature has properties. */
  lemma {:induction false} LegacyBoundsOverNumbers(data: seq<Feature>, column: string)
    requires Build(data, column).Ok? && Build(data, column).value.Affine?
    ensures var n := Build(data, column).value;
      var col := ColumnOf(data, column);
      && (forall i :: 0 <= i < |data| ==> data[i].properties.Some?)
      && NaN !in col
      && Num(n.min) in col && Num(n.max) in col && n.min < n.max
      && (forall i :: 0 <= i < |data| && PropertyOf(data[i], column).Num? ==>
            n.min <= PropertyOf(data[i], column).x <= n.max)
  {
    var col := ColumnOf(data, column);
    forall i | 0 <= i < |data| && PropertyOf(data[i], column).Num?
      ensures PropertyOf(data[i], column).x in Numbers(col)
    {
      ColumnOfAt(data, column, i);
      assert col[i] in col;
    }
  }

  /** Lines 22-24: equal min and max give 0.5 for every argument. */
  lemma LegacyConstantHalf(data: seq<Feature>, column: string, value: Value)
    requires forall i :: 0 <= i < |data| ==> data[i].properties.Some?
    requires Summary(ColumnOf(data, column)).Seen?
    requires Summary(ColumnOf(data, column)).min == Summary(ColumnOf(data, column)).max
    ensures Build(data, column) == Ok(AlwaysHalf)
    ensures Normalize(Build(data, column).value, value) == Some(0.5)
  {
  }

  /** Lines 26-32: min maps to 0, max to 1, the map is affine with a
      positive slope and so non-decreasing. */
  lemma LegacyAffine(min: real, max: real, x: real, y: real)
    requires min < max && x <= y
    ensures Normalize(Affine(min, max), Num(min)) == Some(0.0)
    ensures Normalize(Affine(min, max), Num(max)) == Some(1.0)
    ensures Normalize(Affine(min, max), Num(x)).value <= Normalize(Affine(min, max), Num(y)).value
    ensures Normalize(Affine(min, max), Num(x)).value * (max - min) == x - min
  {
    var d := max - min;
    assert (min - min) / d == 0.0;
    assert (max - min) / d == 1.0;
    assert (y - min) / d - (x - min) / d == (y - x) / d;
  }

  /** Line 30: an argument that is not a number gives NaN, and so does NaN. */
  lemma LegacyNonNumber(n: LegacyNormalizer, value: Value)
    requires n.Affine? ==> n.min != n.max
    requires !value.Num? && n != AlwaysHalf
    ensures Normalize(n, value) == None
  {
  }

  /** Line 31: no clamp; arguments beyond max map above 1 and arguments
      below min map below 0. */
  lemma LegacyNoClamp(min: real, max: real, x: real)
    requires min < max
    ensures x > max ==> Normalize(Affine(min, max), Num(x)).value > 1.0
    ensures x < min ==> Normalize(Affine(min, max), Num(x)).value < 0.0
  {
    var d := max - min;
    assert d / d == 1.0;
    assert (x - min) / d - d / d == (x - max) / d;
    if x > max {
      assert (x - max) / d > 0.0;
    } else if x < min {
      assert (x - min) / d < 0.0;
    }
  }

  /** A column with no number, or with a NaN, gives NaN for every argument. */
  lemma LegacyNaNCases(data: seq<Feature>, column: string, value: Value)
    requires forall i :: 0 <= i < |data| ==> data[i].properties.Some?
    requires NaN in ColumnOf(data, column) || Numbers(ColumnOf(data, column)) == []
    ensures Build(data, column) == Ok(AlwaysNaN)
    ensures Normalize(AlwaysNaN, value) == None
  {
  }
}
