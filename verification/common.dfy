/** Values and records shared by the choropleth normaliser, the boxplot
    statistics and the layer models: a JavaScript value as these utilities
    inspect it, a GeoJSON feature's property bag, and the scans over it. */
module Common {

  datatype Option<+T> = None | Some(value: T) {
    function GetOr(default: T): T {
      match this
      case Some(v) => v
      case None => default
    }
  }

  /** A JavaScript value. `Num` is a number other than NaN, `NaN` is the
      not-a-number value (whose `typeof` is still 'number') and `Object` is
      any object, known only by an opaque handle. */
  datatype Value =
    | Undefined
    | Null
    | Bool(b: bool)
    | Num(x: real)
    | NaN
    | Str(s: string)
    | Object(handle: nat)

  /** JavaScript truthiness: false, 0, NaN, "", null and undefined are falsy. */
  predicate Truthy(v: Value) {
    match v
    case Undefined => false
    case Null => false
    case Bool(b) => b
    case Num(x) => x != 0.0
    case NaN => false
    case Str(s) => s != ""
    case Object(_) => true
  }

  /** `a ?? b`: b when a is null or undefined. */
  function OrElse(a: Value, b: Value): Value {
    if a.Undefined? || a.Null? then b else a
  }

  /** A GeoJSON feature as the scans see it: `properties` is None when the
      feature or its `properties` object is missing. */
  datatype Feature = Feature(properties: Option<map<string, Value>>)

  /** `feature?.properties?.[column]`: undefined when either is absent. */
  function PropertyOf(f: Feature, column: string): Value {
    match f.properties
    case None => Undefined
    case Some(p) => if column in p then p[column] else Undefined
  }

  /** The value of `column` in every feature, in feature order. */
  function ColumnOf(data: seq<Feature>, column: string): (vs: seq<Value>)
    ensures |vs| == |data|
  {
    if data == [] then []
    else ColumnOf(data[..|data| - 1], column) + [PropertyOf(data[|data| - 1], column)]
  }

  lemma {:induction false} ColumnOfAt(data: seq<Feature>, column: string, i: nat)
    requires i < |data|
    ensures ColumnOf(data, column)[i] == PropertyOf(data[i], column)
  {
    if i < |data| - 1 {
      ColumnOfAt(data[..|data| - 1], column, i);
    }
  }

  /** The numbers other than NaN among `vs`, in order: what the filter
      `typeof v === 'number' && !isNaN(v)` keeps. */
  function Numbers(vs: seq<Value>): (r: seq<real>)
    ensures |r| <= |vs|
    ensures forall x :: x in r <==> Num(x) in vs
  {
    if vs == [] then []
    else
      var init := vs[..|vs| - 1];
      assert vs == init + [vs[|vs| - 1]];
      Numbers(init) + (if vs[|vs| - 1].Num? then [vs[|vs| - 1].x] else [])
  }

  /** The smallest element, as a running `Math.min` finds it. */
  function Least(s: seq<real>): (m: real)
    requires |s| > 0
    ensures m in s
    ensures forall x :: x in s ==> m <= x
  {
    if |s| == 1 then s[0]
    else
      var init := s[..|s| - 1];
      assert s == init + [s[|s| - 1]];
      var m := Least(init);
      if s[|s| - 1] < m then s[|s| - 1] else m
  }

  /** The greatest element, as a running `Math.max` finds it. */
  function Greatest(s: seq<real>): (m: real)
    requires |s| > 0
    ensures m in s
    ensures forall x :: x in s ==> x <= m
  {
    if |s| == 1 then s[0]
    else
      var init := s[..|s| - 1];
      assert s == init + [s[|s| - 1]];
      var m := Greatest(init);
      if s[|s| - 1] > m then s[|s| - 1] else m
  }

  /** The decimal digits of n, as template-literal interpolation prints it. */
  function Decimal(n: nat): (r: string)
    ensures |r| > 0
    ensures forall i :: 0 <= i < |r| ==> '0' <= r[i] <= '9'
  {
    if n < 10 then [Digit(n)] else Decimal(n / 10) + [Digit(n % 10)]
  }

  function Digit(d: nat): (c: char)
    requires d < 10
    ensures '0' <= c <= '9'
    ensures c as int - '0' as int == d
  {
    ('0' as int + d) as char
  }

  /** Two numbers print as the same decimal string only if they are equal. */
  lemma {:induction false} DecimalInjective(a: nat, b: nat)
    requires Decimal(a) == Decimal(b)
    ensures a == b
  {
    var da, db := Decimal(a), Decimal(b);
    if a >= 10 && b >= 10 {
      assert da == Decimal(a / 10) + [Digit(a % 10)];
      assert db == Decimal(b / 10) + [Digit(b % 10)];
      assert da[..|da| - 1] == Decimal(a / 10);
      assert db[..|db| - 1] == Decimal(b / 10);
      DecimalInjective(a / 10, b / 10);
      assert Digit(a % 10) == da[|da| - 1] == db[|db| - 1] == Digit(b % 10);
    } else if a < 10 && b < 10 {
      assert da[0] == Digit(a) && db[0] == Digit(b);
    }
  }
}
