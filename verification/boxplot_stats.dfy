/** The boxplot statistics of docs/src/utils/boxplotStats.ts: the five-number
    summary with interpolated quartiles, whiskers and outliers of one list of
    numbers (`computeBoxplotStats`), the adapter that gathers per-column
    lists from GeoJSON features (`adaptGeojsonForBoxplot`) and the driver
    that maps the statistics over every column (`computeMultiBoxplotStats`).
    Numbers are `real`; `null` results are `None`. */
module BoxplotStats {
  import opened Common

  const DefaultWhiskerMultiplier: real := 1.5
  const DefaultEpsilon: real := 0.0000000001

  predicate Ascending(s: seq<real>) {
    forall i, j :: 0 <= i < j < |s| ==> s[i] <= s[j]
  }

  lemma AscendingCons(h: real, t: seq<real>)
    requires Ascending(t)
    requires forall y :: y in t ==> h <= y
    ensures Ascending([h] + t)
  {
    var r := [h] + t;
    forall i, j | 0 <= i < j < |r| ensures r[i] <= r[j] {
      if i == 0 {
        assert r[j] == t[j - 1] && t[j - 1] in t;
      } else {
        assert r[i] == t[i - 1] && r[j] == t[j - 1];
      }
    }
  }

  /** Inserts x before the first element not below it. */
  function Insert(x: real, s: seq<real>): (r: seq<real>)
    ensures |r| == |s| + 1
    ensures forall y :: y in r <==> y == x || y in s
  {
    if s == [] || x <= s[0] then [x] + s
    else
      assert s == [s[0]] + s[1..];
      [s[0]] + Insert(x, s[1..])
  }

  lemma {:induction false} InsertSpec(x: real, s: seq<real>)
    requires Ascending(s)
    ensures Ascending(Insert(x, s))
    ensures forall y :: y in Insert(x, s) ==> y == x || y in s
    ensures multiset(Insert(x, s)) == multiset(s) + multiset{x}
  {
    if s == [] || x <= s[0] {
      AscendingCons(x, s);
    } else {
      assert s == [s[0]] + s[1..];
      InsertSpec(x, s[1..]);
      AscendingCons(s[0], Insert(x, s[1..]));
    }
  }

  /** The library sort of line 52, `[...validData].sort((a, b) => a - b)`. */
  function SortAscending(s: seq<real>): (r: seq<real>)
    ensures |r| == |s|
    ensures forall x :: x in r <==> x in s
  {
    if s == [] then []
    else
      assert s == [s[0]] + s[1..];
      Insert(s[0], SortAscending(s[1..]))
  }

  /** The sort gives the ascending permutation of its input (there is only
      one). */
  lemma {:induction false} SortSpec(s: seq<real>)
    ensures Ascending(SortAscending(s))
    ensures multiset(SortAscending(s)) == multiset(s)
    ensures |SortAscending(s)| == |s|
  {
    if s != [] {
      assert s == [s[0]] + s[1..];
      SortSpec(s[1..]);
      InsertSpec(s[0], SortAscending(s[1..]));
      assert |multiset(SortAscending(s))| == |multiset(s)|;
    }
  }

  lemma MulNonneg(a: real, b: real)
    requires a >= 0.0 && b >= 0.0
    ensures a * b >= 0.0
  {
  }

  lemma MulMono(a: real, b: real, k: real)
    requires a <= b && k >= 0.0
    ensures a * k <= b * k
  {
    MulNonneg(b - a, k);
  }

  /** Lines 61-63: the lower index and the fraction of `q * (n - 1)`. */
  function Position(n: nat, q: real): (p: (int, real))
    requires n > 0 && 0.0 <= q <= 1.0
    ensures 0 <= p.0 < n && 0.0 <= p.1 < 1.0
    ensures p.0 == n - 1 ==> p.1 == 0.0
    ensures p.0 as real + p.1 == q * (n - 1) as real
    ensures p.0 == (q * (n - 1) as real).Floor
  {
    var index := q * (n - 1) as real;
    MulNonneg(q, (n - 1) as real);
    MulMono(q, 1.0, (n - 1) as real);
    (index.Floor, index - index.Floor as real)
  }

  /** `getQuantile` of lines 60-68 as written. None stands for NaN: when the
      fraction is not below epsilon at the last index it reads
      `sortedData[n]`, which is undefined. */
  function QuantileAsWritten(sorted: seq<real>, q: real, epsilon: real): (r: Option<real>)
    requires |sorted| > 0 && 0.0 <= q <= 1.0
    ensures epsilon > 0.0 ==> r.Some?
  {
    var p := Position(|sorted|, q);
    var lower, fraction := p.0, p.1;
    if fraction < epsilon then Some(sorted[lower])
    else if lower + 1 < |sorted| then
      Some(sorted[lower] * (1.0 - fraction) + sorted[lower + 1] * fraction)
    else None
  }

  /** With epsilon 0 a single value has no median: `computeBoxplotStats([5],
      { epsilon: 0 })` reads past the end of the sorted copy. */
  lemma QuantileReadsPastEnd()
    ensures QuantileAsWritten([5.0], 0.5, 0.0) == None
  {
    var p := Position(1, 0.5);
    assert p.0 == 0 && p.1 == 0.0;
  }

  /** `getQuantile` as intended: at the last index there is nothing to
      interpolate towards, so the element there is the quantile. */
  function Quantile(sorted: seq<real>, q: real, epsilon: real): (r: real)
    requires |sorted| > 0 && 0.0 <= q <= 1.0
    ensures var p := Position(|sorted|, q); p.1 < epsilon ==> r == sorted[p.0]
    ensures QuantileAsWritten(sorted, q, epsilon).Some? ==>
      r == QuantileAsWritten(sorted, q, epsilon).value
  {
    var p := Position(|sorted|, q);
    var lower, fraction := p.0, p.1;
    if fraction < epsilon || lower + 1 == |sorted| then sorted[lower]
    else sorted[lower] * (1.0 - fraction) + sorted[lower + 1] * fraction
  }

  /** Lines 60-68: the quantile lies between the element at the lower index
      and the next one (the element itself at the last index). */
  lemma QuantileBetween(sorted: seq<real>, q: real, epsilon: real)
    requires |sorted| > 0 && 0.0 <= q <= 1.0 && Ascending(sorted)
    ensures var p := Position(|sorted|, q);
      var upper := if p.0 + 1 < |sorted| then p.0 + 1 else p.0;
      sorted[p.0] <= Quantile(sorted, q, epsilon) <= sorted[upper]
  {
    var p := Position(|sorted|, q);
    var lower, f := p.0, p.1;
    if !(f < epsilon || lower + 1 == |sorted|) {
      InterpolateBetween(sorted[lower], sorted[lower + 1], f);
    }
  }

  /** Linear interpolation between a <= b stays between them. */
  lemma InterpolateBetween(a: real, b: real, f: real)
    requires a <= b && 0.0 <= f <= 1.0
    ensures a <= a * (1.0 - f) + b * f <= b
  {
    assert a * (1.0 - f) + b * f - a == f * (b - a);
    assert b - (a * (1.0 - f) + b * f) == (1.0 - f) * (b - a);
    MulNonneg(f, b - a);
    MulNonneg(1.0 - f, b - a);
  }

  /** A later q has a later position: a greater lower index, or the same
      one with a fraction no smaller. */
  lemma PositionMonotone(n: nat, q: real, q': real)
    requires n > 0 && 0.0 <= q <= q' <= 1.0
    ensures Position(n, q).0 < Position(n, q').0 ||
      (Position(n, q).0 == Position(n, q').0 && Position(n, q).1 <= Position(n, q').1)
  {
    var m := (n - 1) as real;
    var x, x' := q * m, q' * m;
    MulMono(q, q', m);
    assert x <= x';
    FloorMono(x, x');
  }

  lemma FloorMono(x: real, y: real)
    requires x <= y
    ensures x.Floor <= y.Floor
  {
  }

  /** Linear interpolation between a <= b grows with the fraction. */
  lemma InterpolateMonotone(a: real, b: real, f: real, f': real)
    requires a <= b && f <= f'
    ensures a * (1.0 - f) + b * f <= a * (1.0 - f') + b * f'
  {
    assert a * (1.0 - f) + b * f == a + f * (b - a);
    assert a * (1.0 - f') + b * f' == a + f' * (b - a);
    MulMono(f, f', b - a);
  }

  /** A later quantile is never smaller. */
  lemma QuantileMonotone(sorted: seq<real>, q: real, q': real, epsilon: real)
    requires |sorted| > 0 && 0.0 <= q <= q' <= 1.0 && Ascending(sorted)
    ensures Quantile(sorted, q, epsilon) <= Quantile(sorted, q', epsilon)
  {
    var n := |sorted|;
    var p, p' := Position(n, q), Position(n, q');
    PositionMonotone(n, q, q');
    QuantileBetween(sorted, q, epsilon);
    QuantileBetween(sorted, q', epsilon);
    if p.0 == p'.0 {
      var lower, f, f' := p.0, p.1, p'.1;
      if !(f < epsilon || lower + 1 == n) {
        InterpolateMonotone(sorted[lower], sorted[lower + 1], f, f');
      }
    } else {
      assert sorted[p.0 + 1] <= sorted[p'.0];
    }
  }

  /** Lines 46-49 as written: NaN is a number and not `<= 0`, so the guard
      keeps it; None stands for that NaN. */
  function WhiskerMultiplierAsWritten(w: Value): (r: Option<real>)
    ensures w.Num? && w.x > 0.0 ==> r == Some(w.x)
    ensures r.None? <==> w.NaN?
  {
    match w
    case Undefined => Some(DefaultWhiskerMultiplier)
    case Num(x) => if x <= 0.0 then Some(DefaultWhiskerMultiplier) else Some(x)
    case NaN => None
    case _ => Some(DefaultWhiskerMultiplier)
  }

  /** A NaN multiplier passes the guard, and the whiskers become NaN. */
  lemma NaNWhiskerMultiplierKept()
    ensures WhiskerMultiplierAsWritten(NaN).None?
  {
  }

  /** Lines 46-49 as intended: anything but a positive number gives 1.5. */
  function CheckedWhiskerMultiplier(w: Value): (r: real)
    ensures r > 0.0
    ensures w.Num? && w.x > 0.0 ==> r == w.x
    ensures !(w.Num? && w.x > 0.0) ==> r == DefaultWhiskerMultiplier
    ensures WhiskerMultiplierAsWritten(w).Some? ==> r == WhiskerMultiplierAsWritten(w).value
  {
    if w.Num? && w.x > 0.0 then w.x else DefaultWhiskerMultiplier
  }

  /** Line 80: the values strictly outside [lo, hi], in their order. */
  function Outliers(sorted: seq<real>, lo: real, hi: real): (r: seq<real>)
    ensures |r| <= |sorted|
    ensures forall x :: x in r ==> x < lo || x > hi
  {
    if sorted == [] then []
    else
      var rest := Outliers(sorted[1..], lo, hi);
      if sorted[0] < lo || sorted[0] > hi then [sorted[0]] + rest else rest
  }

  /** The filter keeps exactly the values outside [lo, hi]. */
  lemma {:induction false} OutliersMembers(sorted: seq<real>, lo: real, hi: real)
    ensures forall x :: x in Outliers(sorted, lo, hi) <==> x in sorted && (x < lo || x > hi)
  {
    if sorted != [] {
      assert sorted == [sorted[0]] + sorted[1..];
      OutliersMembers(sorted[1..], lo, hi);
    }
  }

  /** The filter keeps each value outside [lo, hi] as often as it occurs. */
  lemma {:induction false} OutliersCounts(sorted: seq<real>, lo: real, hi: real)
    ensures forall x :: multiset(Outliers(sorted, lo, hi))[x] ==
                        (if x < lo || x > hi then multiset(sorted)[x] else 0)
  {
    if sorted != [] {
      assert sorted == [sorted[0]] + sorted[1..];
      OutliersCounts(sorted[1..], lo, hi);
    }
  }

  /** The filter keeps an ascending input ascending. */
  lemma {:induction false} OutliersAscending(sorted: seq<real>, lo: real, hi: real)
    requires Ascending(sorted)
    ensures Ascending(Outliers(sorted, lo, hi))
  {
    if sorted != [] {
      var h, t := sorted[0], sorted[1..];
      assert sorted == [h] + t;
      OutliersAscending(t, lo, hi);
      OutliersMembers(t, lo, hi);
      if h < lo || h > hi {
        AscendingCons(h, Outliers(t, lo, hi));
      }
    }
  }

  datatype Stats = Stats(
    q1: real, median: real, q3: real, iqr: real,
    whiskerMin: real, whiskerMax: real,
    outliers: seq<real>,
    min: real, max: real)

  function RealMax(a: real, b: real): real { if a >= b then a else b }
  function RealMin(a: real, b: real): real { if a <= b then a else b }

  /** Lines 55-93: the statistics of the sorted valid values. Its extremes
      are the first and the last element, and the quartiles, the median and
      the whiskers nest between them as a box plot draws them. */
  function Summarize(sorted: seq<real>, w: real, eps: real): (st: Stats)
    requires |sorted| > 0 && Ascending(sorted) && w > 0.0
    ensures st.min == sorted[0] && st.max == sorted[|sorted| - 1]
    ensures Ordered(st)
  {
    QuartilesOrdered(sorted, eps);
    var n := |sorted|;
    var min, max := sorted[0], sorted[n - 1];
    var q1 := Quantile(sorted, 0.25, eps);
    var median := Quantile(sorted, 0.5, eps);
    var q3 := Quantile(sorted, 0.75, eps);
    var whiskers := Whiskers(min, max, q1, q3, w);
    Stats(q1, median, q3, q3 - q1, whiskers.0, whiskers.1,
          Outliers(sorted, whiskers.0, whiskers.1), min, max)
  }

  /** The three quartiles of an ascending list are ordered between its
      first and last element. */
  lemma QuartilesOrdered(sorted: seq<real>, eps: real)
    requires |sorted| > 0 && Ascending(sorted)
    ensures var n := |sorted|;
      sorted[0] <= Quantile(sorted, 0.25, eps) <= Quantile(sorted, 0.5, eps)
        <= Quantile(sorted, 0.75, eps) <= sorted[n - 1]
  {
    var n := |sorted|;
    QuantileBetween(sorted, 0.25, eps);
    QuantileBetween(sorted, 0.75, eps);
    var p1, p3 := Position(n, 0.25), Position(n, 0.75);
    var u3 := if p3.0 + 1 < n then p3.0 + 1 else p3.0;
    assert sorted[0] <= sorted[p1.0];
    assert sorted[u3] <= sorted[n - 1];
    QuantileMonotone(sorted, 0.25, 0.5, eps);
    QuantileMonotone(sorted, 0.5, 0.75, eps);
  }

  /** Lines 76-77: the whiskers reach `w` times the interquartile range
      beyond the quartiles, clipped to the extremes; when the extremes and
      quartiles are ordered they lie between them. */
  function Whiskers(min: real, max: real, q1: real, q3: real, w: real): (r: (real, real))
    ensures min <= r.0 && r.1 <= max
    ensures min <= q1 <= q3 <= max && w >= 0.0 ==> r.0 <= q1 && q3 <= r.1
  {
    MulNonneg(if w >= 0.0 then w else 0.0, if q3 >= q1 then q3 - q1 else 0.0);
    (RealMax(min, q1 - w * (q3 - q1)), RealMin(max, q3 + w * (q3 - q1)))
  }

  /** The order a box plot draws: extremes, whiskers and quartiles nested
      around the median. */
  predicate Ordered(st: Stats) {
    && st.min <= st.q1 <= st.median <= st.q3 <= st.max
    && st.iqr == st.q3 - st.q1 && st.iqr >= 0.0
    && st.min <= st.whiskerMin <= st.q1
    && st.q3 <= st.whiskerMax <= st.max
  }

  /** `computeBoxplotStats(data, { whiskerMultiplier, epsilon })`; `data` is
      None when it is not an array. */
  function ComputeBoxplotStats(data: Option<seq<Value>>, whiskerMultiplier: Value, epsilon: Option<real>)
    : (r: Option<Stats>)
    ensures r.None? <==> data.None? || Numbers(data.value) == []
    ensures r.Some? ==>
      && r.value.min == Least(Numbers(data.value)) && r.value.max == Greatest(Numbers(data.value))
      && Ordered(r.value)
  {
    if data.None? then None
    else
      var valid := Numbers(data.value);
      if valid == [] then None
      else
        SortSpec(valid);
        SortedEnds(valid);
        Some(Summarize(SortAscending(valid), CheckedWhiskerMultiplier(whiskerMultiplier),
                       epsilon.GetOr(DefaultEpsilon)))
  }

  /** The ascending permutation of a list holds the same values. */
  lemma SortedSameValues(valid: seq<real>)
    ensures forall x :: x in SortAscending(valid) <==> x in valid
  {
    SortSpec(valid);
    forall x ensures x in SortAscending(valid) <==> x in valid {
      assert x in SortAscending(valid) <==> x in multiset(SortAscending(valid));
      assert x in valid <==> x in multiset(valid);
    }
  }

  /** The ascending permutation of a list starts with its least element and
      ends with its greatest (lines 56-57). */
  lemma SortedEnds(valid: seq<real>)
    requires |valid| > 0
    ensures var sorted := SortAscending(valid);
      sorted[0] == Least(valid) && sorted[|sorted| - 1] == Greatest(valid)
  {
    var sorted := SortAscending(valid);
    SortSpec(valid);
    SortedSameValues(valid);
    var n := |sorted|;
    var lo, hi := Least(valid), Greatest(valid);
    assert sorted[0] in valid && sorted[n - 1] in valid;
    var i :| 0 <= i < n && sorted[i] == lo;
    var j :| 0 <= j < n && sorted[j] == hi;
    assert sorted[0] <= sorted[i] && sorted[j] <= sorted[n - 1];
  }

  /** Line 80: the outliers are exactly the valid values strictly outside
      the whiskers, each as often as it occurs, in ascending order. */
  lemma StatsOutliers(data: Option<seq<Value>>, whiskerMultiplier: Value, epsilon: Option<real>)
    requires ComputeBoxplotStats(data, whiskerMultiplier, epsilon).Some?
    ensures var st := ComputeBoxplotStats(data, whiskerMultiplier, epsilon).value;
      var valid := Numbers(data.value);
      && Ascending(st.outliers)
      && (forall x :: x in st.outliers <==> x in valid && (x < st.whiskerMin || x > st.whiskerMax))
      && (forall x :: multiset(st.outliers)[x] ==
            if x < st.whiskerMin || x > st.whiskerMax then multiset(valid)[x] else 0)
  {
    var valid := Numbers(data.value);
    var sorted := SortAscending(valid);
    SortSpec(valid);
    SortedSameValues(valid);
    var st := Summarize(sorted, CheckedWhiskerMultiplier(whiskerMultiplier), epsilon.GetOr(DefaultEpsilon));
    OutliersMembers(sorted, st.whiskerMin, st.whiskerMax);
    OutliersCounts(sorted, st.whiskerMin, st.whiskerMax);
    OutliersAscending(sorted, st.whiskerMin, st.whiskerMax);
  }

  // ---------------------------------------------------------------------
  // adaptGeojsonForBoxplot

  /** The `columns` option: an array of names, a year range object, or any
      other value. */
  datatype Columns = Names(names: seq<Value>) | YearRange(startYear: Value, endYear: Value) | OtherColumns

  /** `Number.isInteger(v)` */
  predicate IsInteger(v: Value) {
    v.Num? && v.x.Floor as real == v.x
  }

  function YearName(year: nat): string {
    "Year" + Decimal(year)
  }

  /** `Array.from({ length: end - start + 1 }, (_, i) => `Year${start + i}`)` */
  function YearNames(start: nat, end: nat): (r: seq<string>)
    requires start <= end
    ensures |r| == end - start + 1
    ensures forall i :: 0 <= i < |r| ==> r[i] == YearName(start + i)
  {
    seq(end - start + 1, i requires 0 <= i < end - start + 1 => YearName(start + i))
  }

  /** Lines 118-150: the column names, or None (`null`) for an empty array or
      one holding a non-string. */
  function ColumnNames(columns: Option<Columns>): (r: Option<seq<string>>)
    ensures columns.None? || columns == Some(OtherColumns) ==> r == Some(YearNames(2014, 2024))
    ensures columns.Some? && columns.value.YearRange? ==>
      var s, e := columns.value.startYear, columns.value.endYear;
      if IsInteger(s) && IsInteger(e) && s.x <= e.x && 1900.0 <= s.x && e.x <= 2100.0
      then r.Some? && |r.value| == (e.x - s.x).Floor + 1
           && forall i :: 0 <= i < |r.value| ==> r.value[i] == YearName(s.x.Floor + i)
      else r == Some(YearNames(2014, 2024))
    ensures columns.Some? && columns.value.Names? ==>
      var ns := columns.value.names;
      && (r.Some? <==> |ns| > 0 && forall i :: 0 <= i < |ns| ==> ns[i].Str?)
      && (r.Some? ==> |r.value| == |ns| && forall i :: 0 <= i < |ns| ==> r.value[i] == ns[i].s)
  {
    match columns
    case None => Some(YearNames(2014, 2024))
    case Some(Names(ns)) =>
      if |ns| == 0 || exists i :: 0 <= i < |ns| && !ns[i].Str? then None
      else Some(seq(|ns|, i requires 0 <= i < |ns| && ns[i].Str? => ns[i].s))
    case Some(YearRange(s, e)) =>
      if IsInteger(s) && IsInteger(e) && s.x <= e.x && 1900.0 <= s.x && e.x <= 2100.0
      then Some(YearNames(s.x.Floor, e.x.Floor))
      else Some(YearNames(2014, 2024))
    case Some(OtherColumns) => Some(YearNames(2014, 2024))
  }

  /** The names of a year range are pairwise distinct. */
  lemma YearNamesDistinct(start: nat, end: nat)
    requires start <= end
    ensures var r := YearNames(start, end);
      forall i, j :: 0 <= i < j < |r| ==> r[i] != r[j]
  {
    var r := YearNames(start, end);
    forall i, j | 0 <= i < j < |r| ensures r[i] != r[j] {
      if r[i] == r[j] {
        assert r[i][4..] == Decimal(start + i);
        assert r[j][4..] == Decimal(start + j);
        DecimalInjective(start + i, start + j);
      }
    }
  }

  /** One `validDataCache.get(column).push(value)` of line 165. */
  datatype Push = Push(column: string, value: real)

  /** The pushes the inner loop makes for one feature. */
  function FeaturePushes(f: Feature, names: seq<string>): seq<Push> {
    if names == [] then []
    else
      var c := names[|names| - 1];
      FeaturePushes(f, names[..|names| - 1]) + (if PropertyOf(f, c).Num? then [Push(c, PropertyOf(f, c).x)] else [])
  }

  /** All pushes of the nested loops of lines 157-169, in order. */
  function Pushes(data: seq<Feature>, names: seq<string>): seq<Push> {
    if data == [] then []
    else Pushes(data[..|data| - 1], names) + FeaturePushes(data[|data| - 1], names)
  }

  /** A feature pushes a value onto a column exactly when the column is
      named and the feature holds that number in it. */
  lemma {:induction false} FeaturePushesMembers(f: Feature, names: seq<string>)
    ensures forall c, v :: Push(c, v) in FeaturePushes(f, names) <==> c in names && PropertyOf(f, c) == Num(v)
  {
    if names != [] {
      var init := names[..|names| - 1];
      assert names == init + [names[|names| - 1]];
      FeaturePushesMembers(f, init);
    }
  }

  /** A feature without properties pushes nothing (line 158). */
  lemma {:induction false} FeaturePushesOfNone(f: Feature, names: seq<string>)
    requires f.properties.None?
    ensures FeaturePushes(f, names) == []
  {
    if names != [] {
      FeaturePushesOfNone(f, names[..|names| - 1]);
    }
  }

  /** The nested loops push a value onto a column exactly when the column is
      named and some feature holds that number in it. */
  lemma {:induction false} PushesMembers(data: seq<Feature>, names: seq<string>)
    ensures forall c, v :: Push(c, v) in Pushes(data, names) <==> c in names && Num(v) in ColumnOf(data, c)
  {
    if data != [] {
      var init, last := data[..|data| - 1], data[|data| - 1];
      PushesMembers(init, names);
      FeaturePushesMembers(last, names);
      forall c ensures ColumnOf(data, c) == ColumnOf(init, c) + [PropertyOf(last, c)] {
      }
    }
  }

  /** The columns in the order of their first push: the order in which the
      `Map` receives its keys. */
  function FirstSeen(ps: seq<Push>): (r: seq<string>)
    ensures forall c :: c in r <==> exists v :: Push(c, v) in ps
    ensures forall i, j :: 0 <= i < j < |r| ==> r[i] != r[j]
  {
    if ps == [] then []
    else
      var init, p := ps[..|ps| - 1], ps[|ps| - 1];
      assert ps == init + [p];
      var d := FirstSeen(init);
      if p.column in d then d else d + [p.column]
  }

  /** The values pushed onto column c, in order. */
  function Pushed(ps: seq<Push>, c: string): (r: seq<real>)
    ensures forall v :: v in r <==> Push(c, v) in ps
  {
    if ps == [] then []
    else
      var init, p := ps[..|ps| - 1], ps[|ps| - 1];
      assert ps == init + [p];
      Pushed(init, c) + (if p.column == c then [p.value] else [])
  }

  /** A JavaScript `Map<string, T[]>`: its keys in insertion order and the
      list under each. The adapter builds one of reals; the driver accepts
      any `number[]`, NaN included, so its lists hold values. */
  datatype ColumnData<T> = ColumnData(keys: seq<string>, lists: map<string, seq<T>>)

  /** What every `Map` is: its keys are pairwise distinct and are exactly
      the entries it holds. */
  ghost predicate WellFormed<T>(m: ColumnData<T>) {
    && (forall i, j :: 0 <= i < j < |m.keys| ==> m.keys[i] != m.keys[j])
    && (forall c :: c in m.lists <==> c in m.keys)
  }

  /** Lines 162-166 applied to the pushes `ps` one by one: a column not yet
      in the `Map` is set to `[]` (and becomes its last key), then the value
      is appended to its list. */
  function Collect(ps: seq<Push>): ColumnData<real> {
    if ps == [] then ColumnData([], map[])
    else
      var m, p := Collect(ps[..|ps| - 1]), ps[|ps| - 1];
      var keys := if p.column in m.lists then m.keys else m.keys + [p.column];
      var list := if p.column in m.lists then m.lists[p.column] else [];
      ColumnData(keys, m.lists[p.column := list + [p.value]])
  }

  /** The `Map` built by the pushes holds the columns in the order of their
      first push, each with the values pushed onto it in order. */
  lemma {:induction false} CollectMeaning(ps: seq<Push>)
    ensures WellFormed(Collect(ps))
    ensures Collect(ps).keys == FirstSeen(ps)
    ensures forall c :: c in Collect(ps).lists ==> Collect(ps).lists[c] == Pushed(ps, c)
  {
    if ps != [] {
      var init, p := ps[..|ps| - 1], ps[|ps| - 1];
      CollectMeaning(init);
      var m := Collect(init);
      assert p.column in m.lists <==> p.column in FirstSeen(init);
      var m' := Collect(ps);
      forall c | c in m'.lists ensures m'.lists[c] == Pushed(ps, c) {
        if c != p.column {
          assert m'.lists[c] == m.lists[c];
        } else if p.column !in m.lists {
          PushedNone(init, c);
        }
      }
      if p.column !in m.lists {
        var k := m'.keys;
        forall i, j | 0 <= i < j < |k| ensures k[i] != k[j] {
          if j == |k| - 1 {
            assert k[i] in m.keys;
          }
        }
      }
    }
  }

  /** `adaptGeojsonForBoxplot(data, { columns })` of lines 102-178: the
      `Map` the pushes build, or `null` for a non-array `data`, invalid
      column names, or no valid number in any named column. */
  function Adapt(data: Option<seq<Feature>>, columns: Option<Columns>): (r: Option<ColumnData<real>>)
    ensures r.None? <==>
      || data.None?
      || ColumnNames(columns).None?
      || Pushes(data.value, ColumnNames(columns).value) == []
    ensures r.Some? ==> WellFormed(r.value) && |r.value.keys| > 0
  {
    if data.None? || ColumnNames(columns).None? then None
    else
      var ps := Pushes(data.value, ColumnNames(columns).value);
      if ps == [] then None
      else
        CollectMeaning(ps);
        assert ps[0] in ps;
        Some(Collect(ps))
  }

  lemma {:induction false} PushedNone(ps: seq<Push>, c: string)
    requires forall v :: Push(c, v) !in ps
    ensures Pushed(ps, c) == []
  {
    if ps != [] {
      var init := ps[..|ps| - 1];
      assert ps == init + [ps[|ps| - 1]];
      PushedNone(init, c);
    }
  }

  /** One step of the `Map` updates. */
  lemma CollectStep(ps: seq<Push>, p: Push)
    ensures var m := Collect(ps);
      Collect(ps + [p]) ==
        if p.column in m.lists then ColumnData(m.keys, m.lists[p.column := m.lists[p.column] + [p.value]])
        else ColumnData(m.keys + [p.column], m.lists[p.column := [p.value]])
  {
    var ps' := ps + [p];
    assert ps'[..|ps'| - 1] == ps;
    assert [] + [p.value] == [p.value];
  }

  /** One step of the inner loop over the column names. */
  lemma FeaturePushesStep(f: Feature, names: seq<string>, k: nat)
    requires k < |names|
    ensures FeaturePushes(f, names[..k + 1]) ==
      FeaturePushes(f, names[..k]) +
        (if PropertyOf(f, names[k]).Num? then [Push(names[k], PropertyOf(f, names[k]).x)] else [])
  {
    assert names[..k + 1][..k] == names[..k];
  }

  /** Lines 153-169: one pass over the features, pushing every valid number
      of every named column onto that column's list. */
  method CollectColumns(features: seq<Feature>, cols: seq<string>)
    returns (keys: seq<string>, lists: map<string, seq<real>>, hasValidData: bool)
    ensures ColumnData(keys, lists) == Collect(Pushes(features, cols))
    ensures hasValidData <==> Pushes(features, cols) != []
  {
    keys, lists, hasValidData := [], map[], false;
    ghost var pushed: seq<Push> := [];
    for i := 0 to |features|
      invariant pushed == Pushes(features[..i], cols)
      invariant ColumnData(keys, lists) == Collect(pushed)
      invariant hasValidData <==> pushed != []
    {
      assert features[..i + 1][..i] == features[..i];
      assert Pushes(features[..i + 1], cols) == pushed + FeaturePushes(features[i], cols);
      if features[i].properties.None? {
        FeaturePushesOfNone(features[i], cols);
        assert pushed + [] == pushed;
        continue;
      }
      ghost var done := pushed;
      for k := 0 to |cols|
        invariant pushed == done + FeaturePushes(features[i], cols[..k])
        invariant ColumnData(keys, lists) == Collect(pushed)
        invariant hasValidData <==> pushed != []
      {
        var column := cols[k];
        var value := PropertyOf(features[i], column);
        FeaturePushesStep(features[i], cols, k);
        if value.Num? {
          CollectStep(pushed, Push(column, value.x));
          pushed := pushed + [Push(column, value.x)];
          // `set(column, [])` on first sight, then `push(value)`
          if column in lists {
            lists := lists[column := lists[column] + [value.x]];
          } else {
            keys := keys + [column];
            lists := lists[column := [value.x]];
          }
          hasValidData := true;
        } else {
          assert FeaturePushes(features[i], cols[..k]) + [] == FeaturePushes(features[i], cols[..k]);
        }
      }
      assert cols[..|cols|] == cols;
    }
    assert features[..|features|] == features;
  }

  /** Lines 102-178 (columns `None` when the option is omitted, `data` None
      when it is not an array). */
  method AdaptGeojsonForBoxplot(data: Option<seq<Feature>>, columns: Option<Columns>)
    returns (r: Option<ColumnData<real>>)
    ensures r == Adapt(data, columns)
    ensures r.Some? ==>
      var ps := Pushes(data.value, ColumnNames(columns).value);
      && WellFormed(r.value)
      && r.value.keys == FirstSeen(ps)
      && forall c :: c in r.value.lists ==> r.value.lists[c] == Pushed(ps, c)
  {
    if data.None? {
      return None;
    }
    var names := ColumnNames(columns);
    if names.None? {
      return None;
    }
    var keys, lists, hasValidData := CollectColumns(data.value, names.value);
    if !hasValidData {
      return None;
    }
    r := Some(ColumnData(keys, lists));
    CollectMeaning(Pushes(data.value, names.value));
  }

  /** Lines 157-177: a column is a key exactly when it is one of the names
      and some feature holds a valid number in it; the result is null
      exactly when no named column holds one. */
  lemma ColumnPresence(data: seq<Feature>, names: seq<string>, c: string)
    ensures c in FirstSeen(Pushes(data, names)) <==> c in names && Numbers(ColumnOf(data, c)) != []
    ensures Pushes(data, names) == [] <==>
      forall n :: n in names ==> Numbers(ColumnOf(data, n)) == []
  {
    var ps := Pushes(data, names);
    PushesMembers(data, names);
    if c in names && Numbers(ColumnOf(data, c)) != [] {
      var v := Numbers(ColumnOf(data, c))[0];
      assert Push(c, v) in ps;
    }
    forall n | n in names && Numbers(ColumnOf(data, n)) != [] ensures ps != [] {
      var v := Numbers(ColumnOf(data, n))[0];
      assert Push(n, v) in ps;
    }
    if ps != [] {
      assert ps[0] in ps;
      assert Numbers(ColumnOf(data, ps[0].column)) != [] by {
        assert ps[0].value in Numbers(ColumnOf(data, ps[0].column));
      }
    }
  }

  /** Lines 102-178: the adapter returns null exactly for a non-array
      `data`, invalid column names, or when no named column holds a valid
      number in any feature; otherwise it returns a `Map`. */
  lemma AdaptNullExactly(data: Option<seq<Feature>>, columns: Option<Columns>)
    ensures Adapt(data, columns).None? <==>
      || data.None?
      || ColumnNames(columns).None?
      || forall n :: n in ColumnNames(columns).value ==> Numbers(ColumnOf(data.value, n)) == []
  {
    if data.Some? && ColumnNames(columns).Some? {
      ColumnPresence(data.value, ColumnNames(columns).value, "");
    }
  }

  lemma {:induction false} PushedConcat(a: seq<Push>, b: seq<Push>, c: string)
    ensures Pushed(a + b, c) == Pushed(a, c) + Pushed(b, c)
  {
    if b != [] {
      var init := b[..|b| - 1];
      assert (a + b)[..|a + b| - 1] == a + init;
      PushedConcat(a, init, c);
    } else {
      assert a + b == a;
    }
  }

  lemma {:induction false} PushedOfFeature(f: Feature, names: seq<string>, c: string)
    requires forall i, j :: 0 <= i < j < |names| ==> names[i] != names[j]
    ensures Pushed(FeaturePushes(f, names), c) ==
      if c in names && PropertyOf(f, c).Num? then [PropertyOf(f, c).x] else []
  {
    if names != [] {
      var init, last := names[..|names| - 1], names[|names| - 1];
      assert names == init + [last];
      PushedOfFeature(f, init, c);
      var tail := if PropertyOf(f, last).Num? then [Push(last, PropertyOf(f, last).x)] else [];
      PushedConcat(FeaturePushes(f, init), tail, c);
      assert last !in init by {
        forall i | 0 <= i < |init| ensures init[i] != last {
          assert names[i] != names[|names| - 1];
        }
      }
    }
  }

  /** Lines 157-169: with pairwise distinct names (as every year range
      gives), a column's list is its valid numbers in feature order. */
  lemma {:induction false} ColumnListsAreValidValues(data: seq<Feature>, names: seq<string>, c: string)
    requires forall i, j :: 0 <= i < j < |names| ==> names[i] != names[j]
    requires c in names
    ensures Pushed(Pushes(data, names), c) == Numbers(ColumnOf(data, c))
  {
    if data != [] {
      var init, last := data[..|data| - 1], data[|data| - 1];
      ColumnListsAreValidValues(init, names, c);
      PushedConcat(Pushes(init, names), FeaturePushes(last, names), c);
      PushedOfFeature(last, names, c);
      var col := ColumnOf(data, c);
      assert col == ColumnOf(init, c) + [PropertyOf(last, c)];
      assert col[..|col| - 1] == ColumnOf(init, c);
    }
  }

  // ---------------------------------------------------------------------
  // computeMultiBoxplotStats

  datatype ColumnStats = ColumnStats(column: string, stats: Option<Stats>)

  /** A `number[]` handed to `computeBoxplotStats`. */
  function AsValues(xs: seq<real>): (vs: seq<Value>)
    ensures |vs| == |xs|
  {
    seq(|xs|, i requires 0 <= i < |xs| => Num(xs[i]))
  }

  /** The valid numbers of a list of reals handed over as a `number[]`, as
      every list of the adapter's `Map` is, are the list itself. */
  lemma {:induction false} NumbersOfValues(xs: seq<real>)
    ensures Numbers(AsValues(xs)) == xs
  {
    if xs != [] {
      var init := xs[..|xs| - 1];
      assert AsValues(xs)[..|xs| - 1] == AsValues(init);
      NumbersOfValues(init);
    }
  }

  /** Line 215: the statistics of one column's list, which are null exactly
      when the list holds no valid number (it is empty or all NaN). */
  function StatsOfList(xs: seq<Value>, w: Value, eps: Option<real>): (r: Option<Stats>)
    ensures r.None? <==> Numbers(xs) == []
    ensures r.Some? ==> r.value.min == Least(Numbers(xs)) && r.value.max == Greatest(Numbers(xs))
  {
    ComputeBoxplotStats(Some(xs), w, eps)
  }

  /** The adapter's `Map` handed to the driver: the same keys, each list of
      reals as a `number[]`. */
  function AsNumberLists(m: ColumnData<real>): (r: ColumnData<Value>)
    ensures r.keys == m.keys
    ensures forall c :: c in r.lists <==> c in m.lists
    ensures forall c :: c in m.lists ==> Numbers(r.lists[c]) == m.lists[c]
  {
    var lists := map c | c in m.lists :: AsValues(m.lists[c]);
    forall c | c in m.lists ensures Numbers(lists[c]) == m.lists[c] {
      NumbersOfValues(m.lists[c]);
    }
    ColumnData(m.keys, lists)
  }

  /** The entries `results` holds after the loop of lines 214-220 visited
      the keys `keys`, with `stats` for the statistics of one list. */
  function Results(m: ColumnData<Value>, keys: seq<string>, stats: seq<Value> -> Option<Stats>): seq<ColumnStats>
    requires forall c :: c in keys ==> c in m.lists
  {
    if keys == [] then []
    else
      var c := keys[|keys| - 1];
      Results(m, keys[..|keys| - 1], stats) + [ColumnStats(c, stats(m.lists[c]))]
  }

  /** `computeBoxplotStats(data, { whiskerMultiplier, epsilon })` as the
      driver applies it to each column's list. */
  function StatsOf(w: Value, eps: Option<real>): seq<Value> -> Option<Stats> {
    xs => StatsOfList(xs, w, eps)
  }

  /** The result of lines 200-228 when `stats` gives the statistics of one
      list: one entry per key in key order, or `null` when no column has
      any statistics (which includes the empty `Map`). */
  function Multi(columnData: Option<ColumnData<Value>>, stats: seq<Value> -> Option<Stats>): (r: Option<seq<ColumnStats>>)
    requires columnData.Some? ==> WellFormed(columnData.value)
    ensures columnData.None? ==> r.None?
    ensures r.Some? ==> |r.value| == |columnData.value.keys|
    ensures r.Some? ==> forall i :: 0 <= i < |r.value| ==> r.value[i].column == columnData.value.keys[i]
  {
    if columnData.None? then None
    else
      var m := columnData.value;
      ResultsMeaning(m, m.keys, stats);
      var rs := Results(m, m.keys, stats);
      if NoStats(rs) then None else Some(rs)
  }

  /** No entry has statistics. */
  predicate NoStats(rs: seq<ColumnStats>) {
    rs == [] || (NoStats(rs[..|rs| - 1]) && rs[|rs| - 1].stats.None?)
  }

  /** One step of the loop of lines 214-220. */
  lemma ResultsStep(m: ColumnData<Value>, keys: seq<string>, stats: seq<Value> -> Option<Stats>, i: nat)
    requires forall c :: c in keys ==> c in m.lists
    requires i < |keys|
    ensures var rs := Results(m, keys[..i], stats);
      var rs' := rs + [ColumnStats(keys[i], stats(m.lists[keys[i]]))];
      && Results(m, keys[..i + 1], stats) == rs'
      && (NoStats(rs') <==> NoStats(rs) && stats(m.lists[keys[i]]).None?)
  {
    assert keys[..i + 1][..i] == keys[..i];
    var rs := Results(m, keys[..i], stats);
    var rs' := rs + [ColumnStats(keys[i], stats(m.lists[keys[i]]))];
    assert rs'[..|rs|] == rs;
  }

  /** Lines 186-229 (`columnData` None when it is not a Map). The driver's
      own default 1.5 is the one `computeBoxplotStats` would apply. */
  method ComputeMultiBoxplotStats(columnData: Option<ColumnData<Value>>, whiskerMultiplier: Value, epsilon: Option<real>)
    returns (r: Option<seq<ColumnStats>>)
    requires columnData.Some? ==> WellFormed(columnData.value)
    ensures r == Multi(columnData, StatsOf(whiskerMultiplier, epsilon))
  {
    if columnData.None? {
      return None;
    }
    var m := columnData.value;
    var f := StatsOf(whiskerMultiplier, epsilon);
    var results: seq<ColumnStats> := [];
    var hasValidStats := false;
    for i := 0 to |m.keys|
      invariant results == Results(m, m.keys[..i], f)
      invariant hasValidStats == !NoStats(results)
    {
      var column := m.keys[i];
      var stats := f(m.lists[column]);
      ResultsStep(m, m.keys, f, i);
      results := results + [ColumnStats(column, stats)];
      if stats.Some? {
        hasValidStats := true;
      }
    }
    assert m.keys[..|m.keys|] == m.keys;
    if !hasValidStats {
      return None;
    }
    return Some(results);
  }

  /** The entry at position i is the i-th key and the statistics of its
      list, and no entry has statistics exactly when no list gives any. */
  lemma {:induction false} ResultsMeaning(m: ColumnData<Value>, keys: seq<string>, stats: seq<Value> -> Option<Stats>)
    requires forall c :: c in keys ==> c in m.lists
    ensures |Results(m, keys, stats)| == |keys|
    ensures forall i :: 0 <= i < |keys| ==>
      Results(m, keys, stats)[i] == ColumnStats(keys[i], stats(m.lists[keys[i]]))
    ensures NoStats(Results(m, keys, stats)) <==>
      forall i :: 0 <= i < |keys| ==> stats(m.lists[keys[i]]).None?
  {
    if keys != [] {
      var init := keys[..|keys| - 1];
      ResultsMeaning(m, init, stats);
      var rs, rs0 := Results(m, keys, stats), Results(m, init, stats);
      assert rs[..|rs| - 1] == rs0;
      forall i | 0 <= i < |keys| ensures rs[i] == ColumnStats(keys[i], stats(m.lists[keys[i]])) {
        if i < |init| {
          assert rs[i] == rs0[i] && init[i] == keys[i];
        }
      }
    }
  }

  /** Lines 205-228: with statistics that are null exactly for the empty
      list holds no valid number, as `computeBoxplotStats` is, the result
      is null exactly when no column's list holds one; otherwise it lists
      every key of the `Map` in order with the statistics of its list. */
  lemma MultiMeaning(m: ColumnData<Value>, stats: seq<Value> -> Option<Stats>)
    requires WellFormed(m)
    requires forall xs :: stats(xs).None? <==> Numbers(xs) == []
    ensures Multi(Some(m), stats).None? <==>
      forall i :: 0 <= i < |m.keys| ==> Numbers(m.lists[m.keys[i]]) == []
    ensures Multi(Some(m), stats).Some? ==>
      var rs := Multi(Some(m), stats).value;
      && |rs| == |m.keys|
      && forall i :: 0 <= i < |rs| ==> rs[i] == ColumnStats(m.keys[i], stats(m.lists[m.keys[i]]))
  {
    ResultsMeaning(m, m.keys, stats);
  }

  /** The adapter's `Map` never makes the driver return null: the adapter
      returns `Collect(ps)` only for pushes `ps` that are not empty, and
      every list of such a `Map` has at least one value. */
  lemma AdaptedColumnsHaveStats(ps: seq<Push>, w: Value, eps: Option<real>)
    requires ps != []
    ensures WellFormed(Collect(ps))
    ensures Multi(Some(AsNumberLists(Collect(ps))), StatsOf(w, eps)).Some?
  {
    var m := AsNumberLists(Collect(ps));
    CollectMeaning(ps);
    var c := ps[0].column;
    assert ps[0] in ps;
    assert c in FirstSeen(ps);
    assert ps[0].value in Numbers(m.lists[c]);
    var i :| 0 <= i < |m.keys| && m.keys[i] == c;
    MultiMeaning(m, StatsOf(w, eps));
  }

  /** A list the adapter never builds but a caller of the exported driver
      may pass: `new Map([['a', [NaN]]])` has no valid number, so the
      driver returns null although the list is not empty. */
  lemma OnlyNaNGivesNull(w: Value, eps: Option<real>)
    ensures Multi(Some(ColumnData(["a"], map["a" := [NaN]])), StatsOf(w, eps)).None?
  {
    var m := ColumnData(["a"], map["a" := [NaN]]);
    assert Numbers(m.lists["a"]) == [];
    MultiMeaning(m, StatsOf(w, eps));
  }
}
