# GlobalEVData / USCharger map utilities in Dafny

This project models the data utilities behind the USCharger electric-vehicle
map: the code that turns GeoJSON features into colours, box plots, label
positions and deck.gl layers.

- `normalizer.dfy` (module `Normalizer`) models the choropleth value
  normaliser `createNormalizer` of `docs/src/utils/normalizer.ts`:
  - it validates the input and scans once for the least and greatest valid
    value of a column;
  - it handles the no-data and all-equal cases and shifts the domain for the
    log, sqrt and exp curves;
  - it returns a closure that clamps to [0, 1] and rescales into
    [boundaryEpsilon, 1 - boundaryEpsilon].

  The closure is the datatype `Normalizer`, which holds what it captured,
  plus the function `Normalize`, which is what a call does.
- `legacy_normalizer.dfy` (module `LegacyNormalizer`) models the older
  linear-only `createNormalizer` of `docs/src/layouts/utils.js`. Unlike the
  newer one, it does not validate, does not clamp, and lets a NaN in the data
  poison its running minimum and maximum.
- `boxplot_stats.dfy` (module `BoxplotStats`) models three functions:
  - `computeBoxplotStats`: the sort, the interpolated quartiles, the
    whiskers and the outliers of one list;
  - `adaptGeojsonForBoxplot`: the `Map` of per-column number lists gathered
    from features;
  - `computeMultiBoxplotStats`: the statistics of every column of such a
    `Map`.
- `centroid.dfy` (module `Centroid`) models `calculateGeoJsonCentroid` of
  `docs/src/layouts/utils.ts`. It dispatches on the GeoJSON type (RFC 7946,
  section 3), averages the chosen positions, and recurses into geometry and
  feature collections. A centroid of `[NaN, NaN]` is `None`, and a thrown
  `Error` is `Throws`.
- `layer.dfy` (module `Layers`) models the class `Layer` of
  `docs/src/composables/useLayer.ts`: the defaulting constructor and the four
  getter and setter pairs.
- `layer_group.dfy` (module `LayerGroups`) models the class `LayerGroup` of
  `docs/src/composables/useLayerGroup.ts`. It is an ordered list of layer
  entries changed in place, and `getLayers` turns the visible entries into
  deck.gl layer descriptors.
- `common.dfy` (module `Common`) holds what these share:
  - the JavaScript value as the utilities inspect it;
  - a feature's property bag and the column scans over it;
  - the running minimum and maximum;
  - decimal printing.

The code that changes state step by step is written as methods with loops and
proved against specification functions:
- the normaliser's scan (`CreateNormalizer`, `CreateLegacyNormalizer`);
- the adapter's nested loops (`CollectColumns`);
- the driver's loop (`ComputeMultiBoxplotStats`);
- the centroid's averaging loops;
- the two classes.

The properties the source promises are stated on those functions and in
lemmas.

Numbers are modelled as `real`, and a NaN result as `None`. Integers are
unbounded, which is faithful here, since nothing in the core wraps around.

The model follows the normaliser's code, with one exception. The guard at
normalizer.ts:40-43 evidently means to replace every invalid
`boundaryEpsilon` with 1e-5, as its warning 'Using default 1e-5' says, but
as written it keeps NaN. The model replaces NaN too (see "## Findings" and
"## Left out"). Two facts of the code that a reader might not expect:
- normalizer.ts:40 replaces every `boundaryEpsilon` at or below 0 with 1e-5,
  so the extremes of the data map to 1e-5 and 1 - 1e-5.
- A stretch curve can return NaN for a number, so the output range is stated
  for numeric outputs.

## Model

| member | source | states |
|---|---|---|
| Common.ColumnOf | docs/src/utils/normalizer.ts:50-53 | one value per feature: what `feature.properties[column]` reads, undefined when the properties are missing |
| Common.ColumnOfAt | docs/src/utils/normalizer.ts:50-53 | the i-th value of the column is the i-th feature's property |
| Common.Numbers | docs/src/utils/boxplotStats.ts:37-39 | the filter `typeof v === 'number' && !isNaN(v)`: a real is kept exactly when it occurs as a number among the values, and the result is no longer than the input |
| Common.Least | docs/src/utils/normalizer.ts:55 | a running `Math.min` gives an element of the list that is no greater than any element |
| Common.Greatest | docs/src/utils/normalizer.ts:56 | a running `Math.max` gives an element of the list that is no smaller than any element |
| Common.Decimal | docs/src/utils/boxplotStats.ts:136-139 | template-literal printing of a natural number gives a non-empty string of decimal digits |
| Common.DecimalInjective | docs/src/utils/boxplotStats.ts:136-139 | two numbers print alike only when they are equal |
| Normalizer.SelectMode | docs/src/utils/normalizer.ts:32-37 | each of 'log', 'sqrt', 'exp' and 'arctan' selects its curve, and every other mode value (missing, unknown, not a string) falls back to linear |
| Normalizer.BoundaryEpsilonAsWritten | docs/src/utils/normalizer.ts:40-43 | the guard as written keeps a number strictly between 0 and 0.5 as it is, and NaN is the one input it yields no number for |
| Normalizer.NaNBoundaryEpsilonKept | docs/src/utils/normalizer.ts:40-43 | a NaN boundaryEpsilon survives the written guard |
| Normalizer.CheckedBoundaryEpsilon | docs/src/utils/normalizer.ts:40-43 | the corrected guard always yields a value strictly between 0 and 0.5: the option when it is such a number, 1e-5 otherwise |
| Normalizer.CheckedAgreesWithWritten | docs/src/utils/normalizer.ts:40-43 | the corrected guard agrees with the written one wherever that one yields a number |
| Normalizer.ShiftDomain | docs/src/utils/normalizer.ts:71-81 | for log, sqrt and exp, a negative min moves to epsilon and keeps the range max - min; for log, a zero min becomes epsilon; otherwise the bounds are unchanged |
| Normalizer.Build | docs/src/utils/normalizer.ts:8-84 | a stretching normaliser always has a boundary epsilon in (0, 0.5), and in linear and arctan mode min < max |
| Normalizer.CreateNormalizer | docs/src/utils/normalizer.ts:19-84 | the validation, the scan loop for min, max and hasValidValue, the degenerate cases and the shift yield exactly `Build` |
| Normalizer.Clamp01 | docs/src/utils/normalizer.ts:112 | the clamp lies in [0, 1] and leaves values in [0, 1] alone |
| Normalizer.Rescale | docs/src/utils/normalizer.ts:113 | 0 maps to boundaryEpsilon, 1 to 1 - boundaryEpsilon, and [0, 1] into [boundaryEpsilon, 1 - boundaryEpsilon] |
| Normalizer.Normalize | docs/src/utils/normalizer.ts:86-114 | the returned closure: NaN for the no-data normaliser and for a non-number argument, 0.5 for the all-equal normaliser, and every numeric output in [boundaryEpsilon, 1 - boundaryEpsilon] |
| Normalizer.RescaleBounds | docs/src/utils/normalizer.ts:113 | the rescale maps [0, 1] monotonically into [boundaryEpsilon, 1 - boundaryEpsilon] |
| Normalizer.InvalidInputGivesNaN | docs/src/utils/normalizer.ts:27-29 | data that is not an array, or a column that is empty or not a string, gives NaN for every argument |
| Normalizer.UnknownModeIsLinear | docs/src/utils/normalizer.ts:32-37 | an unknown mode builds the same normaliser as 'linear' |
| Normalizer.ScanFindsExtremes | docs/src/utils/normalizer.ts:46-69 | a stretching normaliser's scan found distinct least and greatest valid values; each is held by some feature, every valid value lies between them, and linear and arctan keep them as min and max |
| Normalizer.DegenerateCases | docs/src/utils/normalizer.ts:61-69 | no valid value gives NaN for every argument, and all valid values equal gives 0.5 for every argument |
| Normalizer.NonNumberGivesNaN | docs/src/utils/normalizer.ts:86-89 | a stretching normaliser maps a non-number or NaN argument to NaN |
| Normalizer.StretchInRange | docs/src/utils/normalizer.ts:112-113 | whatever the curve yields, a numeric output lies in [boundaryEpsilon, 1 - boundaryEpsilon], and in linear mode every number gives a number |
| Normalizer.OutputInRange | docs/src/utils/normalizer.ts:86-113 | for every input, option and curve, every numeric output lies in [be, 1 - be] for the boundary epsilon in effect |
| Normalizer.LinearStretch | docs/src/utils/normalizer.ts:93-94 | a linear stretch maps min to boundaryEpsilon and max to 1 - boundaryEpsilon, and is non-decreasing |
| Normalizer.LinearEndpointsAndMonotone | docs/src/utils/normalizer.ts:86-113 | in linear mode the least valid value maps to boundaryEpsilon, the greatest to 1 - boundaryEpsilon, and the map is non-decreasing |
| Normalizer.AffineUnit | docs/src/utils/normalizer.ts:94 | `(value - min) / range` sends min to 0 and max to 1 and keeps order |
| LegacyNormalizer.SummaryStep | docs/src/layouts/utils.js:12-19 | one step of the scan: a NaN poisons the pair for good, a non-number leaves it alone, and a number updates min and max |
| LegacyNormalizer.Build | docs/src/layouts/utils.js:7-28 | the factory throws exactly when some feature has no properties, and an affine normaliser has min < max |
| LegacyNormalizer.Normalize | docs/src/layouts/utils.js:23-32 | 0.5 for the all-equal normaliser; NaN otherwise for a non-number; for a number x, a result r with r * (max - min) == x - min |
| LegacyNormalizer.CreateLegacyNormalizer | docs/src/layouts/utils.js:7-33 | the loop yields exactly `Build`, including the TypeError for a feature without properties |
| LegacyNormalizer.LegacyBoundsOverNumbers | docs/src/layouts/utils.js:12-19 | an affine normaliser's min and max occur in the column, min < max, no NaN occurs, and every number of the column lies between them |
| LegacyNormalizer.LegacyConstantHalf | docs/src/layouts/utils.js:22-24 | equal min and max give 0.5 for every argument |
| LegacyNormalizer.LegacyAffine | docs/src/layouts/utils.js:26-32 | min maps to 0 and max to 1, the map is non-decreasing, and `(x - min) / range` times the range gives back `x - min` |
| LegacyNormalizer.LegacyNonNumber | docs/src/layouts/utils.js:30 | a non-number argument gives NaN |
| LegacyNormalizer.LegacyNoClamp | docs/src/layouts/utils.js:31 | arguments above max map above 1 and arguments below min map below 0 |
| LegacyNormalizer.LegacyNaNCases | docs/src/layouts/utils.js:9-31 | a column with no number, or with a NaN, gives NaN for every argument |
| BoxplotStats.InsertSpec | docs/src/utils/boxplotStats.ts:52 | inserting into an ascending list keeps it ascending and adds exactly that value |
| BoxplotStats.SortAscending | docs/src/utils/boxplotStats.ts:52 | the sorted copy has the input's length and holds exactly its values; with SortSpec, it is ascending and a permutation |
| BoxplotStats.SortSpec | docs/src/utils/boxplotStats.ts:52 | the numeric sort gives an ascending permutation of its input |
| BoxplotStats.SortedSameValues | docs/src/utils/boxplotStats.ts:52 | the sorted copy holds the same values |
| BoxplotStats.SortedEnds | docs/src/utils/boxplotStats.ts:52-57 | `sortedData[0]` is the least value and `sortedData[n - 1]` the greatest |
| BoxplotStats.Position | docs/src/utils/boxplotStats.ts:61-63 | the lower index lies in [0, n) and the fraction in [0, 1); they add up to `q * (n - 1)`; the fraction is 0 at the last index |
| BoxplotStats.PositionMonotone | docs/src/utils/boxplotStats.ts:61-63 | a larger q gives a larger lower index, or the same index with a fraction no smaller |
| BoxplotStats.QuantileAsWritten | docs/src/utils/boxplotStats.ts:60-68 | `getQuantile` as written is a number whenever epsilon > 0 |
| BoxplotStats.QuantileReadsPastEnd | docs/src/utils/boxplotStats.ts:60-68 | with epsilon 0, the median of `[5]` reads `sortedData[1]`, which is past the end |
| BoxplotStats.Quantile | docs/src/utils/boxplotStats.ts:60-68 | the corrected quantile is the element at the lower index when the fraction is below epsilon, and agrees with the written one wherever that is a number |
| BoxplotStats.InterpolateBetween | docs/src/utils/boxplotStats.ts:67 | interpolating between a <= b with a fraction in [0, 1] stays between them |
| BoxplotStats.QuantileBetween | docs/src/utils/boxplotStats.ts:60-68 | the quantile lies between the element at the lower index and the next one |
| BoxplotStats.InterpolateMonotone | docs/src/utils/boxplotStats.ts:67 | the interpolation grows with the fraction |
| BoxplotStats.QuantileMonotone | docs/src/utils/boxplotStats.ts:60-72 | a later quantile of an ascending list is never smaller |
| BoxplotStats.WhiskerMultiplierAsWritten | docs/src/utils/boxplotStats.ts:45-49 | the guard as written keeps a positive number as it is, and NaN is the one input it yields no number for |
| BoxplotStats.NaNWhiskerMultiplierKept | docs/src/utils/boxplotStats.ts:45-49 | a NaN multiplier survives the written guard |
| BoxplotStats.CheckedWhiskerMultiplier | docs/src/utils/boxplotStats.ts:45-49 | the corrected guard always yields a positive multiplier: the option when it is a positive number, 1.5 otherwise; it agrees with the written guard wherever that one yields a number |
| BoxplotStats.Outliers | docs/src/utils/boxplotStats.ts:80 | the filter is no longer than its input and keeps only values strictly outside [whiskerMin, whiskerMax] |
| BoxplotStats.OutliersMembers | docs/src/utils/boxplotStats.ts:80 | the filter keeps exactly the values strictly outside [whiskerMin, whiskerMax] |
| BoxplotStats.OutliersCounts | docs/src/utils/boxplotStats.ts:80 | each kept value is kept as often as it occurs |
| BoxplotStats.OutliersAscending | docs/src/utils/boxplotStats.ts:80 | the outliers of an ascending list are ascending |
| BoxplotStats.QuartilesOrdered | docs/src/utils/boxplotStats.ts:70-72 | min <= q1 <= median <= q3 <= max |
| BoxplotStats.Whiskers | docs/src/utils/boxplotStats.ts:75-77 | the whiskers are clipped to [min, max], and with ordered quartiles they enclose [q1, q3] |
| BoxplotStats.Summarize | docs/src/utils/boxplotStats.ts:52-93 | min and max are the ends of the sorted list; the extremes, whiskers, quartiles and median nest in box-plot order, and iqr = q3 - q1 >= 0 |
| BoxplotStats.ComputeBoxplotStats | docs/src/utils/boxplotStats.ts:7-94 | null exactly for a non-array or no valid number; otherwise min and max are the least and greatest valid values and the statistics are ordered |
| BoxplotStats.StatsOutliers | docs/src/utils/boxplotStats.ts:79-80 | the outliers are exactly the valid values strictly outside the whiskers, each as often as it occurs, in ascending order |
| BoxplotStats.YearNames | docs/src/utils/boxplotStats.ts:131-139 | one name per year, the i-th being `Year<start + i>` |
| BoxplotStats.YearNamesDistinct | docs/src/utils/boxplotStats.ts:136-139 | the names of a year range are pairwise distinct |
| BoxplotStats.ColumnNames | docs/src/utils/boxplotStats.ts:117-150 | a valid integer year range within 1900-2100 gives its years; any other range, a missing option or another value gives 2014-2024; an array gives its strings, or null when it is empty or holds a non-string |
| BoxplotStats.FeaturePushesOfNone | docs/src/utils/boxplotStats.ts:158 | a feature without properties pushes nothing |
| BoxplotStats.FeaturePushesStep | docs/src/utils/boxplotStats.ts:159-168 | one step of the inner loop pushes the column's value exactly when it is a number |
| BoxplotStats.FeaturePushesMembers | docs/src/utils/boxplotStats.ts:159-167 | a feature pushes (c, v) exactly when c is named and the feature holds the number v in it |
| BoxplotStats.PushesMembers | docs/src/utils/boxplotStats.ts:157-169 | the loops push (c, v) exactly when c is named and some feature holds v in c |
| BoxplotStats.FirstSeen | docs/src/utils/boxplotStats.ts:162-164 | the `Map` keys are pairwise distinct and are exactly the columns pushed onto |
| BoxplotStats.Pushed | docs/src/utils/boxplotStats.ts:165 | a column's list holds exactly the values pushed onto it |
| BoxplotStats.PushedNone | docs/src/utils/boxplotStats.ts:162-165 | a column never pushed onto has no values |
| BoxplotStats.PushedConcat | docs/src/utils/boxplotStats.ts:165 | the pushes onto a column accumulate in order |
| BoxplotStats.PushedOfFeature | docs/src/utils/boxplotStats.ts:159-167 | with distinct names, one feature pushes onto column c exactly its own value of c when c is named and that value is a number, and nothing otherwise |
| BoxplotStats.CollectStep | docs/src/utils/boxplotStats.ts:162-165 | a column new to the `Map` becomes its last key with a one-value list; a known column gets the value appended |
| BoxplotStats.CollectMeaning | docs/src/utils/boxplotStats.ts:153-169 | the `Map` is well formed; its keys are the columns in the order of first push, and each list is the values pushed onto that column, in order |
| BoxplotStats.Adapt | docs/src/utils/boxplotStats.ts:102-178 | null exactly for a non-array `data`, invalid column names, or no push at all; otherwise a well-formed `Map` with at least one key |
| BoxplotStats.CollectColumns | docs/src/utils/boxplotStats.ts:153-169 | the nested loops build exactly `Collect` of all pushes, and hasValidData holds exactly when something was pushed |
| BoxplotStats.AdaptGeojsonForBoxplot | docs/src/utils/boxplotStats.ts:102-178 | computes `Adapt`: null exactly for a non-array, invalid names or no valid data; otherwise a well-formed `Map` whose keys are in first-push order and whose lists are the pushed values |
| BoxplotStats.ColumnPresence | docs/src/utils/boxplotStats.ts:157-177 | a column is a key exactly when it is named and holds a valid number, and nothing is pushed exactly when no named column holds one |
| BoxplotStats.AdaptNullExactly | docs/src/utils/boxplotStats.ts:102-178 | the adapter returns null exactly for a non-array, invalid names, or no valid number in any named column, and a `Map` otherwise |
| BoxplotStats.ColumnListsAreValidValues | docs/src/utils/boxplotStats.ts:157-169 | with distinct names, a column's list is its valid numbers in feature order |
| BoxplotStats.NumbersOfValues | docs/src/utils/boxplotStats.ts:215 | a list of reals handed over as a `number[]`, as each list of the adapter's `Map` is, keeps all its values through the filter of line 38 |
| BoxplotStats.StatsOfList | docs/src/utils/boxplotStats.ts:215 | the statistics of any `number[]`, NaN included, are null exactly when it holds no valid number, and otherwise span its least and greatest valid numbers |
| BoxplotStats.AsNumberLists | docs/src/utils/boxplotStats.ts:186-187 | the adapter's `Map` passed to the driver keeps its keys, and each list's valid numbers are the list itself |
| BoxplotStats.ResultsStep | docs/src/utils/boxplotStats.ts:214-220 | one loop step appends the column's entry, and hasValidStats becomes true exactly when its statistics exist |
| BoxplotStats.ResultsMeaning | docs/src/utils/boxplotStats.ts:211-220 | entry i is the i-th key with the statistics of its list, and no entry has statistics exactly when no list gives any |
| BoxplotStats.Multi | docs/src/utils/boxplotStats.ts:200-228 | over lists of any numbers, NaN included: null for input that is not a `Map`; otherwise a result lists one entry per key, the i-th for the i-th key |
| BoxplotStats.ComputeMultiBoxplotStats | docs/src/utils/boxplotStats.ts:186-229 | the loop over the `Map` yields exactly `Multi` with `computeBoxplotStats` as the statistics |
| BoxplotStats.MultiMeaning | docs/src/utils/boxplotStats.ts:205-228 | null exactly when no list holds a valid number (an empty `Map`, empty lists, or lists of NaN only); otherwise one entry per key, in key order, with the statistics of its list |
| BoxplotStats.AdaptedColumnsHaveStats | docs/src/utils/boxplotStats.ts:214-226 | a `Map` built from pushes that are not empty, as every one the adapter returns, is well formed, and the driver never returns null for it |
| BoxplotStats.OnlyNaNGivesNull | docs/src/utils/boxplotStats.ts:214-226 | a `Map` whose one list is `[NaN]` makes the driver return null |
| Centroid.Mean | docs/src/layouts/utils.ts:45-57 | the mean is NaN exactly for an empty list (0 / 0) |
| Centroid.Flatten | docs/src/layouts/utils.ts:61 | `flat()` holds exactly the positions of the lines |
| Centroid.FlattenConcat | docs/src/layouts/utils.ts:61 | `flat()` of two lists of lines is the `flat()` of the first followed by that of the second |
| Centroid.FlattenKeepsRepeats | docs/src/layouts/utils.ts:61 | one line flattens to itself, and appending a line adds its length and every occurrence of its positions, repeats included |
| Centroid.Known | docs/src/layouts/utils.ts:92-101 | the numeric centroids are all of them exactly when none is NaN |
| Centroid.MeanOfCentroids | docs/src/layouts/utils.ts:90-102 | a collection's mean is a number only when every member's centroid is |
| Centroid.Gather | docs/src/layouts/utils.ts:91 | when the `map` does not throw, it gives one centroid per member |
| Centroid.CollectionCentroid | docs/src/layouts/utils.ts:90-117 | a collection's centroid throws exactly when some member throws, and is numeric only when the collection is non-empty and every member's centroid is numeric |
| Centroid.AveragePositions | docs/src/layouts/utils.ts:45-57 | the averaging loop computes `Mean` |
| Centroid.AverageCentroids | docs/src/layouts/utils.ts:90-102 | the averaging loop over member centroids computes `MeanOfCentroids`; one NaN member makes the result NaN |
| Centroid.OuterRingsOf | docs/src/layouts/utils.ts:75-87 | None (reading a missing outer ring throws) exactly when some polygon has no ring; otherwise the outer rings in order |
| Centroid.ComputeCentroid | docs/src/layouts/utils.ts:8-37 | the recursive dispatch computes `CentroidOf` |
| Centroid.CentroidOf | docs/src/layouts/utils.ts:8-72 | the dispatch never throws for a point, multi-point, line string or multi-line string, and a point's centroid is numeric |
| Centroid.ComputeCollection | docs/src/layouts/utils.ts:90-117 | `map` followed by the averaging loop computes the collection's centroid, or the first member's error |
| Centroid.GatherOk | docs/src/layouts/utils.ts:91 | when no member throws, the centroids are the members', in order |
| Centroid.GatherThrows | docs/src/layouts/utils.ts:91 | the first member that throws decides the error |
| Centroid.GatherThrowsIff | docs/src/layouts/utils.ts:91 | the `map` throws exactly when some member throws |
| Centroid.SumBounds | docs/src/layouts/utils.ts:51-54 | the sum of n coordinates between lo and hi lies between n * lo and n * hi |
| Centroid.MeanInBox | docs/src/layouts/utils.ts:45-57 | the mean of a non-empty list of positions lies in every box that holds them all |
| Centroid.ThrowsExactlyWhenNotComputable | docs/src/layouts/utils.ts:8-37 | the centroid throws exactly when a null or typeless object, an unknown type or a polygon without rings occurs anywhere inside |
| Centroid.LineCentroid | docs/src/layouts/utils.ts:14-57 | a point is its own centroid; a line string or multi-point has the mean of its positions, NaN when it has none, inside every box holding them |
| Centroid.MultiLineStringInBox | docs/src/layouts/utils.ts:59-72 | a multi-line string with positions has a numeric centroid inside every box holding all of them |
| Centroid.PolygonIgnoresHoles | docs/src/layouts/utils.ts:61 | a polygon's centroid is the mean of its outer ring, whatever its holes |
| Centroid.OuterRingsOfOuters | docs/src/layouts/utils.ts:76 | the collected rings depend only on each polygon's outer ring |
| Centroid.MultiPolygonIgnoresHoles | docs/src/layouts/utils.ts:75-87 | a multi-polygon's centroid is the mean of its outer rings and ignores holes |
| Centroid.KnownAll | docs/src/layouts/utils.ts:92-101 | when every centroid is numeric, all are kept, in order |
| Centroid.CollectionInBox | docs/src/layouts/utils.ts:104-117 | a feature's centroid is its geometry's; a non-empty collection whose members all have numeric centroids in a box has its centroid in that box |
| Layers.InitialState | docs/src/composables/useLayer.ts:33-37 | opacity and visible default to 1 and true when given null or nothing; every key of `props` is present and overrides them |
| Layers.Layer.constructor | docs/src/composables/useLayer.ts:28-40 | typeName is the type's layerName; the state is `InitialState`; data is null unless the options give a truthy one |
| Layers.Layer.Get | docs/src/composables/useLayer.ts:42-68 | a getter reads one key of the state, undefined when it is absent |
| Layers.Layer.FillColor | docs/src/composables/useLayer.ts:42-44 | `getFillColor` reads `state.getFillColor`, undefined when absent |
| Layers.Layer.LineColor | docs/src/composables/useLayer.ts:50-52 | `getLineColor` reads `state.getLineColor`, undefined when absent |
| Layers.Layer.Opacity | docs/src/composables/useLayer.ts:58-60 | `opacity` reads `state.opacity`, undefined when absent |
| Layers.Layer.Visible | docs/src/composables/useLayer.ts:66-68 | `visible` reads `state.visible`, undefined when absent |
| Layers.Layer.SetFillColor | docs/src/composables/useLayer.ts:42-48 | writes only `getFillColor`; the getter then returns the value; every other key and the data are unchanged |
| Layers.Layer.SetLineColor | docs/src/composables/useLayer.ts:50-56 | writes only `getLineColor`; the getter then returns the value; every other key and the data are unchanged |
| Layers.Layer.SetOpacity | docs/src/composables/useLayer.ts:58-64 | writes any number, NaN included, to `opacity` and nothing else; the getter then returns it; every other key and the data are unchanged |
| Layers.Layer.SetVisible | docs/src/composables/useLayer.ts:66-72 | writes only `visible`; the getter then returns the value; every other key and the data are unchanged |
| LayerGroups.FindIndex | docs/src/composables/useLayerGroup.ts:29 | the first index holding the id, or -1 exactly when no entry holds it |
| LayerGroups.RemoveFirst | docs/src/composables/useLayerGroup.ts:28-33 | removal shortens the list by one exactly when `findIndex` finds the id, and keeps only entries of the list |
| LayerGroups.UpdateFirst | docs/src/composables/useLayerGroup.ts:36-41 | an update keeps the length, and changes nothing when `find` finds no entry |
| LayerGroups.VisibleLayers | docs/src/composables/useLayerGroup.ts:61 | the filter holds exactly the visible entries of the list |
| LayerGroups.Describe | docs/src/composables/useLayerGroup.ts:69-74 | the props hold `id` and `pickable` unless the state overrides them, every state key except `data`, and the entry's data |
| LayerGroups.LayerGroup.constructor | docs/src/composables/useLayerGroup.ts:18-20 | the group starts with the given list |
| LayerGroups.LayerGroup.AddLayer | docs/src/composables/useLayerGroup.ts:23-25 | appends at the end and leaves earlier entries in their order |
| LayerGroups.LayerGroup.RemoveLayer | docs/src/composables/useLayerGroup.ts:28-33 | the list becomes `RemoveFirst` of the old list |
| LayerGroups.LayerGroup.UpdateLayerProperty | docs/src/composables/useLayerGroup.ts:36-41 | the list becomes `UpdateFirst` of the old list |
| LayerGroups.LayerGroup.SetOpacity | docs/src/composables/useLayerGroup.ts:44-46 | an `UpdateFirst` of `opacity` with any number, NaN included |
| LayerGroups.LayerGroup.SetVisibility | docs/src/composables/useLayerGroup.ts:49-51 | an `UpdateFirst` of `visible` |
| LayerGroups.LayerGroup.SetLayerOrder | docs/src/composables/useLayerGroup.ts:54-57 | the list then equals the new order, entry for entry |
| LayerGroups.LayerGroup.GetLayers | docs/src/composables/useLayerGroup.ts:60-78 | one descriptor per visible entry, in reverse list order, with `pickable` requested on the last only |
| LayerGroups.RemoveFirstIsSplice | docs/src/composables/useLayerGroup.ts:28-33 | `findIndex` and `splice` remove the first entry holding the id, and nothing when none holds it |
| LayerGroups.RemoveFirstKeepsOthers | docs/src/composables/useLayerGroup.ts:28-33 | removal keeps every entry with another id, in order; it takes away exactly one entry holding the id when there is one, and otherwise leaves the length unchanged |
| LayerGroups.MatchesOthers | docs/src/composables/useLayerGroup.ts:29 | the entries with the id and those without make up the list; none holds it exactly when the count is 0 |
| LayerGroups.UpdateFirstAtIndex | docs/src/composables/useLayerGroup.ts:36-41 | `find` and `set` change only the first entry holding the id, and only when it has `set` |
| LayerGroups.UpdateFirstKeepsOthers | docs/src/composables/useLayerGroup.ts:36-51 | for a `set` that keeps the entry's id, an update keeps the length, every entry with another id and the count of the id; with no match or no `set`, nothing changes |
| LayerGroups.VisibleConcat | docs/src/composables/useLayerGroup.ts:61 | the filter keeps list order |
| LayerGroups.FirstVisible | docs/src/composables/useLayerGroup.ts:61 | the first visible entry heads the filtered list |
| LayerGroups.VisibleCount | docs/src/composables/useLayerGroup.ts:61 | the filter drops exactly the hidden entries |
| LayerGroups.DrawOrderHoldsVisible | docs/src/composables/useLayerGroup.ts:61-63 | an entry is drawn exactly when it is in the list and visible |
| LayerGroups.OnlyFirstVisiblePickable | docs/src/composables/useLayerGroup.ts:63-66 | when no state overrides `pickable`, exactly one descriptor is pickable: the last, which describes the first visible entry in list order |
| LayerGroups.AddedLayerComesFirst | docs/src/composables/useLayerGroup.ts:61 | a visible entry added last is drawn first, followed by the older entries in the order they had |
| LayerGroups.IdsChangeWithTime | docs/src/composables/useLayerGroup.ts:70 | calls at two different times give an entry two different ids |

## Left out

- Warnings (`console.warn`) are not modelled. They are output only, and no result depends on them.
- IEEE-754 specifics are not modelled:
  - Infinity as a data value, and the ±Infinity initial min and max (these become the `Unset` scan state);
  - rounding. Sums and quotients are exact reals.
  - NaN as a value is modelled: `NaN` in the data, and `None` in results.
- The transcendental stretch curves of normalizer.ts:96-107 (`Math.log`, `Math.sqrt`, `Math.pow`, `Math.atan`) are not modelled. They are the parameter `curve`. So nothing is proved about the monotonicity of the log, sqrt, exp or arctan modes.
- Options whose `epsilon` or `expBase` is not a number are not modelled. These options are `Option<real>`.
- BoxplotStats.ComputeBoxplotStats, BoxplotStats.Summarize: a NaN `whiskerMultiplier` becomes 1.5 here, through the corrected guard `CheckedWhiskerMultiplier`. The code keeps the NaN and both whiskers are NaN. `NaNWhiskerMultiplierKept` states the written behaviour. A NaN `epsilon` is not modelled; the epsilon is a real.
- Normalizer.Build, Normalizer.CreateNormalizer: a NaN `boundaryEpsilon` becomes 1e-5 here, through the corrected guard `CheckedBoundaryEpsilon`. The code keeps the NaN, and normalizer.ts:113 then returns NaN for every number. `NaNBoundaryEpsilonKept` states the written behaviour.
- BoxplotStats.Summarize, BoxplotStats.ComputeBoxplotStats: one value with epsilon at or below 0 gives that value as q1, median and q3 here, with iqr 0 and both whiskers at it, through the corrected `Quantile`. The code reads past the end at boxplotStats.ts:67 and gives NaN quartiles, IQR and whiskers, and no outliers. `StatsOfList` and `ComputeMultiBoxplotStats` inherit this. `QuantileReadsPastEnd` states the written behaviour.
- A `columns` option of `null` is not modelled. Evaluating `'startYear' in null` at boxplotStats.ts:121 throws a TypeError.
- Duplicate column names in the adapter are modelled, and each occurrence pushes again. `ColumnListsAreValidValues` assumes distinct names, as every year range gives.
- A `data` argument of the legacy utils.js normaliser that is not iterable is not modelled.
- Three-dimensional positions (altitude) and positions with fewer than two numbers are not modelled. A position is a longitude and a latitude.
- A `null` feature inside a FeatureCollection is not modelled. Reading `feature.geometry` would throw; the model holds each feature's geometry.
- A geometry without `coordinates`, and a collection without `geometries` or `features`, are not modelled. The code throws a TypeError on them (utils.ts:40, 46-49, 91 and 106); the datatype always carries these fields.
- The branch 'Unsupported GeoJSON object' (utils.ts:34) is not modelled. It needs a truthy non-object with a truthy `type` property.
- Vue's `reactive` and `markRaw` wrappers are not modelled. They do not change values.
- The layer type object is only its `layerName` and a handle.
- An entry's `set` is foreign code. It is the parameter `apply`, which returns the entry as changed, and the group stores that in place of the old one.
- Aliasing between entries and outside references is not modelled.
- `Date.now()` is not read. It is the parameter `now`, one timestamp per `getLayers` call, where useLayerGroup.ts:70 reads the clock once per entry, so the ids of one call may carry different timestamps.
- `new LayerType(props)` in `getLayers` is not run. The model returns the class name and the props as a `Descriptor`.
- `Layer` instances of useLayer.ts have no `set` function, so a group does not forward property writes to them. The model covers this with entries whose `hasSet` is false.

## Findings

| source | as written | input that shows it | evidently intended | confidence | as-written member | corrected member |
|---|---|---|---|---|---|---|
| docs/src/utils/normalizer.ts:40 | `typeof b !== 'number' \|\| b <= 0 \|\| b >= 0.5` does not reject NaN, since NaN is a number and both comparisons are false | `boundaryEpsilon: NaN` makes every stretched output NaN | any boundaryEpsilon outside (0, 0.5), NaN included, is replaced by 1e-5 | not executed | Normalizer.NaNBoundaryEpsilonKept | Normalizer.CheckedBoundaryEpsilon |
| docs/src/utils/boxplotStats.ts:46 | `typeof w !== 'number' \|\| w <= 0` does not reject NaN | `whiskerMultiplier: NaN` makes both whiskers NaN | any multiplier that is not a positive number is replaced by 1.5 | not executed | BoxplotStats.NaNWhiskerMultiplierKept | BoxplotStats.CheckedWhiskerMultiplier |
| docs/src/utils/boxplotStats.ts:64-67 | when the fraction is not below epsilon at the last index, `sortedData[lowerIndex + 1]` is read past the end | `computeBoxplotStats([5], { epsilon: 0 })` has a NaN median and quartiles | at the last index the quantile is the element there | not executed | BoxplotStats.QuantileReadsPastEnd | BoxplotStats.Quantile |
